/** The path-string helpers `GetFilePath`, `GetSuffix` and `GetFileName`,
    built, as in C++, from `std::string`'s backward searches and `substr`.
    A search that finds nothing returns `npos`, the largest `size_t`; a string
    is always shorter than `npos`. */
module Paths {

  const NPOS: nat := 0xFFFF_FFFF_FFFF_FFFF

  /** A `std::string`: its length stays below `npos`. */
  predicate IsString(s: seq<char>)
  {
    |s| < NPOS
  }

  /** The characters `find_last_of("/\\")` looks for. */
  const SEPARATORS: seq<char> := ['/', '\\']

  predicate IsSeparator(c: char)
  {
    c in SEPARATORS
  }

  /** `s.find_last_of(chars)`: the last position holding one of `chars`, or
      `npos` when there is none. (`rfind(c)` and `find_last_of(c)` for a single
      character `c` are this search with `chars == [c]`.) */
  function FindLastOf(s: seq<char>, chars: seq<char>): (pos: nat)
    requires IsString(s)
    ensures pos == NPOS || pos < |s|
    ensures pos == NPOS <==> forall k :: 0 <= k < |s| ==> s[k] !in chars
    ensures pos != NPOS ==> s[pos] in chars && forall k :: pos < k < |s| ==> s[k] !in chars
  {
    if s == [] then NPOS
    else if s[|s| - 1] in chars then |s| - 1
    else
      var pos := FindLastOf(s[..|s| - 1], chars);
      assert forall k :: 0 <= k < |s| - 1 ==> s[..|s| - 1][k] == s[k];
      pos
  }

  /** `s.substr(pos, count)`: at most `count` characters from `pos` on. A `pos`
      beyond the end throws, so callers must stay within the string. */
  function Substr(s: seq<char>, pos: nat, count: nat): (r: seq<char>)
    requires pos <= |s|
    ensures |r| == if count < |s| - pos then count else |s| - pos
    ensures forall k :: 0 <= k < |r| ==> r[k] == s[pos + k]
  {
    if count < |s| - pos then s[pos..pos + count] else s[pos..]
  }

  /** `size_t` addition: `npos + 1` wraps around to 0. */
  function SizeAdd(a: nat, b: nat): (r: nat)
    ensures r < NPOS + 1
    ensures a + b <= NPOS ==> r == a + b
  {
    (a + b) % (NPOS + 1)
  }

  /** `GetFilePath`: the text before the last separator; `substr(0, npos)` keeps
      the whole string when there is no separator. */
  function GetFilePath(s: seq<char>): (path: seq<char>)
    requires IsString(s)
    ensures |path| <= |s| && path == s[..|path|]
  {
    var found := FindLastOf(s, SEPARATORS);
    Substr(s, 0, found)
  }

  /** `GetSuffix`: the text after the last '.', or "" when there is none. The
      search covers the whole path, directories included. */
  function GetSuffix(s: seq<char>): (suffix: seq<char>)
    requires IsString(s)
    ensures |suffix| <= |s| && suffix == s[|s| - |suffix|..]
  {
    var pos := FindLastOf(s, ['.']);
    if pos == NPOS then [] else Substr(s, FindLastOf(s, ['.']) + 1, NPOS)
  }

  /** `GetFileName`: the text after the last separator (`npos + 1` wraps to 0, so
      the whole string when there is none); with `removeExtension`, cut at the
      last '.' of that name (kept whole when it has none). */
  function GetFileName(s: seq<char>, removeExtension: bool): (name: seq<char>)
    requires IsString(s)
    ensures |name| <= |s|
    ensures !removeExtension && FindLastOf(s, SEPARATORS) == NPOS ==> name == s
    ensures !removeExtension && FindLastOf(s, SEPARATORS) != NPOS ==>
      name == s[FindLastOf(s, SEPARATORS) + 1..]
    ensures removeExtension ==>
      var start := if FindLastOf(s, SEPARATORS) == NPOS then 0 else FindLastOf(s, SEPARATORS) + 1;
      start + |name| <= |s| && name == s[start..start + |name|]
  {
    var fileName := Substr(s, SizeAdd(FindLastOf(s, SEPARATORS), 1), NPOS);
    if removeExtension then
      var pos := FindLastOf(fileName, ['.']);
      var name := Substr(fileName, 0, pos);
      assert name == fileName[..|name|];
      name
    else fileName
  }

  /** Without a separator the path is the whole string, and so is the name. */
  lemma NoSeparator(s: seq<char>)
    requires IsString(s) && forall k :: 0 <= k < |s| ==> !IsSeparator(s[k])
    ensures GetFilePath(s) == s
    ensures GetFileName(s, false) == s
  {
    assert FindLastOf(s, SEPARATORS) == NPOS;
  }

  /** Path, last separator and file name put back together give the string. */
  lemma PathSplit(s: seq<char>, p: nat)
    requires IsString(s) && p < |s| && IsSeparator(s[p])
    requires forall k :: p < k < |s| ==> !IsSeparator(s[k])
    ensures GetFilePath(s) == s[..p]
    ensures GetFileName(s, false) == s[p + 1..]
    ensures GetFilePath(s) + [s[p]] + GetFileName(s, false) == s
  {
    var found := FindLastOf(s, SEPARATORS);
    assert found == p;
    assert s[..p] + [s[p]] + s[p + 1..] == s;
  }

  /** A file name holds no separator, with or without its extension. */
  lemma FileNameHasNoSeparator(s: seq<char>, removeExtension: bool)
    requires IsString(s)
    ensures forall k :: 0 <= k < |GetFileName(s, removeExtension)| ==> !IsSeparator(GetFileName(s, removeExtension)[k])
  {
    var found := FindLastOf(s, SEPARATORS);
    var start := SizeAdd(found, 1);
    assert found == NPOS ==> start == 0;
    var fileName := Substr(s, start, NPOS);
    assert forall k :: 0 <= k < |fileName| ==> !IsSeparator(fileName[k]) by {
      forall k | 0 <= k < |fileName|
        ensures !IsSeparator(fileName[k])
      {
        assert fileName[k] == s[start + k];
      }
    }
    if removeExtension {
      var name := GetFileName(s, true);
      forall k | 0 <= k < |name|
        ensures !IsSeparator(name[k])
      {
        assert name[k] == fileName[k];
      }
    }
  }

  /** Removing the extension cuts the name at its last '.', and leaves a name
      without one unchanged. */
  lemma StripExtension(s: seq<char>)
    requires IsString(s)
    ensures var name := GetFileName(s, false);
      && GetFileName(s, true) == name[..|GetFileName(s, true)|]
      && ((forall k :: 0 <= k < |name| ==> name[k] != '.') ==> GetFileName(s, true) == name)
      && ((exists k :: 0 <= k < |name| && name[k] == '.') ==>
            |GetFileName(s, true)| < |name| && name[|GetFileName(s, true)|] == '.' &&
            forall k :: |GetFileName(s, true)| < k < |name| ==> name[k] != '.')
  {
    var name := GetFileName(s, false);
    var pos := FindLastOf(name, ['.']);
    assert GetFileName(s, true) == Substr(name, 0, pos);
  }

  /** `GetSuffix` is the text after the last '.', holds no '.', and is empty when
      the path has none. */
  lemma SuffixAfterLastDot(s: seq<char>)
    requires IsString(s)
    ensures forall k :: 0 <= k < |GetSuffix(s)| ==> GetSuffix(s)[k] != '.'
    ensures (forall k :: 0 <= k < |s| ==> s[k] != '.') ==> GetSuffix(s) == []
    ensures (exists k :: 0 <= k < |s| && s[k] == '.') ==>
      |GetSuffix(s)| < |s| && s[|s| - |GetSuffix(s)| - 1] == '.'
  {
    var pos := FindLastOf(s, ['.']);
    var suffix := GetSuffix(s);
    if pos == NPOS {
      assert suffix == [];
    } else {
      assert s[pos] == '.';
      assert |suffix| == |s| - (pos + 1);
      forall k | 0 <= k < |suffix|
        ensures suffix[k] != '.'
      {
        assert suffix[k] == s[pos + 1 + k];
        assert s[pos + 1 + k] !in ['.'];
      }
    }
  }

  /** A '.' in a directory name, with none in the file name, makes the suffix
      run across the separator: the suffix of "a.b/c" is "b/c". */
  lemma DirectoryDotSuffix()
    ensures GetSuffix("a.b/c") == "b/c"
    ensures GetFileName("a.b/c", true) == "c"
  {
    var s := "a.b/c";
    assert FindLastOf(s, ['.']) == 1 by {
      assert s[4] == 'c' && s[3] == '/' && s[2] == 'b' && s[1] == '.';
    }
    assert FindLastOf(s, SEPARATORS) == 3 by {
      assert s[4] == 'c' && s[3] == '/';
    }
    assert GetFileName(s, false) == "c";
    assert FindLastOf("c", ['.']) == NPOS;
  }
}
