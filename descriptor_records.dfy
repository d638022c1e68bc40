/** The Vulkan descriptor records the descriptor bookkeeping fills in, as plain
    values, and the group-by-type tally a descriptor pool keeps of them.
    Descriptor types and shader-stage masks are their enum values; handles and
    the addresses of caller-owned image and buffer infos are opaque numbers. */
module DescriptorRecords {
  import opened Common

  type DescriptorType = nat
  type Handle = nat

  /** `VK_NULL_HANDLE` */
  const NULL_HANDLE: Handle := 0

  /** `VkDescriptorSetLayoutBinding` (without immutable samplers). */
  datatype LayoutBinding = LayoutBinding(binding: u32, descriptorType: DescriptorType, descriptorCount: u32, stageFlags: nat)

  /** Which info pointer of a write is set, and the address it holds. */
  datatype DescriptorInfo = ImageInfo(image: nat) | BufferInfo(buffer: nat)

  /** `VkWriteDescriptorSet` */
  datatype Write = Write(dstSet: Handle, dstBinding: u32, descriptorCount: u32, descriptorType: DescriptorType, info: DescriptorInfo)

  /** `VkDescriptorPoolSize` */
  datatype PoolSize = PoolSize(descriptorType: DescriptorType, descriptorCount: u32)

  /** The fields of `VkDescriptorPoolCreateInfo` the pool sets. */
  datatype PoolCreateInfo = PoolCreateInfo(poolSizeCount: u32, poolSizes: seq<PoolSize>, maxSets: u32)

  /** One binding's demand on a pool: its type and how many descriptors it adds. */
  datatype Demand = Demand(descriptorType: DescriptorType, count: nat)

  /** The distinct types of `ds`, in the order of their first occurrence. */
  function FirstTypes(ds: seq<Demand>): seq<DescriptorType>
  {
    if ds == [] then []
    else
      var seen := FirstTypes(ds[..|ds| - 1]);
      var t := ds[|ds| - 1].descriptorType;
      if t in seen then seen else seen + [t]
  }

  /** The number of descriptors of type `t` that `ds` asks for. */
  function Total(ds: seq<Demand>, t: DescriptorType): nat
  {
    if ds == [] then 0
    else Total(ds[..|ds| - 1], t) + (if ds[|ds| - 1].descriptorType == t then ds[|ds| - 1].count else 0)
  }

  /** The pool sizes the demands call for, by definition: one entry per type, in
      order of first occurrence, holding the 32-bit total for that type. */
  function GroupByType(ds: seq<Demand>): seq<PoolSize>
  {
    var types := FirstTypes(ds);
    seq(|types|, k requires 0 <= k < |types| => PoolSize(types[k], Wrap32(Total(ds, types[k]))))
  }

  /** One step of `AddDescriptorSet`'s loop: the entry of the demand's type
      grows by its count, with 32-bit wrap-around, or a new entry is appended. */
  function Merge(sizes: seq<PoolSize>, d: Demand): seq<PoolSize>
  {
    var i := FindType(sizes, d.descriptorType);
    if i < |sizes| then sizes[i := PoolSize(d.descriptorType, Wrap32(sizes[i].descriptorCount + d.count))]
    else sizes + [PoolSize(d.descriptorType, Wrap32(d.count))]
  }

  /** The pool sizes after merging the demands one at a time, from no entries. */
  function Tally(ds: seq<Demand>): seq<PoolSize>
  {
    if ds == [] then [] else Merge(Tally(ds[..|ds| - 1]), ds[|ds| - 1])
  }

  /** The entries hold pairwise distinct types. */
  predicate DistinctTypes(sizes: seq<PoolSize>)
  {
    forall k, l :: 0 <= k < l < |sizes| ==> sizes[k].descriptorType != sizes[l].descriptorType
  }

  /** `std::find_if` over the pool sizes for type `t`: the first matching entry,
      or the end. */
  function FindType(sizes: seq<PoolSize>, t: DescriptorType): (i: nat)
    ensures i <= |sizes|
    ensures i < |sizes| ==> sizes[i].descriptorType == t
    ensures forall k :: 0 <= k < i ==> sizes[k].descriptorType != t
  {
    if sizes == [] then 0
    else if sizes[0].descriptorType == t then 0
    else 1 + FindType(sizes[1..], t)
  }

  lemma {:induction false} FirstTypesDistinct(ds: seq<Demand>)
    ensures forall k, l :: 0 <= k < l < |FirstTypes(ds)| ==> FirstTypes(ds)[k] != FirstTypes(ds)[l]
  {
    if ds != [] {
      FirstTypesDistinct(ds[..|ds| - 1]);
    }
  }

  /** A type is listed exactly when some demand has it. */
  lemma {:induction false} FirstTypesMember(ds: seq<Demand>, t: DescriptorType)
    ensures t in FirstTypes(ds) <==> exists j :: 0 <= j < |ds| && ds[j].descriptorType == t
  {
    if ds != [] {
      var init := ds[..|ds| - 1];
      FirstTypesMember(init, t);
      if exists j :: 0 <= j < |init| && init[j].descriptorType == t {
        var j :| 0 <= j < |init| && init[j].descriptorType == t;
        assert ds[j].descriptorType == t;
      }
      if exists j :: 0 <= j < |ds| && ds[j].descriptorType == t {
        var j :| 0 <= j < |ds| && ds[j].descriptorType == t;
        if j < |init| {
          assert init[j].descriptorType == t;
        }
      }
    }
  }

  /** A type absent from the demands totals nothing. */
  lemma {:induction false} TotalAbsent(ds: seq<Demand>, t: DescriptorType)
    requires forall j :: 0 <= j < |ds| ==> ds[j].descriptorType != t
    ensures Total(ds, t) == 0
  {
    if ds != [] {
      var init := ds[..|ds| - 1];
      assert forall j :: 0 <= j < |init| ==> init[j] == ds[j];
      TotalAbsent(init, t);
    }
  }

  /** The tally is the group-by-type merge of the demands: entry types are
      pairwise distinct, a type has an entry exactly when some demand has it, and
      that entry holds the type's 32-bit total. */
  lemma GroupByTypeFacts(ds: seq<Demand>, t: DescriptorType)
    ensures DistinctTypes(GroupByType(ds))
    ensures (exists k :: 0 <= k < |GroupByType(ds)| && GroupByType(ds)[k].descriptorType == t)
        <==> (exists j :: 0 <= j < |ds| && ds[j].descriptorType == t)
    ensures forall k :: 0 <= k < |GroupByType(ds)| && GroupByType(ds)[k].descriptorType == t ==>
              GroupByType(ds)[k].descriptorCount == Wrap32(Total(ds, t))
  {
    FirstTypesDistinct(ds);
    FirstTypesMember(ds, t);
    var types := FirstTypes(ds);
    if t in types {
      var k :| 0 <= k < |types| && types[k] == t;
      assert GroupByType(ds)[k].descriptorType == t;
    }
  }

  lemma FirstTypesSnoc(ds: seq<Demand>, d: Demand)
    ensures FirstTypes(ds + [d]) ==
      if d.descriptorType in FirstTypes(ds) then FirstTypes(ds) else FirstTypes(ds) + [d.descriptorType]
  {
    assert (ds + [d])[..|ds|] == ds;
  }

  lemma TotalSnoc(ds: seq<Demand>, d: Demand, t: DescriptorType)
    ensures Total(ds + [d], t) == Total(ds, t) + (if d.descriptorType == t then d.count else 0)
  {
    assert (ds + [d])[..|ds|] == ds;
  }

  /** Searching the tally for a type finds its entry exactly when the type has
      been demanded. */
  lemma FindInGroups(ds: seq<Demand>, t: DescriptorType)
    ensures var i := FindType(GroupByType(ds), t);
      (i < |GroupByType(ds)| <==> t in FirstTypes(ds)) && (i < |GroupByType(ds)| ==> FirstTypes(ds)[i] == t)
  {
    var types := FirstTypes(ds);
    assert forall k :: 0 <= k < |types| ==> GroupByType(ds)[k].descriptorType == types[k];
  }

  /** Adding one demand either grows the entry of its type, with 32-bit
      wrap-around, or appends a new entry at the end. */
  lemma GroupByTypeStep(ds: seq<Demand>, d: Demand)
    ensures GroupByType(ds + [d]) == Merge(GroupByType(ds), d)
  {
    var ds' := ds + [d];
    var t := d.descriptorType;
    var sizes, i := GroupByType(ds), FindType(GroupByType(ds), t);
    var types, types' := FirstTypes(ds), FirstTypes(ds');
    FirstTypesSnoc(ds, d);
    FindInGroups(ds, t);
    FirstTypesDistinct(ds);
    if i < |sizes| {
      var expected := sizes[i := PoolSize(t, Wrap32(sizes[i].descriptorCount + d.count))];
      forall k | 0 <= k < |types'|
        ensures GroupByType(ds')[k] == expected[k]
      {
        TotalSnoc(ds, d, types[k]);
        if k == i {
          WrapAddAssoc(Total(ds, t), 0, d.count);
        }
      }
    } else {
      var expected := sizes + [PoolSize(t, Wrap32(d.count))];
      forall k | 0 <= k < |types'|
        ensures GroupByType(ds')[k] == expected[k]
      {
        TotalSnoc(ds, d, types'[k]);
        if k == |types| {
          FirstTypesMember(ds, t);
          TotalAbsent(ds, t);
        }
      }
    }
  }

  /** Merging demands one at a time builds the group-by-type tally. */
  lemma {:induction false} TallyIsGroupByType(ds: seq<Demand>)
    ensures Tally(ds) == GroupByType(ds)
  {
    if ds != [] {
      var init := ds[..|ds| - 1];
      TallyIsGroupByType(init);
      assert ds == init + [ds[|ds| - 1]];
      GroupByTypeStep(init, ds[|ds| - 1]);
    }
  }

  /** The pool sizes a pool keeps are the group-by-type merge of the demands:
      entry types are pairwise distinct, a type has an entry exactly when some
      demand has it, and that entry holds the type's 32-bit total. */
  lemma TallyGroupsByType(ds: seq<Demand>, t: DescriptorType)
    ensures DistinctTypes(Tally(ds))
    ensures (exists k :: 0 <= k < |Tally(ds)| && Tally(ds)[k].descriptorType == t)
        <==> (exists j :: 0 <= j < |ds| && ds[j].descriptorType == t)
    ensures forall k :: 0 <= k < |Tally(ds)| && Tally(ds)[k].descriptorType == t ==>
              Tally(ds)[k].descriptorCount == Wrap32(Total(ds, t))
  {
    TallyIsGroupByType(ds);
    GroupByTypeFacts(ds, t);
  }

  /** What a set's layout bindings ask of a pool that counts `descriptorCount`
      descriptors per binding. */
  function CountedDemands(bindings: seq<LayoutBinding>): (ds: seq<Demand>)
    ensures |ds| == |bindings|
    ensures forall k :: 0 <= k < |bindings| ==>
      ds[k] == Demand(bindings[k].descriptorType, bindings[k].descriptorCount)
  {
    seq(|bindings|, k requires 0 <= k < |bindings| => Demand(bindings[k].descriptorType, bindings[k].descriptorCount))
  }

  /** What a set's layout bindings ask of a pool that counts one descriptor per
      binding. */
  function UnitDemands(bindings: seq<LayoutBinding>): (ds: seq<Demand>)
    ensures |ds| == |bindings|
    ensures forall k :: 0 <= k < |bindings| ==> ds[k] == Demand(bindings[k].descriptorType, 1)
  {
    seq(|bindings|, k requires 0 <= k < |bindings| => Demand(bindings[k].descriptorType, 1))
  }

  lemma CountedDemandsSnoc(done: seq<Demand>, bindings: seq<LayoutBinding>, i: nat)
    requires i < |bindings|
    ensures done + CountedDemands(bindings[..i + 1])
         == (done + CountedDemands(bindings[..i])) + [Demand(bindings[i].descriptorType, bindings[i].descriptorCount)]
  {
    assert CountedDemands(bindings[..i + 1])
        == CountedDemands(bindings[..i]) + [Demand(bindings[i].descriptorType, bindings[i].descriptorCount)];
  }

  lemma UnitDemandsSnoc(done: seq<Demand>, bindings: seq<LayoutBinding>, i: nat)
    requires i < |bindings|
    ensures done + UnitDemands(bindings[..i + 1]) == (done + UnitDemands(bindings[..i])) + [Demand(bindings[i].descriptorType, 1)]
  {
    assert UnitDemands(bindings[..i + 1]) == UnitDemands(bindings[..i]) + [Demand(bindings[i].descriptorType, 1)];
  }

  lemma TallySnoc(ds: seq<Demand>, d: Demand)
    ensures Tally(ds + [d]) == Merge(Tally(ds), d)
  {
    assert (ds + [d])[..|ds|] == ds;
  }
}
