/** The descriptor bookkeeping of the engine library. Unlike the wrapper's, its
    descriptor set numbers every layout binding 0, its `Allocate` patches copies
    of the writes, and its pool counts one descriptor per binding. */
module EngineDescriptors {
  import opened Common
  import opened DescriptorRecords

  /** The engine's k-th write and k-th layout binding: the write carries binding
      number k and no destination set, the layout binding number 0; both carry
      one descriptor of the same type. */
  predicate Recorded(w: Write, b: LayoutBinding, k: nat)
  {
    && w.dstBinding == Wrap32(k) && w.dstSet == NULL_HANDLE && b.binding == 0
    && w.descriptorCount == 1 && b.descriptorCount == 1
    && w.descriptorType == b.descriptorType
  }

  class DescriptorSet {
    var writes: seq<Write>
    var layoutBindings: seq<LayoutBinding>
    var descriptorSet: Handle
    var descriptorSetLayout: Handle

    ghost predicate Valid()
      reads this
    {
      |writes| == |layoutBindings| &&
      forall k :: 0 <= k < |writes| ==> Recorded(writes[k], layoutBindings[k], k)
    }

    constructor ()
      ensures Valid() && writes == [] && layoutBindings == []
      ensures descriptorSet == NULL_HANDLE && descriptorSetLayout == NULL_HANDLE
    {
      writes := [];
      layoutBindings := [];
      descriptorSet := NULL_HANDLE;
      descriptorSetLayout := NULL_HANDLE;
    }

    /** The image overload of `AddBinding`: the write gets the next binding
        number; its layout binding gets number 0. */
    method AddImageBinding(image: nat, descriptorType: DescriptorType, shaderStage: nat)
      requires Valid()
      modifies this
      ensures Valid()
      ensures writes == old(writes) + [Write(NULL_HANDLE, Wrap32(|old(writes)|), 1, descriptorType, ImageInfo(image))]
      ensures layoutBindings == old(layoutBindings) + [LayoutBinding(0, descriptorType, 1, shaderStage)]
      ensures descriptorSet == old(descriptorSet) && descriptorSetLayout == old(descriptorSetLayout)
    {
      var binding := Wrap32(|writes|);
      writes := writes + [Write(NULL_HANDLE, binding, 1, descriptorType, ImageInfo(image))];
      AddDescriptorSetLayoutBinding(descriptorType, shaderStage);
    }

    /** The buffer overload of `AddBinding`. */
    method AddBufferBinding(buffer: nat, descriptorType: DescriptorType, shaderStage: nat)
      requires Valid()
      modifies this
      ensures Valid()
      ensures writes == old(writes) + [Write(NULL_HANDLE, Wrap32(|old(writes)|), 1, descriptorType, BufferInfo(buffer))]
      ensures layoutBindings == old(layoutBindings) + [LayoutBinding(0, descriptorType, 1, shaderStage)]
      ensures descriptorSet == old(descriptorSet) && descriptorSetLayout == old(descriptorSetLayout)
    {
      var binding := Wrap32(|writes|);
      writes := writes + [Write(NULL_HANDLE, binding, 1, descriptorType, BufferInfo(buffer))];
      AddDescriptorSetLayoutBinding(descriptorType, shaderStage);
    }

    /** Appends a one-descriptor layout binding numbered 0. */
    method AddDescriptorSetLayoutBinding(descriptorType: DescriptorType, shaderStage: nat)
      modifies this
      ensures layoutBindings == old(layoutBindings) + [LayoutBinding(0, descriptorType, 1, shaderStage)]
      ensures writes == old(writes) && descriptorSet == old(descriptorSet) && descriptorSetLayout == old(descriptorSetLayout)
    {
      layoutBindings := layoutBindings + [LayoutBinding(0, descriptorType, 1, shaderStage)];
    }

    /** `Allocate`, with the handles the driver returns passed in. The loop sets
        the destination set on a copy of each write, so the stored writes, and
        the update made from them, keep a null destination set. */
    method Allocate(layoutHandle: Handle, setHandle: Handle) returns (layoutInfo: seq<LayoutBinding>, updates: seq<Write>)
      requires Valid()
      modifies this
      ensures Valid()
      ensures layoutInfo == layoutBindings == old(layoutBindings)
      ensures descriptorSetLayout == layoutHandle && descriptorSet == setHandle
      ensures writes == old(writes) && updates == writes
      ensures forall k :: 0 <= k < |updates| ==> updates[k].dstSet == NULL_HANDLE
    {
      layoutInfo := layoutBindings;
      descriptorSetLayout := layoutHandle;
      descriptorSet := setHandle;
      for i := 0 to |writes|
        invariant writes == old(writes) && layoutBindings == old(layoutBindings)
        invariant descriptorSetLayout == layoutHandle && descriptorSet == setHandle
      {
        var writeDescriptorSet := writes[i];
        writeDescriptorSet := writeDescriptorSet.(dstSet := descriptorSet);
      }
      updates := writes;
    }

    function GetDescriptorSetLayoutBindings(): (bindings: seq<LayoutBinding>)
      reads this
      ensures bindings == layoutBindings
    {
      layoutBindings
    }
  }

  /** With two or more bindings recorded, the layout bindings repeat number 0
      while the writes count up: write 1 names a binding the layout lacks. */
  lemma LayoutNumbersCollide(writes: seq<Write>, bindings: seq<LayoutBinding>)
    requires |writes| == |bindings| >= 2
    requires forall k :: 0 <= k < |writes| ==> Recorded(writes[k], bindings[k], k)
    ensures bindings[0].binding == bindings[1].binding == 0
    ensures writes[1].dstBinding == 1
    ensures forall k :: 0 <= k < |bindings| ==> bindings[k].binding != writes[1].dstBinding
  {
    assert Recorded(writes[1], bindings[1], 1);
  }

  /** `DescriptorSetLayout`: a list of layout bindings, the k-th numbered k. */
  class DescriptorSetLayout {
    var bindings: seq<LayoutBinding>

    ghost predicate Valid()
      reads this
    {
      forall k :: 0 <= k < |bindings| ==> bindings[k].binding == Wrap32(k) && bindings[k].descriptorCount == 1
    }

    constructor ()
      ensures Valid() && bindings == []
    {
      bindings := [];
    }

    /** Appends a one-descriptor binding of the given type and stage, numbered by
        the bindings already present. */
    method AddBinding(descriptorType: DescriptorType, shaderStage: nat)
      requires Valid()
      modifies this
      ensures Valid()
      ensures bindings == old(bindings) + [LayoutBinding(Wrap32(|old(bindings)|), descriptorType, 1, shaderStage)]
      ensures GetSize() == old(GetSize()) + 1
    {
      var binding := LayoutBinding(Wrap32(|bindings|), descriptorType, 1, shaderStage);
      bindings := bindings + [binding];
    }

    /** `GetSize`: the number of bindings added. */
    function GetSize(): (size: nat)
      reads this
      ensures size == |bindings|
    {
      |bindings|
    }

    /** `GetRaw`: the bindings, in the order they were added. */
    function GetRaw(): (raw: seq<LayoutBinding>)
      reads this
      requires Valid()
      ensures raw == bindings
      ensures forall k :: 0 <= k < |raw| ==> raw[k].binding == Wrap32(k)
    {
      bindings
    }
  }

  class DescriptorPool {
    var poolSizes: seq<PoolSize>
    var nrOfSets: u32
    var poolInfo: PoolCreateInfo
    /** The layout bindings of the added sets, one descriptor each. */
    ghost var demands: seq<Demand>
    /** The number of `AddDescriptorSet` calls. */
    ghost var added: nat

    ghost predicate Valid()
      reads this
    {
      poolSizes == Tally(demands) && nrOfSets == Wrap32(added)
    }

    constructor ()
      ensures Valid() && poolSizes == [] && demands == [] && added == 0 && nrOfSets == 0
      ensures poolInfo == PoolCreateInfo(0, [], 0)
    {
      poolSizes := [];
      nrOfSets := 0;
      poolInfo := PoolCreateInfo(0, [], 0);
      demands := [];
      added := 0;
    }

    /** Counts one descriptor per layout binding of the set in the entry of its
        type, appending an entry for a new type; counts the set, without keeping
        it. */
    method AddDescriptorSet(newSet: DescriptorSet)
      requires Valid()
      modifies this
      ensures Valid()
      ensures demands == old(demands) + UnitDemands(newSet.layoutBindings)
      ensures added == old(added) + 1 && nrOfSets == Wrap32(old(nrOfSets) + 1)
      ensures poolInfo == old(poolInfo)
    {
      var bindings := newSet.GetDescriptorSetLayoutBindings();
      var sizes := poolSizes;
      ghost var counted := demands;
      assert counted + UnitDemands(bindings[..0]) == counted;
      for i := 0 to |bindings|
        modifies {}
        invariant counted == old(demands) + UnitDemands(bindings[..i])
        invariant sizes == Tally(counted)
      {
        UnitDemandsSnoc(old(demands), bindings, i);
        sizes := CountBinding(sizes, bindings[i], counted);
        counted := counted + [Demand(bindings[i].descriptorType, 1)];
      }
      assert bindings[..|bindings|] == bindings;
      poolSizes := sizes;
      demands := counted;
      WrapSucc(added);
      added := added + 1;
      nrOfSets := Inc32(nrOfSets);
    }

    /** The create-info part of `Allocate`: as many pool sizes as there are
        entries, and as many sets as were added. */
    method Allocate()
      requires Valid()
      modifies this
      ensures Valid()
      ensures poolInfo == PoolCreateInfo(Wrap32(|poolSizes|), poolSizes, nrOfSets)
      ensures poolSizes == old(poolSizes) && nrOfSets == old(nrOfSets)
      ensures demands == old(demands) && added == old(added)
    {
      poolInfo := PoolCreateInfo(Wrap32(|poolSizes|), poolSizes, nrOfSets);
    }
  }

  /** The body of `AddDescriptorSet`'s loop: the entry of the binding's type
      counts one more, or a new entry with count 1 is appended. */
  method CountBinding(sizes: seq<PoolSize>, b: LayoutBinding, ghost prev: seq<Demand>) returns (counted: seq<PoolSize>)
    requires sizes == Tally(prev)
    ensures counted == Tally(prev + [Demand(b.descriptorType, 1)])
  {
    var it := FindType(sizes, b.descriptorType);
    if it < |sizes| {
      counted := sizes[it := sizes[it].(descriptorCount := Wrap32(sizes[it].descriptorCount + 1))];
    } else {
      counted := sizes + [PoolSize(b.descriptorType, 1)];
    }
    TallySnoc(prev, Demand(b.descriptorType, 1));
  }

  /** Counting one per binding, the entry of a type holds the number of bindings
      of that type. */
  lemma {:induction false} UnitTotals(bindings: seq<LayoutBinding>, t: DescriptorType)
    ensures Total(UnitDemands(bindings), t) == |set k | 0 <= k < |bindings| && bindings[k].descriptorType == t|
  {
    if bindings != [] {
      var n := |bindings| - 1;
      var init := bindings[..n];
      UnitTotals(init, t);
      assert UnitDemands(bindings)[..n] == UnitDemands(init);
      var before := set k | 0 <= k < n && init[k].descriptorType == t;
      var after := set k | 0 <= k < |bindings| && bindings[k].descriptorType == t;
      if bindings[n].descriptorType == t {
        assert after == before + {n};
      } else {
        assert after == before;
      }
    }
  }
}
