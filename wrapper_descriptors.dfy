/** The descriptor bookkeeping of the wrapper library: a descriptor set records
    one write and one layout binding per `AddBinding`, and a descriptor pool sums
    the layout bindings of the sets added to it, per descriptor type. */
module WrapperDescriptors {
  import opened Common
  import opened DescriptorRecords

  /** The k-th write and the k-th layout binding describe the same binding:
      number k, one descriptor, the same type. */
  predicate Paired(w: Write, b: LayoutBinding, k: nat)
  {
    && w.dstBinding == Wrap32(k) && b.binding == Wrap32(k)
    && w.descriptorCount == 1 && b.descriptorCount == 1
    && w.descriptorType == b.descriptorType
  }

  class DescriptorSet {
    var writes: seq<Write>
    var layoutBindings: seq<LayoutBinding>
    var descriptorSet: Handle
    var descriptorSetLayout: Handle

    /** The two lists grow in lockstep, entry k of each carrying binding k. */
    ghost predicate Valid()
      reads this
    {
      |writes| == |layoutBindings| &&
      forall k :: 0 <= k < |writes| ==> Paired(writes[k], layoutBindings[k], k)
    }

    constructor ()
      ensures Valid() && writes == [] && layoutBindings == []
      ensures descriptorSet == NULL_HANDLE && descriptorSetLayout == NULL_HANDLE
    {
      writes := [];
      layoutBindings := [];
      descriptorSet := NULL_HANDLE;
      descriptorSetLayout := NULL_HANDLE;
    }

    /** The image overload of `AddBinding`: binds the image info at the next
        binding number, with no destination set yet. */
    method AddImageBinding(image: nat, descriptorType: DescriptorType, shaderStage: nat)
      requires Valid()
      modifies this
      ensures Valid()
      ensures writes == old(writes) + [Write(NULL_HANDLE, Wrap32(|old(writes)|), 1, descriptorType, ImageInfo(image))]
      ensures layoutBindings == old(layoutBindings) + [LayoutBinding(Wrap32(|old(writes)|), descriptorType, 1, shaderStage)]
      ensures descriptorSet == old(descriptorSet) && descriptorSetLayout == old(descriptorSetLayout)
    {
      var binding := Wrap32(|writes|);
      writes := writes + [Write(NULL_HANDLE, binding, 1, descriptorType, ImageInfo(image))];
      AddDescriptorSetLayoutBinding(descriptorType, shaderStage, binding);
    }

    /** The buffer overload of `AddBinding`. */
    method AddBufferBinding(buffer: nat, descriptorType: DescriptorType, shaderStage: nat)
      requires Valid()
      modifies this
      ensures Valid()
      ensures writes == old(writes) + [Write(NULL_HANDLE, Wrap32(|old(writes)|), 1, descriptorType, BufferInfo(buffer))]
      ensures layoutBindings == old(layoutBindings) + [LayoutBinding(Wrap32(|old(writes)|), descriptorType, 1, shaderStage)]
      ensures descriptorSet == old(descriptorSet) && descriptorSetLayout == old(descriptorSetLayout)
    {
      var binding := Wrap32(|writes|);
      writes := writes + [Write(NULL_HANDLE, binding, 1, descriptorType, BufferInfo(buffer))];
      AddDescriptorSetLayoutBinding(descriptorType, shaderStage, binding);
    }

    /** Appends a one-descriptor layout binding with the given number. */
    method AddDescriptorSetLayoutBinding(descriptorType: DescriptorType, shaderStage: nat, binding: u32)
      modifies this
      ensures layoutBindings == old(layoutBindings) + [LayoutBinding(binding, descriptorType, 1, shaderStage)]
      ensures writes == old(writes) && descriptorSet == old(descriptorSet) && descriptorSetLayout == old(descriptorSetLayout)
    {
      layoutBindings := layoutBindings + [LayoutBinding(binding, descriptorType, 1, shaderStage)];
    }

    /** `Allocate`, with the handles the driver returns passed in: creates the
        layout from the layout bindings, then patches every write, in place, to
        target the allocated set, and hands the writes to the update. */
    method Allocate(layoutHandle: Handle, setHandle: Handle) returns (layoutInfo: seq<LayoutBinding>, updates: seq<Write>)
      requires Valid()
      modifies this
      ensures Valid()
      ensures layoutInfo == layoutBindings == old(layoutBindings)
      ensures descriptorSetLayout == layoutHandle && descriptorSet == setHandle
      ensures |writes| == |old(writes)|
      ensures forall k :: 0 <= k < |writes| ==> writes[k] == old(writes[k]).(dstSet := setHandle)
      ensures updates == writes
    {
      layoutInfo := layoutBindings;
      descriptorSetLayout := layoutHandle;
      descriptorSet := setHandle;
      for i := 0 to |writes|
        invariant layoutBindings == old(layoutBindings)
        invariant descriptorSetLayout == layoutHandle && descriptorSet == setHandle
        invariant |writes| == |old(writes)|
        invariant forall k :: 0 <= k < i ==> writes[k] == old(writes[k]).(dstSet := setHandle)
        invariant forall k :: i <= k < |writes| ==> writes[k] == old(writes[k])
      {
        writes := writes[i := writes[i].(dstSet := descriptorSet)];
      }
      updates := writes;
    }

    function GetDescriptorSetLayoutBindings(): (bindings: seq<LayoutBinding>)
      reads this
      ensures bindings == layoutBindings
    {
      layoutBindings
    }
  }

  /** After `Allocate`, every write targets the allocated set and keeps binding
      number k, count 1 and its type: the update covers the whole set. */
  lemma AllocatedWritesTargetSet(before: seq<Write>, bindings: seq<LayoutBinding>, after: seq<Write>, setHandle: Handle)
    requires |before| == |bindings| == |after|
    requires forall k :: 0 <= k < |before| ==> Paired(before[k], bindings[k], k)
    requires forall k :: 0 <= k < |after| ==> after[k] == before[k].(dstSet := setHandle)
    ensures forall k :: 0 <= k < |after| ==>
      after[k].dstSet == setHandle && after[k].dstBinding == bindings[k].binding == Wrap32(k)
      && after[k].info == before[k].info
  {
  }

  class DescriptorPool {
    var descriptorSets: seq<DescriptorSet>
    var poolSizes: seq<PoolSize>
    var nrOfSets: u32
    var poolInfo: PoolCreateInfo
    /** The layout bindings of the added sets, as they were when each was added. */
    ghost var demands: seq<Demand>

    /** The pool sizes are the tally of every binding added so far, and the set
        counter counts the owned sets. */
    ghost predicate Valid()
      reads this
    {
      poolSizes == Tally(demands) && nrOfSets == Wrap32(|descriptorSets|)
    }

    constructor ()
      ensures Valid() && descriptorSets == [] && poolSizes == [] && demands == [] && nrOfSets == 0
      ensures poolInfo == PoolCreateInfo(0, [], 0)
    {
      descriptorSets := [];
      poolSizes := [];
      nrOfSets := 0;
      poolInfo := PoolCreateInfo(0, [], 0);
      demands := [];
    }

    /** Takes ownership of the set and adds each of its layout bindings'
        descriptor counts to the entry of its type, appending an entry for a new
        type; counts the set. */
    method AddDescriptorSet(newSet: DescriptorSet)
      requires Valid()
      modifies this
      ensures Valid()
      ensures descriptorSets == old(descriptorSets) + [newSet]
      ensures demands == old(demands) + CountedDemands(newSet.layoutBindings)
      ensures nrOfSets == Wrap32(old(nrOfSets) + 1)
      ensures poolInfo == old(poolInfo)
    {
      descriptorSets := descriptorSets + [newSet];
      var bindings := newSet.GetDescriptorSetLayoutBindings();
      var sizes := poolSizes;
      ghost var merged := demands;
      assert merged + CountedDemands(bindings[..0]) == merged;
      for i := 0 to |bindings|
        modifies {}
        invariant merged == old(demands) + CountedDemands(bindings[..i])
        invariant sizes == Tally(merged)
      {
        CountedDemandsSnoc(old(demands), bindings, i);
        sizes := MergeBinding(sizes, bindings[i], merged);
        merged := merged + [Demand(bindings[i].descriptorType, bindings[i].descriptorCount)];
      }
      assert bindings[..|bindings|] == bindings;
      poolSizes := sizes;
      demands := merged;
      WrapSucc(|old(descriptorSets)|);
      nrOfSets := Inc32(nrOfSets);
    }

    /** The create-info part of `Allocate`: as many pool sizes as there are
        entries, and as many sets as were added. */
    method Allocate()
      requires Valid()
      modifies this
      ensures Valid()
      ensures poolInfo == PoolCreateInfo(Wrap32(|poolSizes|), poolSizes, nrOfSets)
      ensures poolSizes == old(poolSizes) && nrOfSets == old(nrOfSets)
      ensures descriptorSets == old(descriptorSets) && demands == old(demands)
    {
      poolInfo := PoolCreateInfo(Wrap32(|poolSizes|), poolSizes, nrOfSets);
    }
  }

  /** The body of `AddDescriptorSet`'s loop: the entry of the binding's type
      grows by its descriptor count, or a new entry with that count is appended. */
  method MergeBinding(sizes: seq<PoolSize>, b: LayoutBinding, ghost prev: seq<Demand>) returns (merged: seq<PoolSize>)
    requires sizes == Tally(prev)
    ensures merged == Tally(prev + [Demand(b.descriptorType, b.descriptorCount)])
  {
    var it := FindType(sizes, b.descriptorType);
    if it < |sizes| {
      merged := sizes[it := sizes[it].(descriptorCount := Wrap32(sizes[it].descriptorCount + b.descriptorCount))];
    } else {
      merged := sizes + [PoolSize(b.descriptorType, b.descriptorCount)];
    }
    TallySnoc(prev, Demand(b.descriptorType, b.descriptorCount));
  }
}
