// Writing through the items of a list of virtual machines and of its deep copy: neither sees the
// other.
module VmNonInterference {
  import opened Wrappers
  import opened Api
  import opened Structs
  import opened VmCopy
  import opened ManagedList

  // A write through an item of a list: of the whole slot, or below it. What is stored is newly
  // built. A write to a nil slice or map, or past the end of a slice, panics in Go and writes
  // nothing; deleting from a nil map does nothing.
  datatype Write =
    | SetItem(item: nat, vm: VmValue)
    | SetDevice(item: nat, index: nat, device: BlockDevice)
    | PutMetadata(item: nat, key: string, value: string)
    | DropMetadata(item: nat, key: string)
    | SetPersonality(item: nat, index: nat, personality: Personality)
    | SetGroup(item: nat, index: nat, group: SecurityGroup)

  // The write on values.
  function WrittenVm(v: VmValue, w: Write): VmValue {
    var p := v.forProvider;
    match w
    case SetItem(_, vm) => vm
    case SetDevice(_, index, device) =>
      v.(forProvider := p.(blockDeviceMapping := Update(p.blockDeviceMapping, index, device)))
    case PutMetadata(_, key, value) =>
      v.(forProvider := p.(metadata := if p.metadata.Some? then Some(p.metadata.value[key := value]) else None))
    case DropMetadata(_, key) =>
      v.(forProvider := p.(metadata := if p.metadata.Some? then Some(p.metadata.value - {key}) else None))
    case SetPersonality(_, index, personality) =>
      v.(forProvider := p.(personality := Update(p.personality, index, personality)))
    case SetGroup(_, index, group) =>
      v.(forProvider := p.(securityGroups := Update(p.securityGroups, index, group)))
  }

  function Written(values: seq<VmValue>, w: Write): (r: seq<VmValue>)
    ensures |r| == |values|
  {
    if w.item < |values| then values[w.item := WrittenVm(values[w.item], w)] else values
  }

  function WrittenAll(values: seq<VmValue>, writes: seq<Write>): (r: seq<VmValue>)
    ensures |r| == |values|
    decreases |writes|
  {
    if writes == [] then values
    else Written(WrittenAll(values, writes[..|writes| - 1]), writes[|writes| - 1])
  }

  function WrittenList(list: ListValue<VmValue>, writes: seq<Write>): ListValue<VmValue> {
    if list.items.None? then list else list.(items := Some(WrittenAll(list.items.value, writes)))
  }

  function WrittenOnce(list: ListValue<VmValue>, w: Write): ListValue<VmValue> {
    if list.items.None? then list else list.(items := Some(Written(list.items.value, w)))
  }

  /******* One virtual machine *******/

  method BuildMap(entries: Option<map<string, string>>) returns (m: GoMap?)
    ensures Entries(m) == entries && (m != null ==> fresh(m))
  {
    m := null;
    if entries.Some? {
      var built := new GoMap();
      built.entries := entries.value;
      m := built;
    }
  }

  method BuildVm(value: VmValue) returns (v: VmStruct)
    ensures VmOf(v) == value && fresh(Arrays(v))
  {
    var p := value.forProvider;
    var devices := Build(p.blockDeviceMapping);
    var metadata := BuildMap(p.metadata);
    var personality := Build(p.personality);
    var groups := Build(p.securityGroups);
    v := VmStruct(
      value.meta,
      VmSpecStruct(value.resourceSpec,
                   VmParametersStruct(p.name, p.projectId, p.cellId, p.accessIPv4, p.accessIPv6, p.imageRef, p.flavorRef,
                                      p.availabilityZone, p.userData, devices, metadata, personality, groups)),
      value.status);
  }

  method Put<T>(a: array?<T>, index: nat, x: T)
    modifies a
    ensures Slice(a) == Update(old(Slice(a)), index, x)
  {
    if a != null && index < a.Length {
      a[index] := x;
    }
  }

  // A write below a virtual machine.
  method WriteVm(v: VmStruct, w: Write)
    requires !w.SetItem?
    modifies Arrays(v)
    ensures VmOf(v) == WrittenVm(old(VmOf(v)), w)
  {
    var p := v.spec.forProvider;
    match w
    case SetDevice(_, index, device) => Put(p.blockDeviceMapping, index, device);
    case PutMetadata(_, key, value) =>
      if p.metadata != null {
        p.metadata.entries := p.metadata.entries[key := value];
      }
    case DropMetadata(_, key) =>
      if p.metadata != null {
        p.metadata.entries := p.metadata.entries - {key};
      }
    case SetPersonality(_, index, personality) => Put(p.personality, index, personality);
    case SetGroup(_, index, group) => Put(p.securityGroups, index, group);
  }

  // The write next to items that share nothing with the one written.
  method WriteVmBeside(v: VmStruct, w: Write, ghost others: seq<VmStruct>, ghost values: seq<VmValue>,
                       ghost footprint: set<object>)
    requires !w.SetItem? && Copied(others, values, footprint) && Arrays(v) !! footprint
    modifies Arrays(v)
    ensures Copied(others, values, footprint)
    ensures VmOf(v) == WrittenVm(old(VmOf(v)), w)
  {
    WriteVm(v, w);
  }

  /******* A sequence of virtual machines *******/

  // What these virtual machines refer to is in the footprint.
  ghost predicate Reaches(items: seq<VmStruct>, footprint: set<object>) {
    forall k :: 0 <= k < |items| ==> Arrays(items[k]) <= footprint
  }

  lemma OthersCopied(items: seq<VmStruct>, i: nat, values: seq<VmValue>, footprint: set<object>)
    returns (others: set<object>)
    requires i < |items| && Copied(items, values, footprint)
    ensures Copied(Without(items, i), Without(values, i), others)
    ensures Arrays(items[i]) !! others
  {
    var rest := Without(items, i);
    assert forall k :: 0 <= k < |rest| ==> rest[k] == items[if k < i then k else k + 1];
    var was;
    was, others := ItemsAreWithin(rest);
    assert was == Without(values, i);
  }

  lemma Reassemble(items: seq<VmStruct>, i: nat, values: seq<VmValue>, others: set<object>, footprint: set<object>)
    requires i < |items| == |values| && Within(Without(items, i), Without(values, i), others)
    requires Reaches(items, footprint) && ItemsApart(items)
    ensures Copied(items, values[i := VmOf(items[i])], footprint)
  {
    var now := values[i := VmOf(items[i])];
    forall k | 0 <= k < |items| ensures VmOf(items[k]) == now[k] && Refs(items[k]) - {null} <= footprint {
      assert Refs(items[k]) - {null} == Arrays(items[k]);
      if k != i {
        var j := if k < i then k else k - 1;
        assert Without(items, i)[j] == items[k] && Without(values, i)[j] == values[k];
      }
    }
  }

  method WriteBelowItem(v: VmStruct, w: Write, ghost items: seq<VmStruct>, ghost apart: bool,
                        ghost values: seq<VmValue>, ghost footprint: set<object>)
    requires !w.SetItem? && w.item < |items| && items[w.item] == v
    requires Reaches(items, footprint) && (apart ==> Copied(items, values, footprint))
    modifies footprint
    ensures apart ==> Copied(items, Written(values, w), footprint)
  {
    ghost var i := w.item;
    ghost var rest, was, others := [], [], {};
    if apart {
      others := OthersCopied(items, i, values, footprint);
      rest, was := Without(items, i), Without(values, i);
    }
    WriteVmBeside(v, w, rest, was, others);
    if apart {
      Reassemble(items, i, values, others, footprint);
    }
  }

  lemma ItemReplaced(items: seq<VmStruct>, i: nat, v: VmStruct, values: seq<VmValue>, footprint: set<object>)
    requires i < |items| && Copied(items, values, footprint) && Arrays(v) !! footprint
    ensures Copied(items[i := v], values[i := VmOf(v)], footprint + Arrays(v))
  {
    var now := items[i := v];
    forall j, k | 0 <= j < k < |now| ensures Arrays(now[j]) !! Arrays(now[k]) {
      assert j != i ==> Refs(items[j]) - {null} <= footprint;
      assert k != i ==> Refs(items[k]) - {null} <= footprint;
    }
  }

  // A virtual machine that shares nothing with those of the list, stored in a slot.
  method StoreApart(p: Pointer<VmStruct>, v: VmStruct, ghost mine: set<object>, ghost apart: bool,
                    ghost values: seq<VmValue>, ghost footprint: set<object>)
    requires p.index < p.slots.Length && p.slots !in footprint + mine
    requires mine == Arrays(v) && mine !! footprint
    requires Reaches(p.slots[..], footprint) && (apart ==> Copied(p.slots[..], values, footprint))
    modifies p.slots
    ensures Reaches(p.slots[..], footprint + mine)
    ensures apart ==> Copied(p.slots[..], values[p.index := old(VmOf(v))], footprint + mine)
  {
    ghost var items := p.slots[..];
    assert Reaches(items[p.index := v], footprint + mine);
    if apart {
      ItemReplaced(items, p.index, v, values, footprint);
    }
    Store(p, v);
  }

  // The write through the pointer to a slot.
  method WriteThrough(p: Pointer<VmStruct>, w: Write, ghost apart: bool, ghost values: seq<VmValue>,
                      ghost footprint: set<object>)
    returns (ghost more: set<object>)
    requires p.index < p.slots.Length && p.index == w.item && p.slots !in footprint
    requires Reaches(p.slots[..], footprint) && (apart ==> Copied(p.slots[..], values, footprint))
    modifies p.slots, footprint
    ensures fresh(more) && p.slots !in more && Reaches(p.slots[..], footprint + more)
    ensures apart ==> Copied(p.slots[..], Written(values, w), footprint + more)
  {
    match w
    case SetItem(_, value) =>
      var v := BuildVm(value);
      more := Arrays(v);
      StoreApart(p, v, more, apart, values, footprint);
    case _ =>
      more := {};
      WriteBelowItem(p.slots[p.index], w, p.slots[..], apart, values, footprint);
  }

  method WriteOne(list: array<VmStruct>, w: Write, ghost apart: bool, ghost values: seq<VmValue>,
                  ghost footprint: set<object>)
    returns (ghost more: set<object>)
    requires list !in footprint
    requires Reaches(list[..], footprint) && (apart ==> Copied(list[..], values, footprint))
    modifies list, footprint
    ensures fresh(more) && list !in more && Reaches(list[..], footprint + more)
    ensures apart ==> Copied(list[..], Written(values, w), footprint + more)
  {
    more := {};
    var items := GetItems(list);
    if w.item < items.Length {
      more := WriteThrough(items[w.item].value, w, apart, values, footprint);
    }
  }

  /******* Lists *******/

  // The array of this list and what lies below it are in the footprint.
  ghost predicate ListReaches(list: VmListStruct, footprint: set<object>)
    reads footprint
  {
    list.items != null ==> list.items in footprint && Reaches(list.items[..], footprint - {list.items})
  }

  // The same, and it has this value.
  ghost predicate ListWithin(list: VmListStruct, value: ListValue<VmValue>, footprint: set<object>)
    reads footprint
  {
    && list.meta == value.meta
    && (list.items == null <==> value.items.None?)
    && (list.items != null ==>
          list.items in footprint && Within(list.items[..], value.items.value, footprint - {list.items}))
  }

  // The same, and no two of its arrays and maps are the same.
  ghost predicate ListCopied(list: VmListStruct, value: ListValue<VmValue>, footprint: set<object>)
    reads footprint
  {
    && ListWithin(list, value, footprint)
    && (list.items != null ==> Copied(list.items[..], value.items.value, footprint - {list.items}))
  }

  lemma SlotsNotBelow(list: array<VmStruct>)
    ensures list !in ItemArrays(list[..])
  {
    forall i | 0 <= i < list.Length ensures list !in Arrays(list[i]) {
    }
  }

  lemma ListIsWithin(list: VmListStruct) returns (value: ListValue<VmValue>, footprint: set<object>)
    ensures value == VmListOf(list) && footprint == ListArrays(list)
    ensures ListWithin(list, value, footprint) && (ListApart(list) ==> ListCopied(list, value, footprint))
  {
    value, footprint := VmListOf(list), ListArrays(list);
    if list.items != null {
      var values, below := ItemsAreWithin(list.items[..]);
      SlotsNotBelow(list.items);
      assert below == footprint - {list.items};
    }
  }

  lemma ListWithinHasValue(list: VmListStruct, value: ListValue<VmValue>, footprint: set<object>)
    requires ListWithin(list, value, footprint)
    ensures VmListOf(list) == value && ListArrays(list) <= footprint
    ensures ListCopied(list, value, footprint) ==> ListApart(list)
  {
    if list.items != null {
      WithinHasValues(list.items[..], value.items.value, footprint - {list.items});
    }
  }

  // What is known of a list: its value, when sure, and that it shares nothing within, when apart.
  ghost predicate Known(list: VmListStruct, apart: bool, sure: bool, value: ListValue<VmValue>, footprint: set<object>)
    reads footprint
  {
    && ListReaches(list, footprint)
    && (apart ==> ListCopied(list, value, footprint))
    && (sure ==> ListWithin(list, value, footprint))
  }

  method WriteList(list: VmListStruct, w: Write, ghost apart: bool, ghost value: ListValue<VmValue>,
                   ghost footprint: set<object>)
    returns (ghost now: set<object>)
    requires ListReaches(list, footprint) && (apart ==> ListCopied(list, value, footprint))
    modifies footprint
    ensures footprint <= now && fresh(now - footprint) && Known(list, apart, apart, WrittenOnce(value, w), now)
  {
    now := footprint;
    if list.items != null {
      ghost var below := footprint - {list.items};
      ghost var more := WriteOne(list.items, w, apart, if apart then value.items.value else [], below);
      now := now + more;
      assert now - {list.items} == below + more;
    }
  }

  // A write to a list, next to another that shares nothing with it.
  method WriteBeside(list: VmListStruct, w: Write, ghost apart: bool, ghost value: ListValue<VmValue>, ghost ours: set<object>,
                     ghost other: VmListStruct, ghost apart': bool, ghost sure: bool, ghost value': ListValue<VmValue>,
                     ghost theirs: set<object>)
    returns (ghost now: set<object>)
    requires ListReaches(list, ours) && (apart ==> ListCopied(list, value, ours))
    requires Known(other, apart', sure, value', theirs) && ours !! theirs
    modifies ours
    ensures Known(list, apart, apart, WrittenOnce(value, w), now) && Known(other, apart', sure, value', theirs)
    ensures ours <= now && fresh(now - ours) && now !! theirs
  {
    now := WriteList(list, w, apart, value, ours);
  }

  lemma WrittenMore(value: ListValue<VmValue>, writes: seq<Write>, w: Write)
    ensures WrittenList(value, writes + [w]) == WrittenOnce(WrittenList(value, writes), w)
    ensures WrittenList(value, []) == value
  {
    assert (writes + [w])[..|writes|] == writes;
  }

  // One write, to the one or the other.
  method WriteEither(source: VmListStruct, copy: VmListStruct, w: Sided<Write>, ghost apart: bool, ghost sure: bool,
                     ghost value: ListValue<VmValue>, ghost theirs: set<object>,
                     ghost value': ListValue<VmValue>, ghost ours: set<object>)
    returns (ghost theirs': set<object>, ghost ours': set<object>)
    requires Known(source, apart, sure, value, theirs) && Known(copy, true, true, value', ours) && theirs !! ours
    modifies theirs, ours
    ensures fresh(theirs' - theirs) && fresh(ours' - ours) && theirs' !! ours'
    ensures Known(source, apart, if w.side == Source then apart else sure, WrittenBy(Source, value, w), theirs')
    ensures Known(copy, true, true, WrittenBy(Copy, value', w), ours')
  {
    theirs', ours' := theirs, ours;
    match w.side {
      case Source =>
        theirs' := WriteBeside(source, w.write, apart, value, theirs, copy, true, true, value', ours);
      case Copy =>
        ours' := WriteBeside(copy, w.write, true, value', ours, source, apart, sure, value, theirs);
    }
  }

  function WrittenBy(side: Side, value: ListValue<VmValue>, w: Sided<Write>): ListValue<VmValue> {
    if w.side == side then WrittenOnce(value, w.write) else value
  }

  lemma OneMore(side: Side, value: ListValue<VmValue>, writes: seq<Sided<Write>>, i: nat)
    requires i < |writes|
    ensures WrittenList(value, WritesTo(side, writes[..i + 1])) ==
            WrittenBy(side, WrittenList(value, WritesTo(side, writes[..i])), writes[i])
    ensures WritesTo(side, writes[..i + 1]) == [] <==> WritesTo(side, writes[..i]) == [] && writes[i].side != side
  {
    var before := WritesTo(side, writes[..i]);
    assert writes[..i + 1][..i] == writes[..i];
    assert WritesTo(side, writes[..i + 1]) == if writes[i].side == side then before + [writes[i].write] else before;
    WrittenMore(value, before, writes[i].write);
  }

  // The writes, in their order. The footprints are those of the list and of its copy.
  method WriteBoth(source: VmListStruct, copy: VmListStruct, writes: seq<Sided<Write>>, ghost apart: bool,
                   ghost value: ListValue<VmValue>, ghost theirs: set<object>, ghost ours: set<object>)
    returns (ghost now: set<object>)
    requires Known(source, apart, true, value, theirs) && Known(copy, true, true, value, ours) && theirs !! ours
    modifies theirs, ours
    ensures now == ListArrays(copy) && fresh(now - ours) && ListApart(copy)
    ensures VmListOf(copy) == WrittenList(value, WritesTo(Copy, writes))
    ensures apart || WritesTo(Source, writes) == [] ==>
              VmListOf(source) == WrittenList(value, WritesTo(Source, writes))
  {
    ghost var theirs', ours' := theirs, ours;
    ghost var sure, one, other := true, value, value;
    for i := 0 to |writes|
      invariant fresh(theirs' - theirs) && fresh(ours' - ours) && theirs' !! ours'
      invariant Known(source, apart, sure, one, theirs') && Known(copy, true, true, other, ours')
      invariant one == WrittenList(value, WritesTo(Source, writes[..i]))
      invariant other == WrittenList(value, WritesTo(Copy, writes[..i]))
      invariant apart || WritesTo(Source, writes[..i]) == [] ==> sure
    {
      theirs', ours' := WriteEither(source, copy, writes[i], apart, sure, one, theirs', other, ours');
      OneMore(Source, value, writes, i);
      OneMore(Copy, value, writes, i);
      sure := if writes[i].side == Source then apart else sure;
      one, other := WrittenBy(Source, one, writes[i]), WrittenBy(Copy, other, writes[i]);
    }
    assert writes[..|writes|] == writes;
    ListWithinHasValue(copy, other, ours');
    if sure {
      ListWithinHasValue(source, one, theirs');
    }
    now := ListArrays(copy);
  }

  // A copy, with what it has in terms of footprints.
  method CopyWithin(source: VmListStruct, ghost apart: bool, ghost value: ListValue<VmValue>,
                    ghost theirs: set<object>)
    returns (copy: VmListStruct, ghost ours: set<object>)
    requires Known(source, apart, true, value, theirs)
    ensures Known(source, apart, true, value, theirs) && Known(copy, true, true, value, ours)
    ensures fresh(ours) && ours !! theirs
  {
    copy := CopyVmList(source);
    ListWithinHasValue(source, value, theirs);
    ghost var copied;
    copied, ours := ListIsWithin(copy);
  }

  method CopyAndWrite(source: VmListStruct, writes: seq<Sided<Write>>, ghost apart: bool, ghost value: ListValue<VmValue>,
                      ghost theirs: set<object>)
    returns (copy: VmListStruct, ghost now: set<object>)
    requires Known(source, apart, true, value, theirs)
    modifies theirs
    ensures now == ListArrays(copy) && fresh(now) && ListApart(copy)
    ensures VmListOf(copy) == WrittenList(value, WritesTo(Copy, writes))
    ensures apart || WritesTo(Source, writes) == [] ==>
              VmListOf(source) == WrittenList(value, WritesTo(Source, writes))
  {
    ghost var ours;
    copy, ours := CopyWithin(source, apart, value, theirs);
    now := WriteBoth(source, copy, writes, apart, value, theirs, ours);
  }

  // Any writes through the items of a list and of its copy, in any order, act on the copy as those
  // to the copy do on values. They act on the list as those to the list do on values, unless it
  // shared its arrays and maps and was written to.
  method CopyThenWrite(source: VmListStruct, writes: seq<Sided<Write>>) returns (copy: VmListStruct)
    modifies ListArrays(source)
    ensures VmListOf(copy) == WrittenList(old(VmListOf(source)), WritesTo(Copy, writes))
    ensures fresh(ListArrays(copy)) && ListApart(copy)
    ensures old(ListApart(source)) || WritesTo(Source, writes) == [] ==>
              VmListOf(source) == WrittenList(old(VmListOf(source)), WritesTo(Source, writes))
  {
    ghost var apart := ListApart(source);
    ghost var value, theirs := ListIsWithin(source);
    ghost var now;
    copy, now := CopyAndWrite(source, writes, apart, value, theirs);
  }
}
