// Writing through the items of a list of volumes and of its deep copy: neither sees the other.
module VolumeNonInterference {
  import opened Wrappers
  import opened Api
  import opened Structs
  import opened VolumeCopy
  import opened ManagedList

  // A write through an item of a list: of the whole slot, of one of its hints, or of one host of a
  // hint. What is stored is newly built. A write past the end of a slice or below a nil slice
  // panics in Go and writes nothing.
  datatype Write =
    | SetItem(item: nat, volume: VolumeValue)
    | SetHint(item: nat, hint: nat, hints: SchedulerHints)
    | SetHost(item: nat, hint: nat, host: nat, name: string)

  /******* On values *******/

  function WrittenHints(h: Option<seq<SchedulerHints>>, w: Write): Option<seq<SchedulerHints>> {
    match w
    case SetItem(_, _) => h
    case SetHint(_, hint, hints) => Update(h, hint, hints)
    case SetHost(_, hint, host, name) =>
      if h.Some? && hint < |h.value| then
        Some(h.value[hint := SchedulerHints(Update(h.value[hint].sameHost, host, name))])
      else h
  }

  function WrittenVolume(v: VolumeValue, w: Write): VolumeValue {
    if w.SetItem? then w.volume
    else v.(forProvider := v.forProvider.(schedulerHints := WrittenHints(v.forProvider.schedulerHints, w)))
  }

  function Written(values: seq<VolumeValue>, w: Write): (r: seq<VolumeValue>)
    ensures |r| == |values|
  {
    if w.item < |values| then values[w.item := WrittenVolume(values[w.item], w)] else values
  }

  function WrittenAll(values: seq<VolumeValue>, writes: seq<Write>): (r: seq<VolumeValue>)
    ensures |r| == |values|
    decreases |writes|
  {
    if writes == [] then values
    else Written(WrittenAll(values, writes[..|writes| - 1]), writes[|writes| - 1])
  }

  function WrittenList(list: ListValue<VolumeValue>, writes: seq<Write>): ListValue<VolumeValue> {
    if list.items.None? then list else list.(items := Some(WrittenAll(list.items.value, writes)))
  }

  function WrittenOnce(list: ListValue<VolumeValue>, w: Write): ListValue<VolumeValue> {
    if list.items.None? then list else list.(items := Some(Written(list.items.value, w)))
  }

  /******* Building *******/

  method BuildHints(value: SchedulerHints) returns (h: HintsStruct)
    ensures HintsOf(h) == value && (h.sameHost != null ==> fresh(h.sameHost))
  {
    var hosts := Build(value.sameHost);
    h := HintsStruct(hosts);
  }

  method BuildAllHints(values: seq<SchedulerHints>) returns (out: array<HintsStruct>)
    ensures fresh(out) && fresh(HintArrays(out[..])) && HintsApart(out[..]) && AllHintsOf(out[..]) == values
  {
    out := new HintsStruct[|values|](_ => HintsStruct(null));
    for i := 0 to |values|
      invariant forall k :: 0 <= k < |values| && out[k].sameHost != null ==> k < i && fresh(out[k].sameHost)
      invariant forall j, k :: 0 <= j < k < i && out[j].sameHost != null && out[k].sameHost != null ==>
                  out[j].sameHost != out[k].sameHost
      invariant forall k :: 0 <= k < i ==> HintsOf(out[k]) == values[k]
    {
      var hints := BuildHints(values[i]);
      out[i] := hints;
    }
  }

  method BuildVolume(value: VolumeValue) returns (v: VolumeStruct)
    ensures VolumeOf(v) == value && fresh(VolumeArrays(v)) && VolumeApart(v)
  {
    var p := value.forProvider;
    var hints: array?<HintsStruct> := null;
    if p.schedulerHints.Some? {
      hints := BuildAllHints(p.schedulerHints.value);
    }
    v := VolumeStruct(
      value.meta,
      VolumeSpecStruct(value.resourceSpec,
                       VolumeParametersStruct(p.projectId, p.cellId, p.volumeType, p.size, p.description, p.multiattach,
                                              p.name, p.availabilityZone, p.imageRef, hints)),
      value.status);
  }

  /******* One volume *******/

  // What these volumes refer to is in the footprint.
  ghost predicate Reaches(items: seq<VolumeStruct>, footprint: set<object>)
    reads footprint
  {
    forall k :: 0 <= k < |items| ==>
      && (items[k].spec.forProvider.schedulerHints != null ==> items[k].spec.forProvider.schedulerHints in footprint)
      && VolumeArrays(items[k]) <= footprint
  }

  // A write below a volume, among volumes that may share what is written.
  method WriteBelow(v: VolumeStruct, w: Write, ghost all: seq<VolumeStruct>, ghost footprint: set<object>)
    returns (ghost more: set<object>)
    requires !w.SetItem? && Reaches(all, footprint)
    modifies VolumeArrays(v)
    ensures fresh(more) && Reaches(all, footprint + more) && VolumeArrays(v) <= old(VolumeArrays(v)) + more
    ensures old(VolumeApart(v)) ==> VolumeApart(v) && VolumeOf(v) == WrittenVolume(old(VolumeOf(v)), w)
  {
    more := {};
    var hints := v.spec.forProvider.schedulerHints;
    if hints != null && w.hint < hints.Length {
      match w
      case SetHint(_, hint, value) =>
        more := PutHint(hints, hint, value, all, footprint);
      case SetHost(_, hint, host, name) =>
        PutHost(hints, hint, host, name, all, footprint);
    }
  }

  method PutHint(hints: array<HintsStruct>, k: nat, value: SchedulerHints, ghost all: seq<VolumeStruct>,
                 ghost footprint: set<object>)
    returns (ghost more: set<object>)
    requires k < hints.Length && Reaches(all, footprint)
    modifies hints
    ensures fresh(more) && Reaches(all, footprint + more)
    ensures HintArrays(hints[..]) <= old(HintArrays(hints[..])) + more
    ensures old(HintsApart(hints[..])) ==> HintsApart(hints[..])
    ensures AllHintsOf(hints[..]) == old(AllHintsOf(hints[..]))[k := value]
  {
    var h := BuildHints(value);
    more := if h.sameHost == null then {} else {h.sameHost};
    hints[k] := h;
  }

  method PutHost(hints: array<HintsStruct>, k: nat, host: nat, name: string, ghost all: seq<VolumeStruct>,
                 ghost footprint: set<object>)
    requires k < hints.Length && Reaches(all, footprint)
    modifies HintArrays(hints[..])
    ensures Reaches(all, footprint) && hints[..] == old(hints[..])
    ensures HintsApart(hints[..]) ==>
              AllHintsOf(hints[..]) ==
              old(AllHintsOf(hints[..]))[k := SchedulerHints(Update(old(AllHintsOf(hints[..]))[k].sameHost, host, name))]
  {
    var hosts := hints[k].sameHost;
    if hosts != null && host < hosts.Length {
      hosts[host] := name;
    }
  }

  /******* A sequence of volumes *******/

  lemma OthersCopied(items: seq<VolumeStruct>, i: nat, values: seq<VolumeValue>, footprint: set<object>)
    returns (others: set<object>)
    requires i < |items| && Copied(items, values, footprint)
    ensures Copied(Without(items, i), Without(values, i), others)
    ensures VolumeArrays(items[i]) !! others
  {
    OthersApart(items, i, values, footprint);
    var was;
    was, others := ItemsAreWithin(Without(items, i));
    assert was == Without(values, i);
  }

  lemma OthersApart(items: seq<VolumeStruct>, i: nat, values: seq<VolumeValue>, footprint: set<object>)
    requires i < |items| && Copied(items, values, footprint)
    ensures Copied(Without(items, i), Without(values, i), footprint)
    ensures forall k :: 0 <= k < |items| - 1 ==> VolumeArrays(Without(items, i)[k]) !! VolumeArrays(items[i])
  {
    var rest := Without(items, i);
    assert forall k :: 0 <= k < |rest| ==> rest[k] == items[if k < i then k else k + 1];
  }

  lemma Reassemble(items: seq<VolumeStruct>, i: nat, values: seq<VolumeValue>, others: set<object>, footprint: set<object>)
    requires i < |items| == |values| && Copied(Without(items, i), Without(values, i), others)
    requires Reaches(items, footprint)
    requires VolumeApart(items[i]) && VolumeArrays(items[i]) !! others
    ensures Copied(items, values[i := VolumeOf(items[i])], footprint)
  {
    var rest, was, now := Without(items, i), Without(values, i), values[i := VolumeOf(items[i])];
    forall k | 0 <= k < |items|
      ensures VolumeOf(items[k]) == now[k] && VolumeApart(items[k])
      ensures k != i ==> VolumeArrays(items[k]) <= others
    {
      if k != i {
        var j := if k < i then k else k - 1;
        assert rest[j] == items[k] && was[j] == values[k];
      }
    }
    forall j, k | 0 <= j < k < |items| ensures VolumeArrays(items[j]) !! VolumeArrays(items[k]) {
      if j != i && k != i {
        var j', k' := if j < i then j else j - 1, if k < i then k else k - 1;
        assert rest[j'] == items[j] && rest[k'] == items[k];
      }
    }
  }

  // A write below a volume, next to others that share nothing with it.
  method WriteBelowBeside(v: VolumeStruct, w: Write, ghost all: seq<VolumeStruct>, ghost footprint: set<object>,
                          ghost rest: seq<VolumeStruct>, ghost values: seq<VolumeValue>, ghost others: set<object>)
    returns (ghost more: set<object>)
    requires !w.SetItem? && Reaches(all, footprint)
    requires Copied(rest, values, others) && VolumeArrays(v) !! others
    modifies VolumeArrays(v)
    ensures fresh(more) && Reaches(all, footprint + more) && VolumeArrays(v) !! others
    ensures Copied(rest, values, others)
    ensures old(VolumeApart(v)) ==> VolumeApart(v) && VolumeOf(v) == WrittenVolume(old(VolumeOf(v)), w)
  {
    more := WriteBelow(v, w, all, footprint);
  }

  method WriteBelowItem(v: VolumeStruct, w: Write, ghost items: seq<VolumeStruct>, ghost apart: bool,
                        ghost values: seq<VolumeValue>, ghost footprint: set<object>)
    returns (ghost more: set<object>)
    requires !w.SetItem? && w.item < |items| && items[w.item] == v
    requires Reaches(items, footprint) && (apart ==> Copied(items, values, footprint))
    modifies footprint
    ensures fresh(more) && Reaches(items, footprint + more)
    ensures apart ==> Copied(items, Written(values, w), footprint + more)
  {
    ghost var i := w.item;
    ghost var rest, was, others := [], [], {};
    if apart {
      others := OthersCopied(items, i, values, footprint);
      rest, was := Without(items, i), Without(values, i);
    }
    more := WriteBelowBeside(v, w, items, footprint, rest, was, others);
    if apart {
      Reassemble(items, i, values, others, footprint + more);
    }
  }

  lemma ItemReplaced(items: seq<VolumeStruct>, i: nat, v: VolumeStruct, values: seq<VolumeValue>, footprint: set<object>)
    requires i < |items| && Copied(items, values, footprint)
    requires VolumeApart(v) && VolumeArrays(v) !! footprint
    ensures Copied(items[i := v], values[i := VolumeOf(v)], footprint + VolumeArrays(v))
  {
    var now := items[i := v];
    forall j, k | 0 <= j < k < |now| ensures VolumeArrays(now[j]) !! VolumeArrays(now[k]) {
      assert j != i ==> VolumeArrays(items[j]) <= footprint;
      assert k != i ==> VolumeArrays(items[k]) <= footprint;
    }
  }

  // A volume that shares nothing with those of the list, stored in a slot.
  method StoreApart(p: Pointer<VolumeStruct>, v: VolumeStruct, ghost mine: set<object>, ghost apart: bool,
                    ghost values: seq<VolumeValue>, ghost footprint: set<object>)
    requires p.index < p.slots.Length && p.slots !in footprint + mine
    requires VolumeApart(v) && mine == VolumeArrays(v) && mine !! footprint
    requires Reaches(p.slots[..], footprint) && (apart ==> Copied(p.slots[..], values, footprint))
    modifies p.slots
    ensures Reaches(p.slots[..], footprint + mine)
    ensures apart ==> Copied(p.slots[..], values[p.index := old(VolumeOf(v))], footprint + mine)
  {
    ghost var items := p.slots[..];
    assert Reaches(items[p.index := v], footprint + mine);
    if apart {
      ItemReplaced(items, p.index, v, values, footprint);
    }
    Store(p, v);
  }

  // The write through the pointer to a slot.
  method WriteThrough(p: Pointer<VolumeStruct>, w: Write, ghost apart: bool, ghost values: seq<VolumeValue>,
                      ghost footprint: set<object>)
    returns (ghost more: set<object>)
    requires p.index < p.slots.Length && p.index == w.item && p.slots !in footprint
    requires Reaches(p.slots[..], footprint) && (apart ==> Copied(p.slots[..], values, footprint))
    modifies p.slots, footprint
    ensures fresh(more) && p.slots !in more && Reaches(p.slots[..], footprint + more)
    ensures apart ==> Copied(p.slots[..], Written(values, w), footprint + more)
  {
    match w
    case SetItem(_, value) =>
      var v := BuildVolume(value);
      more := VolumeArrays(v);
      StoreApart(p, v, more, apart, values, footprint);
    case _ =>
      more := WriteBelowItem(p.slots[p.index], w, p.slots[..], apart, values, footprint);
  }

  method WriteOne(list: array<VolumeStruct>, w: Write, ghost apart: bool, ghost values: seq<VolumeValue>,
                  ghost footprint: set<object>)
    returns (ghost more: set<object>)
    requires list !in footprint
    requires Reaches(list[..], footprint) && (apart ==> Copied(list[..], values, footprint))
    modifies list, footprint
    ensures fresh(more) && list !in more && Reaches(list[..], footprint + more)
    ensures apart ==> Copied(list[..], Written(values, w), footprint + more)
  {
    more := {};
    var items := GetItems(list);
    if w.item < items.Length {
      more := WriteThrough(items[w.item].value, w, apart, values, footprint);
    }
  }

  /******* Lists *******/

  // The array of this list and what lies below it are in the footprint.
  ghost predicate ListReaches(list: VolumeListStruct, footprint: set<object>)
    reads footprint
  {
    list.items != null ==> list.items in footprint && Reaches(list.items[..], footprint - {list.items})
  }

  // The same, and it has this value.
  ghost predicate ListWithin(list: VolumeListStruct, value: ListValue<VolumeValue>, footprint: set<object>)
    reads footprint
  {
    && list.meta == value.meta
    && (list.items == null <==> value.items.None?)
    && (list.items != null ==>
          list.items in footprint && Within(list.items[..], value.items.value, footprint - {list.items}))
  }

  // The same, and no two of its arrays are the same.
  ghost predicate ListCopied(list: VolumeListStruct, value: ListValue<VolumeValue>, footprint: set<object>)
    reads footprint
  {
    && ListWithin(list, value, footprint)
    && (list.items != null ==> Copied(list.items[..], value.items.value, footprint - {list.items}))
  }

  lemma SlotsNotBelow(list: array<VolumeStruct>)
    ensures list !in ItemArrays(list[..])
  {
    forall i | 0 <= i < list.Length ensures list !in VolumeArrays(list[i]) {
    }
  }

  lemma ListIsWithin(list: VolumeListStruct) returns (value: ListValue<VolumeValue>, footprint: set<object>)
    ensures value == VolumeListOf(list) && footprint == ListArrays(list)
    ensures ListWithin(list, value, footprint) && (ListApart(list) ==> ListCopied(list, value, footprint))
  {
    value, footprint := VolumeListOf(list), ListArrays(list);
    if list.items != null {
      var values, below := ItemsAreWithin(list.items[..]);
      SlotsNotBelow(list.items);
      assert below == footprint - {list.items};
    }
  }

  lemma ListWithinHasValue(list: VolumeListStruct, value: ListValue<VolumeValue>, footprint: set<object>)
    requires ListWithin(list, value, footprint)
    ensures VolumeListOf(list) == value && ListArrays(list) <= footprint
    ensures ListCopied(list, value, footprint) ==> ListApart(list)
  {
    if list.items != null {
      WithinHasValues(list.items[..], value.items.value, footprint - {list.items});
    }
  }

  // What is known of a list: its value, when sure, and that it shares nothing within, when apart.
  ghost predicate Known(list: VolumeListStruct, apart: bool, sure: bool, value: ListValue<VolumeValue>, footprint: set<object>)
    reads footprint
  {
    && ListReaches(list, footprint)
    && (apart ==> ListCopied(list, value, footprint))
    && (sure ==> ListWithin(list, value, footprint))
  }

  method WriteList(list: VolumeListStruct, w: Write, ghost apart: bool, ghost value: ListValue<VolumeValue>,
                   ghost footprint: set<object>)
    returns (ghost now: set<object>)
    requires ListReaches(list, footprint) && (apart ==> ListCopied(list, value, footprint))
    modifies footprint
    ensures footprint <= now && fresh(now - footprint) && Known(list, apart, apart, WrittenOnce(value, w), now)
  {
    now := footprint;
    if list.items != null {
      ghost var below := footprint - {list.items};
      ghost var more := WriteOne(list.items, w, apart, if apart then value.items.value else [], below);
      now := now + more;
      assert now - {list.items} == below + more;
    }
  }

  // A write to a list, next to another that shares nothing with it.
  method WriteBeside(list: VolumeListStruct, w: Write, ghost apart: bool, ghost value: ListValue<VolumeValue>, ghost ours: set<object>,
                     ghost other: VolumeListStruct, ghost apart': bool, ghost sure: bool, ghost value': ListValue<VolumeValue>,
                     ghost theirs: set<object>)
    returns (ghost now: set<object>)
    requires ListReaches(list, ours) && (apart ==> ListCopied(list, value, ours))
    requires Known(other, apart', sure, value', theirs) && ours !! theirs
    modifies ours
    ensures Known(list, apart, apart, WrittenOnce(value, w), now) && Known(other, apart', sure, value', theirs)
    ensures ours <= now && fresh(now - ours) && now !! theirs
  {
    now := WriteList(list, w, apart, value, ours);
  }

  lemma WrittenMore(value: ListValue<VolumeValue>, writes: seq<Write>, w: Write)
    ensures WrittenList(value, writes + [w]) == WrittenOnce(WrittenList(value, writes), w)
    ensures WrittenList(value, []) == value
  {
    assert (writes + [w])[..|writes|] == writes;
  }

  // One write, to the one or the other.
  method WriteEither(source: VolumeListStruct, copy: VolumeListStruct, w: Sided<Write>, ghost apart: bool, ghost sure: bool,
                     ghost value: ListValue<VolumeValue>, ghost theirs: set<object>,
                     ghost value': ListValue<VolumeValue>, ghost ours: set<object>)
    returns (ghost theirs': set<object>, ghost ours': set<object>)
    requires Known(source, apart, sure, value, theirs) && Known(copy, true, true, value', ours) && theirs !! ours
    modifies theirs, ours
    ensures fresh(theirs' - theirs) && fresh(ours' - ours) && theirs' !! ours'
    ensures Known(source, apart, if w.side == Source then apart else sure, WrittenBy(Source, value, w), theirs')
    ensures Known(copy, true, true, WrittenBy(Copy, value', w), ours')
  {
    theirs', ours' := theirs, ours;
    match w.side {
      case Source =>
        theirs' := WriteBeside(source, w.write, apart, value, theirs, copy, true, true, value', ours);
      case Copy =>
        ours' := WriteBeside(copy, w.write, true, value', ours, source, apart, sure, value, theirs);
    }
  }

  function WrittenBy(side: Side, value: ListValue<VolumeValue>, w: Sided<Write>): ListValue<VolumeValue> {
    if w.side == side then WrittenOnce(value, w.write) else value
  }

  lemma OneMore(side: Side, value: ListValue<VolumeValue>, writes: seq<Sided<Write>>, i: nat)
    requires i < |writes|
    ensures WrittenList(value, WritesTo(side, writes[..i + 1])) ==
            WrittenBy(side, WrittenList(value, WritesTo(side, writes[..i])), writes[i])
    ensures WritesTo(side, writes[..i + 1]) == [] <==> WritesTo(side, writes[..i]) == [] && writes[i].side != side
  {
    var before := WritesTo(side, writes[..i]);
    assert writes[..i + 1][..i] == writes[..i];
    assert WritesTo(side, writes[..i + 1]) == if writes[i].side == side then before + [writes[i].write] else before;
    WrittenMore(value, before, writes[i].write);
  }

  // The writes, in their order. The footprints are those of the list and of its copy.
  method WriteBoth(source: VolumeListStruct, copy: VolumeListStruct, writes: seq<Sided<Write>>, ghost apart: bool,
                   ghost value: ListValue<VolumeValue>, ghost theirs: set<object>, ghost ours: set<object>)
    returns (ghost now: set<object>)
    requires Known(source, apart, true, value, theirs) && Known(copy, true, true, value, ours) && theirs !! ours
    modifies theirs, ours
    ensures now == ListArrays(copy) && fresh(now - ours) && ListApart(copy)
    ensures VolumeListOf(copy) == WrittenList(value, WritesTo(Copy, writes))
    ensures apart || WritesTo(Source, writes) == [] ==>
              VolumeListOf(source) == WrittenList(value, WritesTo(Source, writes))
  {
    ghost var theirs', ours' := theirs, ours;
    ghost var sure, one, other := true, value, value;
    for i := 0 to |writes|
      invariant fresh(theirs' - theirs) && fresh(ours' - ours) && theirs' !! ours'
      invariant Known(source, apart, sure, one, theirs') && Known(copy, true, true, other, ours')
      invariant one == WrittenList(value, WritesTo(Source, writes[..i]))
      invariant other == WrittenList(value, WritesTo(Copy, writes[..i]))
      invariant apart || WritesTo(Source, writes[..i]) == [] ==> sure
    {
      theirs', ours' := WriteEither(source, copy, writes[i], apart, sure, one, theirs', other, ours');
      OneMore(Source, value, writes, i);
      OneMore(Copy, value, writes, i);
      sure := if writes[i].side == Source then apart else sure;
      one, other := WrittenBy(Source, one, writes[i]), WrittenBy(Copy, other, writes[i]);
    }
    assert writes[..|writes|] == writes;
    ListWithinHasValue(copy, other, ours');
    if sure {
      ListWithinHasValue(source, one, theirs');
    }
    now := ListArrays(copy);
  }

  // A copy, with what it has in terms of footprints.
  method CopyWithin(source: VolumeListStruct, ghost apart: bool, ghost value: ListValue<VolumeValue>,
                    ghost theirs: set<object>)
    returns (copy: VolumeListStruct, ghost ours: set<object>)
    requires Known(source, apart, true, value, theirs)
    ensures Known(source, apart, true, value, theirs) && Known(copy, true, true, value, ours)
    ensures fresh(ours) && ours !! theirs
  {
    copy := CopyVolumeList(source);
    ListWithinHasValue(source, value, theirs);
    ghost var copied;
    copied, ours := ListIsWithin(copy);
  }

  method CopyAndWrite(source: VolumeListStruct, writes: seq<Sided<Write>>, ghost apart: bool, ghost value: ListValue<VolumeValue>,
                      ghost theirs: set<object>)
    returns (copy: VolumeListStruct, ghost now: set<object>)
    requires Known(source, apart, true, value, theirs)
    modifies theirs
    ensures now == ListArrays(copy) && fresh(now) && ListApart(copy)
    ensures VolumeListOf(copy) == WrittenList(value, WritesTo(Copy, writes))
    ensures apart || WritesTo(Source, writes) == [] ==>
              VolumeListOf(source) == WrittenList(value, WritesTo(Source, writes))
  {
    ghost var ours;
    copy, ours := CopyWithin(source, apart, value, theirs);
    now := WriteBoth(source, copy, writes, apart, value, theirs, ours);
  }

  // Any writes through the items of a list and of its copy, in any order, act on the copy as those
  // to the copy do on values. They act on the list as those to the list do on values, unless it
  // shared its arrays and was written to.
  method CopyThenWrite(source: VolumeListStruct, writes: seq<Sided<Write>>) returns (copy: VolumeListStruct)
    modifies ListArrays(source)
    ensures VolumeListOf(copy) == WrittenList(old(VolumeListOf(source)), WritesTo(Copy, writes))
    ensures fresh(ListArrays(copy)) && ListApart(copy)
    ensures old(ListApart(source)) || WritesTo(Source, writes) == [] ==>
              VolumeListOf(source) == WrittenList(old(VolumeListOf(source)), WritesTo(Source, writes))
  {
    ghost var apart := ListApart(source);
    ghost var value, theirs := ListIsWithin(source);
    ghost var now;
    copy, now := CopyAndWrite(source, writes, apart, value, theirs);
  }
}
