// Deep copies of volumes and volume lists: a list of structs of slices of structs of slices.
module VolumeCopy {
  import opened Wrappers
  import opened Api
  import opened Structs

  ghost function HintsOf(h: HintsStruct): SchedulerHints
    reads h.sameHost
  {
    SchedulerHints(Slice(h.sameHost))
  }

  ghost function AllHintsOf(hints: seq<HintsStruct>): (values: seq<SchedulerHints>)
    reads set i | 0 <= i < |hints| :: hints[i].sameHost
    ensures |values| == |hints|
    ensures forall i :: 0 <= i < |hints| ==> values[i] == HintsOf(hints[i])
  {
    seq(|hints|, i requires 0 <= i < |hints| reads (if 0 <= i < |hints| then {hints[i].sameHost} else {}) => HintsOf(hints[i]))
  }

  // The arrays below a volume.
  ghost function HintArrays(hints: seq<HintsStruct>): set<object> {
    set i | 0 <= i < |hints| && hints[i].sameHost != null :: hints[i].sameHost as object
  }

  ghost function VolumeArrays(v: VolumeStruct): set<object>
    reads v.spec.forProvider.schedulerHints
  {
    var hints := v.spec.forProvider.schedulerHints;
    if hints == null then {} else {hints as object} + HintArrays(hints[..])
  }

  ghost function ParametersOf(p: VolumeParametersStruct): VolumeParameters
    reads p.schedulerHints
    reads if p.schedulerHints == null then {} else HintArrays(p.schedulerHints[..])
  {
    VolumeParameters(
      p.projectId, p.cellId, p.volumeType, p.size, p.description, p.multiattach, p.name, p.availabilityZone, p.imageRef,
      if p.schedulerHints == null then None else Some(AllHintsOf(p.schedulerHints[..])))
  }

  ghost function VolumeOf(v: VolumeStruct): VolumeValue
    reads VolumeArrays(v)
    reads v.spec.forProvider.schedulerHints
  {
    VolumeValue(v.meta, v.spec.resourceSpec, ParametersOf(v.spec.forProvider), v.status)
  }

  // The references directly in a sequence of volumes.
  ghost function HintRefs(items: seq<VolumeStruct>): set<object?> {
    set i | 0 <= i < |items| :: items[i].spec.forProvider.schedulerHints
  }

  ghost function ItemArrays(items: seq<VolumeStruct>): set<object>
    reads HintRefs(items)
  {
    set i, o | 0 <= i < |items| && o in VolumeArrays(items[i]) :: o
  }

  ghost function ItemsOf(items: seq<VolumeStruct>): (values: seq<VolumeValue>)
    reads HintRefs(items), ItemArrays(items)
    ensures |values| == |items|
    ensures forall i :: 0 <= i < |items| ==> values[i] == VolumeOf(items[i])
  {
    if items == [] then [] else
      var last := |items| - 1;
      ItemsOf(items[..last]) + [VolumeOf(items[last])]
  }

  // The arrays of a list.
  ghost function ListArrays(l: VolumeListStruct): set<object>
    reads l.items
    reads if l.items == null then {} else HintRefs(l.items[..])
  {
    if l.items == null then {} else {l.items as object} + ItemArrays(l.items[..])
  }

  ghost function VolumeListOf(l: VolumeListStruct): ListValue<VolumeValue>
    reads l.items
    reads if l.items == null then {} else HintRefs(l.items[..])
    reads ListArrays(l)
  {
    ListValue(l.meta, if l.items == null then None else Some(ItemsOf(l.items[..])))
  }

  /******* Separation *******/

  // No two hints share their hosts.
  ghost predicate HintsApart(hints: seq<HintsStruct>) {
    forall i, j :: 0 <= i < j < |hints| && hints[i].sameHost != null && hints[j].sameHost != null ==>
      hints[i].sameHost != hints[j].sameHost
  }

  ghost predicate VolumeApart(v: VolumeStruct)
    reads v.spec.forProvider.schedulerHints
  {
    v.spec.forProvider.schedulerHints != null ==> HintsApart(v.spec.forProvider.schedulerHints[..])
  }

  ghost predicate ItemsApart(items: seq<VolumeStruct>)
    reads HintRefs(items)
  {
    && (forall i :: 0 <= i < |items| ==> VolumeApart(items[i]))
    && (forall i, j :: 0 <= i < j < |items| ==> VolumeArrays(items[i]) !! VolumeArrays(items[j]))
  }

  // No two arrays of a list are the same.
  ghost predicate ListApart(l: VolumeListStruct)
    reads l.items
    reads if l.items == null then {} else HintRefs(l.items[..])
  {
    l.items != null ==> ItemsApart(l.items[..])
  }

  /******* Volumes *******/

  method CopyHints(source: HintsStruct) returns (out: HintsStruct)
    ensures HintsOf(out) == HintsOf(source)
    ensures out.sameHost != null ==> fresh(out.sameHost)
  {
    out := source;
    if source.sameHost != null {
      var hosts := Clone(source.sameHost);
      out := out.(sameHost := hosts);
    }
  }

  method CopyAllHints(source: array<HintsStruct>) returns (out: array<HintsStruct>)
    ensures fresh(out) && fresh(HintArrays(out[..])) && HintsApart(out[..])
    ensures AllHintsOf(out[..]) == AllHintsOf(source[..])
  {
    out := new HintsStruct[source.Length](_ => HintsStruct(null));
    for i := 0 to source.Length
      invariant forall k :: 0 <= k < source.Length && out[k].sameHost != null ==> k < i && fresh(out[k].sameHost)
      invariant forall j, k :: 0 <= j < k < i && out[j].sameHost != null && out[k].sameHost != null ==>
                  out[j].sameHost != out[k].sameHost
      invariant forall k :: 0 <= k < i ==> HintsOf(out[k]) == HintsOf(source[k])
    {
      var hints := CopyHints(source[i]);
      out[i] := hints;
    }
  }

  method CopyVolumeParameters(source: VolumeParametersStruct) returns (out: VolumeParametersStruct)
    ensures ParametersOf(out) == ParametersOf(source)
    ensures out == source.(schedulerHints := out.schedulerHints)
    ensures out.schedulerHints != null ==>
              fresh(out.schedulerHints) && fresh(HintArrays(out.schedulerHints[..])) && HintsApart(out.schedulerHints[..])
  {
    out := source;
    if source.schedulerHints != null {
      var hints := CopyAllHints(source.schedulerHints);
      out := out.(schedulerHints := hints);
    }
  }

  method CopyVolume(source: VolumeStruct) returns (out: VolumeStruct)
    ensures VolumeOf(out) == VolumeOf(source)
    ensures out.meta == source.meta && out.status == source.status
    ensures fresh(VolumeArrays(out)) && VolumeApart(out)
  {
    out := source;
    var parameters := CopyVolumeParameters(source.spec.forProvider);
    out := out.(spec := out.spec.(forProvider := parameters));
  }

  const ZERO_VOLUME := VolumeStruct(
    ObjectMeta("", "", map[]),
    VolumeSpecStruct("", VolumeParametersStruct("", "", "", 0, "", false, "", "", "", null)),
    StatusStruct(false, ""))

  // Everything below these volumes is in the footprint, and they have these values.
  ghost predicate Within(items: seq<VolumeStruct>, values: seq<VolumeValue>, footprint: set<object>)
    reads footprint
  {
    && |items| == |values|
    && forall k :: 0 <= k < |items| ==>
         && (items[k].spec.forProvider.schedulerHints != null ==> items[k].spec.forProvider.schedulerHints in footprint)
         && VolumeArrays(items[k]) <= footprint
         && VolumeOf(items[k]) == values[k]
  }

  // The same, and no two of their arrays are the same.
  ghost predicate Copied(items: seq<VolumeStruct>, values: seq<VolumeValue>, footprint: set<object>)
    reads footprint
  {
    && Within(items, values, footprint)
    && (forall k :: 0 <= k < |items| ==> VolumeApart(items[k]))
    && (forall j, k :: 0 <= j < k < |items| ==> VolumeArrays(items[j]) !! VolumeArrays(items[k]))
  }

  lemma OneMoreCopied(items: seq<VolumeStruct>, values: seq<VolumeValue>, footprint: set<object>, item: VolumeStruct)
    requires Copied(items, values, footprint) && VolumeApart(item) && VolumeArrays(item) !! footprint
    ensures Copied(items + [item], values + [VolumeOf(item)], footprint + VolumeArrays(item))
  {
    var more := items + [item];
    forall j, k | 0 <= j < k < |more| ensures VolumeArrays(more[j]) !! VolumeArrays(more[k]) {
      assert VolumeArrays(items[j]) <= footprint;
    }
  }

  lemma WithinHasValues(items: seq<VolumeStruct>, values: seq<VolumeValue>, footprint: set<object>)
    requires Within(items, values, footprint)
    ensures ItemsOf(items) == values && ItemArrays(items) <= footprint
  {
  }

  lemma ItemsAreWithin(items: seq<VolumeStruct>) returns (values: seq<VolumeValue>, footprint: set<object>)
    ensures values == ItemsOf(items) && footprint == ItemArrays(items) && Within(items, values, footprint)
  {
    values, footprint := ItemsOf(items), ItemArrays(items);
    forall k | 0 <= k < |items| ensures VolumeArrays(items[k]) <= ItemArrays(items) {
    }
  }

  // One turn of the list loop: the copy of the source's slot goes into the slot of the new array.
  method CopySlot(source: VolumeStruct, out: array<VolumeStruct>, i: nat, ghost values: seq<VolumeValue>,
                  ghost ours: set<object>, ghost originals: seq<VolumeStruct>, ghost theirs: set<object>)
    returns (ghost more: set<object>)
    requires i < out.Length && i < |originals| && source == originals[i]
    requires out !in ours && out !in theirs && Within(originals, values, theirs)
    requires Copied(out[..i], values[..i], ours)
    modifies out
    ensures fresh(more) && out !in more && Within(originals, values, theirs)
    ensures Copied(out[..i + 1], values[..i + 1], ours + more)
  {
    ghost var copied := out[..i];
    var item := CopyVolume(source);
    more := VolumeArrays(item);
    OneMoreCopied(copied, values[..i], ours, item);
    assert values[..i + 1] == values[..i] + [VolumeOf(item)];
    out[i] := item;
    assert out[..i + 1] == copied + [item];
  }

  // The list loop. The footprints are what lies below the source's slots and below the new ones.
  method CopyVolumes(source: array<VolumeStruct>, ghost values: seq<VolumeValue>, ghost theirs: set<object>)
    returns (out: array<VolumeStruct>, ghost ours: set<object>)
    requires Within(source[..], values, theirs)
    ensures fresh(out) && fresh(ours) && out !in ours && Copied(out[..], values, ours)
    ensures Within(source[..], values, theirs)
  {
    ghost var originals := source[..];
    out := new VolumeStruct[source.Length](_ => ZERO_VOLUME);
    ours := {};
    for i := 0 to source.Length
      invariant fresh(ours) && out !in ours && Copied(out[..i], values[..i], ours)
      invariant source[..] == originals && Within(originals, values, theirs)
    {
      ghost var more := CopySlot(source[i], out, i, values, ours, originals, theirs);
      ours := ours + more;
    }
    assert out[..source.Length] == out[..] && values[..source.Length] == values;
  }

  lemma CopiedIsApart(items: seq<VolumeStruct>, values: seq<VolumeValue>, footprint: set<object>)
    requires Copied(items, values, footprint)
    ensures ItemsOf(items) == values && ItemArrays(items) <= footprint && ItemsApart(items)
  {
    WithinHasValues(items, values, footprint);
  }

  // A deep copy has the value of its source, nil and empty kept apart, and arrays of its own, no
  // two of them the same. The source may share its arrays, and is not written.
  method CopyVolumeList(source: VolumeListStruct) returns (out: VolumeListStruct)
    ensures VolumeListOf(out) == VolumeListOf(source)
    ensures fresh(ListArrays(out)) && ListApart(out)
  {
    out := source;
    if source.items != null {
      ghost var values, theirs := ItemsAreWithin(source.items[..]);
      ghost var ours;
      var items;
      items, ours := CopyVolumes(source.items, values, theirs);
      CopiedIsApart(items[..], values, ours);
      WithinHasValues(source.items[..], values, theirs);
      out := out.(items := items);
    }
  }
}
