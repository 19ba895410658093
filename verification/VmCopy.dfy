// Deep copies of virtual machines and their lists.
module VmCopy {
  import opened Wrappers
  import opened Api
  import opened Structs

  // The references in a virtual machine.
  function Refs(v: VmStruct): set<object?> {
    var p := v.spec.forProvider;
    {p.blockDeviceMapping as object?, p.metadata as object?, p.personality as object?, p.securityGroups as object?}
  }

  // Those that are not nil.
  ghost function Arrays(v: VmStruct): set<object> {
    set o: object | o in Refs(v)
  }

  ghost function Entries(m: GoMap?): Option<map<string, string>>
    reads m
  {
    if m == null then None else Some(m.entries)
  }

  ghost function VmOf(v: VmStruct): VmValue
    reads Refs(v)
  {
    var p := v.spec.forProvider;
    VmValue(v.meta, v.spec.resourceSpec,
            VmParameters(p.name, p.projectId, p.cellId, p.accessIPv4, p.accessIPv6, p.imageRef, p.flavorRef,
                         p.availabilityZone, p.userData, Slice(p.blockDeviceMapping), Entries(p.metadata),
                         Slice(p.personality), Slice(p.securityGroups)),
            v.status)
  }

  ghost function ItemArrays(items: seq<VmStruct>): set<object> {
    set i, o | 0 <= i < |items| && o in Arrays(items[i]) :: o
  }

  ghost function ItemRefs(items: seq<VmStruct>): set<object?> {
    set i, o | 0 <= i < |items| && o in Refs(items[i]) :: o
  }

  ghost function ItemsOf(items: seq<VmStruct>): (values: seq<VmValue>)
    reads ItemRefs(items)
    ensures |values| == |items|
    ensures forall i :: 0 <= i < |items| ==> values[i] == VmOf(items[i])
  {
    if items == [] then [] else
      var last := |items| - 1;
      ItemsOf(items[..last]) + [VmOf(items[last])]
  }

  ghost predicate ItemsApart(items: seq<VmStruct>) {
    forall i, j :: 0 <= i < j < |items| ==> Arrays(items[i]) !! Arrays(items[j])
  }

  // The arrays and maps below the items of a list.
  ghost function BelowItems(l: VmListStruct): set<object>
    reads l.items
  {
    if l.items == null then {} else ItemArrays(l.items[..])
  }

  ghost function ListArrays(l: VmListStruct): set<object>
    reads l.items
  {
    if l.items == null then {} else {l.items as object} + BelowItems(l)
  }

  ghost function VmListOf(l: VmListStruct): ListValue<VmValue>
    reads l.items
    reads if l.items == null then {} else ItemRefs(l.items[..])
  {
    ListValue(l.meta, if l.items == null then None else Some(ItemsOf(l.items[..])))
  }

  ghost predicate ListApart(l: VmListStruct)
    reads l.items
  {
    l.items != null ==> ItemsApart(l.items[..])
  }

  /******* Copying *******/

  // The range loop that fills a new map.
  method CopyMap(source: GoMap) returns (out: GoMap)
    ensures fresh(out) && out.entries == source.entries
  {
    out := new GoMap();
    var todo := source.entries.Keys;
    while todo != {}
      invariant todo <= source.entries.Keys
      invariant out.entries == map k | k in source.entries && k !in todo :: source.entries[k]
    {
      var key :| key in todo;
      out.entries := out.entries[key := source.entries[key]];
      todo := todo - {key};
    }
    assert source.entries == map k | k in source.entries && k !in todo :: source.entries[k];
  }

  method CopyVmParameters(source: VmParametersStruct) returns (out: VmParametersStruct)
    ensures out == source.(blockDeviceMapping := out.blockDeviceMapping, metadata := out.metadata,
                           personality := out.personality, securityGroups := out.securityGroups)
    ensures Slice(out.blockDeviceMapping) == Slice(source.blockDeviceMapping)
    ensures Entries(out.metadata) == Entries(source.metadata)
    ensures Slice(out.personality) == Slice(source.personality)
    ensures Slice(out.securityGroups) == Slice(source.securityGroups)
    ensures out.blockDeviceMapping != null ==> fresh(out.blockDeviceMapping)
    ensures out.metadata != null ==> fresh(out.metadata)
    ensures out.personality != null ==> fresh(out.personality)
    ensures out.securityGroups != null ==> fresh(out.securityGroups)
  {
    out := source;
    if source.blockDeviceMapping != null {
      var devices := Clone(source.blockDeviceMapping);
      out := out.(blockDeviceMapping := devices);
    }
    if source.metadata != null {
      var metadata := CopyMap(source.metadata);
      out := out.(metadata := metadata);
    }
    if source.personality != null {
      var personality := Clone(source.personality);
      out := out.(personality := personality);
    }
    if source.securityGroups != null {
      var groups := Clone(source.securityGroups);
      out := out.(securityGroups := groups);
    }
  }

  method CopyVm(source: VmStruct) returns (out: VmStruct)
    ensures VmOf(out) == VmOf(source) && fresh(Arrays(out))
  {
    out := source;
    var parameters := CopyVmParameters(source.spec.forProvider);
    out := out.(spec := out.spec.(forProvider := parameters));
  }

  // Everything below these items is in the footprint, and they have these values.
  ghost predicate Within(items: seq<VmStruct>, values: seq<VmValue>, footprint: set<object>)
    reads footprint
  {
    && |items| == |values|
    && forall k :: 0 <= k < |items| ==> Refs(items[k]) - {null} <= footprint && VmOf(items[k]) == values[k]
  }

  ghost predicate Copied(items: seq<VmStruct>, values: seq<VmValue>, footprint: set<object>)
    reads footprint
  {
    Within(items, values, footprint) && ItemsApart(items)
  }

  lemma OneMoreCopied(items: seq<VmStruct>, values: seq<VmValue>, footprint: set<object>, item: VmStruct)
    requires Copied(items, values, footprint) && Arrays(item) !! footprint
    ensures Copied(items + [item], values + [VmOf(item)], footprint + Arrays(item))
  {
    var more := items + [item];
    forall k | 0 <= k < |more| ensures Refs(more[k]) - {null} <= footprint + Arrays(item) {
    }
    forall j, k | 0 <= j < k < |more| ensures Arrays(more[j]) !! Arrays(more[k]) {
      assert Refs(items[j]) - {null} <= footprint;
    }
  }

  lemma WithinHasValues(items: seq<VmStruct>, values: seq<VmValue>, footprint: set<object>)
    requires Within(items, values, footprint)
    ensures ItemsOf(items) == values && ItemArrays(items) <= footprint
  {
  }

  lemma ItemsAreWithin(items: seq<VmStruct>) returns (values: seq<VmValue>, footprint: set<object>)
    ensures values == ItemsOf(items) && footprint == ItemArrays(items) && Within(items, values, footprint)
  {
    values, footprint := ItemsOf(items), ItemArrays(items);
    forall k | 0 <= k < |items| ensures Refs(items[k]) - {null} <= footprint {
      assert Arrays(items[k]) <= footprint;
    }
  }

  const ZERO_VM := VmStruct(
    ObjectMeta("", "", map[]),
    VmSpecStruct("", VmParametersStruct("", "", "", "", "", "", "", "", "", null, null, null, null)),
    StatusStruct(false, ""))

  // One turn of the list loop.
  method CopySlot(source: VmStruct, out: array<VmStruct>, i: nat, ghost values: seq<VmValue>,
                  ghost ours: set<object>, ghost originals: seq<VmStruct>, ghost theirs: set<object>)
    returns (ghost more: set<object>)
    requires i < out.Length && i < |originals| && source == originals[i]
    requires out !in ours && out !in theirs && Within(originals, values, theirs)
    requires Copied(out[..i], values[..i], ours)
    modifies out
    ensures fresh(more) && out !in more && Within(originals, values, theirs)
    ensures Copied(out[..i + 1], values[..i + 1], ours + more)
  {
    ghost var copied := out[..i];
    var item := CopyVm(source);
    more := Arrays(item);
    OneMoreCopied(copied, values[..i], ours, item);
    assert values[..i + 1] == values[..i] + [VmOf(item)];
    out[i] := item;
    assert out[..i + 1] == copied + [item];
  }

  // The list loop. The footprints are what lies below the source's slots and below the new ones.
  method CopyVms(source: array<VmStruct>, ghost values: seq<VmValue>, ghost theirs: set<object>)
    returns (out: array<VmStruct>, ghost ours: set<object>)
    requires Within(source[..], values, theirs)
    ensures fresh(out) && fresh(ours) && out !in ours && Copied(out[..], values, ours)
    ensures Within(source[..], values, theirs)
  {
    ghost var originals := source[..];
    out := new VmStruct[source.Length](_ => ZERO_VM);
    ours := {};
    for i := 0 to source.Length
      invariant fresh(ours) && out !in ours && Copied(out[..i], values[..i], ours)
      invariant source[..] == originals && Within(originals, values, theirs)
    {
      ghost var more := CopySlot(source[i], out, i, values, ours, originals, theirs);
      ours := ours + more;
    }
    assert out[..source.Length] == out[..] && values[..source.Length] == values;
  }

  lemma CopiedIsApart(items: seq<VmStruct>, values: seq<VmValue>, footprint: set<object>)
    requires Copied(items, values, footprint)
    ensures ItemsOf(items) == values && ItemArrays(items) <= footprint && ItemsApart(items)
  {
    WithinHasValues(items, values, footprint);
  }

  // A deep copy has the value of its source, nil and empty kept apart, and arrays and maps of its
  // own, no two of them the same. The source may share its arrays, and is not written.
  method CopyVmList(source: VmListStruct) returns (out: VmListStruct)
    ensures VmListOf(out) == VmListOf(source)
    ensures fresh(ListArrays(out)) && ListApart(out)
  {
    out := source;
    if source.items != null {
      ghost var values, theirs := ItemsAreWithin(source.items[..]);
      ghost var ours;
      var items;
      items, ours := CopyVms(source.items, values, theirs);
      CopiedIsApart(items[..], values, ours);
      WithinHasValues(source.items[..], values, theirs);
      out := out.(items := items);
    }
  }
}
