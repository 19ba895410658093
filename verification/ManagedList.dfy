// GetItems: pointers to the slots of a list.
module ManagedList {
  import opened Wrappers

  // The address of a slot.
  datatype Pointer<T> = Pointer(slots: array<T>, index: nat)

  // One pointer per slot, in order. A nil list has no items.
  method GetItems<T>(list: array?<T>) returns (items: array<Option<Pointer<T>>>)
    ensures fresh(items)
    ensures items.Length == if list == null then 0 else list.Length
    ensures list != null ==> forall i :: 0 <= i < items.Length ==> items[i] == Some(Pointer(list, i))
  {
    var n := if list == null then 0 else list.Length;
    items := new Option<Pointer<T>>[n](_ => None);
    if list != null {
      for i := 0 to list.Length
        invariant forall k :: 0 <= k < i ==> items[k] == Some(Pointer(list, k))
      {
        items[i] := Some(Pointer(list, i));
      }
    }
  }

  method Store<T>(p: Pointer<T>, x: T)
    requires p.index < p.slots.Length
    modifies p.slots
    ensures p.slots[..] == old(p.slots[..])[p.index := x]
  {
    p.slots[p.index] := x;
  }

  // A write through item i of a list changes slot i of that list and nothing else.
  method StoreThroughItem<T>(list: array<T>, i: nat, x: T)
    requires i < list.Length
    modifies list
    ensures list[..] == old(list[..])[i := x]
  {
    var items := GetItems(list);
    Store(items[i].value, x);
  }
}
