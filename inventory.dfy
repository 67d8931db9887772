/** The inventory model: an ordered list of item names kept free of
    duplicates by `addItem`, and `removeItem`, which filters an item out. */
module Inventory {

  type Item = string

  predicate NoDup(l: seq<Item>) {
    forall i, j :: 0 <= i < j < |l| ==> l[i] != l[j]
  }

  /** `addItem`: the list unchanged if the item is already in it, otherwise
      the list with the item appended at the end. */
  function AddItem(l: seq<Item>, x: Item): (r: seq<Item>)
    ensures x in r
    ensures forall y :: y in r <==> y in l || y == x
  {
    if x in l then l else l + [x]
  }

  /** `removeItem`: the list filtered by `i !== item`. */
  function RemoveItem(l: seq<Item>, x: Item): (r: seq<Item>)
    ensures x !in r
    ensures |r| <= |l|
    ensures multiset(r) == multiset(l)[x := 0]
    ensures forall y :: y in r <==> y in l && y != x
  {
    if l == [] then []
    else
      assert l == [l[0]] + l[1..];
      if l[0] == x then RemoveItem(l[1..], x)
      else [l[0]] + RemoveItem(l[1..], x)
  }

  lemma {:induction false} AddItemIdempotent(l: seq<Item>, x: Item)
    ensures AddItem(AddItem(l, x), x) == AddItem(l, x)
  {
  }

  lemma AddItemAbsent(l: seq<Item>, x: Item)
    requires x !in l
    ensures AddItem(l, x) == l + [x]
    ensures |AddItem(l, x)| == |l| + 1 && AddItem(l, x)[|l|] == x
  {
  }

  lemma AddItemPresent(l: seq<Item>, x: Item)
    requires x in l
    ensures AddItem(l, x) == l
  {
  }

  lemma AddItemKeepsNoDup(l: seq<Item>, x: Item)
    requires NoDup(l)
    ensures NoDup(AddItem(l, x))
  {
  }

  /** Removing an item that is not there changes nothing. */
  lemma {:induction false} RemoveAbsent(l: seq<Item>, x: Item)
    requires x !in l
    ensures RemoveItem(l, x) == l
  {
    if l != [] {
      RemoveAbsent(l[1..], x);
    }
  }

  /** Removal is idempotent. */
  lemma RemoveItemIdempotent(l: seq<Item>, x: Item)
    ensures RemoveItem(RemoveItem(l, x), x) == RemoveItem(l, x)
  {
    RemoveAbsent(RemoveItem(l, x), x);
  }

  /** Removal works piecewise on a concatenation, so the items that stay keep
      their relative order. */
  lemma {:induction false} RemoveItemAppend(a: seq<Item>, b: seq<Item>, x: Item)
    ensures RemoveItem(a + b, x) == RemoveItem(a, x) + RemoveItem(b, x)
  {
    if a == [] {
      assert a + b == b;
    } else {
      assert (a + b)[0] == a[0];
      assert (a + b)[1..] == a[1..] + b;
      RemoveItemAppend(a[1..], b, x);
    }
  }

  /** Removal keeps a duplicate-free list duplicate-free. */
  lemma {:induction false} RemoveKeepsNoDup(l: seq<Item>, x: Item)
    requires NoDup(l)
    ensures NoDup(RemoveItem(l, x))
  {
    if l != [] {
      RemoveKeepsNoDup(l[1..], x);
      var r := RemoveItem(l[1..], x);
      if l[0] != x {
        assert l[0] !in l[1..];
        assert multiset(r)[l[0]] == 0;
        assert l[0] !in r;
      }
    }
  }

  /** Adding an absent item and removing it again gives the original list back. */
  lemma RemoveAfterAdd(l: seq<Item>, x: Item)
    requires x !in l
    ensures RemoveItem(AddItem(l, x), x) == l
  {
    RemoveItemAppend(l, [x], x);
    RemoveAbsent(l, x);
    assert RemoveItem([x], x) == [];
  }
}
