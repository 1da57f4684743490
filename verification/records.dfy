/** The JavaScript object `Record<string, VariationOption>` that holds a
    variation selection. A `Selection` lists the object's own properties in
    the order they were created; writing an existing key keeps that key's
    place. `Object.values` and `Object.entries` do not simply follow that
    order: they visit the keys that are array indices first, in ascending
    numeric order, and then the other keys in creation order (section 10.1.11.1,
    OrdinaryOwnPropertyKeys, of ECMA-262). `Entries` is that visiting order. */
module Records {

  import opened Types
  import opened Text
  import opened Seqs

  /** `Object.keys(sel)`. */
  function Keys(sel: Selection): (r: seq<string>)
    ensures |r| == |sel|
  {
    seq(|sel|, i requires 0 <= i < |sel| => sel[i].key)
  }

  /** A JavaScript object never holds the same key twice. */
  predicate UniqueKeys(sel: Selection)
  {
    forall i, j :: 0 <= i < j < |sel| ==> sel[i].key != sel[j].key
  }

  predicate HasKey(sel: Selection, k: string)
  {
    exists i :: 0 <= i < |sel| && sel[i].key == k
  }

  /** `sel[k]`: the option stored under `k`, or `None` when `k` is not a key. */
  function Lookup(sel: Selection, k: string): (r: Option<VariationOption>)
    ensures r.None? <==> !HasKey(sel, k)
    ensures r.Some? ==> exists i :: 0 <= i < |sel| && sel[i] == Entry(k, r.value)
  {
    if sel == [] then None
    else if sel[0].key == k then Some(sel[0].option)
    else
      var r := Lookup(sel[1..], k);
      assert r.Some? ==> exists i :: 0 <= i < |sel[1..]| && sel[1..][i] == Entry(k, r.value);
      assert forall i :: 0 <= i < |sel[1..]| ==> sel[1..][i] == sel[i + 1];
      r
  }

  /** `{ ...sel, [k]: o }`. */
  function Assign(sel: Selection, k: string, o: VariationOption): Selection
  {
    if sel == [] then [Entry(k, o)]
    else if sel[0].key == k then [Entry(k, o)] + sel[1..]
    else [sel[0]] + Assign(sel[1..], k, o)
  }

  /** After the write, `k` holds `o` and every other key holds what it held. */
  lemma {:induction false} AssignLookup(sel: Selection, k: string, o: VariationOption, j: string)
    ensures Lookup(Assign(sel, k, o), j) == if j == k then Some(o) else Lookup(sel, j)
  {
    if sel != [] && sel[0].key != k {
      AssignLookup(sel[1..], k, o, j);
      assert Assign(sel, k, o)[1..] == Assign(sel[1..], k, o);
    }
  }

  /** Writing a new key appends it; writing an existing key (in an object,
      whose keys are unique) replaces that entry where it stands. */
  lemma {:induction false} AssignPosition(sel: Selection, k: string, o: VariationOption)
    requires UniqueKeys(sel)
    ensures !HasKey(sel, k) ==> Assign(sel, k, o) == sel + [Entry(k, o)]
    ensures forall i :: 0 <= i < |sel| && sel[i].key == k ==>
      Assign(sel, k, o) == sel[i := Entry(k, o)]
  {
    if sel != [] {
      AssignPosition(sel[1..], k, o);
      if sel[0].key != k {
        assert !HasKey(sel, k) ==> !HasKey(sel[1..], k) by {
          if HasKey(sel[1..], k) {
            var i :| 0 <= i < |sel[1..]| && sel[1..][i].key == k;
            assert sel[i + 1].key == k;
          }
        }
        forall i | 0 <= i < |sel| && sel[i].key == k
          ensures Assign(sel, k, o) == sel[i := Entry(k, o)]
        {
          assert sel[1..][i - 1].key == k;
          assert sel[1..][i - 1 := Entry(k, o)] == sel[i := Entry(k, o)][1..];
        }
      } else {
        forall i | 0 <= i < |sel| && sel[i].key == k
          ensures Assign(sel, k, o) == sel[i := Entry(k, o)]
        {
          assert i == 0;
        }
      }
    }
  }

  /** The write keeps the keys of an object distinct, and its key set is the
      old one plus `k`. */
  lemma {:induction false} AssignKeys(sel: Selection, k: string, o: VariationOption)
    requires UniqueKeys(sel)
    ensures UniqueKeys(Assign(sel, k, o))
    ensures forall j :: HasKey(Assign(sel, k, o), j) <==> j == k || HasKey(sel, j)
  {
    AssignPosition(sel, k, o);
    var r := Assign(sel, k, o);
    if HasKey(sel, k) {
      var i :| 0 <= i < |sel| && sel[i].key == k;
      assert r == sel[i := Entry(k, o)];
      assert Keys(r) == Keys(sel);
      forall j ensures HasKey(r, j) <==> HasKey(sel, j) {
        if HasKey(r, j) {
          var m :| 0 <= m < |r| && r[m].key == j;
          assert sel[m].key == Keys(sel)[m] == Keys(r)[m] == j;
        }
        if HasKey(sel, j) {
          var m :| 0 <= m < |sel| && sel[m].key == j;
          assert r[m].key == Keys(r)[m] == Keys(sel)[m] == j;
        }
      }
    } else {
      assert r == sel + [Entry(k, o)];
      forall j ensures HasKey(r, j) <==> j == k || HasKey(sel, j) {
        if HasKey(r, j) && j != k {
          var m :| 0 <= m < |r| && r[m].key == j;
          assert m < |sel| && sel[m].key == j;
        }
        if HasKey(sel, j) {
          var m :| 0 <= m < |sel| && sel[m].key == j;
          assert r[m].key == j;
        }
        if j == k {
          assert r[|sel|].key == k;
        }
      }
    }
  }

  // ------------------------------------------------ enumeration order

  /** A key that is an array index: "0", or decimal digits without a
      leading zero, whose value is below 2^32 - 1. */
  predicate IsIndexKey(k: string)
  {
    |k| > 0 && AllDigits(k) && (k[0] != '0' || |k| == 1) && DigitsValue(k) < 0xFFFF_FFFF
  }

  /** Keeps the entries whose key is not an array index. */
  function IsNamedEntry(): Entry -> bool
  {
    (e: Entry) => !IsIndexKey(e.key)
  }

  /** `e` goes before `f` in the visiting order: both keys are array indices
      and `e`'s value is smaller, or only `e`'s key is an index. */
  predicate VisitsBefore(e: Entry, f: Entry)
  {
    IsIndexKey(e.key) && (!IsIndexKey(f.key) || DigitsValue(e.key) < DigitsValue(f.key))
  }

  /** Where a newly created key `e` joins the visiting order `es`. */
  function Place(es: Selection, e: Entry): (r: Selection)
    ensures multiset(r) == multiset(es) + multiset{e}
    ensures |r| == |es| + 1
  {
    if es == [] || VisitsBefore(e, es[0]) then [e] + es
    else
      assert es == [es[0]] + es[1..];
      [es[0]] + Place(es[1..], e)
  }

  /** `Object.entries(sel)`: the keys that are array indices in ascending
      numeric order, then the other keys in creation order. */
  function Entries(sel: Selection): (r: Selection)
    ensures |r| == |sel|
  {
    if sel == [] then []
    else
      assert sel == sel[..|sel| - 1] + [sel[|sel| - 1]];
      Place(Entries(sel[..|sel| - 1]), sel[|sel| - 1])
  }

  /** The visiting order is a rearrangement of the object's entries. */
  lemma {:induction false} EntriesRearranges(sel: Selection)
    ensures multiset(Entries(sel)) == multiset(sel)
  {
    if sel != [] {
      var prefix, e := sel[..|sel| - 1], sel[|sel| - 1];
      EntriesRearranges(prefix);
      assert sel == prefix + [e];
    }
  }

  /** Index keys come first, in ascending value. */
  predicate IndexOrdered(es: Selection)
  {
    forall i, j :: 0 <= i < j < |es| && IsIndexKey(es[j].key) ==>
      IsIndexKey(es[i].key) && DigitsValue(es[i].key) <= DigitsValue(es[j].key)
  }

  lemma IndexOrderedTail(es: Selection)
    requires es != [] && IndexOrdered(es)
    ensures IndexOrdered(es[1..])
  {
    var tail := es[1..];
    forall i, j | 0 <= i < j < |tail| && IsIndexKey(tail[j].key)
      ensures IsIndexKey(tail[i].key) && DigitsValue(tail[i].key) <= DigitsValue(tail[j].key)
    {
      assert tail[i] == es[i + 1] && tail[j] == es[j + 1];
    }
  }

  /** When `e` is placed after the first entry, that entry still comes before
      every index key that follows it. */
  lemma HeadBeforePlaced(es: Selection, e: Entry, y: Entry)
    requires es != [] && IndexOrdered(es) && !VisitsBefore(e, es[0])
    requires y in multiset(Place(es[1..], e)) && IsIndexKey(y.key)
    ensures IsIndexKey(es[0].key) && DigitsValue(es[0].key) <= DigitsValue(y.key)
  {
    var tail := es[1..];
    assert y in multiset(tail) + multiset{e};
    if y != e {
      assert y in tail;
      var m :| 0 <= m < |tail| && tail[m] == y;
      assert es[m + 1] == y;
    }
  }

  lemma {:induction false} PlaceIndexOrdered(es: Selection, e: Entry)
    requires IndexOrdered(es)
    ensures IndexOrdered(Place(es, e))
  {
    if es != [] && !VisitsBefore(e, es[0]) {
      IndexOrderedTail(es);
      PlaceIndexOrdered(es[1..], e);
      var rest := Place(es[1..], e);
      var r := [es[0]] + rest;
      assert Place(es, e) == r;
      forall i, j | 0 <= i < j < |r| && IsIndexKey(r[j].key)
        ensures IsIndexKey(r[i].key) && DigitsValue(r[i].key) <= DigitsValue(r[j].key)
      {
        assert r[j] == rest[j - 1];
        if i > 0 {
          assert r[i] == rest[i - 1];
        } else {
          HeadBeforePlaced(es, e, r[j]);
        }
      }
    }
  }

  /** In the visiting order an index key is preceded only by index keys of
      smaller or equal value. */
  lemma {:induction false} EntriesIndexFirst(sel: Selection)
    ensures IndexOrdered(Entries(sel))
  {
    if sel != [] {
      EntriesIndexFirst(sel[..|sel| - 1]);
      PlaceIndexOrdered(Entries(sel[..|sel| - 1]), sel[|sel| - 1]);
    }
  }

  /** A new key that is not an index goes last. */
  lemma {:induction false} PlaceNamedLast(es: Selection, e: Entry)
    requires !IsIndexKey(e.key)
    ensures Place(es, e) == es + [e]
  {
    if es != [] {
      PlaceNamedLast(es[1..], e);
      assert es == [es[0]] + es[1..];
    }
  }

  /** Placing a key keeps the order of the keys that are not indices, and
      a new such key joins them last. */
  lemma {:induction false} PlaceNamed(es: Selection, e: Entry)
    ensures Filter(Place(es, e), IsNamedEntry()) ==
      Filter(es, IsNamedEntry()) + Filter([e], IsNamedEntry())
  {
    var named := IsNamedEntry();
    if !IsIndexKey(e.key) {
      PlaceNamedLast(es, e);
      FilterAppend(es, [e], named);
    } else if es == [] || VisitsBefore(e, es[0]) {
      assert Place(es, e) == [e] + es;
      FilterAppend([e], es, named);
      assert Filter([e], named) == [];
      assert Filter(es, named) + [] == Filter(es, named);
    } else {
      var head, tail := [es[0]], es[1..];
      var rest := Place(tail, e);
      assert Place(es, e) == head + rest;
      assert es == head + tail;
      PlaceNamed(tail, e);
      FilterAppend(head, tail, named);
      FilterAppend(head, rest, named);
      ConcatAssociates(Filter(head, named), Filter(tail, named), Filter([e], named));
    }
  }

  lemma EntriesSnoc(prefix: Selection, e: Entry)
    ensures Entries(prefix + [e]) == Place(Entries(prefix), e)
  {
    var sel := prefix + [e];
    assert sel[..|sel| - 1] == prefix && sel[|sel| - 1] == e;
  }

  /** The keys that are not array indices keep their creation order. */
  lemma {:induction false} EntriesNamedInOrder(sel: Selection)
    ensures Filter(Entries(sel), IsNamedEntry()) == Filter(sel, IsNamedEntry())
  {
    if sel != [] {
      var prefix, e := sel[..|sel| - 1], sel[|sel| - 1];
      assert sel == prefix + [e];
      EntriesSnoc(prefix, e);
      EntriesNamedInOrder(prefix);
      PlaceNamed(Entries(prefix), e);
      FilterAppend(prefix, [e], IsNamedEntry());
    }
  }

  /** Writing a new key that is not an array index adds it at the end of the
      visiting order. */
  lemma AssignNamedGoesLast(sel: Selection, k: string, o: VariationOption)
    requires UniqueKeys(sel) && !HasKey(sel, k) && !IsIndexKey(k)
    ensures Entries(Assign(sel, k, o)) == Entries(sel) + [Entry(k, o)]
  {
    AssignPosition(sel, k, o);
    var e := Entry(k, o);
    var r := sel + [e];
    assert r[..|r| - 1] == sel && r[|r| - 1] == e;
    assert Entries(r) == Place(Entries(sel), e);
    PlaceNamedLast(Entries(sel), e);
  }

  /** Array-index keys are visited by value, not by creation: after
      `{ "10": a }` gains the key "2", `Object.entries` lists "2" first. */
  lemma IndexKeysComeFirst(a: VariationOption, b: VariationOption)
    ensures Assign([Entry("10", a)], "2", b) == [Entry("10", a), Entry("2", b)]
    ensures Entries([Entry("10", a), Entry("2", b)]) == [Entry("2", b), Entry("10", a)]
  {
    var e10, e2 := Entry("10", a), Entry("2", b);
    assert "10"[..1] == "1";
    assert DigitsValue("1") == 1;
    assert DigitsValue("10") == 10;
    assert DigitsValue("2") == 2;
    assert IsIndexKey("10") && IsIndexKey("2");
    var sel := [e10, e2];
    assert sel[..1] == [e10];
    assert [e10][..0] == [];
    assert Entries([e10]) == [e10];
    assert VisitsBefore(e2, e10);
  }
}
