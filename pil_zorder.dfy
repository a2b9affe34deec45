/** Stacking order of the shapes on a sheet in the clipboard engine
    (utils/compressor_engine_pil.py): the back-to-front name list collected
    before compression, the renaming of replaced pictures, and the replay
    that brings each saved name to the front in turn. */
module PilZOrder {
  import opened Common

  /** No name occurs twice. */
  predicate Distinct(s: seq<string>)
  {
    forall i, j :: 0 <= i < j < |s| ==> s[i] != s[j]
  }

  // ---------------------------------------------------------------------------
  // Bring to front and its replay
  // ---------------------------------------------------------------------------

  /** The list without the first occurrence of `x`. */
  function RemoveFirst(s: seq<string>, x: string): (r: seq<string>)
    ensures x !in s ==> r == s
    ensures multiset(r) == multiset(s) - multiset{x}
  {
    if s == [] then []
    else
      assert s == [s[0]] + s[1..];
      if s[0] == x then s[1..] else [s[0]] + RemoveFirst(s[1..], x)
  }

  /** Bring-to-front on a back-to-front stacking order: a shape on the sheet
      moves to the front, keeping the others in place; a name not on the
      sheet changes nothing. */
  function Raised(order: seq<string>, nm: string): (r: seq<string>)
    ensures multiset(r) == multiset(order)
    ensures nm in order ==> |r| >= 1 && r[|r| - 1] == nm
    ensures nm !in order ==> r == order
  {
    if nm in order then RemoveFirst(order, nm) + [nm] else order
  }

  /** Bring-to-front applied to every saved name in turn. */
  function Replayed(order: seq<string>, saved: seq<string>): (r: seq<string>)
    ensures multiset(r) == multiset(order)
    decreases |saved|
  {
    if saved == [] then order
    else Raised(Replayed(order, saved[..|saved| - 1]), saved[|saved| - 1])
  }

  /** The shapes of `order` that are not listed in `saved`, in their order. */
  function Unlisted(order: seq<string>, saved: seq<string>): (r: seq<string>)
    ensures forall y :: y in r <==> y in order && y !in saved
  {
    if order == [] then []
    else if order[0] in saved then Unlisted(order[1..], saved)
    else [order[0]] + Unlisted(order[1..], saved)
  }

  /** The listed names that are on the sheet, in their listed order. */
  function Listed(saved: seq<string>, order: seq<string>): (r: seq<string>)
    ensures forall y :: y in r <==> y in saved && y in order
    decreases |saved|
  {
    if saved == [] then []
    else
      var x := saved[|saved| - 1];
      Listed(saved[..|saved| - 1], order) + (if x in order then [x] else [])
  }

  /** Removing the first occurrence of a name that lies in the front part
      of a concatenation leaves the back part alone. */
  lemma {:induction false} RemoveFirstConcat(a: seq<string>, b: seq<string>, x: string)
    requires x in a
    ensures RemoveFirst(a + b, x) == RemoveFirst(a, x) + b
  {
    if a[0] == x {
      assert (a + b)[1..] == a[1..] + b;
    } else {
      assert (a + b)[1..] == a[1..] + b;
      RemoveFirstConcat(a[1..], b, x);
    }
  }

  /** Listing one more name that is not on the sheet leaves the unlisted
      shapes as they are. */
  lemma {:induction false} UnlistedAppendAbsent(order: seq<string>, saved: seq<string>, x: string)
    requires x !in order
    ensures Unlisted(order, saved + [x]) == Unlisted(order, saved)
  {
    if order != [] {
      assert order[0] in saved + [x] <==> order[0] in saved;
      UnlistedAppendAbsent(order[1..], saved, x);
    }
  }

  /** Listing one more name that is on the sheet (once) removes it from the
      unlisted shapes. */
  lemma {:induction false} UnlistedAppendPresent(order: seq<string>, saved: seq<string>, x: string)
    requires Distinct(order) && x in order && x !in saved
    ensures Unlisted(order, saved + [x]) == RemoveFirst(Unlisted(order, saved), x)
  {
    var rest := order[1..];
    assert Distinct(rest) by {
      forall i, j | 0 <= i < j < |rest| ensures rest[i] != rest[j] {
        assert rest[i] == order[i + 1] && rest[j] == order[j + 1];
      }
    }
    if order[0] == x {
      assert x !in rest by {
        forall i | 0 <= i < |rest| ensures rest[i] != x {
          assert rest[i] == order[i + 1];
        }
      }
      UnlistedAppendAbsent(rest, saved, x);
    } else {
      assert order[0] in saved + [x] <==> order[0] in saved;
      UnlistedAppendPresent(rest, saved, x);
    }
  }

  /** Listing one more name appends it to the listed shapes when it is on
      the sheet. */
  lemma ListedAppend(saved: seq<string>, x: string, order: seq<string>)
    ensures Listed(saved + [x], order) == Listed(saved, order) + (if x in order then [x] else [])
  {
    assert (saved + [x])[..|saved|] == saved;
  }

  /** A prefix of a list without repetitions has none either, and does not
      hold the element after it. */
  lemma DistinctPrefix(s: seq<string>)
    requires Distinct(s) && |s| >= 1
    ensures Distinct(s[..|s| - 1]) && s[|s| - 1] !in s[..|s| - 1]
  {
  }

  /** One replay step for a listed name on the sheet: bringing it to the
      front moves it from the unlisted shapes to the front of the listed
      ones. */
  lemma RaisedStepPresent(order: seq<string>, s: seq<string>, x: string, u: seq<string>, l: seq<string>)
    requires Distinct(order) && x !in s && x in order
    requires u == Unlisted(order, s) && l == Listed(s, order)
    ensures Raised(u + l, x) == Unlisted(order, s + [x]) + Listed(s + [x], order)
  {
    assert x in u;
    RemoveFirstConcat(u, l, x);
    UnlistedAppendPresent(order, s, x);
    ListedAppend(s, x, order);
    calc {
      Raised(u + l, x);
      RemoveFirst(u + l, x) + [x];
      (RemoveFirst(u, x) + l) + [x];
      { AppendAssoc(RemoveFirst(u, x), l, [x]); }
      RemoveFirst(u, x) + (l + [x]);
    }
  }

  /** One replay step for a name missing from the sheet: nothing moves. */
  lemma RaisedStepAbsent(order: seq<string>, s: seq<string>, x: string, u: seq<string>, l: seq<string>)
    requires x !in order
    requires u == Unlisted(order, s) && l == Listed(s, order)
    ensures Raised(u + l, x) == Unlisted(order, s + [x]) + Listed(s + [x], order)
  {
    assert x !in u && x !in l;
    assert x !in u + l;
    UnlistedAppendAbsent(order, s, x);
    ListedAppend(s, x, order);
    assert l + [] == l;
  }

  /** The replay result: the shapes that are not listed stay at the back in
      their old order, and in front of them the listed shapes that are on
      the sheet stand in exactly the listed back-to-front order; listed
      names missing from the sheet are skipped. */
  lemma {:induction false} ReplayedStacksSavedOrder(order: seq<string>, saved: seq<string>)
    requires Distinct(order) && Distinct(saved)
    ensures Replayed(order, saved) == Unlisted(order, saved) + Listed(saved, order)
    decreases |saved|
  {
    if saved == [] {
      UnlistedNone(order);
    } else {
      var s := saved[..|saved| - 1];
      var x := saved[|saved| - 1];
      assert saved == s + [x];
      DistinctPrefix(saved);
      ReplayedStacksSavedOrder(order, s);
      var u := Unlisted(order, s);
      var l := Listed(s, order);
      if x in order {
        RaisedStepPresent(order, s, x, u, l);
      } else {
        RaisedStepAbsent(order, s, x, u, l);
      }
    }
  }

  /** With nothing listed, every shape is unlisted. */
  lemma {:induction false} UnlistedNone(order: seq<string>)
    ensures Unlisted(order, []) == order
  {
    if order != [] {
      UnlistedNone(order[1..]);
    }
  }

  /** When every shape on the sheet is listed, the replay leaves exactly the
      listed order (restricted to the shapes present); when moreover every
      listed name is present, the replay reproduces the listed order. */
  lemma ReplayRestoresFullOrder(order: seq<string>, saved: seq<string>)
    requires Distinct(order) && Distinct(saved)
    requires forall y :: y in order ==> y in saved
    ensures Replayed(order, saved) == Listed(saved, order)
    ensures (forall y :: y in saved ==> y in order) ==> Replayed(order, saved) == saved
  {
    ReplayedStacksSavedOrder(order, saved);
    UnlistedAllListed(order, saved);
    if forall y :: y in saved ==> y in order {
      ListedAll(saved, order);
    }
  }

  /** When every shape is listed, none is unlisted. */
  lemma {:induction false} UnlistedAllListed(order: seq<string>, saved: seq<string>)
    requires forall y :: y in order ==> y in saved
    ensures Unlisted(order, saved) == []
  {
    if order != [] {
      assert order[0] in order;
      UnlistedAllListed(order[1..], saved);
    }
  }

  /** Listing names that are all on the sheet keeps all of them. */
  lemma {:induction false} ListedAll(saved: seq<string>, order: seq<string>)
    requires forall y :: y in saved ==> y in order
    ensures Listed(saved, order) == saved
    decreases |saved|
  {
    if saved != [] {
      var s := saved[..|saved| - 1];
      assert saved == s + [saved[|saved| - 1]];
      ListedAll(s, order);
    }
  }

  /** A sheet's shapes, back to front. */
  class Sheet {
    var order: seq<string>

    constructor(shapes: seq<string>)
      ensures order == shapes
    {
      order := shapes;
    }

    /** Bring-to-front of one shape by name; a missing name is skipped. */
    method BringToFront(nm: string)
      modifies this
      ensures order == Raised(old(order), nm)
    {
      if nm in order {
        order := RemoveFirst(order, nm) + [nm];
      }
    }

    /** Brings each saved name to the front, from the back-most to the
        front-most. */
    method ReorderZOrderExact(saved: seq<string>)
      modifies this
      ensures order == Replayed(old(order), saved)
    {
      var i := 0;
      while i < |saved|
        invariant 0 <= i <= |saved|
        invariant order == Replayed(old(order), saved[..i])
      {
        assert saved[..i + 1][..i] == saved[..i];
        BringToFront(saved[i]);
        i := i + 1;
      }
      assert saved[..|saved|] == saved;
    }
  }

  // ---------------------------------------------------------------------------
  // Collecting the stacking order
  // ---------------------------------------------------------------------------

  /** A shape's name and its stacking position, when the host reports one. */
  datatype ShapeZ = ShapeZ(name: string, z: Option<int>)

  /** A collected (position, name) pair. */
  datatype Entry = Entry(z: int, name: string)

  /** The shapes that report a position, as pairs, in sheet order. */
  function WithZ(shapes: seq<ShapeZ>): seq<Entry>
    decreases |shapes|
  {
    if shapes == [] then []
    else
      var s := shapes[|shapes| - 1];
      WithZ(shapes[..|shapes| - 1]) + (if s.z.Some? then [Entry(s.z.value, s.name)] else [])
  }

  /** The collected pairs are exactly the shapes that report a position. */
  lemma {:induction false} WithZMembers(shapes: seq<ShapeZ>, e: Entry)
    ensures e in WithZ(shapes) <==> ShapeZ(e.name, Some(e.z)) in shapes
    decreases |shapes|
  {
    if shapes != [] {
      var s := shapes[|shapes| - 1];
      assert shapes == shapes[..|shapes| - 1] + [s];
      WithZMembers(shapes[..|shapes| - 1], e);
    }
  }

  /** Ascending by position. */
  predicate SortedByZ(s: seq<Entry>)
  {
    forall i, j :: 0 <= i < j < |s| ==> s[i].z <= s[j].z
  }

  /** The tail of a sorted list is sorted. */
  lemma SortedTail(t: seq<Entry>)
    requires SortedByZ(t) && t != []
    ensures SortedByZ(t[1..])
  {
    var rest := t[1..];
    forall i, j | 0 <= i < j < |rest| ensures rest[i].z <= rest[j].z {
      assert rest[i] == t[i + 1] && rest[j] == t[j + 1];
    }
  }

  /** Inserts `p` after every entry whose position is not larger. */
  function Insert(t: seq<Entry>, p: Entry): (r: seq<Entry>)
    ensures multiset(r) == multiset(t) + multiset{p}
    ensures forall e :: e in r <==> e in t || e == p
  {
    if t == [] || t[0].z > p.z then [p] + t
    else
      assert t == [t[0]] + t[1..];
      [t[0]] + Insert(t[1..], p)
  }

  /** Inserting into a sorted list keeps it sorted. */
  lemma {:induction false} InsertSorted(t: seq<Entry>, p: Entry)
    requires SortedByZ(t)
    ensures SortedByZ(Insert(t, p))
  {
    if t == [] || t[0].z > p.z {
      var r := [p] + t;
      forall i, j | 0 <= i < j < |r| ensures r[i].z <= r[j].z {
        if i > 0 {
          assert r[i] == t[i - 1] && r[j] == t[j - 1];
        } else {
          assert r[j] == t[j - 1];
          assert t[0].z <= t[j - 1].z;
        }
      }
    } else {
      var rest := t[1..];
      SortedTail(t);
      InsertSorted(rest, p);
      var ins := Insert(rest, p);
      var r := [t[0]] + ins;
      forall e | e in ins ensures t[0].z <= e.z {
        if e != p {
          var k :| 0 <= k < |rest| && rest[k] == e;
          assert rest[k] == t[k + 1];
        }
      }
      forall i, j | 0 <= i < j < |r| ensures r[i].z <= r[j].z {
        assert r[j] == ins[j - 1];
        if i > 0 {
          assert r[i] == ins[i - 1];
        } else {
          assert ins[j - 1] in ins;
        }
      }
    }
  }

  /** The sort the collection applies: stable, ascending by position. */
  function SortByZ(s: seq<Entry>): (r: seq<Entry>)
    ensures multiset(r) == multiset(s)
    ensures SortedByZ(r)
    decreases |s|
  {
    if s == [] then []
    else
      assert s == s[..|s| - 1] + [s[|s| - 1]];
      InsertSorted(SortByZ(s[..|s| - 1]), s[|s| - 1]);
      Insert(SortByZ(s[..|s| - 1]), s[|s| - 1])
  }

  /** The entries with position `k`, in order. */
  function WithKey(s: seq<Entry>, k: int): (r: seq<Entry>)
    ensures forall e :: e in r <==> e in s && e.z == k
  {
    if s == [] then []
    else (if s[0].z == k then [s[0]] else []) + WithKey(s[1..], k)
  }

  lemma {:induction false} WithKeyConcat(a: seq<Entry>, b: seq<Entry>, k: int)
    ensures WithKey(a + b, k) == WithKey(a, k) + WithKey(b, k)
  {
    if a == [] {
      assert a + b == b;
    } else {
      assert (a + b)[1..] == a[1..] + b;
      WithKeyConcat(a[1..], b, k);
    }
  }

  /** A sorted list whose front lies above `k` holds no entry at `k`. */
  lemma {:induction false} NoKeyAboveFront(t: seq<Entry>, k: int)
    requires SortedByZ(t) && (t == [] || t[0].z > k)
    ensures WithKey(t, k) == []
  {
    if t != [] {
      var rest := t[1..];
      SortedTail(t);
      if rest != [] {
        assert rest[0] == t[1];
      }
      NoKeyAboveFront(rest, k);
    }
  }

  /** A one-entry list holds that entry at its own position only. */
  lemma WithKeySingle(p: Entry, k: int)
    ensures WithKey([p], k) == if p.z == k then [p] else []
  {
    assert [p][1..] == [];
  }

  /** Inserting into a sorted list puts the new entry behind every entry
      with the same position. */
  lemma {:induction false} WithKeyInsert(t: seq<Entry>, p: Entry, k: int)
    requires SortedByZ(t)
    ensures WithKey(Insert(t, p), k) == WithKey(t, k) + (if p.z == k then [p] else [])
  {
    var mark := if p.z == k then [p] else [];
    if t == [] || t[0].z > p.z {
      if p.z == k {
        NoKeyAboveFront(t, k);
      }
      calc {
        WithKey(Insert(t, p), k);
        WithKey([p] + t, k);
        { WithKeyConcat([p], t, k); WithKeySingle(p, k); }
        mark + WithKey(t, k);
        WithKey(t, k) + mark;
      }
    } else {
      var head := if t[0].z == k then [t[0]] else [];
      assert t == [t[0]] + t[1..];
      SortedTail(t);
      calc {
        WithKey(Insert(t, p), k);
        WithKey([t[0]] + Insert(t[1..], p), k);
        { WithKeyConcat([t[0]], Insert(t[1..], p), k); WithKeySingle(t[0], k); }
        head + WithKey(Insert(t[1..], p), k);
        { WithKeyInsert(t[1..], p, k); }
        head + (WithKey(t[1..], k) + mark);
        (head + WithKey(t[1..], k)) + mark;
        { WithKeyConcat([t[0]], t[1..], k); WithKeySingle(t[0], k); }
        WithKey(t, k) + mark;
      }
    }
  }

  /** The sort is stable: the entries sharing a position keep their
      relative order. */
  lemma {:induction false} SortByZStable(s: seq<Entry>, k: int)
    ensures WithKey(SortByZ(s), k) == WithKey(s, k)
    decreases |s|
  {
    if s != [] {
      var s' := s[..|s| - 1];
      var p := s[|s| - 1];
      assert s == s' + [p];
      calc {
        WithKey(SortByZ(s), k);
        WithKey(Insert(SortByZ(s'), p), k);
        { WithKeyInsert(SortByZ(s'), p, k); }
        WithKey(SortByZ(s'), k) + (if p.z == k then [p] else []);
        { SortByZStable(s', k); WithKeySingle(p, k); }
        WithKey(s', k) + WithKey([p], k);
        { WithKeyConcat(s', [p], k); }
        WithKey(s' + [p], k);
      }
    }
  }

  /** The names of the entries, in order. */
  function Names(s: seq<Entry>): (r: seq<string>)
    ensures |r| == |s|
    ensures forall i :: 0 <= i < |s| ==> r[i] == s[i].name
  {
    seq(|s|, i requires 0 <= i < |s| => s[i].name)
  }

  /** Collects the back-to-front name list: the shapes that report a
      position, sorted ascending by it (stably), reduced to their names. */
  method CollectZOrder(shapes: seq<ShapeZ>) returns (names: seq<string>)
    ensures names == Names(SortByZ(WithZ(shapes)))
  {
    var pairs: seq<Entry> := [];
    var i := 0;
    while i < |shapes|
      invariant 0 <= i <= |shapes|
      invariant pairs == WithZ(shapes[..i])
    {
      assert shapes[..i + 1][..i] == shapes[..i];
      var z := shapes[i].z;
      if z.Some? {
        pairs := pairs + [Entry(z.value, shapes[i].name)];
      }
      i := i + 1;
    }
    assert shapes[..|shapes|] == shapes;
    names := Names(SortByZ(pairs));
  }

  /** The collected names are those of the shapes that report a position,
      each as often as it occurs, listed by ascending position, and shapes
      sharing a position keep their sheet order. */
  lemma CollectedOrder(shapes: seq<ShapeZ>, k: int)
    ensures var e := SortByZ(WithZ(shapes));
      SortedByZ(e) && multiset(e) == multiset(WithZ(shapes)) &&
      WithKey(e, k) == WithKey(WithZ(shapes), k) &&
      (forall x :: x in e <==> ShapeZ(x.name, Some(x.z)) in shapes)
  {
    var e := SortByZ(WithZ(shapes));
    SortByZStable(WithZ(shapes), k);
    forall x
      ensures x in e <==> ShapeZ(x.name, Some(x.z)) in shapes
    {
      assert x in e <==> x in multiset(e);
      WithZMembers(shapes, x);
    }
  }

  /** The saved names after replacement: a replaced picture's old name is
      looked up in the rename map, other names are kept. */
  function Renamed(names: seq<string>, renames: map<string, string>): (r: seq<string>)
    ensures |r| == |names|
    ensures forall i :: 0 <= i < |names| ==>
              r[i] == (if names[i] in renames then renames[names[i]] else names[i])
  {
    seq(|names|, i requires 0 <= i < |names| => if names[i] in renames then renames[names[i]] else names[i])
  }

  /** Renaming keeps a list without repetitions so when no two saved names
      are renamed to the same name and no new name equals a kept name. */
  lemma RenamedDistinct(names: seq<string>, renames: map<string, string>)
    requires Distinct(names)
    requires forall a, b :: a in renames && b in renames && a != b ==> renames[a] != renames[b]
    requires forall a, y :: a in renames && y in names && y !in renames ==> renames[a] != y
    ensures Distinct(Renamed(names, renames))
  {
  }
}
