// The two list-building patterns the source repeats: "for each item, skip
// it or append what it becomes" and "append the value unless it is already
// in the list" (ordered de-duplication).

module Lists {
  import opened PyValue

  // ---------------------------------------------------------------------
  // Filter-and-transform

  /** What a loop `for x in xs: if <skip>: continue; out.append(<f(x)>)` leaves in `out`. */
  function FilterMap<A, B>(xs: seq<A>, f: A --> Option<B>): seq<B>
    requires Accepts(xs, f)
  {
    if xs == [] then []
    else FilterMap(xs[..|xs| - 1], f) + Kept(f(xs[|xs| - 1]))
  }

  /** `f` can be applied to every item. */
  ghost predicate Accepts<A, B>(xs: seq<A>, f: A --> Option<B>) {
    forall i :: 0 <= i < |xs| ==> f.requires(xs[i])
  }

  function Kept<B>(o: Option<B>): seq<B> {
    match o
    case Some(y) => [y]
    case None => []
  }

  lemma {:induction false} FilterMapConcat<A, B>(xs: seq<A>, ys: seq<A>, f: A --> Option<B>)
    requires Accepts(xs, f) && Accepts(ys, f)
    ensures Accepts(xs + ys, f)
    ensures FilterMap(xs + ys, f) == FilterMap(xs, f) + FilterMap(ys, f)
    decreases |ys|
  {
    if ys == [] {
      assert xs + ys == xs;
    } else {
      var ys' := ys[..|ys| - 1];
      assert (xs + ys)[..|xs + ys| - 1] == xs + ys';
      FilterMapConcat(xs, ys', f);
    }
  }

  /** One more step of the loop over `xs`: the item at `i` is kept or skipped. */
  lemma FilterMapSnoc<A, B>(xs: seq<A>, i: nat, f: A --> Option<B>)
    requires i < |xs| && Accepts(xs, f)
    ensures Accepts(xs[..i], f) && Accepts(xs[..i + 1], f)
    ensures FilterMap(xs[..i + 1], f) == FilterMap(xs[..i], f) + Kept(f(xs[i]))
  {
    assert xs[..i + 1][..i] == xs[..i];
  }

  /** The loop seen from the front: the first item, then the rest. */
  lemma FilterMapCons<A, B>(xs: seq<A>, f: A --> Option<B>)
    requires xs != [] && Accepts(xs, f)
    ensures Accepts(xs[1..], f)
    ensures FilterMap(xs, f) == Kept(f(xs[0])) + FilterMap(xs[1..], f)
  {
    var h, t := [xs[0]], xs[1..];
    assert h + t == xs;
    FilterMapSingle(xs[0], f);
    assert Accepts(t, f) by {
      forall i | 0 <= i < |t| ensures f.requires(t[i]) {
        assert t[i] == xs[i + 1];
      }
    }
    FilterMapConcat(h, t, f);
  }

  lemma FilterMapSingle<A, B>(x: A, f: A --> Option<B>)
    requires f.requires(x)
    ensures Accepts([x], f) && FilterMap([x], f) == Kept(f(x))
  {
    assert [x][..0] == [];
  }

  /** An element is kept exactly when some input item turns into it; nothing else gets in. */
  lemma {:induction false} FilterMapMember<A, B>(xs: seq<A>, f: A --> Option<B>, y: B)
    requires Accepts(xs, f)
    ensures y in FilterMap(xs, f) <==> exists i :: 0 <= i < |xs| && f(xs[i]) == Some(y)
  {
    if xs != [] {
      var n := |xs| - 1;
      var xs' := xs[..n];
      FilterMapMember(xs', f, y);
      assert FilterMap(xs, f) == FilterMap(xs', f) + Kept(f(xs[n]));
      if y in FilterMap(xs', f) {
        var i :| 0 <= i < |xs'| && f(xs'[i]) == Some(y);
        assert xs[i] == xs'[i];
      }
      if exists i :: 0 <= i < |xs| && f(xs[i]) == Some(y) {
        var i :| 0 <= i < |xs| && f(xs[i]) == Some(y);
        if i < n {
          assert xs'[i] == xs[i];
        } else {
          assert y in Kept(f(xs[n]));
        }
      }
    }
  }

  lemma {:induction false} FilterMapLength<A, B>(xs: seq<A>, f: A --> Option<B>)
    requires Accepts(xs, f)
    ensures |FilterMap(xs, f)| <= |xs|
  {
    if xs != [] {
      FilterMapLength(xs[..|xs| - 1], f);
    }
  }

  /** Nothing is kept exactly when every item is skipped. */
  lemma {:induction false} FilterMapEmpty<A, B>(xs: seq<A>, f: A --> Option<B>)
    requires Accepts(xs, f)
    ensures FilterMap(xs, f) == [] <==> forall i :: 0 <= i < |xs| ==> f(xs[i]).None?
  {
    if xs != [] {
      var xs' := xs[..|xs| - 1];
      FilterMapEmpty(xs', f);
      assert forall i :: 0 <= i < |xs'| ==> xs'[i] == xs[i];
    }
  }

  /** A property every produced value has holds of every kept value. */
  lemma {:induction false} FilterMapAll<A, B>(xs: seq<A>, f: A --> Option<B>, P: B -> bool)
    requires Accepts(xs, f)
    requires forall i :: 0 <= i < |xs| && f(xs[i]).Some? ==> P(f(xs[i]).value)
    ensures forall k :: 0 <= k < |FilterMap(xs, f)| ==> P(FilterMap(xs, f)[k])
  {
    if xs != [] {
      var xs' := xs[..|xs| - 1];
      assert forall i :: 0 <= i < |xs'| ==> xs'[i] == xs[i];
      FilterMapAll(xs', f, P);
    }
  }

  /** When each kept value carries the rank of the item it came from and the
      items' ranks increase, the kept values' ranks increase and stay within
      the items' range. */
  lemma {:induction false} FilterMapIncreasing<A, B>(xs: seq<A>, f: A --> Option<B>,
                                                     key: A -> int, rank: B -> int, lo: int, hi: int)
    requires Accepts(xs, f)
    requires forall i :: 0 <= i < |xs| && f(xs[i]).Some? ==> rank(f(xs[i]).value) == key(xs[i])
    requires forall i, j :: 0 <= i < j < |xs| ==> key(xs[i]) < key(xs[j])
    requires forall i :: 0 <= i < |xs| ==> lo <= key(xs[i]) <= hi
    ensures forall k :: 0 <= k < |FilterMap(xs, f)| ==> lo <= rank(FilterMap(xs, f)[k]) <= hi
    ensures forall k, l :: 0 <= k < l < |FilterMap(xs, f)| ==>
      rank(FilterMap(xs, f)[k]) < rank(FilterMap(xs, f)[l])
  {
    if xs != [] {
      var n := |xs| - 1;
      var xs' := xs[..n];
      assert forall i :: 0 <= i < |xs'| ==> xs'[i] == xs[i];
      var r', r := FilterMap(xs', f), FilterMap(xs, f);
      assert r == r' + Kept(f(xs[n]));
      FilterMapIncreasing(xs', f, key, rank, lo, key(xs[n]) - 1);
      assert lo <= key(xs[n]) <= hi;
      forall k | 0 <= k < |r'| ensures r[k] == r'[k] && lo <= rank(r[k]) < key(xs[n]) {
      }
      if f(xs[n]).Some? {
        assert r[|r| - 1] == f(xs[n]).value;
        assert rank(r[|r| - 1]) == key(xs[n]);
      } else {
        assert r == r';
      }
    }
  }

  /** `enumerate(xs, start=start)` */
  function Enumerate<A>(xs: seq<A>, start: int): (r: seq<(int, A)>)
    ensures |r| == |xs| && forall i :: 0 <= i < |xs| ==> r[i] == (start + i, xs[i])
  {
    seq(|xs|, i requires 0 <= i < |xs| => (start + i, xs[i]))
  }

  /** The loop itself. */
  method Collect<A, B>(xs: seq<A>, f: A --> Option<B>) returns (out: seq<B>)
    requires Accepts(xs, f)
    ensures out == FilterMap(xs, f)
  {
    out := [];
    for i := 0 to |xs|
      invariant out == FilterMap(xs[..i], f)
    {
      assert xs[..i + 1][..i] == xs[..i];
      match f(xs[i]) {
        case Some(y) => out := out + [y];
        case None =>
      }
    }
    assert xs[..|xs|] == xs;
  }

  // ---------------------------------------------------------------------
  // Ordered de-duplication

  predicate NoDuplicates<A(==)>(s: seq<A>) {
    forall i, j :: 0 <= i < j < |s| ==> s[i] != s[j]
  }

  /** `if x not in acc: acc.append(x)` */
  function AppendNew<A(==)>(acc: seq<A>, x: A): seq<A> {
    if x in acc then acc else acc + [x]
  }

  /** `for x in xs: if x not in acc: acc.append(x)` */
  function DedupInto<A(==)>(acc: seq<A>, xs: seq<A>): seq<A> {
    if xs == [] then acc else AppendNew(DedupInto(acc, xs[..|xs| - 1]), xs[|xs| - 1])
  }

  /** The list keeps what it had, in front, and gains exactly the new values, each once. */
  lemma {:induction false} DedupIntoSpec<A>(acc: seq<A>, xs: seq<A>)
    requires NoDuplicates(acc)
    ensures var r := DedupInto(acc, xs);
      NoDuplicates(r) && |acc| <= |r| && r[..|acc|] == acc &&
      (forall x :: x in r <==> x in acc || x in xs)
  {
    if xs != [] {
      DedupIntoSpec(acc, xs[..|xs| - 1]);
      var r' := DedupInto(acc, xs[..|xs| - 1]);
      assert forall x :: x in xs <==> x in xs[..|xs| - 1] || x == xs[|xs| - 1];
      if xs[|xs| - 1] !in r' {
        assert (r' + [xs[|xs| - 1]])[..|acc|] == r'[..|acc|];
      }
    }
  }

  lemma {:induction false} DedupIntoConcat<A>(acc: seq<A>, xs: seq<A>, ys: seq<A>)
    ensures DedupInto(acc, xs + ys) == DedupInto(DedupInto(acc, xs), ys)
    decreases |ys|
  {
    if ys == [] {
      assert xs + ys == xs;
    } else {
      assert (xs + ys)[..|xs + ys| - 1] == xs + ys[..|ys| - 1];
      DedupIntoConcat(acc, xs, ys[..|ys| - 1]);
    }
  }

  /** One more loop step: a kept value is appended unless already present. */
  lemma DedupIntoKept<A>(acc: seq<A>, xs: seq<A>, o: Option<A>)
    ensures DedupInto(acc, xs + Kept(o)) ==
      if o.Some? then AppendNew(DedupInto(acc, xs), o.value) else DedupInto(acc, xs)
  {
    DedupIntoConcat(acc, xs, Kept(o));
    if o.Some? {
      assert [o.value][..0] == [];
    }
  }

  /** Index of the first occurrence. */
  function FirstIndex<A(==)>(xs: seq<A>, x: A): (i: nat)
    requires x in xs
    ensures i < |xs| && xs[i] == x && x !in xs[..i]
  {
    if xs[0] == x then 0 else 1 + FirstIndex(xs[1..], x)
  }

  /** Index of the first element satisfying `P`, or `|xs|` when none does. */
  function FirstWhere<A>(xs: seq<A>, P: A -> bool): (i: nat)
    ensures i <= |xs| && (i < |xs| ==> P(xs[i]))
    ensures forall j :: 0 <= j < i ==> !P(xs[j])
  {
    if xs == [] || P(xs[0]) then 0 else 1 + FirstWhere(xs[1..], P)
  }

  lemma FirstIndexPrefix<A>(xs: seq<A>, n: nat, x: A)
    requires n <= |xs| && x in xs[..n]
    ensures FirstIndex(xs, x) == FirstIndex(xs[..n], x)
  {
    var i := FirstIndex(xs[..n], x);
    var j := FirstIndex(xs, x);
    assert xs[..n][..i] == xs[..i];
  }

  /** First-seen order: values come out in the order of their first occurrence. */
  lemma {:induction false} DedupFirstSeen<A>(xs: seq<A>)
    ensures var r := DedupInto([], xs);
      (forall k :: 0 <= k < |r| ==> r[k] in xs) &&
      (forall i, j :: 0 <= i < j < |r| ==> FirstIndex(xs, r[i]) < FirstIndex(xs, r[j]))
  {
    DedupIntoSpec([], xs);
    if xs != [] {
      DedupFirstSeen(xs[..|xs| - 1]);
      FirstSeenStep(xs);
    }
  }

  /** One more item keeps the first-seen order. */
  lemma FirstSeenStep<A>(xs: seq<A>)
    requires xs != []
    requires var xs' := xs[..|xs| - 1]; var r' := DedupInto([], xs');
      (forall k :: 0 <= k < |r'| ==> r'[k] in xs') &&
      (forall i, j :: 0 <= i < j < |r'| ==> FirstIndex(xs', r'[i]) < FirstIndex(xs', r'[j]))
    ensures var r := DedupInto([], xs);
      (forall k :: 0 <= k < |r| ==> r[k] in xs) &&
      (forall i, j :: 0 <= i < j < |r| ==> FirstIndex(xs, r[i]) < FirstIndex(xs, r[j]))
  {
    DedupIntoSpec([], xs);
    var n := |xs| - 1;
    var xs' := xs[..n];
    var r' := DedupInto([], xs');
    DedupIntoSpec([], xs');
    forall k | 0 <= k < |r'| ensures r'[k] in xs && FirstIndex(xs, r'[k]) == FirstIndex(xs', r'[k]) {
      assert r'[k] in r';
      FirstIndexPrefix(xs, n, r'[k]);
    }
    if xs[n] !in r' {
      assert xs[n] !in xs';
      var r := r' + [xs[n]];
      assert DedupInto([], xs) == r;
      forall i, j | 0 <= i < j < |r| ensures FirstIndex(xs, r[i]) < FirstIndex(xs, r[j]) {
        if j == |r'| {
          assert FirstIndex(xs, r[j]) == n;
        } else {
          assert r[i] == r'[i] && r[j] == r'[j];
        }
      }
    } else {
      assert DedupInto([], xs) == r';
    }
  }

  /** `for x in xs: y = <f(x)>; if <y kept> and y not in acc: acc.append(y)` */
  method AppendNewKept<A, B(==)>(xs: seq<A>, f: A --> Option<B>, acc: seq<B>) returns (out: seq<B>)
    requires Accepts(xs, f)
    ensures out == DedupInto(acc, FilterMap(xs, f))
  {
    out := acc;
    for i := 0 to |xs|
      invariant out == DedupInto(acc, FilterMap(xs[..i], f))
    {
      assert xs[..i + 1][..i] == xs[..i];
      var y := f(xs[i]);
      DedupIntoKept(acc, FilterMap(xs[..i], f), y);
      if y.Some? && y.value !in out {
        out := out + [y.value];
      }
    }
    assert xs[..|xs|] == xs;
  }
}
