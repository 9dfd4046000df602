/** Facts about cutting and extending ordered maps. */
module MapFacts {
  import opened Keys
  import opened OrderedMaps

  /** A position that separates the keys below `k` from the others is the rank of `k`. */
  lemma RankIs<V>(m: seq<Entry<V>>, k: Key, n: nat)
    requires Sorted(m) && n <= |m|
    requires forall i | 0 <= i < n :: Less(m[i].key, k)
    requires forall i | n <= i < |m| :: !Less(m[i].key, k)
    ensures Rank(m, k) == n
  {
  }

  /** A position that separates the keys beyond a bound from the others is the cut of that bound. */
  lemma CutIs<V>(m: seq<Entry<V>>, b: Bound, n: nat)
    requires Sorted(m) && n <= |m|
    requires forall i | 0 <= i < n :: !Beyond(b, m[i].key)
    requires forall i | n <= i < |m| :: Beyond(b, m[i].key)
    ensures Cut(m, b) == n
  {
    var r := Cut(m, b);
    assert r < |m| ==> Beyond(b, m[r].key);
    assert n < |m| ==> Beyond(b, m[n].key);
  }

  lemma SortedConcat<V>(a: seq<Entry<V>>, b: seq<Entry<V>>)
    requires Sorted(a) && Sorted(b)
    requires a != [] && b != [] ==> Less(a[|a| - 1].key, b[0].key)
    ensures Sorted(a + b)
  {
  }

  /** An ordered map is determined by its set of entries. */
  lemma {:induction false} SameEntries<V>(m: seq<Entry<V>>, n: seq<Entry<V>>)
    requires Sorted(m) && Sorted(n)
    requires forall x :: x in m <==> x in n
    ensures m == n
  {
    assert m != [] ==> m[0] in m;
    assert n != [] ==> n[0] in n;
    if m != [] {
      var x, y := m[|m| - 1], n[|n| - 1];
      assert x in n && y in m;
      assert x == y;
      var m', n' := m[..|m| - 1], n[..|n| - 1];
      forall z
        ensures z in m' <==> z in n'
      {
        if z in m' { assert z in n; }
        if z in n' { assert z in m; }
      }
      SameEntries(m', n');
    }
  }

  /** A bound that lies inside a prefix cuts the prefix and the whole at the same place. */
  lemma CutPrefix<V>(p: seq<Entry<V>>, m: seq<Entry<V>>, b: Bound)
    requires Sorted(m) && p <= m
    requires forall i | |p| <= i < |m| :: Beyond(b, m[i].key)
    ensures Sorted(p) && Cut(m, b) == Cut(p, b)
    ensures After(p, b) <= After(m, b)
  {
    CutIs(m, b, Cut(p, b));
  }

  /** When the entry at `n` is not below `key`, cutting at `key` may be done on the first `n` entries. */
  lemma RankBelow<V>(m: seq<Entry<V>>, key: Key, n: nat)
    requires Sorted(m) && n <= |m| && (n < |m| ==> !Less(m[n].key, key))
    ensures Sorted(m[..n]) && Below(m, key) == Below(m[..n], key)
  {
    RankIs(m, key, Rank(m[..n], key));
  }

  lemma BelowBelow<V>(m: seq<Entry<V>>, low: Key, key: Key)
    requires Sorted(m) && !Less(key, low)
    ensures Below(Below(m, key), low) == Below(m, low)
  {
    assert Rank(m, key) < |m| ==> !Less(m[Rank(m, key)].key, key);
    RankIs(Below(m, key), low, Rank(m, low));
  }

  lemma BelowConcat<V>(a: seq<Entry<V>>, b: seq<Entry<V>>, key: Key)
    requires Sorted(a + b) && Sorted(b)
    requires a != [] ==> Less(a[|a| - 1].key, key)
    ensures Below(a + b, key) == a + Below(b, key)
  {
    var n := |a| + Rank(b, key);
    forall i | 0 <= i < |a|
      ensures Less((a + b)[i].key, key)
    {
      assert (a + b)[i] == a[i] && (a + b)[|a| - 1] == a[|a| - 1];
    }
    RankIs(a + b, key, n);
  }

  lemma BelowAfter<V>(m: seq<Entry<V>>, b: Bound, key: Key)
    requires Sorted(m)
    ensures Below(After(m, b), key) == After(Below(m, key), b)
  {
    var c, n := Cut(m, b), Rank(m, key);
    if c <= n {
      RankIs(After(m, b), key, n - c);
      CutIs(Below(m, key), b, c);
    } else {
      RankIs(After(m, b), key, 0);
      CutIs(Below(m, key), b, n);
    }
  }

  lemma FromConcat<V>(a: seq<Entry<V>>, b: seq<Entry<V>>, key: Key)
    requires Sorted(a + b) && Sorted(a) && (b != [] ==> !Less(b[0].key, key))
    ensures From(a + b, key) == From(a, key) + b && Below(a + b, key) == Below(a, key)
  {
    var m := a + b;
    assert b != [] ==> m[|a|] == b[0];
    assert m[..|a|] == a;
    RankBelow(m, key, |a|);
    assert Rank(m, key) == |Below(m, key)| == Rank(a, key);
  }

  lemma AllBelow<V>(m: seq<Entry<V>>, key: Key)
    requires Sorted(m) && (m != [] ==> Less(m[|m| - 1].key, key))
    ensures Below(m, key) == m && From(m, key) == []
  {
  }

  lemma BelowFrom<V>(m: seq<Entry<V>>, key: Key)
    requires Sorted(m)
    ensures m == Below(m, key) + From(m, key)
  {
  }

  /** Cutting at a key and then at a later key. */
  lemma FromThenBelow<V>(m: seq<Entry<V>>, key: Key, later: Key)
    requires Sorted(m) && !Less(later, key)
    ensures Below(From(m, key), later) == From(Below(m, later), key)
  {
    hide Rank;
    var n, n' := Rank(m, key), Rank(m, later);
    assert n > 0 ==> Less(m[n - 1].key, key);
    assert n' < |m| ==> !Less(m[n'].key, later);
    RankIs(Below(m, later), key, n);
    RankIs(From(m, key), later, n' - n);
  }

  lemma FromThenAfter<V>(m: seq<Entry<V>>, key: Key, later: Key)
    requires Sorted(m) && !Less(later, key)
    ensures After(From(m, key), Excluded(later)) == After(m, Excluded(later))
  {
    var n, n' := Rank(m, key), Cut(m, Excluded(later));
    assert n > 0 ==> Less(m[n - 1].key, key);
    assert n' < |m| ==> Beyond(Excluded(later), m[n'].key);
    CutIs(From(m, key), Excluded(later), n' - n);
  }

  lemma AfterThenFrom<V>(m: seq<Entry<V>>, b: Bound, key: Key)
    requires Sorted(m) && (b.Excluded? ==> Less(b.key, key))
    ensures From(After(m, b), key) == From(m, key)
  {
    var c, n := Cut(m, b), Rank(m, key);
    assert c > 0 ==> !Beyond(b, m[c - 1].key);
    assert n < |m| ==> !Less(m[n].key, key);
    RankIs(After(m, b), key, n - c);
  }

  lemma SortedParts<V>(m: seq<Entry<V>>, n: nat)
    requires Sorted(m) && n < |m|
    ensures Sorted(m[..n]) && Sorted(m[n..])
    ensures n == |m| - 1 ==> m == m[..n] + [m[n]]
  {
  }

  lemma CancelPrefix<V>(a: seq<V>, b: seq<V>, c: seq<V>)
    requires a + b == a + c
    ensures b == c
  {
    assert b == (a + b)[|a|..] && c == (a + c)[|a|..];
  }

  lemma ConcatAssociative<V>(a: seq<V>, b: seq<V>, c: seq<V>)
    ensures (a + b) + c == a + (b + c)
  {
  }

  lemma InsertContents<V>(m: seq<Entry<V>>, k: Key, v: V)
    requires Sorted(m)
    ensures Has(Insert(m, k, v), k)
    ensures Entry(k, v) in Insert(m, k, v)
    ensures forall x | x in m && x.key != k :: x in Insert(m, k, v)
    ensures forall x | x in Insert(m, k, v) :: x == Entry(k, v) || x in m
  {
    var r := Insert(m, k, v);
    assert r[Rank(m, k)] == Entry(k, v);
    forall x | x in m && x.key != k
      ensures x in r
    {
      var i :| 0 <= i < |m| && m[i] == x;
      if Less(x.key, k) {
        assert r[i] == x;
      } else {
        assert x == After(m, Excluded(k))[i - Cut(m, Excluded(k))];
      }
    }
  }

  lemma InsertAtEnd<V>(m: seq<Entry<V>>, key: Key, v: V)
    requires Sorted(m) && From(m, key) == []
    ensures Insert(m, key, v) == m + [Entry(key, v)]
  {
  }

  lemma NothingFrom<V>(m: seq<Entry<V>>, key: Key)
    requires Sorted(m) && From(m, key) == []
    ensures Below(m, key) == m && (m != [] ==> Less(m[|m| - 1].key, key))
  {
  }

  lemma AfterSnoc<V>(m: seq<Entry<V>>, x: Entry<V>, b: Bound)
    requires Sorted(m + [x]) && Sorted(m) && Beyond(b, x.key)
    ensures After(m + [x], b) == After(m, b) + [x]
  {
  }

  lemma LastAt<V>(m: seq<Entry<V>>, key: Key) returns (last: Entry<V>)
    requires Sorted(m) && From(m, key) != [] && After(m, Excluded(key)) == []
    ensures m != [] && last == m[|m| - 1] && last.key == key
    ensures Insert(m, key, last.value) == m
  {
    last := m[|m| - 1];
    assert Rank(m, key) < |m| == Cut(m, Excluded(key));
    assert !Less(m[|m| - 1].key, key) && !Beyond(Excluded(key), m[|m| - 1].key);
    RankIs(m, key, |m| - 1);
  }

  lemma InsertTail<V>(m: seq<Entry<V>>, key: Key, v: V)
    requires Sorted(m)
    ensures Below(m, key) <= Insert(m, key, v)
    ensures var r := Insert(m, key, v);
      forall i | |Below(m, key)| <= i < |r| :: !Less(r[i].key, key)
  {
  }

  lemma BelowLess<V>(m: seq<Entry<V>>, key: Key)
    requires Sorted(m)
    ensures forall x | x in Below(m, key) :: Less(x.key, key)
  {
  }

  lemma UpToFrom<V>(m: seq<Entry<V>>, drop: Key, key: Key)
    requires Sorted(m) && !Less(key, drop)
    ensures UpTo(m, key) == Below(m, drop) + UpTo(From(m, drop), key)
    ensures Has(From(m, drop), key) <==> Has(m, key)
  {
  }

  lemma FromAtLeast<V>(m: seq<Entry<V>>, drop: Key, key: Key)
    requires Sorted(m)
    ensures var kept := UpTo(From(m, drop), key);
      kept != [] ==> !Less(kept[|kept| - 1].key, drop)
  {
  }

  lemma AfterAll<V>(m: seq<Entry<V>>)
    requires Sorted(m)
    ensures After(m, Unbounded) == m
  {
  }

  lemma NotHasUpTo<V>(m: seq<Entry<V>>, key: Key)
    requires Sorted(m) && UpTo(m, key) == []
    ensures !Has(m, key)
  {
  }

  lemma SplitAfter<V>(m: seq<Entry<V>>, b: Bound, drop: Key)
    requires Sorted(m) && (b.Excluded? ==> Less(b.key, drop))
    ensures After(m, b) == After(Below(m, drop), b) + From(m, drop)
  {
    BelowAfter(m, b, drop);
    AfterThenFrom(m, b, drop);
    BelowFrom(After(m, b), drop);
  }

  lemma FromFrom<V>(m: seq<Entry<V>>, low: Key, high: Key)
    requires Sorted(m) && !Less(high, low)
    ensures From(From(m, low), high) == From(m, high)
  {
    var n, n' := Rank(m, low), Rank(m, high);
    assert n > 0 ==> Less(m[n - 1].key, low);
    assert n' < |m| ==> !Less(m[n'].key, high);
    RankIs(From(m, low), high, n' - n);
  }

  /** Cutting an extended map below or from the floor, when the extension lies at or above the floor. */
  lemma InsertAbove<V>(m: seq<Entry<V>>, floor: Key, key: Key, v: V)
    requires Sorted(m) && !Less(key, floor)
    ensures Below(Insert(m, key, v), floor) == Below(m, floor)
    ensures From(Insert(m, key, v), floor) == Insert(From(m, floor), key, v)
    ensures Has(From(m, floor), key) <==> Has(m, key)
  {
    hide Rank, Cut;
    FromThenBelow(m, floor, key);
    FromThenAfter(m, floor, key);
    BelowBelow(m, floor, key);
    var low, rest := Below(m, key), [Entry(key, v)] + After(m, Excluded(key));
    ConcatAssociative(low, [Entry(key, v)], After(m, Excluded(key)));
    FromConcat(low, rest, floor);
    ConcatAssociative(From(low, floor), [Entry(key, v)], After(m, Excluded(key)));
    UpToFrom(m, floor, key);
  }

  lemma FromTwice<V>(m: seq<Entry<V>>, low: Key, high: Key)
    requires Sorted(m) && !Less(high, low)
    ensures From(From(m, high), low) == From(m, high) && Below(From(m, high), low) == []
  {
    RankIs(From(m, high), low, 0);
  }

  lemma InsertAfter<V>(m: seq<Entry<V>>, key: Key, above: Key, v: V)
    requires Sorted(m) && Less(key, above)
    ensures After(Insert(m, above, v), Excluded(key)) == Insert(After(m, Excluded(key)), above, v)
  {
    hide Rank, Cut;
    var low, high := Below(m, above), After(m, Excluded(above));
    AfterConcat(low, [Entry(above, v)], high, key);
    BelowAfter(m, Excluded(key), above);
    AfterAfter(m, key, above);
  }

  lemma AfterConcat<V>(low: seq<Entry<V>>, mid: seq<Entry<V>>, high: seq<Entry<V>>, key: Key)
    requires Sorted(low + mid + high) && Sorted(low) && mid != [] && Less(key, mid[0].key)
    ensures After(low + mid + high, Excluded(key)) == After(low, Excluded(key)) + mid + high
  {
    var m := low + mid + high;
    assert m[|low|] == mid[0];
    assert m[..|low|] == low;
    assert forall i | |low| < i < |m| :: Less(m[|low|].key, m[i].key);
    CutIs(m, Excluded(key), Cut(low, Excluded(key)));
  }

  lemma AfterKeeps<V>(m: seq<Entry<V>>, key: Key, above: Key)
    requires Sorted(m) && Less(key, above)
    ensures Has(After(m, Excluded(key)), above) <==> Has(m, above)
    ensures From(After(m, Excluded(key)), above) == From(m, above)
  {
    var c, n := Cut(m, Excluded(key)), Rank(m, above);
    assert c > 0 ==> !Beyond(Excluded(key), m[c - 1].key);
    assert n < |m| ==> !Less(m[n].key, above);
    RankIs(After(m, Excluded(key)), above, n - c);
  }

  lemma FromLast<V>(m: seq<Entry<V>>, key: Key)
    requires Sorted(m)
    ensures From(m, key) != [] ==> !Less(m[|m| - 1].key, key)
  {
  }

  lemma AfterAfter<V>(m: seq<Entry<V>>, key: Key, later: Key)
    requires Sorted(m) && !Less(later, key)
    ensures After(After(m, Excluded(key)), Excluded(later)) == After(m, Excluded(later))
  {
    hide Cut, Rank, Has;
    var c, c' := Cut(m, Excluded(key)), Cut(m, Excluded(later));
    assert c > 0 ==> !Beyond(Excluded(key), m[c - 1].key);
    assert c' < |m| ==> Beyond(Excluded(later), m[c'].key);
    CutIs(After(m, Excluded(key)), Excluded(later), c' - c);
  }

  lemma InsertFrom<V>(m: seq<Entry<V>>, key: Key, above: Key, v: V)
    requires Sorted(m) && Less(key, above) && From(m, key) != [] && From(m, key)[0].key == key
    ensures From(Insert(m, above, v), key) == Insert(From(m, key), above, v)
    ensures From(Insert(m, above, v), key) != [] && From(Insert(m, above, v), key)[0] == From(m, key)[0]
  {
    InsertAbove(m, key, above, v);
  }

  lemma KeepAbove<V>(m: seq<Entry<V>>, key: Key, ek: Key)
    requires Sorted(m) && Less(key, ek) && From(m, key) != [] && From(m, key)[0].key == key
    ensures From(Below(m, ek), key) == Below(From(m, key), ek)
    ensures var keep := Below(From(m, key), ek);
      keep != [] && keep[0] == From(m, key)[0] && Below(m, ek) != []
      && Below(m, ek)[|Below(m, ek)| - 1] == keep[|keep| - 1] && !Less(keep[|keep| - 1].key, key)
  {
    FromThenBelow(m, key, ek);
  }

  lemma HasCons<V>(x: Entry<V>, m: seq<Entry<V>>, key: Key)
    requires Sorted([x] + m) && Sorted(m) && x.key != key
    ensures Has([x] + m, key) <==> Has(m, key)
  {
    if Has(m, key) {
      var i :| 0 <= i < |m| && m[i].key == key;
      assert ([x] + m)[i + 1].key == key;
    }
  }

  /** Cutting at a key that lies below everything past a prefix sees only the prefix. */
  lemma SamePrefixUpTo<V>(m: seq<Entry<V>>, p: seq<Entry<V>>, key: Key)
    requires Sorted(m) && p <= m && (|p| < |m| ==> Less(key, m[|p|].key))
    ensures Sorted(p) && UpTo(m, key) == UpTo(p, key) && (Has(m, key) <==> Has(p, key))
  {
  }

  lemma UpToIsBelow<V>(m: seq<Entry<V>>, key: Key)
    requires Sorted(m) && !Has(m, key)
    ensures UpTo(m, key) == Below(m, key)
  {
  }

  lemma NoneAt<V>(m: seq<Entry<V>>, part: seq<Entry<V>>, key: Key)
    requires Sorted(m) && Sorted(part) && !Has(m, key)
    requires forall x | x in part :: x in m
    ensures !Has(part, key)
  {
    forall i | 0 <= i < |part|
      ensures part[i].key != key
    {
      assert part[i] in m;
    }
  }

  lemma HasSnoc<V>(m: seq<Entry<V>>, x: Entry<V>, key: Key)
    requires Sorted(m) && Sorted(m + [x])
    ensures Has(m + [x], key) <==> Has(m, key) || x.key == key
    ensures Has(m, key) ==> Rank(m + [x], key) == Rank(m, key)
    ensures x.key == key ==> Rank(m + [x], key) == |m|
  {
    var n := m + [x];
    assert n[|m|] == x;
    if Less(x.key, key) {
      forall i | 0 <= i < |m|
        ensures Less(n[i].key, n[|m|].key) && m[i] == n[i]
      {
      }
      RankIs(n, key, |n|);
      RankIs(m, key, |m|);
    } else {
      RankIs(n, key, Rank(m, key));
      if x.key == key {
        forall i | 0 <= i < |m|
          ensures Less(m[i].key, key)
        {
          assert Less(n[i].key, n[|m|].key);
        }
        RankIs(m, key, |m|);
      }
    }
  }

  lemma AfterOfNothing<V>(m: seq<Entry<V>>, key: Key)
    requires Sorted(m) && From(m, key) == []
    ensures After(m, Excluded(key)) == [] && !Has(m, key)
  {
  }

  lemma EndsBelow<V>(m: seq<Entry<V>>, key: Key)
    requires Sorted(m) && (m != [] ==> Less(m[|m| - 1].key, key))
    ensures From(m, key) == []
  {
  }

  lemma InsertBelow<V>(m: seq<Entry<V>>, key: Key, v: V)
    requires Sorted(m)
    ensures Below(Insert(m, key, v), key) == Below(m, key)
  {
    RankIs(Insert(m, key, v), key, Rank(m, key));
  }

  /** A map is what lies below a key, the entry at the key if there is one, and what lies after it. */
  lemma SplitAround<V>(m: seq<Entry<V>>, key: Key, value: V)
    requires Sorted(m)
    ensures Insert(m, key, value) == Below(m, key) + ([Entry(key, value)] + After(m, Excluded(key)))
    ensures Has(m, key) ==>
      Rank(m, key) < |m| && m == Below(m, key) + ([m[Rank(m, key)]] + After(m, Excluded(key)))
    ensures !Has(m, key) ==> m == Below(m, key) + After(m, Excluded(key))
  {
    hide Rank, Cut, Has, Below, After;
    ConcatAssociative(Below(m, key), [Entry(key, value)], After(m, Excluded(key)));
    SplitThree(m, key);
  }

  lemma SplitThree<V>(m: seq<Entry<V>>, key: Key)
    requires Sorted(m)
    ensures Has(m, key) ==>
      Rank(m, key) < |m| && m == Below(m, key) + ([m[Rank(m, key)]] + After(m, Excluded(key)))
    ensures !Has(m, key) ==> m == Below(m, key) + After(m, Excluded(key))
  {
    hide Sorted;
    var n := Rank(m, key);
    if Has(m, key) {
      assert m[n..] == [m[n]] + m[n + 1..];
    }
    assert m == m[..n] + m[n..];
  }

  lemma HasBelow<V>(m: seq<Entry<V>>, key: Key, x: Key)
    requires Sorted(m) && Has(Below(m, key), x)
    ensures Has(m, x) && Less(x, key)
  {
    hide Rank;
    var p := Below(m, key);
    var i :| 0 <= i < |p| && p[i].key == x;
    assert m[i].key == x;
  }

  lemma HasAfter<V>(m: seq<Entry<V>>, key: Key, x: Key)
    requires Sorted(m) && Has(After(m, Excluded(key)), x)
    ensures Has(m, x) && Less(key, x)
  {
    hide Rank, Cut;
    var p := After(m, Excluded(key));
    var i :| 0 <= i < |p| && p[i].key == x;
    assert m[i + Cut(m, Excluded(key))].key == x;
  }

  lemma BelowIsPrefix<V>(m: seq<Entry<V>>, key: Key)
    requires Sorted(m)
    ensures var p := Below(m, key); p <= m && (|p| < |m| ==> !Less(m[|p|].key, key))
  {
  }

  lemma InsertLeavesBelow<S>(m: seq<Entry<S>>, key: Key, v: S, bound: Key)
    requires Sorted(m) && Less(bound, key)
    ensures UpTo(Insert(m, key, v), bound) == UpTo(m, bound) && (Has(Insert(m, key, v), bound) <==> Has(m, bound))
  {
    hide Rank, Cut, UpTo, Has;
    var keep := Below(m, key);
    BelowIsPrefix(m, key);
    SamePrefixUpTo(m, keep, bound);
    assert Insert(m, key, v)[|keep|] == Entry(key, v);
    SamePrefixUpTo(Insert(m, key, v), keep, bound);
  }

  lemma NothingPast<V>(m: seq<Entry<V>>, key: Key, bound: Key)
    requires Sorted(m) && (m != [] ==> !Less(key, m[|m| - 1].key))
    ensures After(Below(m, bound), Excluded(key)) == []
  {
  }

  lemma UpToConcat<V>(a: seq<Entry<V>>, b: seq<Entry<V>>, key: Key)
    requires Sorted(a + b) && Sorted(b) && (a != [] ==> Less(a[|a| - 1].key, key))
    ensures UpTo(a + b, key) == a + UpTo(b, key) && (Has(a + b, key) <==> Has(b, key))
  {
    hide Has, Cut, Sorted;
    var m, n := a + b, |a| + Cut(b, Excluded(key));
    assert forall i | 0 <= i < |a| :: m[i] == a[i];
    assert forall i | |a| <= i < |m| :: m[i] == b[i - |a|];
    FrontLess(m, |a|, key);
    CutIs(m, Excluded(key), n);
    HasBack(m, |a|, key);
    assert m[|a|..] == b;
  }

  lemma FrontLess<V>(m: seq<Entry<V>>, n: nat, key: Key)
    requires Sorted(m) && n <= |m| && (n > 0 ==> Less(m[n - 1].key, key))
    ensures forall i | 0 <= i < n :: Less(m[i].key, key)
  {
  }

  lemma HasBack<V>(m: seq<Entry<V>>, n: nat, key: Key)
    requires n <= |m| && Sorted(m) && Sorted(m[n..]) && forall i | 0 <= i < n :: Less(m[i].key, key)
    ensures Has(m, key) <==> Has(m[n..], key)
  {
    hide Sorted, Rank;
    var b := m[n..];
    if Has(b, key) {
      var i :| 0 <= i < |b| && b[i].key == key;
      assert m[n + i].key == key;
    }
  }

  lemma AfterParts<V>(m: seq<Entry<V>>, key: Key)
    requires Sorted(m)
    ensures var n := Cut(m, Excluded(key));
      && m == m[..n] + After(m, Excluded(key)) && (n > 0 ==> !Less(key, m[n - 1].key))
    ensures forall x | x in After(m, Excluded(key)) :: Less(key, x.key)
  {
    assert m[..Cut(m, Excluded(key))] + After(m, Excluded(key)) == m;
  }

  lemma InsertParts<V>(m: seq<Entry<V>>, key: Key, v: V)
    requires Sorted(m)
    ensures Insert(m, key, v) == Below(m, key) + [Entry(key, v)] + After(m, Excluded(key))
  {
  }

  lemma UpToReaches<V>(m: seq<Entry<V>>, key: Key)
    requires Sorted(m) && m != [] && !Less(key, m[0].key)
    ensures UpTo(m, key) != []
  {
    assert !Beyond(Excluded(key), m[0].key);
  }

  lemma UpToPrefix<V>(m: seq<Entry<V>>, key: Key)
    requires Sorted(m)
    ensures UpTo(m, key) <= m
  {
  }

  lemma InsertedAlready<V>(m: seq<Entry<V>>, key: Key, v: V)
    requires Sorted(m)
    ensures Insert(m, key, v) == m <==> Entry(key, v) in m
  {
    hide Rank, Cut, Has, Below, After;
    InsertContents(m, key, v);
    SplitAround(m, key, v);
    if Entry(key, v) in m {
      var i :| 0 <= i < |m| && m[i] == Entry(key, v);
      RankAt(m, i);
    }
  }

  lemma RankAt<V>(m: seq<Entry<V>>, i: nat)
    requires Sorted(m) && i < |m|
    ensures Rank(m, m[i].key) == i && Has(m, m[i].key)
  {
    RankIs(m, m[i].key, i);
  }

  lemma SplitAtEntry<V>(low: seq<Entry<V>>, c: Entry<V>, high: seq<Entry<V>>)
    requires Sorted(low + ([c] + high))
    ensures Below(low + ([c] + high), c.key) == low && From(low + ([c] + high), c.key) == [c] + high
    ensures Has(low + ([c] + high), c.key)
  {
    var m := low + ([c] + high);
    assert m[|low|] == c;
    RankIs(m, c.key, |low|);
  }

  lemma NotBelow<V>(keep: seq<Entry<V>>, c: Entry<V>)
    requires Sorted(keep) && (keep != [] ==> Less(keep[|keep| - 1].key, c.key))
    ensures c !in keep
  {
  }

  lemma InsertBefore<V>(low: seq<Entry<V>>, last: Entry<V>, key: Key, v: V)
    requires Sorted(low + [last]) && Sorted(low) && Less(key, last.key)
    ensures Insert(low + [last], key, v) == Insert(low, key, v) + [last]
  {
    hide Cut, Rank, Has;
    var m := low + [last];
    assert m[|low|] == last && m[..|low|] == low;
    assert forall i | 0 <= i < |low| :: m[i] == low[i];
    RankIs(m, key, Rank(low, key));
    CutIs(m, Excluded(key), Cut(low, Excluded(key)));
  }

  lemma InBelow<V>(m: seq<Entry<V>>, key: Key, x: Entry<V>)
    requires Sorted(m) && Less(x.key, key)
    ensures x in Below(m, key) <==> x in m
  {
    if x in m {
      var i :| 0 <= i < |m| && m[i] == x;
      assert Below(m, key)[i] == x;
    }
  }

  lemma InsertAndCut<V>(m: seq<Entry<V>>, key: Key, v: V, later: Key)
    requires Sorted(m) && Less(key, later)
    ensures Below(Insert(m, key, v), later) == Insert(Below(m, later), key, v)
  {
    hide Rank, Cut;
    BelowBelow(m, key, later);
    BelowAfter(m, Excluded(key), later);
    var low, high := Below(m, key) + [Entry(key, v)], After(m, Excluded(key));
    assert low[|low| - 1] == Entry(key, v);
    BelowConcat(low, high, later);
  }

  lemma InsertTwice<V>(m: seq<Entry<V>>, key: Key, v: V, w: V)
    requires Sorted(m)
    ensures Insert(Insert(m, key, v), key, w) == Insert(m, key, w)
  {
    hide Rank, Cut;
    var r := Insert(m, key, v);
    InsertBelow(m, key, v);
    AfterMiddle(Below(m, key), Entry(key, v), After(m, Excluded(key)));
  }

  lemma AfterMiddle<V>(low: seq<Entry<V>>, x: Entry<V>, high: seq<Entry<V>>)
    requires Sorted(low + [x] + high)
    ensures After(low + [x] + high, Excluded(x.key)) == high
  {
    var m := low + [x] + high;
    assert m[|low|] == x;
    CutIs(m, Excluded(x.key), |low| + 1);
  }

  lemma SameFront<V>(a: seq<V>, b: seq<V>, x: V)
    ensures a + [x] == b + [x] <==> a == b
  {
    assert (a + [x])[..|a + [x]| - 1] == a && (b + [x])[..|b + [x]| - 1] == b;
  }

  lemma NothingUnderFrom<V>(m: seq<Entry<V>>, drop: Key, key: Key)
    requires Sorted(m) && Less(key, drop)
    ensures var p := From(m, drop); UpTo(p, key) == Below(p, key) == [] && !Has(p, key)
  {
    var p := From(m, drop);
    RankIs(p, key, 0);
    CutIs(p, Excluded(key), 0);
  }

  lemma BelowSnoc<V>(m: seq<Entry<V>>, x: Entry<V>, bound: Key)
    requires Sorted(m) && Sorted(m + [x]) && Less(bound, x.key)
    ensures Below(m + [x], bound) == Below(m, bound)
  {
    assert (m + [x])[..|m|] == m && (m + [x])[|m|] == x;
    RankBelow(m + [x], bound, |m|);
  }

  lemma LastBefore<V>(m: seq<Entry<V>>, x: Entry<V>)
    requires Sorted(m + [x])
    ensures m != [] ==> Less(m[|m| - 1].key, x.key)
  {
    assert (m + [x])[|m|] == x;
    assert m != [] ==> (m + [x])[|m| - 1] == m[|m| - 1];
  }

  lemma ServesAtLeast<V>(m: seq<Entry<V>>, a: Entry<V>, bound: Key)
    requires Sorted(m) && a in m && !Less(bound, a.key)
    ensures var low := UpTo(m, bound); low != [] && !Less(low[|low| - 1].key, a.key)
  {
    var i :| 0 <= i < |m| && m[i] == a;
    assert !Beyond(Excluded(bound), m[i].key);
    assert i < Cut(m, Excluded(bound));
  }

  lemma PastFirst<V>(m: seq<Entry<V>>, key: Key, x: Entry<V>)
    requires Sorted(m) && x in m && Less(key, x.key)
    ensures After(m, Excluded(key)) != [] && !Less(x.key, After(m, Excluded(key))[0].key)
  {
    var i :| 0 <= i < |m| && m[i] == x;
    var c := Cut(m, Excluded(key));
    assert c <= i;
    assert c == i || Less(m[c].key, m[i].key);
  }

  lemma HasMeansSome<V>(m: seq<Entry<V>>, key: Key)
    requires Sorted(m) && Has(m, key)
    ensures m != []
  {
  }

  lemma AfterMeansSome<V>(m: seq<Entry<V>>, key: Key)
    requires Sorted(m) && After(m, Excluded(key)) != []
    ensures m != []
  {
  }

  lemma SplitBelowAt<V>(m: seq<Entry<V>>, key: Key, bound: Key)
    requires Sorted(m) && Less(key, bound)
    ensures Below(m, bound) == UpTo(m, key) + Below(After(m, Excluded(key)), bound)
  {
    BelowAfter(m, Excluded(key), bound);
    var n, c := Rank(m, bound), Cut(m, Excluded(key));
    assert c > 0 ==> !Beyond(Excluded(key), m[c - 1].key);
    assert c <= n;
    CutIs(Below(m, bound), Excluded(key), c);
  }

  lemma AllAfter<V>(m: seq<Entry<V>>, key: Key)
    requires Sorted(m) && forall x | x in m :: Less(key, x.key)
    ensures After(m, Excluded(key)) == m
  {
    CutIs(m, Excluded(key), 0) by {
      assert forall i | 0 <= i < |m| :: m[i] in m;
    }
  }

  lemma AfterMember<V>(m: seq<Entry<V>>, key: Key)
    requires Sorted(m) && After(m, Excluded(key)) != []
    ensures var x := After(m, Excluded(key))[0]; x in m && Less(key, x.key)
  {
    assert Beyond(Excluded(key), m[Cut(m, Excluded(key))].key);
  }

  lemma NoneAbove<V>(m: seq<Entry<V>>, key: Key, above: Key)
    requires Sorted(m) && From(m, key) == [] && Less(key, above)
    ensures !Has(m, above)
  {
  }

  lemma NoneAfterLast<V>(m: seq<Entry<V>>, key: Key)
    requires Sorted(m) && (m != [] ==> !Less(key, m[|m| - 1].key))
    ensures After(m, Excluded(key)) == []
  {
    CutIs(m, Excluded(key), |m|);
  }

  lemma InsertedValue<V>(m: seq<Entry<V>>, key: Key, v: V, w: V)
    requires Sorted(m)
    ensures Entry(key, w) in Insert(m, key, v) <==> w == v
  {
    hide Rank, Cut, Has;
    InsertContents(m, key, v);
    var r := Insert(m, key, v);
    if Entry(key, w) in r {
      var i :| 0 <= i < |r| && r[i] == Entry(key, w);
      var j :| 0 <= j < |r| && r[j] == Entry(key, v);
      assert i == j;
    }
  }

  lemma NotAfterItself<V>(m: seq<Entry<V>>, key: Key)
    requires Sorted(m)
    ensures !Has(After(m, Excluded(key)), key)
  {
  }
}
