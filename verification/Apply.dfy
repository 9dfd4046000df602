/** The two in-place algorithms that maintain the checkpoint map. */
module Apply {
  import opened Keys
  import opened OrderedMaps
  import opened MapFacts
  import opened Domains
  import opened Multiples
  import opened Checkpoints
  import opened Histories
  import opened BTreeMaps

  function InsertAll<V>(m: seq<Entry<V>>, r: seq<Entry<V>>): (s: seq<Entry<V>>)
    requires Sorted(m)
    ensures Sorted(s)
  {
    if r == [] then m else
      var s := InsertAll(m, r[..|r| - 1]);
      Insert(s, r[|r| - 1].key, r[|r| - 1].value)
  }

  lemma {:induction false} InsertAllAppends<V>(m: seq<Entry<V>>, r: seq<Entry<V>>)
    requires Sorted(m) && Sorted(m + r)
    ensures InsertAll(m, r) == m + r
  {
    hide Insert, Rank;
    if r == [] {
      assert m + r == m;
    } else {
      var p, last := r[..|r| - 1], r[|r| - 1];
      assert m + p == (m + r)[..|m + p|];
      InsertAllAppends(m, p);
      assert (m + r)[|m + p|] == last;
      EndsBelow(m + p, last.key);
      InsertAtEnd(m + p, last.key, last.value);
      assert m + r == (m + p) + [last];
    }
  }

  /**
   * Replays the events after `bound` from `start`, puts a checkpoint into the map after every `k`
   * of them, and returns the bytes the new checkpoints take.
   */
  method ReplayAndCheckpoint<S, E>(
      d: Domain<S, E>, start: S, bound: Bound, checkpoints: BTreeMap<S>, events: BTreeMap<E>, k: nat)
      returns (bytesDelta: int, ghost applied: nat)
    requires checkpoints.Valid() && events.Valid() && (checkpoints as object) != events && k > 0
    modifies checkpoints
    ensures checkpoints.Valid()
    ensures var tail := After(events.entries, bound);
      && checkpoints.entries == InsertAll(old(checkpoints.entries), Rebuild(d, start, tail, k))
      && bytesDelta == Bytes(d.snapshotSize, Rebuild(d, start, tail, k))
      && applied == |tail|
  {
    hide Rebuild, Fold, Bytes, InsertAll, Multiple, Cut, Insert;
    bytesDelta, applied := 0, 0;
    var snapshot := start;
    var count := 0;
    var first := Cut(events.entries, bound);
    ghost var tail := After(events.entries, bound);
    ghost var before := checkpoints.entries;
    ReplayNothing(d, start, before, k);
    assert tail[..0] == [];
    while count < |events.entries| - first
      invariant 0 <= count <= |tail| && applied == count
      invariant events.entries == old(events.entries)
      invariant checkpoints.Valid()
      invariant snapshot == Fold(d, start, tail[..count])
      invariant checkpoints.entries == InsertAll(before, Rebuild(d, start, tail[..count], k))
      invariant bytesDelta == Bytes(d.snapshotSize, Rebuild(d, start, tail[..count], k))
    {
      var entry := events.entries[first + count];
      assert entry == tail[count];
      ReplayOneMore(d, start, before, tail, count, k);
      snapshot := d.apply(entry.value, snapshot);
      applied := applied + 1;
      snapshot := d.setTime(snapshot, d.eventTime(entry.value));
      count := count + 1;
      MultipleIsMod(count, k);
      if count % k == 0 {
        bytesDelta := bytesDelta + d.snapshotSize(snapshot);
        checkpoints.Insert(entry.key, snapshot);
      }
    }
    assert tail[..count] == tail;
  }

  lemma ReplayNothing<S, E>(d: Domain<S, E>, start: S, before: seq<Entry<S>>, k: nat)
    requires k > 0 && Sorted(before)
    ensures Fold<S, E>(d, start, []) == start
    ensures Bytes(d.snapshotSize, Rebuild(d, start, [], k)) == 0
    ensures InsertAll(before, Rebuild(d, start, [], k)) == before
  {
  }

  /** One iteration of the replay loop. */
  lemma ReplayOneMore<S, E>(
      d: Domain<S, E>, start: S, before: seq<Entry<S>>, tail: seq<Entry<E>>, n: nat, k: nat)
    requires k > 0 && Sorted(before) && n < |tail|
    ensures var s, r := Fold(d, start, tail[..n]), Rebuild(d, start, tail[..n], k);
      var s', r' := Fold(d, start, tail[..n + 1]), Rebuild(d, start, tail[..n + 1], k);
      && s' == Step(d, s, tail[n].value)
      && Bytes(d.snapshotSize, r')
         == Bytes(d.snapshotSize, r) + (if Multiple(n + 1, k) then d.snapshotSize(s') else 0)
      && InsertAll(before, r')
         == if Multiple(n + 1, k) then Insert(InsertAll(before, r), tail[n].key, s') else InsertAll(before, r)
  {
    hide Multiple, Insert;
    var p := tail[..n + 1];
    assert p[..n] == tail[..n] && p[n] == tail[n];
    var r := Rebuild(d, start, p[..n], k);
    var x := Entry(tail[n].key, Fold(d, start, p));
    assert (r + [x])[..|r|] == r;
  }

  /** Removes the checkpoints at or after `key` one by one and returns the (negative) byte change. */
  method RemoveStale<S, E>(d: Domain<S, E>, checkpoints: BTreeMap<S>, key: Key) returns (bytesDelta: int)
    requires checkpoints.Valid()
    modifies checkpoints
    ensures checkpoints.Valid() && checkpoints.entries == Below(old(checkpoints.entries), key)
    ensures bytesDelta == Bytes(d.snapshotSize, Below(old(checkpoints.entries), key))
                        - Bytes(d.snapshotSize, old(checkpoints.entries))
  {
    hide Bytes, Rank, Sorted, Below, Without;
    bytesDelta := 0;
    var n, stale := Rank(checkpoints.entries, key), |checkpoints.entries|;
    ghost var before := checkpoints.entries;
    var i := n;
    NothingRemoved(before, key);
    while i < stale
      invariant n <= i <= |before| == stale
      invariant checkpoints.Valid() && checkpoints.entries == Without(before, n, i)
      invariant bytesDelta == Bytes(d.snapshotSize, Without(before, n, i)) - Bytes(d.snapshotSize, before)
    {
      RemoveMiddle(d.snapshotSize, before, n, i);
      var removed := checkpoints.RemoveAt(n);
      bytesDelta := bytesDelta - d.snapshotSize(removed);
      i := i + 1;
    }
  }

  /** A map without the entries from `n` up to `i`. */
  function Without<V>(m: seq<Entry<V>>, n: nat, i: nat): seq<Entry<V>>
    requires n <= i <= |m|
  {
    m[..n] + m[i..]
  }

  lemma NothingRemoved<V>(m: seq<Entry<V>>, key: Key)
    requires Sorted(m)
    ensures var n := Rank(m, key); Without(m, n, n) == m && Without(m, n, |m|) == Below(m, key)
  {
    hide Rank, Sorted;
  }

  lemma RemoveMiddle<V>(size: V -> nat, before: seq<Entry<V>>, n: nat, i: nat)
    requires n <= i < |before|
    ensures var now, next := Without(before, n, i), Without(before, n, i + 1);
      && n < |now| && now[n] == before[i] && now[..n] + now[n + 1..] == next
      && Bytes(size, now) == Bytes(size, next) + size(before[i].value)
  {
    BytesRemove(size, before[..n], before[i], before[i + 1..]);
    assert before[..n] + ([before[i]] + before[i + 1..]) == before[..n] + before[i..];
  }

  lemma BytesRemove<V>(size: V -> nat, a: seq<Entry<V>>, x: Entry<V>, b: seq<Entry<V>>)
    ensures Bytes(size, a + ([x] + b)) == Bytes(size, a + b) + size(x.value)
  {
    BytesConcat(size, a, [x] + b);
    BytesConcat(size, [x], b);
    BytesConcat(size, a, b);
    assert [x][..0] == [];
    assert Bytes(size, [x]) == Bytes(size, [x][..0]) + size(x.value);
  }

  /** The bytes of a map after an insertion. */
  lemma BytesInsert<V>(size: V -> nat, m: seq<Entry<V>>, key: Key, value: V)
    requires Sorted(m)
    ensures Bytes(size, Insert(m, key, value))
         == Bytes(size, m) + size(value) - (if Has(m, key) then size(m[Rank(m, key)].value) else 0)
  {
    hide *;
    var low, high := Below(m, key), After(m, Excluded(key));
    SplitAround(m, key, value);
    BytesRemove(size, low, Entry(key, value), high);
    if Has(m, key) {
      BytesRemove(size, low, m[Rank(m, key)], high);
    }
  }

  /** Puts one event into the history: append when it is the latest, else invalidate and replay. */
  method ApplyEventInPlace<S, E>(
      d: Domain<S, E>, newEvent: E, base: S, checkpoints: BTreeMap<S>, events: BTreeMap<E>, k: nat)
      returns (bytesDelta: int, ghost applied: nat)
    requires checkpoints.Valid() && events.Valid() && (checkpoints as object) != events && k > 0
    modifies checkpoints, events
    ensures checkpoints.Valid() && events.Valid()
    ensures events.entries == EventsAfter(d, old(events.entries), newEvent) && events.rooted
    ensures checkpoints.entries
         == CheckpointsAfter(d, base, old(checkpoints.entries), old(events.entries), newEvent, k)
    ensures bytesDelta
         == Stored(d, events.entries, checkpoints.entries) - old(Stored(d, events.entries, checkpoints.entries))
          + OverwrittenBytes(d, old(checkpoints.entries), old(events.entries), newEvent)
    ensures applied == ApplyCost(d, base, old(checkpoints.entries), old(events.entries), newEvent, k)
  {
    hide Bytes, Fold, Rebuild, Rank, Cut, Multiple, Insert;
    var key := KeyOf(d, newEvent);
    applied := 0;
    if Has(events.entries, key) {
      return 0, 0;
    }
    bytesDelta := d.eventSize(newEvent);
    BytesInsert(d.eventSize, events.entries, key, newEvent);
    events.Insert(key, newEvent);
    if IsLatest(events.entries, key) {
      var delta, cost := AppendInPlace(d, base, checkpoints, events, key, k);
      bytesDelta, applied := bytesDelta + delta, cost;
    } else {
      var delta, cost := ReplayInPlace(d, base, checkpoints, events, key, k);
      bytesDelta, applied := bytesDelta + delta, cost;
    }
  }

  /** The fast path: replay from the last checkpoint only when a checkpoint is due. */
  method AppendInPlace<S, E>(
      d: Domain<S, E>, base: S, checkpoints: BTreeMap<S>, events: BTreeMap<E>, key: Key, k: nat)
      returns (bytesDelta: int, ghost applied: nat)
    requires checkpoints.Valid() && events.Valid() && (checkpoints as object) != events && k > 0
    requires IsLatest(events.entries, key)
    modifies checkpoints
    ensures checkpoints.Valid()
    ensures checkpoints.entries == AppendCheckpoint(d, base, old(checkpoints.entries), events.entries, key, k)
    ensures bytesDelta
         == Bytes(d.snapshotSize, checkpoints.entries) - old(Bytes(d.snapshotSize, checkpoints.entries))
          + if Has(old(checkpoints.entries), key)
            then d.snapshotSize(old(checkpoints.entries)[Rank(old(checkpoints.entries), key)].value) else 0
    ensures var tail := After(events.entries, Latest(base, old(checkpoints.entries)).bound);
      applied == if Multiple(|tail|, k) then |tail| else 0
  {
    hide Sorted, Bytes, Fold, Rank, Cut, Has, Multiple, Insert, After, Latest, IsLatest, AppendCheckpoint;
    bytesDelta, applied := 0, 0;
    var start := Latest(base, checkpoints.entries);
    var tail := After(events.entries, start.bound);
    ghost var before := checkpoints.entries;
    MultipleIsMod(|tail|, k);
    AppendEffect(d, base, before, events.entries, key, k);
    if |tail| % k == 0 {
      var snapshot, cost := ReplayTail(d, start.state, tail);
      applied := cost;
      bytesDelta := d.snapshotSize(snapshot);
      checkpoints.Insert(key, snapshot);
    }
  }

  lemma AppendEffect<S, E>(
      d: Domain<S, E>, base: S, checkpoints: seq<Entry<S>>, events: seq<Entry<E>>, key: Key, k: nat)
    requires k > 0 && Sorted(checkpoints) && Sorted(events) && IsLatest(events, key)
    ensures var start := Latest(base, checkpoints);
      var tail := After(events, start.bound);
      var snapshot := Fold(d, start.state, tail);
      && AppendCheckpoint(d, base, checkpoints, events, key, k)
         == (if Multiple(|tail|, k) then Insert(checkpoints, key, snapshot) else checkpoints)
      && (!Multiple(|tail|, k) ==> !Has(checkpoints, key))
      && Bytes(d.snapshotSize, Insert(checkpoints, key, snapshot))
         == Bytes(d.snapshotSize, checkpoints) + d.snapshotSize(snapshot)
          - (if Has(checkpoints, key) then d.snapshotSize(checkpoints[Rank(checkpoints, key)].value) else 0)
  {
    hide Bytes, Fold, Cut, Insert;
    var start := Latest(base, checkpoints);
    BytesInsert(d.snapshotSize, checkpoints, key, Fold(d, start.state, After(events, start.bound)));
    CheckpointAtLatest(base, checkpoints, events, key);
  }

  /** The loop that replays a stretch of events, stamping after each. */
  method ReplayTail<S, E>(d: Domain<S, E>, start: S, tail: seq<Entry<E>>) returns (snapshot: S, ghost applied: nat)
    ensures snapshot == Fold(d, start, tail) && applied == |tail|
  {
    hide Fold;
    snapshot, applied := start, 0;
    var i := 0;
    FoldNothing(d, start, tail);
    while i < |tail|
      invariant 0 <= i <= |tail| && applied == i
      invariant snapshot == Fold(d, start, tail[..i])
    {
      FoldOneMore(d, start, tail, i);
      snapshot := d.apply(tail[i].value, snapshot);
      applied := applied + 1;
      snapshot := d.setTime(snapshot, d.eventTime(tail[i].value));
      i := i + 1;
    }
    assert tail[..i] == tail;
  }

  /** A checkpoint at or after the latest event leaves nothing to replay. */
  lemma CheckpointAtLatest<S, E>(base: S, checkpoints: seq<Entry<S>>, events: seq<Entry<E>>, key: Key)
    requires Sorted(checkpoints) && Sorted(events) && IsLatest(events, key)
    ensures From(checkpoints, key) != [] ==> After(events, Latest(base, checkpoints).bound) == []
  {
  }

  /** The slow path: drop the checkpoints at or after the event and replay from the last one left. */
  method ReplayInPlace<S, E>(
      d: Domain<S, E>, base: S, checkpoints: BTreeMap<S>, events: BTreeMap<E>, key: Key, k: nat)
      returns (bytesDelta: int, ghost applied: nat)
    requires checkpoints.Valid() && events.Valid() && (checkpoints as object) != events && k > 0
    modifies checkpoints
    ensures checkpoints.Valid()
    ensures checkpoints.entries == Resume(d, base, Below(old(checkpoints.entries), key), events.entries, k)
    ensures bytesDelta
         == Bytes(d.snapshotSize, checkpoints.entries) - old(Bytes(d.snapshotSize, checkpoints.entries))
    ensures applied == |After(events.entries, Latest(base, Below(old(checkpoints.entries), key)).bound)|
  {
    hide Bytes, Fold, Rebuild, Rank, Cut, InsertAll, Below, After;
    bytesDelta := RemoveStale(d, checkpoints, key);
    ghost var keep := checkpoints.entries;
    var start := Latest(base, checkpoints.entries);
    ghost var r := Rebuild(d, start.state, After(events.entries, start.bound), k);
    var delta, cost := ReplayAndCheckpoint(d, start.state, start.bound, checkpoints, events, k);
    bytesDelta, applied := bytesDelta + delta, cost;
    ResumeSorted(d, base, keep, events.entries, k);
    InsertAllAppends(keep, r);
    BytesConcat(d.snapshotSize, keep, r);
  }
}
