/** Compaction preserves meaning: replaying the compacted log gives every
    unacknowledged row and the newest tombstones, unchanged. */
module JournalCompaction {
  import opened Options
  import opened JournalModel

  // ----- selecting rows ----------------------------------------------------

  lemma Partition(rows: Rows)
    ensures multiset(rows) == multiset(Unacknowledged(rows)) + multiset(Tombstones(rows))
    ensures forall r <- Unacknowledged(rows) :: !r.state.IsAcknowledged?
    ensures forall r <- Tombstones(rows) :: r.state.IsAcknowledged?
  {
    if rows != [] {
      Partition(rows[1..]);
      assert rows == [rows[0]] + rows[1..];
    }
  }

  lemma NewerOrders()
    ensures Ordering(Newer)
  {
  }

  /** The tombstones beyond the newest `max`. */
  ghost function LostTombstones(rows: Rows, max: nat): Rows {
    Sort(Tombstones(rows), Newer)[|KeptTombstones(rows, max)|..]
  }

  /** The tombstones are split into the newest ones, as many as fit, and the rest. */
  lemma KeptTombstonesAreNewest(rows: Rows, max: nat)
    ensures multiset(Tombstones(rows)) == multiset(KeptTombstones(rows, max)) + multiset(LostTombstones(rows, max))
    ensures |KeptTombstones(rows, max)| <= max
    ensures LostTombstones(rows, max) != [] ==> |KeptTombstones(rows, max)| == max
    ensures forall kept <- KeptTombstones(rows, max), lost <- LostTombstones(rows, max) :: Newer(kept, lost)
  {
    var all := Sort(Tombstones(rows), Newer);
    var n := |KeptTombstones(rows, max)|;
    SortKeeps(Tombstones(rows), Newer);
    SortedByNewer(Tombstones(rows));
    SplitAt(all, n);
    FirstAreNewer(all, n);
  }

  lemma SortedByNewer(rows: Rows)
    ensures Sorted(Sort(rows, Newer), Newer)
  {
    NewerOrders();
    SortSorted(rows, Newer);
  }

  lemma SplitAt(all: Rows, n: nat)
    requires n <= |all|
    ensures multiset(all) == multiset(all[..n]) + multiset(all[n..])
  {
    assert all == all[..n] + all[n..];
  }

  lemma FirstAreNewer(all: Rows, n: nat)
    requires Sorted(all, Newer) && n <= |all|
    ensures forall kept <- all[..n], lost <- all[n..] :: Newer(kept, lost)
  {
  }

  lemma KeptRows(rows: Rows, max: nat)
    ensures multiset(Kept(rows, max)) == multiset(Unacknowledged(rows)) + multiset(KeptTombstones(rows, max))
    ensures multiset(rows) == multiset(Kept(rows, max)) + multiset(LostTombstones(rows, max))
  {
    SortKeeps(Unacknowledged(rows) + KeptTombstones(rows, max), Earlier);
    KeptTombstonesAreNewest(rows, max);
    Partition(rows);
  }

  lemma Twice(rows: Rows, i: nat, j: nat)
    requires i < j < |rows| && rows[i] == rows[j]
    ensures multiset(rows)[rows[i]] >= 2
  {
    assert rows == rows[..j] + [rows[j]] + rows[j + 1..];
    assert rows[i] in rows[..j];
  }

  lemma OnceEach(rows: Rows, r: Row)
    requires Distinct(rows)
    ensures multiset(rows)[r] <= 1
  {
    if rows != [] {
      OnceEach(rows[1..], r);
      assert rows == [rows[0]] + rows[1..];
      assert rows[0] !in rows[1..];
    }
  }

  lemma SubOk(part: Rows, rows: Rows)
    requires RowsOk(rows) && multiset(part) <= multiset(rows)
    ensures RowsOk(part)
  {
    forall i | 0 <= i < |part| ensures RowOk(part[i]) {
      assert part[i] in multiset(rows);
    }
    forall i, j | 0 <= i < j < |part| ensures part[i].key != part[j].key {
      assert part[i] in multiset(rows) && part[j] in multiset(rows);
      if part[i].key == part[j].key {
        var m :| 0 <= m < |rows| && rows[m] == part[i];
        var n :| 0 <= n < |rows| && rows[n] == part[j];
        assert m == n;
        Twice(part, i, j);
        OnceEach(rows, part[i]);
      }
    }
  }

  // ----- replaying the compacted log ----------------------------------------

  lemma LastIndex(done: Rows, r: Row)
    requires forall i | 0 <= i < |done| :: done[i].key != r.key
    ensures IndexOf(done + [r], r.key) == |done|
  {
    var all := done + [r];
    assert all[|done|].key == r.key;
    assert forall i | 0 <= i < |done| :: all[i].key == done[i].key;
  }

  lemma ReplayOne(rows: Rows, e: Event)
    ensures ReplayFrom(rows, [e]) == Apply(rows, e)
  {
    assert [e][1..] == [];
    if Apply(rows, e).Legal? {
      assert ReplayFrom(Apply(rows, e).rows, []) == Apply(rows, e);
    }
  }

  /** An event for the last row changes only that row. */
  lemma ApplyLast(done: Rows, r: Row, e: Event, n: Row)
    requires forall i | 0 <= i < |done| :: done[i].key != r.key
    requires e.key == r.key && Apply([r], e) == Legal([n])
    ensures Apply(done + [r], e) == Legal(done + [n])
  {
    LastIndex(done, r);
    LastIndex([], r);
    assert [] + [r] == [r];
    assert (done + [r])[|done| := n] == done + [n];
  }

  lemma {:induction false} ReplayRow(done: Rows, r: Row)
    requires RowOk(r) && forall i | 0 <= i < |done| :: done[i].key != r.key
    ensures ReplayFrom(done, RowEvents(r)) == Legal(done + [Settled(r)])
  {
    var log := RowEvents(r);
    var r0 := Row(r.key, r.request, r.owner, r.receivedTs, IsReceived, None, None, None, None);
    ReplayOne(done, log[0]);
    assert ReplayFrom(done, [log[0]]) == Legal(done + [r0]);
    if |log| == 1 {
      assert log == [log[0]];
    } else {
      var r1 := Apply([r0], log[1]).rows[0];
      ApplyLast(done, r0, log[1], r1);
      ReplayOne(done + [r0], log[1]);
      ReplayAppend(done, [log[0]], [log[1]]);
      assert [log[0]] + [log[1]] == [log[0], log[1]];
      if |log| == 2 {
        assert log == [log[0], log[1]];
      } else {
        ApplyLast(done, r1, log[2], Settled(r));
        ReplayOne(done + [r1], log[2]);
        ReplayAppend(done, [log[0], log[1]], [log[2]]);
        assert log == [log[0], log[1]] + [log[2]];
      }
    }
  }

  ghost predicate Apart(a: Rows, b: Rows) {
    forall r <- a, s <- b :: r.key != s.key
  }

  lemma ApartStep(done: Rows, rows: Rows)
    requires rows != [] && RowsOk(rows) && Apart(done, rows)
    ensures RowsOk(rows[1..]) && Apart(done + [Settled(rows[0])], rows[1..])
  {
    var rest := rows[1..];
    assert forall i | 0 <= i < |rest| :: rest[i] == rows[i + 1];
  }

  lemma LogOfStep(done: Rows, rows: Rows)
    requires rows != [] && RowOk(rows[0]) && (forall i | 0 <= i < |done| :: done[i].key != rows[0].key)
    ensures ReplayFrom(done, LogOf(rows)) == ReplayFrom(done + [Settled(rows[0])], LogOf(rows[1..]))
  {
    ReplayRow(done, rows[0]);
    ReplayAppend(done, RowEvents(rows[0]), LogOf(rows[1..]));
  }

  lemma {:induction false} ReplayLogOf(done: Rows, rows: Rows)
    requires RowsOk(rows) && Apart(done, rows)
    ensures ReplayFrom(done, LogOf(rows)) == Legal(done + SettledAll(rows))
    decreases |rows|
  {
    if rows == [] {
      assert done + [] == done;
    } else {
      var next := done + [Settled(rows[0])];
      LogOfStep(done, rows);
      ApartStep(done, rows);
      ReplayLogOf(next, rows[1..]);
      assert next + SettledAll(rows[1..]) == done + SettledAll(rows);
    }
  }

  lemma SettledOk(rows: Rows)
    requires RowsOk(rows)
    ensures RowsOk(SettledAll(rows))
  {
    var s := SettledAll(rows);
    forall i | 0 <= i < |s| ensures RowOk(s[i]) && s[i].key == rows[i].key {
      assert s[i] == Settled(rows[i]) && RowOk(rows[i]);
    }
  }

  lemma RowsReplay(rows: Rows)
    requires RowsOk(rows)
    ensures Replay(LogOf(rows)) == Legal(SettledAll(rows))
  {
    var none: Rows := [];
    ReplayLogOf(none, rows);
    assert none + SettledAll(rows) == SettledAll(rows);
  }

  lemma KeptOk(rows: Rows, max: nat)
    requires RowsOk(rows)
    ensures RowsOk(Kept(rows, max))
  {
    KeptRows(rows, max);
    SubOk(Kept(rows, max), rows);
  }

  /** Replaying the compacted log yields exactly the kept rows. */
  lemma CompactedReplays(rows: Rows, max: nat)
    requires RowsOk(rows)
    ensures Replay(Compacted(rows, max)) == Legal(SettledAll(Kept(rows, max)))
    ensures RowsOk(Kept(rows, max)) && RowsOk(SettledAll(Kept(rows, max)))
  {
    KeptOk(rows, max);
    SettledOk(Kept(rows, max));
    RowsReplay(Kept(rows, max));
  }

  lemma FindIn(rows: Rows, r: Row)
    requires Distinct(rows) && r in rows
    ensures Find(rows, r.key) == Some(r)
  {
    var i :| 0 <= i < |rows| && rows[i] == r;
    FindAt(rows, i);
  }

  // ----- which tombstones are lost ---------------------------------------------

  function Stamp(r: Row): Time {
    StampOr0(r.acknowledgedTs)
  }

  /** How many tombstones are newer than `t`, those of the very same time counted or not. */
  function Ahead(rows: Rows, t: Time, ties: bool): nat {
    if rows == [] then 0
    else (if rows[0].state.IsAcknowledged? && (t < Stamp(rows[0]) || (ties && t == Stamp(rows[0]))) then 1 else 0)
         + Ahead(rows[1..], t, ties)
  }

  /** How many tombstones come before one at place `i` with time `t`: every newer one,
      and every one of the same time whose command was received before. */
  function Place(rows: Rows, i: nat, t: Time): nat
    requires i < |rows|
  {
    Ahead(rows[..i], t, true) + Ahead(rows[i + 1..], t, false)
  }

  lemma PlaceStep(rows: Rows, i: nat, t: Time)
    requires 0 < i < |rows|
    ensures Place(rows, i, t) == Ahead([rows[0]], t, true) + Place(rows[1..], i - 1, t)
  {
    assert rows[..i][1..] == rows[1..][..i - 1] && rows[i + 1..] == rows[1..][i..];
    assert [rows[0]][1..] == [];
  }

  lemma InsertShifts(r: Row, sorted: Rows, p: nat)
    requires Sorted(sorted, Newer) && p < |sorted|
    ensures |Insert(r, sorted, Newer)| == |sorted| + 1
    ensures Insert(r, sorted, Newer)[if Newer(r, sorted[p]) then p + 1 else p] == sorted[p]
  {
    if p > 0 && !Newer(r, sorted[0]) {
      InsertShifts(r, sorted[1..], p - 1);
    }
    if |sorted| > 1 {
      InsertShifts(r, sorted[1..], 0);
    }
  }

  lemma AheadNone(sorted: Rows, t: Time)
    requires forall r <- sorted :: Stamp(r) <= t
    ensures Ahead(sorted, t, false) == 0
  {
  }

  lemma InsertPlaces(r: Row, sorted: Rows)
    requires Sorted(sorted, Newer) && forall s <- sorted :: s.state.IsAcknowledged?
    ensures Ahead(sorted, Stamp(r), false) < |Insert(r, sorted, Newer)|
    ensures Insert(r, sorted, Newer)[Ahead(sorted, Stamp(r), false)] == r
  {
    if sorted != [] {
      if Newer(r, sorted[0]) {
        AheadNone(sorted, Stamp(r));
      } else {
        InsertPlaces(r, sorted[1..]);
      }
    }
  }

  lemma InsertAhead(r: Row, rows: Rows, t: Time, ties: bool)
    ensures Ahead(Insert(r, rows, Newer), t, ties) == Ahead([r], t, ties) + Ahead(rows, t, ties)
  {
    assert [r][1..] == [];
    if rows != [] {
      if Newer(r, rows[0]) {
        assert ([r] + rows)[1..] == rows;
      } else {
        InsertAhead(r, rows[1..], t, ties);
        assert ([rows[0]] + Insert(r, rows[1..], Newer))[1..] == Insert(r, rows[1..], Newer);
      }
    }
  }

  lemma SortStep(rows: Rows)
    requires rows != []
    ensures var rest := Sort(Tombstones(rows[1..]), Newer);
            Sort(Tombstones(rows), Newer)
            == if rows[0].state.IsAcknowledged? then Insert(rows[0], rest, Newer) else rest
  {
    if rows[0].state.IsAcknowledged? {
      assert Tombstones(rows)[1..] == Tombstones(rows[1..]);
    } else {
      assert Tombstones(rows) == Tombstones(rows[1..]);
    }
  }

  lemma SortAhead(rows: Rows, t: Time, ties: bool)
    ensures Ahead(Sort(Tombstones(rows), Newer), t, ties) == Ahead(rows, t, ties)
  {
    if rows != [] {
      SortAhead(rows[1..], t, ties);
      SortStep(rows);
      if rows[0].state.IsAcknowledged? {
        InsertAhead(rows[0], Sort(Tombstones(rows[1..]), Newer), t, ties);
        assert [rows[0]][1..] == [];
      }
    }
  }

  lemma SortedTombstones(rows: Rows)
    ensures Sorted(Sort(Tombstones(rows), Newer), Newer)
    ensures forall r <- Sort(Tombstones(rows), Newer) :: r.state.IsAcknowledged?
    ensures multiset(Sort(Tombstones(rows), Newer)) <= multiset(rows)
  {
    var sorted := Sort(Tombstones(rows), Newer);
    SortedByNewer(Tombstones(rows));
    SortKeeps(Tombstones(rows), Newer);
    Partition(rows);
    forall r <- sorted ensures r.state.IsAcknowledged? {
      assert r in multiset(sorted);
      assert r in Tombstones(rows);
    }
  }

  ghost predicate SortedTo(rows: Rows, p: nat, r: Row) {
    p < |Sort(Tombstones(rows), Newer)| && Sort(Tombstones(rows), Newer)[p] == r
  }

  lemma PlaceOfFirst(rows: Rows)
    requires rows != [] && rows[0].state.IsAcknowledged?
    ensures SortedTo(rows, Place(rows, 0, Stamp(rows[0])), rows[0])
  {
    var t := Stamp(rows[0]);
    SortStep(rows);
    SortedTombstones(rows[1..]);
    SortAhead(rows[1..], t, false);
    InsertPlaces(rows[0], Sort(Tombstones(rows[1..]), Newer));
    assert Ahead(rows[..0], t, true) == 0;
  }

  lemma PlaceMoves(rows: Rows, i: nat)
    requires 0 < i < |rows|
    requires var t := Stamp(rows[i]); SortedTo(rows[1..], Place(rows[1..], i - 1, t), rows[i])
    ensures SortedTo(rows, Place(rows, i, Stamp(rows[i])), rows[i])
  {
    var t := Stamp(rows[i]);
    SortStep(rows);
    PlaceStep(rows, i, t);
    assert [rows[0]][1..] == [];
    if rows[0].state.IsAcknowledged? {
      SortedTombstones(rows[1..]);
      InsertShifts(rows[0], Sort(Tombstones(rows[1..]), Newer), Place(rows[1..], i - 1, t));
    }
  }

  /** The stable sort puts every tombstone exactly at its place. */
  lemma {:induction false} SortPlaces(rows: Rows, i: nat)
    requires i < |rows| && rows[i].state.IsAcknowledged?
    ensures SortedTo(rows, Place(rows, i, Stamp(rows[i])), rows[i])
    decreases |rows|
  {
    if i == 0 {
      PlaceOfFirst(rows);
    } else {
      SortPlaces(rows[1..], i - 1);
      PlaceMoves(rows, i);
    }
  }

  /** A tombstone that compaction throws away: it is acknowledged, and as many tombstones
      as fit come before it. */
  predicate Dropped(rows: Rows, max: nat, k: Key) {
    var i := IndexOf(rows, k);
    i < |rows| && rows[i].state.IsAcknowledged? && max <= Place(rows, i, Stamp(rows[i]))
  }

  lemma DistinctPlaces(sorted: Rows, rows: Rows, p: nat, max: nat)
    requires RowsOk(rows) && multiset(sorted) <= multiset(rows) && max <= p < |sorted|
    ensures sorted[p] !in sorted[..max]
  {
    if sorted[p] in sorted[..max] {
      var q :| 0 <= q < max && sorted[q] == sorted[p];
      Twice(sorted, q, p);
      OnceEach(rows, sorted[p]);
    }
  }

  /** A tombstone is kept exactly when fewer than `max` come before it. */
  lemma KeptTombstoneIff(rows: Rows, max: nat, i: nat)
    requires RowsOk(rows) && i < |rows| && rows[i].state.IsAcknowledged?
    ensures rows[i] in KeptTombstones(rows, max) <==> Place(rows, i, Stamp(rows[i])) < max
  {
    var sorted := Sort(Tombstones(rows), Newer);
    var p := Place(rows, i, Stamp(rows[i]));
    SortPlaces(rows, i);
    SortedTombstones(rows);
    if |sorted| <= max {
      assert rows[i] in sorted;
    } else if p < max {
      assert sorted[..max][p] == rows[i];
    } else {
      DistinctPlaces(sorted, rows, p, max);
    }
  }

  /** A row survives compaction exactly when it is not a dropped tombstone. */
  lemma KeptIff(rows: Rows, max: nat, i: nat)
    requires RowsOk(rows) && i < |rows|
    ensures rows[i] in Kept(rows, max) <==> !Dropped(rows, max, rows[i].key)
  {
    var r, kept := rows[i], KeptTombstones(rows, max);
    FindAt(rows, i);
    KeptRows(rows, max);
    Partition(rows);
    assert r in multiset(rows);
    assert r in Kept(rows, max) <==> r in multiset(Kept(rows, max));
    assert r in kept <==> r in multiset(kept);
    assert r in Unacknowledged(rows) <==> r in multiset(Unacknowledged(rows));
    assert r in Tombstones(rows) <==> r in multiset(Tombstones(rows));
    if r.state.IsAcknowledged? {
      KeptTombstoneIff(rows, max, i);
    }
  }

  lemma SettledFind(rows: Rows, k: Key)
    requires Distinct(rows)
    ensures Find(SettledAll(rows), k) == if Find(rows, k).Some? then Some(Settled(Find(rows, k).value)) else None
  {
    var s, i := SettledAll(rows), IndexOf(rows, k);
    if i < |rows| {
      assert s[i].key == k;
      FindAt(s, i);
    }
  }

  /** Looking up any key among the kept rows. */
  lemma KeptFind(rows: Rows, max: nat, k: Key)
    requires RowsOk(rows)
    ensures Find(Kept(rows, max), k) == if Dropped(rows, max, k) then None else Find(rows, k)
  {
    var kept := Kept(rows, max);
    if Find(kept, k).Some? {
      var r := Find(kept, k).value;
      KeptRows(rows, max);
      assert r in multiset(kept);
      assert r in multiset(rows) && r in rows;
      FindIn(rows, r);
      KeptIff(rows, max, IndexOf(rows, k));
    } else if Find(rows, k).Some? {
      KeptIff(rows, max, IndexOf(rows, k));
    }
  }

  /** What a reader of the compacted log sees for any key: the same row (up to
      `uncertainTs` of a finished command), or nothing, exactly when there was nothing or
      a tombstone that as many others as fit come before. */
  lemma CompactionPreservesMeaning(rows: Rows, max: nat, k: Key)
    requires RowsOk(rows)
    ensures Replay(Compacted(rows, max)).Legal?
    ensures var found := Find(Replay(Compacted(rows, max)).rows, k);
            match Find(rows, k)
            case None => found == None
            case Some(r) => found == if Dropped(rows, max, k) then None else Some(Settled(r))
  {
    CompactedReplays(rows, max);
    SettledFind(Kept(rows, max), k);
    KeptFind(rows, max, k);
  }

  // ----- size --------------------------------------------------------------

  function Weight(r: Row): nat {
    if r.state.IsAcknowledged? then 3 else 2
  }

  function Weights(rows: Rows): nat {
    if rows == [] then 0 else Weight(rows[0]) + Weights(rows[1..])
  }

  lemma LogWeight(rows: Rows)
    ensures |LogOf(rows)| <= Weights(rows)
  {
  }

  lemma WeightsSplit(rows: Rows)
    ensures Weights(rows) == 2 * |Unacknowledged(rows)| + 3 * |Tombstones(rows)|
  {
  }

  lemma SplitCounts(rows: Rows, a: Rows, b: Rows)
    requires multiset(rows) == multiset(a) + multiset(b)
    requires (forall r <- a :: !r.state.IsAcknowledged?) && (forall r <- b :: r.state.IsAcknowledged?)
    ensures |Unacknowledged(rows)| == |a| && |Tombstones(rows)| == |b|
  {
    Partition(rows);
    var u, t := Unacknowledged(rows), Tombstones(rows);
    forall r ensures multiset(u)[r] == multiset(a)[r] && multiset(t)[r] == multiset(b)[r] {
      assert multiset(rows)[r] == multiset(u)[r] + multiset(t)[r] == multiset(a)[r] + multiset(b)[r];
      if r.state.IsAcknowledged? {
        assert r !in u && r !in a;
      } else {
        assert r !in t && r !in b;
      }
    }
    assert multiset(u) == multiset(a) && multiset(t) == multiset(b);
    assert |u| == |multiset(u)| && |a| == |multiset(a)| && |t| == |multiset(t)| && |b| == |multiset(b)|;
  }

  lemma KeptCounts(rows: Rows, max: nat)
    ensures |Unacknowledged(Kept(rows, max))| == |Unacknowledged(rows)|
    ensures |Tombstones(Kept(rows, max))| <= max
  {
    var kept := KeptTombstones(rows, max);
    KeptRows(rows, max);
    Partition(rows);
    KeptTombstonesAreNewest(rows, max);
    forall r <- kept ensures r.state.IsAcknowledged? {
      assert r in multiset(kept);
      assert r in multiset(Tombstones(rows)) && r in Tombstones(rows);
    }
    SplitCounts(Kept(rows, max), Unacknowledged(rows), kept);
  }

  /** A compaction keeps every unacknowledged row and at most `max` tombstones, so
      it leaves at most two records for each of the former and three for the latter. */
  lemma CompactionBound(rows: Rows, max: nat)
    ensures |Unacknowledged(Kept(rows, max))| == |Unacknowledged(rows)|
    ensures |Tombstones(Kept(rows, max))| <= max
    ensures |Compacted(rows, max)| <= 2 * |Unacknowledged(rows)| + 3 * max
  {
    KeptCounts(rows, max);
    LogWeight(Kept(rows, max));
    WeightsSplit(Kept(rows, max));
  }
}
