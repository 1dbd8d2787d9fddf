/** Row segments inferred from geometry: only seats with a short gap between them are taken to be adjacent. */
module Inference {
  import opened Wrappers
  import opened Checkout
  import opened Ordering
  import opened Topology

  datatype RowKey = RowKey(block: string, row: string)

  function KeyOf(s: Seat): RowKey { RowKey(s.block, s.row) }

  function X(s: Seat): int { if s.x.Some? then s.x.value else 0 }

  predicate SeatLeq(a: Seat, b: Seat) { X(a) < X(b) || (X(a) == X(b) && TextLeq(a.id, b.id)) }

  predicate KeyLeq(a: RowKey, b: RowKey) {
    if a.block == b.block then TextLeq(a.row, b.row) else TextLeq(a.block, b.block)
  }

  lemma SeatsOrdered()
    ensures Orders(SeatLeq)
  {
    forall a, b ensures SeatLeq(a, b) || SeatLeq(b, a) { TextTotal(a.id, b.id); }
    forall a, b, c | SeatLeq(a, b) && SeatLeq(b, c) ensures SeatLeq(a, c) {
      if X(a) == X(b) == X(c) { TextTransitive(a.id, b.id, c.id); }
    }
  }

  lemma KeysOrdered()
    ensures Orders(KeyLeq)
  {
    forall a, b ensures KeyLeq(a, b) || KeyLeq(b, a) { TextTotal(a.row, b.row); TextTotal(a.block, b.block); }
    forall a, b, c | KeyLeq(a, b) && KeyLeq(b, c) ensures KeyLeq(a, c) { KeyTransitive(a, b, c); }
  }

  lemma KeyTransitive(a: RowKey, b: RowKey, c: RowKey)
    requires KeyLeq(a, b) && KeyLeq(b, c)
    ensures KeyLeq(a, c)
  {
    if a.block == b.block && b.block == c.block {
      TextTransitive(a.row, b.row, c.row);
    } else if a.block != b.block && b.block != c.block {
      TextTransitive(a.block, b.block, c.block);
      if a.block == c.block { TextTotal(a.block, b.block); }
    }
  }

  // ----- rows

  function Placed(seats: seq<Seat>): seq<Seat> {
    if seats == [] then []
    else Placed(seats[..|seats| - 1]) + if seats[|seats| - 1].Placed() then [seats[|seats| - 1]] else []
  }

  /** The placed seats of one row, in inventory order. */
  function RowSeats(seats: seq<Seat>, k: RowKey): seq<Seat> {
    if seats == [] then []
    else
      var s := seats[|seats| - 1];
      RowSeats(seats[..|seats| - 1], k) + if s.Placed() && KeyOf(s) == k then [s] else []
  }

  function Ids(seats: seq<Seat>): seq<string> { seq(|seats|, i requires 0 <= i < |seats| => seats[i].id) }

  lemma {:induction false} PlacedIn(seats: seq<Seat>, s: Seat)
    ensures s in Placed(seats) <==> s in seats && s.Placed()
  {
    if seats != [] {
      PlacedIn(seats[..|seats| - 1], s);
      assert seats == seats[..|seats| - 1] + [seats[|seats| - 1]];
    }
  }

  lemma {:induction false} RowSeatsIn(seats: seq<Seat>, k: RowKey, s: Seat)
    ensures s in RowSeats(seats, k) <==> s in seats && s.Placed() && KeyOf(s) == k
  {
    if seats != [] {
      RowSeatsIn(seats[..|seats| - 1], k, s);
      assert seats == seats[..|seats| - 1] + [seats[|seats| - 1]];
    }
  }

  /** The rows of the hall, each with its seats in inventory order. */
  method CollectRows(seats: seq<Seat>) returns (rows: map<RowKey, seq<Seat>>)
    ensures forall k :: k in rows ==> rows[k] == RowSeats(seats, k) && rows[k] != []
    ensures forall s :: s in Placed(seats) ==> KeyOf(s) in rows
  {
    hide RowsSoFar;
    rows := map[];
    var i := 0;
    NoRows(seats);
    while i < |seats|
      invariant 0 <= i <= |seats| && RowsSoFar(seats[..i], rows)
    {
      var s := seats[i];
      assert seats[..i + 1] == seats[..i] + [s];
      RowsOneMore(seats[..i], s, rows);
      if s.Placed() { rows := WithSeat(rows, s); }
      i := i + 1;
    }
    assert seats[..|seats|] == seats;
    RowsComplete(seats, rows);
  }

  /** The rows of the seats seen so far. */
  ghost predicate RowsSoFar(seats: seq<Seat>, rows: map<RowKey, seq<Seat>>) {
    && (forall k :: k in rows ==> rows[k] == RowSeats(seats, k) && rows[k] != [])
    && (forall k :: k !in rows ==> RowSeats(seats, k) == [])
  }

  function WithSeat(rows: map<RowKey, seq<Seat>>, s: Seat): map<RowKey, seq<Seat>> {
    rows[KeyOf(s) := (if KeyOf(s) in rows then rows[KeyOf(s)] else []) + [s]]
  }

  lemma NoRows(seats: seq<Seat>)
    ensures RowsSoFar(seats[..0], map[])
  {}

  lemma RowsOneMore(seats: seq<Seat>, s: Seat, rows: map<RowKey, seq<Seat>>)
    requires RowsSoFar(seats, rows)
    ensures RowsSoFar(seats + [s], if s.Placed() then WithSeat(rows, s) else rows)
  {
    assert (seats + [s])[..|seats|] == seats;
  }

  lemma RowsComplete(seats: seq<Seat>, rows: map<RowKey, seq<Seat>>)
    requires RowsSoFar(seats, rows)
    ensures forall k :: k in rows ==> rows[k] == RowSeats(seats, k) && rows[k] != []
    ensures forall s :: s in Placed(seats) ==> KeyOf(s) in rows
  {
    forall s | s in Placed(seats) ensures KeyOf(s) in rows {
      PlacedIn(seats, s);
      RowSeatsIn(seats, KeyOf(s), s);
    }
  }

  // ----- gaps

  /** The smallest positive distance between two seats of the row, if there is one. */
  ghost predicate Shortest(row: seq<Seat>, short: Option<int>) {
    && (short.None? ==> forall a, b :: a in row && b in row ==> X(a) == X(b))
    && (short.Some? ==>
          && short.value > 0
          && (exists a, b :: a in row && b in row && X(b) - X(a) == short.value)
          && (forall a, b :: a in row && b in row && X(b) > X(a) ==> X(b) - X(a) >= short.value))
  }

  predicate Far(a: Seat, b: Seat, short: Option<int>) { short.Some? && 2 * (X(b) - X(a)) > 3 * short.value }

  /** Only neighbours can be closest, so the scan of neighbouring gaps finds the smallest distance. */
  method ShortGap(ordered: seq<Seat>) returns (short: Option<int>)
    requires ordered != [] && InOrder(ordered, SeatLeq)
    ensures Shortest(ordered, short)
  {
    hide Shortest, SeatLeq;
    short := None;
    var i := 1;
    OneSeat(ordered);
    while i < |ordered|
      invariant ShortestSoFar(ordered, i, short)
    {
      var gap := X(ordered[i]) - X(ordered[i - 1]);
      ghost var was := short;
      if gap > 0 && (short.None? || gap < short.value) { short := Some(gap); }
      ShortestStep(ordered, i, was, short);
      i := i + 1;
    }
    assert ordered[..i] == ordered;
  }

  ghost predicate ShortestSoFar(ordered: seq<Seat>, i: int, short: Option<int>) {
    1 <= i <= |ordered| && Shortest(ordered[..i], short)
  }

  lemma OneSeat(ordered: seq<Seat>)
    requires ordered != []
    ensures ShortestSoFar(ordered, 1, None)
  {}

  lemma ShortestStep(ordered: seq<Seat>, i: nat, was: Option<int>, short: Option<int>)
    requires i < |ordered| && InOrder(ordered, SeatLeq) && ShortestSoFar(ordered, i, was)
    requires var gap := X(ordered[i]) - X(ordered[i - 1]);
      short == if gap > 0 && (was.None? || gap < was.value) then Some(gap) else was
    ensures ShortestSoFar(ordered, i + 1, short)
  {
    PrefixInOrder(ordered, i + 1);
    assert ordered[..i + 1] == ordered[..i] + [ordered[i]];
    ShortestGrows(ordered[..i], ordered[i], was, short);
  }

  lemma PrefixInOrder(s: seq<Seat>, n: nat)
    requires InOrder(s, SeatLeq) && n <= |s|
    ensures InOrder(s[..n], SeatLeq)
  {}

  lemma ShortestGrows(row: seq<Seat>, s: Seat, was: Option<int>, short: Option<int>)
    requires row != [] && Shortest(row, was) && InOrder(row + [s], SeatLeq)
    requires var gap := X(s) - X(row[|row| - 1]);
      short == if gap > 0 && (was.None? || gap < was.value) then Some(gap) else was
    ensures Shortest(row + [s], short)
  {
    hide SeatLeq;
    var last := row[|row| - 1];
    LastIsFarthest(row, s);
    assert last in row;
    if short.Some? {
      if short == was {
        var a, b :| a in row && b in row && X(b) - X(a) == short.value;
        assert a in row + [s] && b in row + [s];
      } else {
        assert last in row + [s] && s in row + [s];
      }
    }
  }

  lemma LastIsFarthest(row: seq<Seat>, s: Seat)
    requires row != [] && InOrder(row + [s], SeatLeq)
    ensures forall a :: a in row ==> X(a) <= X(row[|row| - 1]) <= X(s)
  {
    var last := row[|row| - 1];
    forall a | a in row ensures X(a) <= X(last) && X(last) <= X(s) {
      var i :| 0 <= i < |row| && row[i] == a;
      assert (row + [s])[i] == a && (row + [s])[|row| - 1] == last && (row + [s])[|row|] == s;
      if i < |row| - 1 { assert SeatLeq((row + [s])[i], (row + [s])[|row| - 1]); }
    }
  }

  // ----- splitting a row

  function Flatten<T>(groups: seq<seq<T>>): seq<T> {
    if groups == [] then [] else Flatten(groups[..|groups| - 1]) + groups[|groups| - 1]
  }

  /** Neighbours within a group are near, and neighbouring groups are far apart. */
  ghost predicate Splits(groups: seq<seq<Seat>>, short: Option<int>) {
    && (forall g :: 0 <= g < |groups| ==> Tight(groups[g], short))
    && (forall g, h :: 0 <= g && h == g + 1 < |groups| ==> Apart(groups[g], groups[h], short))
  }

  ghost predicate Tight(group: seq<Seat>, short: Option<int>) {
    group != [] && forall i, j :: 0 <= i && j == i + 1 < |group| ==> !Far(group[i], group[j], short)
  }

  ghost predicate Apart(a: seq<Seat>, b: seq<Seat>, short: Option<int>) {
    a != [] && b != [] && Far(a[|a| - 1], b[0], short)
  }

  method SplitRow(ordered: seq<Seat>, short: Option<int>) returns (groups: seq<seq<Seat>>)
    requires ordered != []
    ensures Flatten(groups) == ordered && groups != [] && Splits(groups, short)
  {
    groups := [[ordered[0]]];
    var i := 1;
    assert Flatten(groups) == ordered[..1] by { assert groups[..0] == []; }
    while i < |ordered|
      invariant 1 <= i <= |ordered| && groups != [] && Flatten(groups) == ordered[..i] && Splits(groups, short)
      invariant EndsWith(groups, ordered[i - 1])
    {
      if Far(ordered[i - 1], ordered[i], short) {
        CutStep(groups, ordered[i - 1], ordered[i], short);
        groups := groups + [[ordered[i]]];
      } else {
        JoinStep(groups, ordered[i - 1], ordered[i], short);
        groups := groups[|groups| - 1 := groups[|groups| - 1] + [ordered[i]]];
      }
      assert ordered[..i + 1] == ordered[..i] + [ordered[i]];
      i := i + 1;
    }
    assert ordered[..|ordered|] == ordered;
  }

  /** A far seat opens a group. */
  lemma CutStep(was: seq<seq<Seat>>, last: Seat, s: Seat, short: Option<int>)
    requires Splits(was, short) && EndsWith(was, last) && Far(last, s, short)
    ensures var groups := was + [[s]];
      Splits(groups, short) && EndsWith(groups, s) && Flatten(groups) == Flatten(was) + [s]
  {}

  /** A near seat joins the last group. */
  lemma JoinStep(was: seq<seq<Seat>>, last: Seat, s: Seat, short: Option<int>)
    requires Splits(was, short) && EndsWith(was, last) && !Far(last, s, short)
    ensures var groups := was[|was| - 1 := was[|was| - 1] + [s]];
      Splits(groups, short) && EndsWith(groups, s) && Flatten(groups) == Flatten(was) + [s]
  {
    hide Splits, Far;
    var n := |was| - 1;
    assert was[n := was[n] + [s]][..n] == was[..n];
    JoinedPiece(was, last, s, short);
  }

  lemma JoinedPiece(was: seq<seq<Seat>>, last: Seat, s: Seat, short: Option<int>)
    requires Splits(was, short) && EndsWith(was, last) && !Far(last, s, short)
    ensures Splits(was[|was| - 1 := was[|was| - 1] + [s]], short)
  {}

  predicate EndsWith(groups: seq<seq<Seat>>, s: Seat) {
    groups != [] && groups[|groups| - 1] != [] && groups[|groups| - 1][|groups[|groups| - 1]| - 1] == s
  }

  // ----- rows into segments

  /** A row split at every gap that is long against its shortest one. */
  ghost predicate RowSplit(row: seq<Seat>, groups: seq<seq<Seat>>) {
    && groups != [] && multiset(Flatten(groups)) == multiset(row) && InOrder(Flatten(groups), SeatLeq)
    && exists short :: Shortest(row, short) && Splits(groups, short)
  }

  method InferRow(row: seq<Seat>) returns (groups: seq<seq<Seat>>)
    requires row != []
    ensures RowSplit(row, groups)
  {
    SeatsOrdered();
    var ordered := SortBy(row, SeatLeq);
    SameElements(ordered, row);
    var short := ShortGap(ordered);
    groups := SplitRow(ordered, short);
    ShortestPermuted(ordered, row, short);
  }

  lemma ShortestPermuted(a: seq<Seat>, b: seq<Seat>, short: Option<int>)
    requires Shortest(a, short) && forall s :: s in a <==> s in b
    ensures Shortest(b, short)
  {}

  function SegmentId(k: RowKey, index: nat): string {
    "inferred:" + k.block + ":" + k.row + ":" + Digits(index)
  }

  function RowSegments(k: RowKey, groups: seq<seq<Seat>>): seq<RowSegment> {
    seq(|groups|, i requires 0 <= i < |groups| => RowSegment(SegmentId(k, i), k.block, k.row, Ids(groups[i])))
  }

  ghost predicate SplitFor(order: seq<RowKey>, split: map<RowKey, seq<seq<Seat>>>) {
    forall k :: k in order ==> k in split
  }

  /** The segments of all rows, row by row. */
  function SegmentsOf(order: seq<RowKey>, split: map<RowKey, seq<seq<Seat>>>): seq<RowSegment>
    requires SplitFor(order, split)
  {
    if order == [] then []
    else SegmentsOf(order[..|order| - 1], split) + RowSegments(order[|order| - 1], split[order[|order| - 1]])
  }

  function SeatsOf(order: seq<RowKey>, split: map<RowKey, seq<seq<Seat>>>): seq<Seat>
    requires SplitFor(order, split)
  {
    if order == [] then [] else SeatsOf(order[..|order| - 1], split) + Flatten(split[order[|order| - 1]])
  }

  /** The segments come from splitting exactly the rows of the placed seats, in the order of their names. */
  ghost predicate Inferred(seats: seq<Seat>, segments: seq<RowSegment>, order: seq<RowKey>, split: map<RowKey, seq<seq<Seat>>>) {
    && NoRepeats(order) && InOrder(order, KeyLeq) && SplitFor(order, split)
    && (forall k :: k in order <==> RowSeats(seats, k) != [])
    && (forall k :: k in order ==> RowSplit(RowSeats(seats, k), split[k]))
    && segments == SegmentsOf(order, split)
  }

  method SortedKeys(keys: set<RowKey>) returns (order: seq<RowKey>)
    ensures NoRepeats(order) && InOrder(order, KeyLeq) && forall k :: k in order <==> k in keys
  {
    var list: seq<RowKey> := [];
    var rest := keys;
    while rest != {}
      invariant rest <= keys && NoRepeats(list) && forall k :: k in list <==> k in keys && k !in rest
      decreases rest
    {
      var k :| k in rest;
      list, rest := list + [k], rest - {k};
    }
    KeysOrdered();
    order := SortBy(list, KeyLeq);
    SameElements(order, list);
    RepeatsPermuted(list, order);
  }

  /** Whether a list repeats an element depends on the multiset of its elements. */
  lemma RepeatsCounted<T>(s: seq<T>)
    ensures NoRepeats(s) <==> forall x :: x in s ==> multiset(s)[x] == 1
  {
    if NoRepeats(s) {
      forall x | x in s ensures multiset(s)[x] == 1 { CountedOnce(s, x); }
    } else {
      var i, j :| 0 <= i < j < |s| && s[i] == s[j];
      assert s == s[..j] + s[j..];
      assert s[i] in s[..j] && s[j] in s[j..];
      assert multiset(s)[s[i]] == multiset(s[..j])[s[i]] + multiset(s[j..])[s[i]];
    }
  }

  lemma {:induction false} CountedOnce<T>(s: seq<T>, x: T)
    requires NoRepeats(s)
    ensures multiset(s)[x] == if x in s then 1 else 0
  {
    if s != [] {
      assert s == [s[0]] + s[1..];
      CountedOnce(s[1..], x);
      if x in s[1..] {
        var i :| 0 <= i < |s[1..]| && s[1..][i] == x;
        assert s[i + 1] == x;
      }
    }
  }

  lemma RepeatsPermuted<T>(a: seq<T>, b: seq<T>)
    requires multiset(a) == multiset(b)
    ensures NoRepeats(a) <==> NoRepeats(b)
  {
    RepeatsCounted(a);
    RepeatsCounted(b);
    SameElements(a, b);
  }

  method InferSegments(seats: seq<Seat>)
    returns (segments: seq<RowSegment>, ghost order: seq<RowKey>, ghost split: map<RowKey, seq<seq<Seat>>>)
    ensures Inferred(seats, segments, order, split)
  {
    hide RowSeats, RowSplit, SplitSoFar, KeyLeq;
    var rows := CollectRows(seats);
    var keys := SortedKeys(rows.Keys);
    order, split, segments := keys, map[], [];
    var i := 0;
    NothingSplit(seats, keys, split);
    while i < |keys|
      invariant 0 <= i <= |keys| && SplitSoFar(seats, keys[..i], split, segments)
    {
      var k := keys[i];
      var groups := InferRow(rows[k]);
      assert keys[..i + 1] == keys[..i] + [k];
      SplitOneMore(seats, keys[..i], split, segments, k, groups);
      segments, split := segments + RowSegments(k, groups), split[k := groups];
      i := i + 1;
    }
    assert keys[..i] == keys;
    RowsListed(seats, rows, keys);
    AllSplit(seats, keys, split, segments);
  }

  /** The listed rows are split as they should be, and make these segments. */
  ghost predicate SplitSoFar(seats: seq<Seat>, order: seq<RowKey>, split: map<RowKey, seq<seq<Seat>>>, segments: seq<RowSegment>) {
    && SplitFor(order, split) && segments == SegmentsOf(order, split)
    && forall k :: k in order ==> RowSplit(RowSeats(seats, k), split[k])
  }

  lemma AllSplit(seats: seq<Seat>, order: seq<RowKey>, split: map<RowKey, seq<seq<Seat>>>, segments: seq<RowSegment>)
    requires SplitSoFar(seats, order, split, segments) && NoRepeats(order) && InOrder(order, KeyLeq)
    requires forall k :: k in order <==> RowSeats(seats, k) != []
    ensures Inferred(seats, segments, order, split)
  {
    hide RowSplit, RowSeats;
  }

  lemma NothingSplit(seats: seq<Seat>, keys: seq<RowKey>, split: map<RowKey, seq<seq<Seat>>>)
    ensures SplitSoFar(seats, keys[..0], split, [])
  {}

  lemma SplitOneMore(seats: seq<Seat>, order: seq<RowKey>, split: map<RowKey, seq<seq<Seat>>>, segments: seq<RowSegment>,
                     k: RowKey, groups: seq<seq<Seat>>)
    requires SplitSoFar(seats, order, split, segments) && k !in order && RowSplit(RowSeats(seats, k), groups)
    ensures SplitSoFar(seats, order + [k], split[k := groups], segments + RowSegments(k, groups))
  {
    hide RowSplit;
    SegmentsFrame(order, split, k, groups);
    assert (order + [k])[..|order|] == order;
  }

  lemma RowsListed(seats: seq<Seat>, rows: map<RowKey, seq<Seat>>, keys: seq<RowKey>)
    requires forall k :: k in keys <==> k in rows
    requires forall k :: k in rows ==> rows[k] == RowSeats(seats, k) && rows[k] != []
    requires forall s :: s in Placed(seats) ==> KeyOf(s) in rows
    ensures forall k :: k in keys <==> RowSeats(seats, k) != []
  {
    forall k | RowSeats(seats, k) != [] ensures k in rows {
      RowSeatsIn(seats, k, RowSeats(seats, k)[0]);
      PlacedIn(seats, RowSeats(seats, k)[0]);
    }
  }

  lemma {:induction false} SegmentsFrame(order: seq<RowKey>, split: map<RowKey, seq<seq<Seat>>>, k: RowKey, groups: seq<seq<Seat>>)
    requires SplitFor(order, split) && k !in order
    ensures SplitFor(order, split[k := groups]) && SegmentsOf(order, split[k := groups]) == SegmentsOf(order, split)
  {
    if order != [] { SegmentsFrame(order[..|order| - 1], split, k, groups); }
  }

  /** Two neighbours are in one group exactly if their distance is at most one and a half times any positive one in the row. */
  lemma CutsExactly(row: seq<Seat>, groups: seq<seq<Seat>>, g: nat)
    requires RowSplit(row, groups) && g < |groups|
    ensures forall i, a, b :: 0 <= i && i + 1 < |groups[g]| && a in row && b in row && X(a) < X(b) ==>
      2 * (X(groups[g][i + 1]) - X(groups[g][i])) <= 3 * (X(b) - X(a))
    ensures groups[g] != [] && (g + 1 < |groups| ==> groups[g + 1] != [])
    ensures g + 1 < |groups| ==>
      var last, first := groups[g][|groups[g]| - 1], groups[g + 1][0];
      exists a, b :: a in row && b in row && X(a) < X(b) && 2 * (X(first) - X(last)) > 3 * (X(b) - X(a))
  {
    var short :| Shortest(row, short) && Splits(groups, short);
    assert Tight(groups[g], short);
    forall i, a, b | 0 <= i && i + 1 < |groups[g]| && a in row && b in row && X(a) < X(b)
      ensures 2 * (X(groups[g][i + 1]) - X(groups[g][i])) <= 3 * (X(b) - X(a))
    { assert !Far(groups[g][i], groups[g][i + 1], short); }
    if g + 1 < |groups| {
      assert Apart(groups[g], groups[g + 1], short);
      var a, b :| a in row && b in row && X(b) - X(a) == short.value;
    }
  }
}
