/** The inferred profile passes every check of a profile, partitions the placed seats and matches its inventory. */
module Profiles {
  import opened Wrappers
  import opened Checkout
  import opened Ordering
  import opened Topology
  import opened Inference

  function PlacedIds(seats: seq<Seat>): seq<string> { Ids(Placed(seats)) }

  predicate UniqueIds(seats: seq<Seat>) { NoRepeats(Ids(seats)) }

  function Joined(k: RowKey): string { k.block + ":" + k.row }

  /** Different rows have different texts, so that their segment ids cannot collide. */
  predicate RowsTellApart(seats: seq<Seat>) {
    forall a, b :: a in seats && b in seats && a.Placed() && b.Placed() && Joined(KeyOf(a)) == Joined(KeyOf(b))
      ==> KeyOf(a) == KeyOf(b)
  }

  /** Every check a profile without preferred groups makes when it is constructed. */
  predicate Constructible(segments: seq<RowSegment>) {
    && segments != []
    && (forall g :: g in segments ==> g.Valid())
    && NoRepeats(SegmentIds(segments)) && NoRepeats(AllIds(segments))
  }

  // ----- concatenation

  lemma ConcatRepeats<T>(a: seq<T>, b: seq<T>)
    ensures NoRepeats(a + b) <==> NoRepeats(a) && NoRepeats(b) && forall x :: x in a ==> x !in b
  {
    var c := a + b;
    if NoRepeats(c) {
      forall i, j | 0 <= i < j < |a| ensures a[i] != a[j] { assert c[i] == a[i] && c[j] == a[j]; }
      forall i, j | 0 <= i < j < |b| ensures b[i] != b[j] { assert c[|a| + i] == b[i] && c[|a| + j] == b[j]; }
      forall x | x in a ensures x !in b {
        var i :| 0 <= i < |a| && a[i] == x;
        forall j | 0 <= j < |b| ensures b[j] != x { assert c[i] == x && c[|a| + j] == b[j]; }
      }
    }
    if NoRepeats(a) && NoRepeats(b) && forall x :: x in a ==> x !in b {
      forall i, j | 0 <= i < j < |c| ensures c[i] != c[j] {
        if j < |a| { assert c[i] == a[i] && c[j] == a[j]; }
        else if i < |a| { assert a[i] in a && c[j] == b[j - |a|]; }
        else { assert c[i] == b[i - |a|] && c[j] == b[j - |a|]; }
      }
    }
  }

  // ----- segment ids

  function RowIds(k: RowKey, n: nat): seq<string> { seq(n, i requires 0 <= i < n => SegmentId(k, i)) }

  lemma SegmentIdSplit(k: RowKey, i: nat, l: RowKey, j: nat)
    ensures SegmentId(k, i) == SegmentId(l, j) <==> Joined(k) == Joined(l) && i == j
  {
    var a, b := "inferred:" + Joined(k), "inferred:" + Joined(l);
    assert SegmentId(k, i) == a + ":" + Digits(i) && SegmentId(l, j) == b + ":" + Digits(j);
    DigitsHaveNoColon(i);
    DigitsHaveNoColon(j);
    if SegmentId(k, i) == SegmentId(l, j) {
      LastColon(a, b, Digits(i), Digits(j));
      DigitsInjective(i, j);
      assert a[9..] == Joined(k) && b[9..] == Joined(l);
    }
  }

  lemma RowIdsDiffer(k: RowKey, n: nat)
    ensures NoRepeats(RowIds(k, n))
  {
    forall i, j | 0 <= i < j < n ensures RowIds(k, n)[i] != RowIds(k, n)[j] { SegmentIdSplit(k, i, k, j); }
  }

  lemma {:induction false} IdsOfSegments(order: seq<RowKey>, split: map<RowKey, seq<seq<Seat>>>)
    requires SplitFor(order, split)
    ensures order != [] ==>
      var k := order[|order| - 1];
      SegmentIds(SegmentsOf(order, split)) == SegmentIds(SegmentsOf(order[..|order| - 1], split)) + RowIds(k, |split[k]|)
  {}

  /** A segment id names its row and its place in the row. */
  lemma {:induction false} IdInSegments(order: seq<RowKey>, split: map<RowKey, seq<seq<Seat>>>, k: RowKey, i: nat)
    requires SplitFor(order, split) && k in order && i < |split[k]|
    ensures SegmentId(k, i) in SegmentIds(SegmentsOf(order, split))
  {
    var last, init := order[|order| - 1], order[..|order| - 1];
    IdsOfSegments(order, split);
    if k == last {
      assert RowIds(last, |split[last]|)[i] == SegmentId(k, i);
      assert SegmentId(k, i) in RowIds(last, |split[last]|);
    } else {
      assert order == init + [last];
      IdInSegments(init, split, k, i);
    }
  }

  lemma {:induction false} IdOfSegment(order: seq<RowKey>, split: map<RowKey, seq<seq<Seat>>>, id: string) returns (k: RowKey, i: nat)
    requires SplitFor(order, split) && id in SegmentIds(SegmentsOf(order, split))
    ensures k in order && i < |split[k]| && id == SegmentId(k, i)
  {
    var last, init := order[|order| - 1], order[..|order| - 1];
    IdsOfSegments(order, split);
    var own := RowIds(last, |split[last]|);
    if id in own {
      k := last;
      i :| 0 <= i < |own| && own[i] == id;
    } else {
      k, i := IdOfSegment(init, split, id);
    }
  }

  ghost predicate KeysTellApart(order: seq<RowKey>) {
    forall k, l :: k in order && l in order && Joined(k) == Joined(l) ==> k == l
  }

  lemma {:induction false} SegmentIdsDiffer(order: seq<RowKey>, split: map<RowKey, seq<seq<Seat>>>)
    requires SplitFor(order, split) && NoRepeats(order) && forall k :: k in order ==> split[k] != []
    ensures NoRepeats(SegmentIds(SegmentsOf(order, split))) <==> KeysTellApart(order)
  {
    if order != [] {
      var last, init := order[|order| - 1], order[..|order| - 1];
      assert order == init + [last] && last !in init;
      var before, ids := SegmentIds(SegmentsOf(init, split)), RowIds(last, |split[last]|);
      IdsOfSegments(order, split);
      SegmentIdsDiffer(init, split);
      RowIdsDiffer(last, |split[last]|);
      ConcatRepeats(before, ids);
      LastRowApart(init, split, last);
    }
  }

  /** The ids of one more row are new exactly when its text is. */
  lemma LastRowApart(init: seq<RowKey>, split: map<RowKey, seq<seq<Seat>>>, last: RowKey)
    requires SplitFor(init, split) && last in split && split[last] != [] && forall k :: k in init ==> split[k] != []
    ensures (forall id :: id in SegmentIds(SegmentsOf(init, split)) ==> id !in RowIds(last, |split[last]|))
       <==> (forall k :: k in init ==> Joined(k) != Joined(last))
  {
    var before, ids := SegmentIds(SegmentsOf(init, split)), RowIds(last, |split[last]|);
    forall k | k in init && Joined(k) == Joined(last) ensures exists id :: id in before && id in ids {
      SegmentIdSplit(k, 0, last, 0);
      IdInSegments(init, split, k, 0);
      assert ids[0] == SegmentId(last, 0);
      assert SegmentId(k, 0) in before && SegmentId(k, 0) in ids;
    }
    forall id | id in before && id in ids ensures exists k :: k in init && Joined(k) == Joined(last) {
      var k, i := IdOfSegment(init, split, id);
      var j: nat :| j < |ids| && ids[j] == id;
      SegmentIdSplit(k, i, last, j);
    }
  }

  // ----- the seats of the segments

  lemma IdsConcat(a: seq<Seat>, b: seq<Seat>)
    ensures Ids(a + b) == Ids(a) + Ids(b)
  {}

  lemma AllIdsConcat(a: seq<RowSegment>, b: seq<RowSegment>)
    ensures AllIds(a + b) == AllIds(a) + AllIds(b)
  {
    if b == [] {
      assert a + b == a;
    } else {
      assert (a + b)[..|a + b| - 1] == a + b[..|b| - 1];
      AllIdsConcat(a, b[..|b| - 1]);
    }
  }

  lemma {:induction false} RowIdsFlatten(k: RowKey, groups: seq<seq<Seat>>)
    ensures AllIds(RowSegments(k, groups)) == Ids(Flatten(groups))
  {
    if groups != [] {
      var init := groups[..|groups| - 1];
      assert RowSegments(k, groups)[..|groups| - 1] == RowSegments(k, init);
      RowIdsFlatten(k, init);
      IdsConcat(Flatten(init), groups[|groups| - 1]);
    }
  }

  lemma {:induction false} AllIdsOfSegments(order: seq<RowKey>, split: map<RowKey, seq<seq<Seat>>>)
    requires SplitFor(order, split)
    ensures AllIds(SegmentsOf(order, split)) == Ids(SeatsOf(order, split))
  {
    if order != [] {
      var last, init := order[|order| - 1], order[..|order| - 1];
      AllIdsOfSegments(init, split);
      RowIdsFlatten(last, split[last]);
      AllIdsConcat(SegmentsOf(init, split), RowSegments(last, split[last]));
      IdsConcat(SeatsOf(init, split), Flatten(split[last]));
    }
  }

  /** The seats of the listed rows, in inventory order within each row. */
  function Covered(order: seq<RowKey>, seats: seq<Seat>): seq<Seat> {
    if order == [] then [] else Covered(order[..|order| - 1], seats) + RowSeats(seats, order[|order| - 1])
  }

  lemma {:induction false} SplitCovers(order: seq<RowKey>, split: map<RowKey, seq<seq<Seat>>>, seats: seq<Seat>)
    requires SplitFor(order, split) && forall k :: k in order ==> RowSplit(RowSeats(seats, k), split[k])
    ensures multiset(SeatsOf(order, split)) == multiset(Covered(order, seats))
  {
    if order != [] {
      var last, init := order[|order| - 1], order[..|order| - 1];
      assert order == init + [last];
      SplitCovers(init, split, seats);
      assert RowSplit(RowSeats(seats, last), split[last]);
    }
  }

  /** One more seat joins its own row and no other. */
  lemma {:induction false} CoverGrows(order: seq<RowKey>, seats: seq<Seat>, s: Seat)
    requires NoRepeats(order)
    ensures multiset(Covered(order, seats + [s]))
         == multiset(Covered(order, seats)) + if s.Placed() && KeyOf(s) in order then multiset{s} else multiset{}
  {
    if order != [] {
      var last, init := order[|order| - 1], order[..|order| - 1];
      assert order == init + [last] && last !in init;
      CoverGrows(init, seats, s);
      assert (seats + [s])[..|seats|] == seats;
    }
  }

  lemma {:induction false} NothingCovered(order: seq<RowKey>)
    ensures Covered(order, []) == []
  {
    if order != [] { NothingCovered(order[..|order| - 1]); }
  }

  /** Rows partition the placed seats. */
  lemma {:induction false} RowsPartition(order: seq<RowKey>, seats: seq<Seat>)
    requires NoRepeats(order) && forall s :: s in Placed(seats) ==> KeyOf(s) in order
    ensures multiset(Covered(order, seats)) == multiset(Placed(seats))
  {
    if seats == [] {
      NothingCovered(order);
    } else {
      var init, s := seats[..|seats| - 1], seats[|seats| - 1];
      assert seats == init + [s];
      forall t | t in Placed(init) ensures KeyOf(t) in order { assert t in Placed(seats); }
      RowsPartition(order, init);
      CoverGrows(order, init, s);
      if s.Placed() { assert s in Placed(seats); }
    }
  }

  lemma IdsPermuted(a: seq<Seat>, b: seq<Seat>)
    requires multiset(a) == multiset(b)
    ensures multiset(Ids(a)) == multiset(Ids(b))
  {
    MapPermuted(IdOf, a, b);
    assert Ids(a) == Map(IdOf, a) && Ids(b) == Map(IdOf, b);
  }

  function IdOf(s: Seat): string { s.id }

  lemma InferredKeys(seats: seq<Seat>, segments: seq<RowSegment>, order: seq<RowKey>, split: map<RowKey, seq<seq<Seat>>>)
    requires Inferred(seats, segments, order, split)
    ensures forall s :: s in Placed(seats) ==> KeyOf(s) in order
    ensures forall k :: k in order ==> exists s :: s in seats && s.Placed() && KeyOf(s) == k
  {
    forall s | s in Placed(seats) ensures KeyOf(s) in order {
      PlacedIn(seats, s);
      RowSeatsIn(seats, KeyOf(s), s);
    }
    forall k | k in order ensures exists s :: s in seats && s.Placed() && KeyOf(s) == k {
      RowSeatsIn(seats, k, RowSeats(seats, k)[0]);
    }
  }

  /** The segments hold every placed seat exactly as often as the inventory does. */
  lemma SegmentsPartition(seats: seq<Seat>, segments: seq<RowSegment>, order: seq<RowKey>, split: map<RowKey, seq<seq<Seat>>>)
    requires Inferred(seats, segments, order, split)
    ensures multiset(AllIds(segments)) == multiset(PlacedIds(seats))
  {
    InferredKeys(seats, segments, order, split);
    AllIdsOfSegments(order, split);
    SplitCovers(order, split, seats);
    RowsPartition(order, seats);
    IdsPermuted(SeatsOf(order, split), Placed(seats));
  }

  // ----- construction

  lemma KeysAndSeats(seats: seq<Seat>, segments: seq<RowSegment>, order: seq<RowKey>, split: map<RowKey, seq<seq<Seat>>>)
    requires Inferred(seats, segments, order, split)
    ensures KeysTellApart(order) <==> RowsTellApart(seats)
  {
    InferredKeys(seats, segments, order, split);
    forall s | s in seats && s.Placed() ensures KeyOf(s) in order { PlacedIn(seats, s); }
    if RowsTellApart(seats) {
      forall k, l | k in order && l in order && Joined(k) == Joined(l) ensures k == l {
        var a :| a in seats && a.Placed() && KeyOf(a) == k;
        var b :| b in seats && b.Placed() && KeyOf(b) == l;
      }
    }
  }

  lemma {:induction false} SegmentAt(order: seq<RowKey>, split: map<RowKey, seq<seq<Seat>>>, g: RowSegment)
    requires SplitFor(order, split)
    ensures g in SegmentsOf(order, split) <==>
      exists k, i: nat :: k in order && i < |split[k]| && g == RowSegment(SegmentId(k, i), k.block, k.row, Ids(split[k][i]))
  {
    if order != [] {
      var last, init := order[|order| - 1], order[..|order| - 1];
      assert order == init + [last];
      SegmentAt(init, split, g);
      var own := RowSegments(last, split[last]);
      if g in own {
        var i: nat :| i < |own| && own[i] == g;
        assert last in order && g == RowSegment(SegmentId(last, i), last.block, last.row, Ids(split[last][i]));
      }
      if exists k, i: nat :: k in order && i < |split[k]| && g == RowSegment(SegmentId(k, i), k.block, k.row, Ids(split[k][i])) {
        var k, i: nat :| k in order && i < |split[k]| && g == RowSegment(SegmentId(k, i), k.block, k.row, Ids(split[k][i]));
        if k == last { assert own[i] == g; } else { assert k in init; }
      }
    }
  }

  lemma {:induction false} FlattenHas(groups: seq<seq<Seat>>, i: nat, s: Seat)
    requires i < |groups| && s in groups[i]
    ensures s in Flatten(groups)
  {
    if i < |groups| - 1 { FlattenHas(groups[..|groups| - 1], i, s); }
  }

  lemma PieceSeat(seats: seq<Seat>, k: RowKey, groups: seq<seq<Seat>>, i: nat, s: Seat)
    requires RowSplit(RowSeats(seats, k), groups) && i < |groups| && s in groups[i]
    ensures s in seats && s.Placed() && KeyOf(s) == k
  {
    FlattenHas(groups, i, s);
    SameElements(Flatten(groups), RowSeats(seats, k));
    RowSeatsIn(seats, k, s);
  }

  /** A segment belongs to one row: its seats are placed there. */
  lemma SegmentSeats(seats: seq<Seat>, segments: seq<RowSegment>, order: seq<RowKey>, split: map<RowKey, seq<seq<Seat>>>,
                     g: RowSegment, id: string)
    requires Inferred(seats, segments, order, split) && g in segments && id in g.seats
    ensures exists s :: s in seats && s.Placed() && s.id == id && s.block == g.block && s.row == g.row
  {
    SegmentAt(order, split, g);
    var k, i: nat :| k in order && i < |split[k]| && g == RowSegment(SegmentId(k, i), k.block, k.row, Ids(split[k][i]));
    var j: nat :| j < |g.seats| && g.seats[j] == id;
    PieceSeat(seats, k, split[k], i, split[k][i][j]);
  }

  lemma {:induction false} SegmentIdsWithin(segments: seq<RowSegment>, g: RowSegment)
    requires g in segments && NoRepeats(AllIds(segments))
    ensures NoRepeats(g.seats)
  {
    var last, init := segments[|segments| - 1], segments[..|segments| - 1];
    assert segments == init + [last];
    ConcatRepeats(AllIds(init), last.seats);
    if g != last { SegmentIdsWithin(init, g); }
  }

  lemma StripHas(t: string, i: nat)
    requires i < |t| && !IsBlank(t[i])
    ensures !Blank(t)
  {
    BlankOnly(StripLeft(t));
    StripLeftHas(t, i);
  }

  lemma {:induction false} StripLeftHas(t: string, i: nat)
    requires i < |t| && !IsBlank(t[i])
    ensures t[i] in StripLeft(t)
  {
    if IsBlank(t[0]) { StripLeftHas(t[1..], i - 1); }
  }

  lemma {:induction false} BlankOnly(t: string)
    ensures StripRight(t) == "" ==> forall c :: c in t ==> IsBlank(c)
  {
    if t != "" && IsBlank(t[|t| - 1]) {
      BlankOnly(t[..|t| - 1]);
      assert t == t[..|t| - 1] + [t[|t| - 1]];
    }
  }

  lemma SegmentIdNotBlank(k: RowKey, i: nat)
    ensures !Blank(SegmentId(k, i))
  {}

  lemma PieceNotEmpty(row: seq<Seat>, groups: seq<seq<Seat>>, i: nat)
    requires RowSplit(row, groups) && i < |groups|
    ensures groups[i] != []
  {}

  lemma PieceIsValid(seats: seq<Seat>, k: RowKey, groups: seq<seq<Seat>>, i: nat, g: RowSegment)
    requires RowSplit(RowSeats(seats, k), groups) && i < |groups| && forall s :: s in seats ==> s.Valid()
    requires g == RowSegment(SegmentId(k, i), k.block, k.row, Ids(groups[i])) && NoRepeats(g.seats)
    ensures g.Valid()
  {
    SegmentIdNotBlank(k, i);
    PieceNotEmpty(RowSeats(seats, k), groups, i);
    assert g.seats[0] == groups[i][0].id;
    forall j | 0 <= j < |g.seats| ensures !Blank(g.seats[j]) && !Blank(k.block) && !Blank(k.row) {
      PieceSeat(seats, k, groups, i, groups[i][j]);
    }
  }

  lemma SegmentIsValid(seats: seq<Seat>, segments: seq<RowSegment>, order: seq<RowKey>, split: map<RowKey, seq<seq<Seat>>>, g: RowSegment)
    requires Inferred(seats, segments, order, split) && g in segments && NoRepeats(AllIds(segments))
    requires forall s :: s in seats ==> s.Valid()
    ensures g.Valid()
  {
    SegmentAt(order, split, g);
    SegmentIdsWithin(segments, g);
    var k, i: nat :| k in order && i < |split[k]| && g == RowSegment(SegmentId(k, i), k.block, k.row, Ids(split[k][i]));
    PieceIsValid(seats, k, split[k], i, g);
  }

  /** The segments make a profile exactly when no placed seat repeats an id and rows differ in their texts. */
  lemma ConstructibleExactly(seats: seq<Seat>, segments: seq<RowSegment>, order: seq<RowKey>, split: map<RowKey, seq<seq<Seat>>>)
    requires Inferred(seats, segments, order, split) && forall s :: s in seats ==> s.Valid()
    ensures Constructible(segments) <==> Placed(seats) != [] && NoRepeats(PlacedIds(seats)) && RowsTellApart(seats)
  {
    SegmentsPartition(seats, segments, order, split);
    RepeatsPermuted(AllIds(segments), PlacedIds(seats));
    SameElements(AllIds(segments), PlacedIds(seats));
    KeysAndSeats(seats, segments, order, split);
    forall k | k in order ensures split[k] != [] { assert RowSplit(RowSeats(seats, k), split[k]); }
    SegmentIdsDiffer(order, split);
    if NoRepeats(AllIds(segments)) {
      forall g | g in segments ensures g.Valid() { SegmentIsValid(seats, segments, order, split, g); }
    }
    SomeSegment(seats, segments, order, split);
  }

  lemma SomeSegment(seats: seq<Seat>, segments: seq<RowSegment>, order: seq<RowKey>, split: map<RowKey, seq<seq<Seat>>>)
    requires Inferred(seats, segments, order, split)
    ensures segments != [] <==> Placed(seats) != []
  {
    InferredKeys(seats, segments, order, split);
    if Placed(seats) != [] {
      assert Placed(seats)[0] in Placed(seats);
      var k := KeyOf(Placed(seats)[0]);
      assert RowSplit(RowSeats(seats, k), split[k]);
      SegmentAt(order, split, RowSegment(SegmentId(k, 0), k.block, k.row, Ids(split[k][0])));
    }
    if segments != [] {
      SegmentAt(order, split, segments[0]);
      assert segments[0] in segments;
      var k: RowKey :| k in order;
      var s :| s in seats && s.Placed() && KeyOf(s) == k;
      PlacedIn(seats, s);
    }
  }

  /** A profile inferred from a hall, or the reason there is none. */
  method InferProfile(seats: seq<Seat>)
    returns (r: Result<Profile, Fault>, ghost order: seq<RowKey>, ghost split: map<RowKey, seq<seq<Seat>>>)
    requires forall s :: s in seats ==> s.Valid()
    ensures r.Ok? <==>
      seats != [] && OneHall(seats) && Placed(seats) != [] && NoRepeats(PlacedIds(seats)) && RowsTellApart(seats)
    ensures r.Ok? ==>
      && r.value == Profile(seats[0].hall, FingerprintOf(seats), Automatic, r.value.segments, [])
      && Inferred(seats, r.value.segments, order, split) && Constructible(r.value.segments)
  {
    hide *;
    order, split := [], map[];
    if seats == [] { return Err(EmptyHall), order, split; }
    if !OneHall(seats) { return Err(ManyHalls), order, split; }
    var segments: seq<RowSegment>;
    segments, order, split := InferSegments(seats);
    ConstructibleExactly(seats, segments, order, split);
    SomeSegment(seats, segments, order, split);
    if segments == [] { return Err(NoGeometry), order, split; }
    if !Constructible(segments) { return Err(InvalidProfile), order, split; }
    r := Ok(Profile(seats[0].hall, FingerprintOf(seats), Automatic, segments, []));
  }

  // ----- the inventory it came from

  lemma {:induction false} ByIdFinds(seats: seq<Seat>, s: Seat)
    requires UniqueIds(seats) && s in seats
    ensures s.id in ById(seats) && ById(seats)[s.id] == s
  {
    var init, last := seats[..|seats| - 1], seats[|seats| - 1];
    assert seats == init + [last];
    IdsConcat(init, [last]);
    ConcatRepeats(Ids(init), Ids([last]));
    if s != last {
      assert s in init;
      ByIdFinds(init, s);
      var i :| 0 <= i < |init| && init[i] == s;
      assert Ids(init)[i] == s.id && Ids([last])[0] == last.id;
      assert s.id in Ids(init) && last.id in Ids([last]);
    }
  }

  /** The profile of a hall whose seats have different ids matches that hall. */
  lemma InferredMatches(seats: seq<Seat>, p: Profile, order: seq<RowKey>, split: map<RowKey, seq<seq<Seat>>>)
    requires seats != [] && OneHall(seats) && UniqueIds(seats) && Inferred(seats, p.segments, order, split)
    requires p == Profile(seats[0].hall, FingerprintOf(seats), Automatic, p.segments, [])
    ensures MatchesInventory(p, seats)
  {
    forall g | g in p.segments ensures SegmentMatches(g, ById(seats)) {
      forall id | id in g.seats ensures id in ById(seats) && ById(seats)[id].block == g.block && ById(seats)[id].row == g.row {
        SegmentSeats(seats, p.segments, order, split, g, id);
        var s :| s in seats && s.Placed() && s.id == id && s.block == g.block && s.row == g.row;
        ByIdFinds(seats, s);
      }
    }
  }

  // ----- which inventories an inferred profile is for

  /** The same place of the hall, whatever it costs and whether it is free. */
  predicate SamePiece(s: Seat, t: Seat) {
    && t.id == s.id && t.block == s.block && t.row == s.row && t.number == s.number
    && t.x == s.x && t.y == s.y && t.width == s.width && t.height == s.height && t.rotation == s.rotation
  }

  /** The places of one are those of the other, each once. */
  ghost predicate SamePieces(a: seq<Seat>, b: seq<Seat>) {
    && UniqueIds(b)
    && (forall s :: s in a ==> exists t :: t in b && SamePiece(s, t))
    && (forall t :: t in b ==> exists s :: s in a && SamePiece(s, t))
  }

  lemma MapHas<T, U>(f: T -> U, s: seq<T>, y: U)
    ensures y in Map(f, s) <==> exists x :: x in s && f(x) == y
  {
    if y in Map(f, s) {
      var i :| 0 <= i < |s| && Map(f, s)[i] == y;
      assert s[i] in s;
    }
    if x :| x in s && f(x) == y {
      var i :| 0 <= i < |s| && s[i] == x;
      assert Map(f, s)[i] == y;
    }
  }

  lemma SameCounts<T>(r: seq<T>, s: seq<T>)
    requires NoRepeats(r) && NoRepeats(s) && forall x :: x in r <==> x in s
    ensures multiset(r) == multiset(s)
  {
    RepeatsCounted(r);
    RepeatsCounted(s);
    forall x ensures multiset(r)[x] == multiset(s)[x] {
      assert x in multiset(r) <==> x in r;
      assert x in multiset(s) <==> x in s;
    }
  }

  lemma PiecesDiffer(seats: seq<Seat>)
    requires UniqueIds(seats)
    ensures NoRepeats(Map(PlaceOf, seats))
  {
    forall i, j | 0 <= i < j < |seats| ensures Map(PlaceOf, seats)[i] != Map(PlaceOf, seats)[j] {
      assert Ids(seats)[i] == PlaceOf(seats[i]).id && Ids(seats)[j] == PlaceOf(seats[j]).id;
    }
  }

  lemma PlacesExactly(a: seq<Seat>, b: seq<Seat>)
    requires UniqueIds(a)
    ensures Places(a) == Places(b) <==> SamePieces(a, b)
  {
    forall y ensures y in Map(PlaceOf, a) <==> exists s :: s in a && PlaceOf(s) == y { MapHas(PlaceOf, a, y); }
    forall y ensures y in Map(PlaceOf, b) <==> exists t :: t in b && PlaceOf(t) == y { MapHas(PlaceOf, b, y); }
    if Places(a) == Places(b) {
      SameElements(Map(PlaceOf, a), Map(PlaceOf, b));
      PlacesAreUnique(a, b);
      forall s | s in a ensures exists t :: t in b && SamePiece(s, t) { assert PlaceOf(s) in Map(PlaceOf, b); }
      forall t | t in b ensures exists s :: s in a && SamePiece(s, t) { assert PlaceOf(t) in Map(PlaceOf, a); }
    }
    if SamePieces(a, b) {
      PiecesDiffer(a);
      PiecesDiffer(b);
      SameCounts(Map(PlaceOf, a), Map(PlaceOf, b));
    }
  }

  lemma PlacesAreUnique(a: seq<Seat>, b: seq<Seat>)
    requires UniqueIds(a) && Places(a) == Places(b)
    ensures UniqueIds(b)
  {
    MapPermuted((x: Place) => x.id, Map(PlaceOf, a), Map(PlaceOf, b));
    assert Map((x: Place) => x.id, Map(PlaceOf, a)) == Ids(a);
    assert Map((x: Place) => x.id, Map(PlaceOf, b)) == Ids(b);
    RepeatsPermuted(Ids(a), Ids(b));
  }

  /**
   An inferred profile is for exactly the inventories of the same hall with the same places, in any order and at any
   price: as soon as a place is added, removed, moved or named differently, it matches no more.
   */
  lemma InferredMatchesExactly(a: seq<Seat>, b: seq<Seat>, p: Profile, order: seq<RowKey>, split: map<RowKey, seq<seq<Seat>>>)
    requires a != [] && OneHall(a) && UniqueIds(a) && Inferred(a, p.segments, order, split)
    requires p == Profile(a[0].hall, FingerprintOf(a), Automatic, p.segments, [])
    ensures MatchesInventory(p, b) <==> b != [] && (forall t :: t in b ==> t.hall == a[0].hall) && SamePieces(a, b)
  {
    hide Inferred, ById, SamePieces, Places, SegmentMatches;
    PlacesExactly(a, b);
    if b != [] && (forall t :: t in b ==> t.hall == a[0].hall) {
      assert b[0] in b;
      if SamePieces(a, b) {
        forall g | g in p.segments ensures SegmentMatches(g, ById(b)) { SegmentIsThere(a, b, p.segments, order, split, g); }
      }
    }
  }

  lemma SegmentIsThere(a: seq<Seat>, b: seq<Seat>, segments: seq<RowSegment>, order: seq<RowKey>,
                       split: map<RowKey, seq<seq<Seat>>>, g: RowSegment)
    requires Inferred(a, segments, order, split) && g in segments && SamePieces(a, b)
    ensures SegmentMatches(g, ById(b))
  {
    hide Inferred, ById, SamePieces;
    forall id | id in g.seats ensures id in ById(b) && ById(b)[id].block == g.block && ById(b)[id].row == g.row {
      SegmentSeats(a, segments, order, split, g, id);
      var s :| s in a && s.Placed() && s.id == id && s.block == g.block && s.row == g.row;
      PieceIsThere(a, b, s);
    }
  }

  lemma PieceIsThere(a: seq<Seat>, b: seq<Seat>, s: Seat)
    requires SamePieces(a, b) && s in a
    ensures s.id in ById(b) && ById(b)[s.id].block == s.block && ById(b)[s.id].row == s.row
  {
    hide ById;
    var t :| t in b && SamePiece(s, t);
    ByIdFinds(b, t);
  }

  /** Two rows whose texts collide leave a hall without an inferred profile. */
  lemma CollidingRows()
    ensures var a := Seat("1", "h", "a:b", "c", "1", 1, true, Some(0), None, Some(1), None, None);
      var b := Seat("2", "h", "a", "b:c", "1", 1, true, Some(0), None, Some(1), None, None);
      a.Valid() && b.Valid() && UniqueIds([a, b]) && Placed([a, b]) == [a, b] && !RowsTellApart([a, b])
  {
    var a := Seat("1", "h", "a:b", "c", "1", 1, true, Some(0), None, Some(1), None, None);
    var b := Seat("2", "h", "a", "b:c", "1", 1, true, Some(0), None, Some(1), None, None);
    StripHas("1", 0);
    StripHas("2", 0);
    StripHas("a:b", 0);
    StripHas("c", 0);
    StripHas("a", 0);
    StripHas("b:c", 0);
    assert [a, b][..1] == [a] && [a][..0] == [];
    assert Placed([a]) == [a];
    assert a in [a, b] && b in [a, b];
    assert Joined(KeyOf(a)) == "a:b" + ":" + "c" == "a:b:c" == "a" + ":" + "b:c" == Joined(KeyOf(b));
  }
}
