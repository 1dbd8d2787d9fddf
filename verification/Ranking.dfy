/** Groups of adjacent seats, scored and put in a strict order. */
module Ranking {
  import opened Wrappers
  import opened Ordering
  import opened Topology
  import opened Inference
  import opened Profiles

  datatype Weights = Weights(row: real, center: real, price: real, aisle: real) {
    predicate Valid() { row >= 0.0 && center >= 0.0 && price >= 0.0 && aisle >= 0.0 && row + center + price + aisle == 1.0 }
  }

  /** Prices and totals are in minor units; None is an absent limit. */
  datatype Preferences = Preferences(
    count: nat, maxTicket: Option<nat>, maxTotal: Option<nat>, rowQuality: map<string, real>, weights: Weights,
    minQuality: real, axis: real, width: real, aisleQuality: map<string, real>)
  {
    predicate Valid() {
      && count > 0 && 0.0 <= minQuality <= 1.0 && width > 0.0 && weights.Valid()
      && (forall r :: r in rowQuality ==> 0.0 <= rowQuality[r] <= 1.0)
      && (forall r :: r in aisleQuality ==> 0.0 <= aisleQuality[r] <= 1.0)
    }
  }

  datatype Group = Group(segment: string, seats: seq<Seat>, quality: real) {
    /** The checks a group makes when it is constructed. */
    predicate Valid() {
      && !Blank(segment) && seats != [] && UniqueIds(seats) && (forall s :: s in seats ==> s.free)
      && (|seats| > 1 ==> forall s :: s in seats ==> !s.Unnumbered())
      && 0.0 <= quality <= 1.0
    }
  }

  datatype Ranked = Ranked(group: Group, manual: bool, priority: nat, start: nat)

  datatype RankingResult = Groups(groups: seq<Ranked>) | Mismatch | NoAdjacentGroup

  function Total(seats: seq<Seat>): nat {
    if seats == [] then 0 else Total(seats[..|seats| - 1]) + seats[|seats| - 1].price
  }

  function Max(a: real, b: real): real { if a >= b then a else b }

  function Abs(a: real): real { if a >= 0.0 then a else -a }

  function CenterQuality(seats: seq<Seat>, p: Preferences): real
    requires seats != [] && p.width > 0.0
  {
    var center := (X(seats[0]) as real + X(seats[|seats| - 1]) as real) / 2.0;
    Max(0.0, 1.0 - Abs(center - p.axis) / p.width)
  }

  function PriceQuality(total: nat, p: Preferences): real {
    if p.maxTotal.Some? && p.maxTotal.value > 0
    then Max(0.0, 1.0 - total as real / p.maxTotal.value as real) else 1.0
  }

  function Score(w: Weights, row: real, center: real, price: real, aisle: real): real {
    Part(w.row, row) + Part(w.center, center) + Part(w.price, price) + Part(w.aisle, aisle)
  }

  function Part(weight: real, score: real): (part: real)
    ensures weight >= 0.0 && 0.0 <= score <= 1.0 ==> 0.0 <= part <= weight
  {
    weight * score
  }

  function Quality(seats: seq<Seat>, segment: string, p: Preferences): real
    requires seats != [] && p.width > 0.0 && seats[0].row in p.rowQuality && segment in p.aisleQuality
  {
    Score(p.weights, p.rowQuality[seats[0].row], CenterQuality(seats, p), PriceQuality(Total(seats), p), p.aisleQuality[segment])
  }

  /** A window of seats as a ranked group, unless something rules it out. */
  function Rank(seats: seq<Seat>, segment: string, start: nat, p: Preferences): Option<Ranked>
    requires seats != [] && p.width > 0.0
  {
    if exists s :: s in seats && !s.free then None
    else if p.maxTicket.Some? && exists s :: s in seats && s.price > p.maxTicket.value then None
    else if p.maxTotal.Some? && Total(seats) > p.maxTotal.value then None
    else if seats[0].row !in p.rowQuality || segment !in p.aisleQuality || exists s :: s in seats && s.x.None? then None
    else if Quality(seats, segment, p) < p.minQuality then None
    else Some(Ranked(Group(segment, seats, Quality(seats, segment, p)), false, 0, start))
  }

  // ----- quality

  lemma QualityBounded(seats: seq<Seat>, segment: string, p: Preferences)
    requires p.Valid() && seats != [] && seats[0].row in p.rowQuality && segment in p.aisleQuality
    ensures 0.0 <= Quality(seats, segment, p) <= 1.0
  {}

  // ----- the order

  /** The sort key, compared part by part: source, priority, falling quality, total, segment, start, seats. */
  predicate KeyLeq(a: Ranked, b: Ranked) {
    if a.manual != b.manual then a.manual
    else if a.priority != b.priority then a.priority < b.priority
    else if a.group.quality != b.group.quality then a.group.quality > b.group.quality
    else if Total(a.group.seats) != Total(b.group.seats) then Total(a.group.seats) < Total(b.group.seats)
    else if a.group.segment != b.group.segment then TextLeq(a.group.segment, b.group.segment)
    else if a.start != b.start then a.start < b.start
    else TextsLeq(Ids(a.group.seats), Ids(b.group.seats))
  }

  lemma KeyTotal(a: Ranked, b: Ranked)
    ensures KeyLeq(a, b) || KeyLeq(b, a)
    ensures KeyLeq(a, b) && KeyLeq(b, a) ==> a.group.segment == b.group.segment && a.start == b.start
  {
    TextTotal(a.group.segment, b.group.segment);
    TextsTotal(Ids(a.group.seats), Ids(b.group.seats));
  }

  lemma KeyTransitive(a: Ranked, b: Ranked, c: Ranked)
    requires KeyLeq(a, b) && KeyLeq(b, c)
    ensures KeyLeq(a, c)
  {
    var x, y, z := a.group.segment, b.group.segment, c.group.segment;
    var i, j, k := Ids(a.group.seats), Ids(b.group.seats), Ids(c.group.seats);
    if TextLeq(x, y) && TextLeq(y, z) { TextTransitive(x, y, z); TextTotal(x, y); }
    if TextsLeq(i, j) && TextsLeq(j, k) { TextsTransitive(i, j, k); }
  }

  lemma KeysOrder()
    ensures Orders(KeyLeq)
  {
    forall a, b ensures KeyLeq(a, b) || KeyLeq(b, a) { KeyTotal(a, b); }
    forall a, b, c | KeyLeq(a, b) && KeyLeq(b, c) ensures KeyLeq(a, c) { KeyTransitive(a, b, c); }
  }

  // ----- windows

  predicate Known(known: map<string, Seat>, ids: seq<string>) { forall id :: id in ids ==> id in known }

  function SeatsAt(known: map<string, Seat>, ids: seq<string>): seq<Seat>
    requires Known(known, ids)
  {
    seq(|ids|, i requires 0 <= i < |ids| => known[ids[i]])
  }

  /** The ranked window of `count` seats that starts at `start` in segment `g`. */
  ghost predicate WindowAt(g: RowSegment, known: map<string, Seat>, p: Preferences, start: nat, r: Ranked) {
    && p.count > 0 && p.width > 0.0 && start + p.count <= |g.seats| && Known(known, g.seats)
    && Rank(SeatsAt(known, g.seats[start..start + p.count]), g.id, start, p) == Some(r)
  }

  ghost predicate IsWindow(segments: seq<RowSegment>, known: map<string, Seat>, p: Preferences, r: Ranked) {
    exists i: nat, start: nat :: i < |segments| && WindowAt(segments[i], known, p, start, r)
  }

  /** No two groups start at the same place. */
  ghost predicate OnePerPlace(groups: seq<Ranked>) {
    forall i, j :: 0 <= i < j < |groups| ==> !SamePlace(groups[i], groups[j])
  }

  predicate SamePlace(a: Ranked, b: Ranked) { a.group.segment == b.group.segment && a.start == b.start }

  lemma WindowPlace(g: RowSegment, known: map<string, Seat>, p: Preferences, start: nat, r: Ranked)
    requires WindowAt(g, known, p, start, r)
    ensures r.group.segment == g.id && r.start == start && !r.manual
  {}

  method SegmentGroups(g: RowSegment, known: map<string, Seat>, p: Preferences) returns (groups: seq<Ranked>)
    requires p.count > 0 && p.width > 0.0 && Known(known, g.seats)
    ensures forall r :: r in groups <==> exists start: nat :: WindowAt(g, known, p, start, r)
    ensures OnePerPlace(groups)
  {
    groups := [];
    var start := 0;
    while start + p.count <= |g.seats|
      invariant start == 0 || start + p.count <= |g.seats| + 1
      invariant forall r :: r in groups <==> exists i: nat :: i < start && WindowAt(g, known, p, i, r)
      invariant OnePerPlace(groups) && forall r :: r in groups ==> r.start < start
    {
      hide Rank;
      var seats := SeatsAt(known, g.seats[start..start + p.count]);
      var ranked := Rank(seats, g.id, start, p);
      if ranked.Some? {
        assert WindowAt(g, known, p, start, ranked.value);
        groups := groups + [ranked.value];
      }
      start := start + 1;
    }
  }

  method AutomaticGroups(segments: seq<RowSegment>, known: map<string, Seat>, p: Preferences) returns (groups: seq<Ranked>)
    requires p.count > 0 && p.width > 0.0 && NoRepeats(SegmentIds(segments))
    requires forall g :: g in segments ==> Known(known, g.seats)
    ensures forall r :: r in groups <==> IsWindow(segments, known, p, r)
    ensures OnePerPlace(groups)
  {
    groups := [];
    var i := 0;
    while i < |segments|
      invariant 0 <= i <= |segments|
      invariant forall r :: r in groups <==> exists j: nat, start: nat :: j < i && WindowAt(segments[j], known, p, start, r)
      invariant OnePerPlace(groups)
    {
      var more := SegmentGroups(segments[i], known, p);
      OtherSegments(segments, known, p, i, groups, more);
      groups := groups + more;
      i := i + 1;
    }
  }

  lemma OtherSegments(segments: seq<RowSegment>, known: map<string, Seat>, p: Preferences, i: nat,
                      groups: seq<Ranked>, more: seq<Ranked>)
    requires i < |segments| && NoRepeats(SegmentIds(segments))
    requires forall r :: r in groups ==> exists j: nat, start: nat :: j < i && WindowAt(segments[j], known, p, start, r)
    requires forall r :: r in more ==> exists start: nat :: WindowAt(segments[i], known, p, start, r)
    requires OnePerPlace(groups) && OnePerPlace(more)
    ensures OnePerPlace(groups + more)
  {
    forall a, b | a in groups && b in more ensures !SamePlace(a, b) {
      var j: nat, u: nat :| j < i && WindowAt(segments[j], known, p, u, a);
      var v: nat :| WindowAt(segments[i], known, p, v, b);
      WindowPlace(segments[j], known, p, u, a);
      WindowPlace(segments[i], known, p, v, b);
      assert SegmentIds(segments)[j] != SegmentIds(segments)[i];
    }
    forall x, y | 0 <= x < y < |groups + more| ensures !SamePlace((groups + more)[x], (groups + more)[y]) {
      if x < |groups| <= y { assert (groups + more)[x] in groups && (groups + more)[y] in more; }
    }
  }

  // ----- preferred groups

  /** The preferred group is a run of seats of one segment. */
  ghost predicate RunsIn(g: RowSegment, q: PreferredGroup, at: nat) {
    q.seats != [] && at + |q.seats| <= |g.seats| && g.seats[at..at + |q.seats|] == q.seats
  }

  ghost predicate PreferredValid(p: Profile) {
    forall q :: q in p.preferred ==> exists i: nat, at: nat :: i < |p.segments| && RunsIn(p.segments[i], q, at)
  }

  /** Every check a profile makes when it is constructed. */
  ghost predicate ProfileValid(p: Profile) { Constructible(p.segments) && PreferredValid(p) }

  ghost predicate ManualWindow(f: Profile, known: map<string, Seat>, p: Preferences, q: PreferredGroup, r: Ranked) {
    && |q.seats| == p.count && r.manual && r.priority == q.priority
    && exists i: nat, at: nat :: i < |f.segments| && RunsIn(f.segments[i], q, at)
         && WindowAt(f.segments[i], known, p, at, r.(manual := false, priority := 0))
  }

  /** The place of a seat in the segments. */
  method Locate(segments: seq<RowSegment>, id: string) returns (i: nat, at: nat)
    requires exists g :: g in segments && id in g.seats
    ensures i < |segments| && at < |segments[i].seats| && segments[i].seats[at] == id
  {
    i := 0;
    while i < |segments| && id !in segments[i].seats
      invariant i <= |segments| && forall j :: 0 <= j < i ==> id !in segments[j].seats
    {
      i := i + 1;
    }
    at := 0;
    while segments[i].seats[at] != id
      invariant at < |segments[i].seats| && id in segments[i].seats[at..]
      decreases |segments[i].seats| - at
    {
      at := at + 1;
    }
  }

  /** A seat occurs once in a profile, so a run is found where its first seat is. */
  lemma {:induction false} OnePlace(segments: seq<RowSegment>, i: nat, at: nat, j: nat, bt: nat)
    requires NoRepeats(AllIds(segments)) && i <= j < |segments| && at < |segments[i].seats| && bt < |segments[j].seats|
    requires segments[i].seats[at] == segments[j].seats[bt]
    ensures i == j && at == bt
  {
    var init, last := segments[..|segments| - 1], segments[|segments| - 1];
    assert segments == init + [last];
    ConcatRepeats(AllIds(init), last.seats);
    if j < |init| {
      OnePlace(init, i, at, j, bt);
    } else if i < |init| {
      AllIdsHas(init, i, segments[i].seats[at]);
      assert false;
    }
  }

  lemma {:induction false} AllIdsHas(segments: seq<RowSegment>, i: nat, id: string)
    requires i < |segments| && id in segments[i].seats
    ensures id in AllIds(segments)
  {
    if i < |segments| - 1 { AllIdsHas(segments[..|segments| - 1], i, id); }
  }

  method ManualGroups(f: Profile, known: map<string, Seat>, p: Preferences) returns (groups: seq<Ranked>)
    requires p.count > 0 && p.width > 0.0 && ProfileValid(f) && forall g :: g in f.segments ==> Known(known, g.seats)
    ensures forall r :: r in groups <==> IsManual(f, known, p, r)
    ensures Tallied(f, known, p, |f.preferred|, groups)
  {
    hide Tallied, ManualWindow, IsManual;
    NoneTallied(f, known, p);
    groups := [];
    var n := 0;
    while n < |f.preferred|
      invariant 0 <= n <= |f.preferred|
      invariant Tallied(f, known, p, n, groups)
    {
      var q := f.preferred[n];
      assert q in f.preferred;
      var r := ManualGroup(f, known, p, q);
      TallyOneMore(f, known, p, n, groups, r);
      if r.Some? { groups := groups + [r.value]; }
      n := n + 1;
    }
    assert n == |f.preferred|;
    TalliedManual(f, known, p, groups);
  }

  /** The first `n` preferred groups that are ranked as `r`. */
  ghost function Preferring(f: Profile, known: map<string, Seat>, p: Preferences, n: nat, r: Ranked): set<nat>
    requires n <= |f.preferred|
  {
    set i: nat | i < n && ManualWindow(f, known, p, f.preferred[i], r)
  }

  /** Each group is listed as often as the first `n` preferred groups ask for it. */
  ghost predicate Tallied(f: Profile, known: map<string, Seat>, p: Preferences, n: nat, groups: seq<Ranked>)
    requires n <= |f.preferred|
  {
    forall r :: multiset(groups)[r] == |Preferring(f, known, p, n, r)|
  }

  lemma NoneTallied(f: Profile, known: map<string, Seat>, p: Preferences)
    ensures Tallied(f, known, p, 0, [])
  {}

  lemma TallyOneMore(f: Profile, known: map<string, Seat>, p: Preferences, n: nat, groups: seq<Ranked>, r: Option<Ranked>)
    requires n < |f.preferred| && Tallied(f, known, p, n, groups)
    requires forall x :: r == Some(x) <==> ManualWindow(f, known, p, f.preferred[n], x)
    ensures Tallied(f, known, p, n + 1, if r.Some? then groups + [r.value] else groups)
  {
    hide ManualWindow;
    var more := if r.Some? then groups + [r.value] else groups;
    forall x ensures multiset(more)[x] == |Preferring(f, known, p, n + 1, x)| {
      var was, now := Preferring(f, known, p, n, x), Preferring(f, known, p, n + 1, x);
      if r == Some(x) { assert now == was + {n}; } else { assert now == was; }
    }
  }

  lemma TalliedManual(f: Profile, known: map<string, Seat>, p: Preferences, groups: seq<Ranked>)
    requires Tallied(f, known, p, |f.preferred|, groups)
    ensures forall r :: r in groups <==> IsManual(f, known, p, r)
  {
    forall r ensures r in groups <==> IsManual(f, known, p, r) { ManualIsPreferring(f, known, p, groups, r); }
  }

  lemma ManualIsPreferring(f: Profile, known: map<string, Seat>, p: Preferences, groups: seq<Ranked>, r: Ranked)
    requires multiset(groups)[r] == |Preferring(f, known, p, |f.preferred|, r)|
    ensures r in groups <==> IsManual(f, known, p, r)
  {
    hide ManualWindow;
    var all := Preferring(f, known, p, |f.preferred|, r);
    assert r in groups <==> r in multiset(groups);
    if IsManual(f, known, p, r) {
      var q :| q in f.preferred && ManualWindow(f, known, p, q, r);
      var i: nat :| i < |f.preferred| && f.preferred[i] == q;
      assert i in all;
    } else {
      assert all == {};
    }
  }

  method ManualGroup(f: Profile, known: map<string, Seat>, p: Preferences, q: PreferredGroup) returns (r: Option<Ranked>)
    requires p.count > 0 && p.width > 0.0 && ProfileValid(f) && q in f.preferred
    requires forall g :: g in f.segments ==> Known(known, g.seats)
    ensures forall x :: r == Some(x) <==> ManualWindow(f, known, p, q, x)
  {
    if |q.seats| != p.count { return None; }
    ghost var u: nat, v: nat :| u < |f.segments| && RunsIn(f.segments[u], q, v);
    assert f.segments[u].seats[v] == q.seats[0];
    assert f.segments[u] in f.segments && q.seats[0] in f.segments[u].seats;
    var i, at := Locate(f.segments, q.seats[0]);
    if i <= u { OnePlace(f.segments, i, at, u, v); } else { OnePlace(f.segments, u, v, i, at); }
    var g := f.segments[i];
    var ranked := Rank(SeatsAt(known, q.seats), g.id, at, p);
    OneRun(f, known, p, q, i, at);
    r := if ranked.None? then None else Some(ranked.value.(manual := true, priority := q.priority));
  }

  /** A preferred group is found at one place, so it is ranked in one way. */
  lemma OneRun(f: Profile, known: map<string, Seat>, p: Preferences, q: PreferredGroup, i: nat, at: nat)
    requires p.count > 0 && p.width > 0.0 && |q.seats| == p.count && ProfileValid(f)
    requires forall g :: g in f.segments ==> Known(known, g.seats)
    requires i < |f.segments| && RunsIn(f.segments[i], q, at)
    ensures Known(known, q.seats)
    ensures forall x :: ManualWindow(f, known, p, q, x) <==>
      x.manual && x.priority == q.priority
      && Rank(SeatsAt(known, q.seats), f.segments[i].id, at, p) == Some(x.(manual := false, priority := 0))
  {
    hide Rank, Constructible, PreferredValid;
    var g := f.segments[i];
    assert g in f.segments && g.seats[at..at + p.count] == q.seats;
    forall id | id in q.seats ensures id in known { assert id in g.seats; }
    forall x ensures ManualWindow(f, known, p, q, x) <==>
      x.manual && x.priority == q.priority && WindowAt(g, known, p, at, x.(manual := false, priority := 0))
    {
      if ManualWindow(f, known, p, q, x) { RunHere(f, known, p, q, i, at, x); }
    }
  }

  lemma RunHere(f: Profile, known: map<string, Seat>, p: Preferences, q: PreferredGroup, i: nat, at: nat, x: Ranked)
    requires p.count > 0 && p.width > 0.0 && |q.seats| == p.count && ProfileValid(f)
    requires i < |f.segments| && RunsIn(f.segments[i], q, at) && ManualWindow(f, known, p, q, x)
    ensures WindowAt(f.segments[i], known, p, at, x.(manual := false, priority := 0))
  {
    var j: nat, bt: nat :| j < |f.segments| && RunsIn(f.segments[j], q, bt)
      && WindowAt(f.segments[j], known, p, bt, x.(manual := false, priority := 0));
    assert f.segments[i].seats[at] == q.seats[0] == f.segments[j].seats[bt];
    if i <= j { OnePlace(f.segments, i, at, j, bt); } else { OnePlace(f.segments, j, bt, i, at); }
  }

  // ----- the ranking

  /** The groups the profile's mode asks for. */
  ghost predicate IsCandidate(f: Profile, known: map<string, Seat>, p: Preferences, r: Ranked) {
    match f.mode
    case ManualOnly => IsManual(f, known, p, r)
    case Automatic => IsWindow(f.segments, known, p, r)
    case ManualThenAuto =>
      if exists x :: IsManual(f, known, p, x) then IsManual(f, known, p, r) else IsWindow(f.segments, known, p, r)
  }

  ghost predicate IsManual(f: Profile, known: map<string, Seat>, p: Preferences, r: Ranked) {
    exists q :: q in f.preferred && ManualWindow(f, known, p, q, r)
  }

  ghost predicate Strict(groups: seq<Ranked>) {
    forall i, j :: 0 <= i < j < |groups| ==> KeyLeq(groups[i], groups[j]) && !KeyLeq(groups[j], groups[i])
  }

  /** How often a group is in the ranking: once, or once for each preferred group that asks for it. */
  ghost function Copies(f: Profile, known: map<string, Seat>, p: Preferences, r: Ranked): nat {
    if f.mode.ManualOnly? || (f.mode.ManualThenAuto? && exists x :: IsManual(f, known, p, x))
    then |Preferring(f, known, p, |f.preferred|, r)|
    else if IsWindow(f.segments, known, p, r) then 1 else 0
  }

  lemma AutomaticOnce(segments: seq<RowSegment>, known: map<string, Seat>, p: Preferences, groups: seq<Ranked>)
    requires OnePerPlace(groups) && forall r :: r in groups <==> IsWindow(segments, known, p, r)
    ensures forall r :: multiset(groups)[r] == if IsWindow(segments, known, p, r) then 1 else 0
  {
    assert NoRepeats(groups);
    OnceEach(groups);
    forall r ensures multiset(groups)[r] == if IsWindow(segments, known, p, r) then 1 else 0 {
      assert r in groups <==> r in multiset(groups);
    }
  }

  lemma {:induction false} OnceEach<T>(s: seq<T>)
    requires NoRepeats(s)
    ensures forall x :: x in s ==> multiset(s)[x] == 1
  {
    if s != [] {
      var init, last := s[..|s| - 1], s[|s| - 1];
      assert s == init + [last];
      OnceEach(init);
      forall i | 0 <= i < |init| ensures init[i] != last { assert s[i] != s[|s| - 1]; }
      assert last !in multiset(init);
    }
  }

  method RankGroups(inventory: seq<Seat>, f: Profile, p: Preferences) returns (r: RankingResult)
    requires p.Valid() && ProfileValid(f)
    ensures r.Mismatch? <==> !MatchesInventory(f, inventory)
    ensures r.NoAdjacentGroup? ==> forall x :: !IsCandidate(f, ById(inventory), p, x)
    ensures r.Groups? ==> r.groups != [] && Ranks(f, ById(inventory), p, r.groups)
    ensures r.Groups? && f.mode.Automatic? ==> Strict(r.groups)
  {
    if !MatchesInventory(f, inventory) { return Mismatch; }
    var known := ById(inventory);
    forall g | g in f.segments ensures Known(known, g.seats) { assert SegmentMatches(g, known); }
    var manual := ManualGroups(f, known, p);
    var automatic := AutomaticGroups(f.segments, known, p);
    AutomaticOnce(f.segments, known, p, automatic);
    assert manual != [] ==> manual[0] in manual;
    var candidates := match f.mode
      case ManualOnly => manual
      case Automatic => automatic
      case ManualThenAuto => if manual != [] then manual else automatic;
    ModeCandidates(f, known, p, manual, automatic);
    if candidates == [] { return NoAdjacentGroup; }
    KeysOrder();
    var sorted := SortBy(candidates, KeyLeq);
    SameElements(sorted, candidates);
    if f.mode.Automatic? { StrictlySorted(automatic, sorted); }
    r := Groups(sorted);
  }

  /** The groups of a mode, each as often as it is asked for. */
  ghost predicate Lists(f: Profile, known: map<string, Seat>, p: Preferences, groups: seq<Ranked>) {
    && (forall x :: x in groups <==> IsCandidate(f, known, p, x))
    && forall x :: multiset(groups)[x] == Copies(f, known, p, x)
  }

  lemma ModeCandidates(f: Profile, known: map<string, Seat>, p: Preferences, manual: seq<Ranked>, automatic: seq<Ranked>)
    requires Tallied(f, known, p, |f.preferred|, manual) && forall r :: r in manual <==> IsManual(f, known, p, r)
    requires forall r :: r in automatic <==> IsWindow(f.segments, known, p, r)
    requires forall r :: multiset(automatic)[r] == if IsWindow(f.segments, known, p, r) then 1 else 0
    ensures Lists(f, known, p, match f.mode
      case ManualOnly => manual
      case Automatic => automatic
      case ManualThenAuto => if manual != [] then manual else automatic)
  {
    hide IsManual, IsWindow, Preferring;
    assert manual != [] ==> manual[0] in manual;
  }

  lemma StrictlySorted(groups: seq<Ranked>, sorted: seq<Ranked>)
    requires OnePerPlace(groups) && multiset(sorted) == multiset(groups) && InOrder(sorted, KeyLeq)
    ensures Strict(sorted)
  {
    assert NoRepeats(groups);
    RepeatsPermuted(groups, sorted);
    SameElements(sorted, groups);
    forall i, j | 0 <= i < j < |sorted| ensures !KeyLeq(sorted[j], sorted[i]) {
      assert sorted[i] in sorted && sorted[j] in sorted;
      var a: nat :| a < |groups| && groups[a] == sorted[i];
      var b: nat :| b < |groups| && groups[b] == sorted[j];
      assert a != b;
      assert !SamePlace(groups[if a < b then a else b], groups[if a < b then b else a]);
      KeyTotal(sorted[i], sorted[j]);
    }
  }

  // ----- what a ranked group is

  /** A window is ranked exactly when its seats are free, affordable and scored, and the score is good enough. */
  lemma WindowExactly(g: RowSegment, known: map<string, Seat>, p: Preferences, start: nat)
    requires p.Valid() && start + p.count <= |g.seats| && Known(known, g.seats)
    ensures forall id :: id in g.seats[start..start + p.count] ==> id in known
    ensures var seats := SeatsAt(known, g.seats[start..start + p.count]);
      (exists r :: WindowAt(g, known, p, start, r)) <==>
        && (forall s :: s in seats ==> s.free && s.x.Some? && (p.maxTicket.Some? ==> s.price <= p.maxTicket.value))
        && (p.maxTotal.Some? ==> Total(seats) <= p.maxTotal.value)
        && seats[0].row in p.rowQuality && g.id in p.aisleQuality && Quality(seats, g.id, p) >= p.minQuality
  {
    var seats := SeatsAt(known, g.seats[start..start + p.count]);
    var rank := Rank(seats, g.id, start, p);
    if rank.Some? { assert WindowAt(g, known, p, start, rank.value); }
  }

  lemma WindowSeats(g: RowSegment, known: map<string, Seat>, start: nat, n: nat)
    requires g.Valid() && SegmentMatches(g, known) && start + n <= |g.seats|
    requires forall id :: id in known ==> known[id].id == id
    ensures Known(known, g.seats[start..start + n])
    ensures var seats := SeatsAt(known, g.seats[start..start + n]);
      Ids(seats) == g.seats[start..start + n] && UniqueIds(seats)
      && forall s :: s in seats ==> s.block == g.block && s.row == g.row
  {}

  /** Every window of a matching inventory is a valid group: its construction never fails. */
  lemma WindowIsValid(g: RowSegment, known: map<string, Seat>, p: Preferences, start: nat, r: Ranked)
    requires p.Valid() && g.Valid() && SegmentMatches(g, known) && WindowAt(g, known, p, start, r)
    requires forall id :: id in known ==> known[id].id == id
    ensures r.group.Valid() && |r.group.seats| == p.count && Ids(r.group.seats) == g.seats[start..start + p.count]
    ensures forall s :: s in r.group.seats ==> s.block == g.block && s.row == g.row
  {
    hide Quality, Total;
    WindowSeats(g, known, start, p.count);
    QualityBounded(SeatsAt(known, g.seats[start..start + p.count]), g.id, p);
    BlankEmpty();
  }

  lemma BlankEmpty()
    ensures Blank("")
  {}

  lemma {:induction false} ByIdKeys(seats: seq<Seat>, id: string)
    ensures id in ById(seats) ==> ById(seats)[id] in seats && ById(seats)[id].id == id
    ensures (exists s :: s in seats && s.id == id) ==> id in ById(seats)
  {
    if seats != [] {
      var init, last := seats[..|seats| - 1], seats[|seats| - 1];
      assert seats == init + [last];
      ByIdKeys(init, id);
    }
  }

  // ----- what makes a group come first

  function Middle(seats: seq<Seat>): real {
    if seats == [] || seats[0].x.None? || seats[|seats| - 1].x.None? then 0.0
    else (seats[0].x.value + seats[|seats| - 1].x.value) as real / 2.0
  }

  /** How far the middle of the group is from the axis of the hall. */
  function Off(seats: seq<Seat>, p: Preferences): real {
    if Middle(seats) >= p.axis then Middle(seats) - p.axis else p.axis - Middle(seats)
  }

  /** The score of the distance: one at the axis, nothing from the given width on, and linear in between. */
  predicate IsNearness(n: real, off: real, width: real) {
    if off >= width then n == 0.0 else n * width == width - off
  }

  /** The score of the price: one for nothing or without a limit, nothing at the limit, and linear in between. */
  predicate IsCheapness(c: real, total: nat, limit: Option<nat>) {
    if limit.None? || limit.value == 0 then c == 1.0
    else if total >= limit.value then c == 0.0
    else c * limit.value as real == (limit.value - total) as real
  }

  predicate Scored(r: Ranked, p: Preferences) {
    && r.group.seats != [] && r.group.seats[0].row in p.rowQuality && r.group.segment in p.aisleQuality
    && forall s :: s in r.group.seats ==> s.x.Some?
  }

  function RowScore(r: Ranked, p: Preferences): real
    requires Scored(r, p)
  {
    p.rowQuality[r.group.seats[0].row]
  }

  function AisleScore(r: Ranked, p: Preferences): real
    requires Scored(r, p)
  {
    p.aisleQuality[r.group.segment]
  }

  /** The weighted sum of four scores. */
  predicate Weighted(q: real, w: Weights, row: real, center: real, price: real, aisle: real) {
    q == Times(w.row, row) + Times(w.center, center) + Times(w.price, price) + Times(w.aisle, aisle)
  }

  function Times(weight: real, score: real): real { weight * score }

  ghost predicate HasQuality(r: Ranked, p: Preferences) {
    Scored(r, p) && exists n, c :: ScoredAs(r, p, n, c)
  }

  predicate ScoredAs(r: Ranked, p: Preferences, n: real, c: real)
    requires Scored(r, p)
  {
    && IsNearness(n, Off(r.group.seats, p), p.width) && IsCheapness(c, Total(r.group.seats), p.maxTotal)
    && Weighted(r.group.quality, p.weights, RowScore(r, p), n, c, AisleScore(r, p))
  }

  lemma NearnessIsScored(seats: seq<Seat>, p: Preferences)
    requires seats != [] && p.width > 0.0 && forall s :: s in seats ==> s.x.Some?
    ensures IsNearness(CenterQuality(seats, p), Off(seats, p), p.width)
  {
    assert seats[0] in seats && seats[|seats| - 1] in seats;
    var off := Off(seats, p);
    assert Abs((X(seats[0]) as real + X(seats[|seats| - 1]) as real) / 2.0 - p.axis) == off;
    Linear(off, p.width);
  }

  lemma Linear(part: real, whole: real)
    requires whole > 0.0 && part >= 0.0
    ensures part >= whole ==> Max(0.0, 1.0 - part / whole) == 0.0
    ensures part < whole ==> Max(0.0, 1.0 - part / whole) * whole == whole - part
  {
    var q := part / whole;
    assert q * whole == part;
    if part >= whole { assert q >= 1.0; } else { assert (1.0 - q) * whole == whole - part; }
  }

  lemma CheapnessIsScored(total: nat, p: Preferences)
    ensures IsCheapness(PriceQuality(total, p), total, p.maxTotal)
  {
    if p.maxTotal.Some? && p.maxTotal.value > 0 { Linear(total as real, p.maxTotal.value as real); }
  }

  lemma QualityIsWeighted(seats: seq<Seat>, segment: string, p: Preferences)
    requires seats != [] && p.width > 0.0 && seats[0].row in p.rowQuality && segment in p.aisleQuality
    ensures Weighted(Quality(seats, segment, p), p.weights, p.rowQuality[seats[0].row], CenterQuality(seats, p),
              PriceQuality(Total(seats), p), p.aisleQuality[segment])
  {
    hide CenterQuality, PriceQuality, Total;
  }

  lemma RankedHasQuality(seats: seq<Seat>, segment: string, start: nat, p: Preferences, r: Ranked)
    requires seats != [] && p.width > 0.0 && Rank(seats, segment, start, p) == Some(r)
    ensures HasQuality(r, p)
  {
    hide CenterQuality, PriceQuality, IsNearness, IsCheapness, Off, Quality, Weighted;
    NearnessIsScored(seats, p);
    CheapnessIsScored(Total(seats), p);
    QualityIsWeighted(seats, segment, p);
    assert ScoredAs(r, p, CenterQuality(seats, p), PriceQuality(Total(seats), p));
  }

  /** Every candidate has the quality its place, its price and the preferences give it. */
  lemma QualityExactly(f: Profile, known: map<string, Seat>, p: Preferences, r: Ranked)
    requires IsCandidate(f, known, p, r)
    ensures HasQuality(r, p)
  {
    hide HasQuality;
    if IsManual(f, known, p, r) {
      var q :| q in f.preferred && ManualWindow(f, known, p, q, r);
      var i: nat, at: nat :| i < |f.segments| && RunsIn(f.segments[i], q, at)
        && WindowAt(f.segments[i], known, p, at, r.(manual := false, priority := 0));
      WindowHasQuality(f.segments[i], known, p, at, r.(manual := false, priority := 0));
      SameQuality(r, r.(manual := false, priority := 0), p);
    } else {
      var i: nat, start: nat :| i < |f.segments| && WindowAt(f.segments[i], known, p, start, r);
      WindowHasQuality(f.segments[i], known, p, start, r);
    }
  }

  lemma SameQuality(r: Ranked, x: Ranked, p: Preferences)
    requires x.group == r.group && HasQuality(x, p)
    ensures HasQuality(r, p)
  {
    hide IsNearness, IsCheapness, Off, Total, Weighted;
    var n, c :| ScoredAs(x, p, n, c);
    assert ScoredAs(r, p, n, c);
  }

  lemma WindowHasQuality(g: RowSegment, known: map<string, Seat>, p: Preferences, start: nat, r: Ranked)
    requires WindowAt(g, known, p, start, r)
    ensures HasQuality(r, p)
  {
    RankedHasQuality(SeatsAt(known, g.seats[start..start + p.count]), g.id, start, p, r);
  }

  /** In no respect worse: neither its row, nor its aisle, nor its distance from the axis within the width, nor its price. */
  predicate NoWorse(x: Ranked, y: Ranked, p: Preferences) {
    && Scored(x, p) && Scored(y, p) && x.manual == y.manual && x.priority == y.priority
    && RowScore(x, p) >= RowScore(y, p) && AisleScore(x, p) >= AisleScore(y, p)
    && (Off(x.group.seats, p) <= Off(y.group.seats, p) || Off(y.group.seats, p) >= p.width)
    && Total(x.group.seats) <= Total(y.group.seats)
  }

  /** And better in one that counts. */
  predicate Beats(x: Ranked, y: Ranked, p: Preferences) {
    && NoWorse(x, y, p)
    && (|| (p.weights.row > 0.0 && RowScore(x, p) > RowScore(y, p))
        || (p.weights.aisle > 0.0 && AisleScore(x, p) > AisleScore(y, p))
        || (p.weights.center > 0.0 && Off(x.group.seats, p) < Off(y.group.seats, p) && Off(x.group.seats, p) < p.width)
        || Total(x.group.seats) < Total(y.group.seats))
  }

  lemma Weighs(w: real, a: real, b: real)
    requires w >= 0.0 && a >= b
    ensures Times(w, a) >= Times(w, b) && (w > 0.0 && a > b ==> Times(w, a) > Times(w, b))
  {}

  lemma NearerScoresMore(m: real, n: real, x: real, y: real, width: real)
    requires width > 0.0 && x >= 0.0 && IsNearness(m, x, width) && IsNearness(n, y, width) && (x <= y || y >= width)
    ensures m >= n && (x < y && x < width ==> m > n)
  {
    if x < width {
      if y >= width { Ratio(m, 0.0, width); } else { Ratio(m, n, width); }
    }
  }

  lemma Ratio(m: real, n: real, width: real)
    requires width > 0.0
    ensures m * width >= n * width ==> m >= n
    ensures m * width > n * width ==> m > n
  {
    if m < n { assert m * width < n * width; }
  }

  lemma CheaperScoresMore(c: real, d: real, x: nat, y: nat, limit: Option<nat>)
    requires x <= y && IsCheapness(c, x, limit) && IsCheapness(d, y, limit)
    ensures c >= d
  {
    if limit.Some? && limit.value > 0 && x < limit.value { Ratio(c, if y >= limit.value then 0.0 else d, limit.value as real); }
  }

  /** Then it has the higher quality, or the same one for less. */
  lemma BeatsByQuality(x: Ranked, y: Ranked, p: Preferences)
    requires p.Valid() && HasQuality(x, p) && HasQuality(y, p) && Beats(x, y, p)
    ensures x.group.quality > y.group.quality || (x.group.quality == y.group.quality && Total(x.group.seats) < Total(y.group.seats))
  {
    hide IsNearness, IsCheapness, Off, Total, Middle, RowScore, AisleScore, Weighted;
    var m, c :| ScoredAs(x, p, m, c);
    var n, d :| ScoredAs(y, p, n, d);
    OffIsPositive(x.group.seats, p);
    NearerScoresMore(m, n, Off(x.group.seats, p), Off(y.group.seats, p), p.width);
    CheaperScoresMore(c, d, Total(x.group.seats), Total(y.group.seats), p.maxTotal);
    SumGrows(p.weights, x.group.quality, RowScore(x, p), m, c, AisleScore(x, p), y.group.quality, RowScore(y, p), n, d, AisleScore(y, p));
  }

  lemma SumGrows(w: Weights, q: real, r: real, m: real, c: real, a: real, t: real, s: real, n: real, d: real, b: real)
    requires w.Valid() && Weighted(q, w, r, m, c, a) && Weighted(t, w, s, n, d, b) && r >= s && m >= n && c >= d && a >= b
    ensures q >= t && ((w.row > 0.0 && r > s) || (w.center > 0.0 && m > n) || (w.aisle > 0.0 && a > b) ==> q > t)
  {
    hide Times;
    Weighs(w.row, r, s);
    Weighs(w.center, m, n);
    Weighs(w.price, c, d);
    Weighs(w.aisle, a, b);
  }

  lemma OffIsPositive(seats: seq<Seat>, p: Preferences)
    ensures Off(seats, p) >= 0.0
  {}

  lemma BeaterComesFirst(f: Profile, known: map<string, Seat>, p: Preferences, x: Ranked, y: Ranked)
    requires p.Valid() && IsCandidate(f, known, p, x) && IsCandidate(f, known, p, y) && Beats(x, y, p)
    ensures KeyLeq(x, y) && !KeyLeq(y, x)
  {
    hide HasQuality, IsCandidate, Off, RowScore, AisleScore;
    QualityExactly(f, known, p, x);
    QualityExactly(f, known, p, y);
    BeatsByQuality(x, y, p);
    assert x.manual == y.manual && x.priority == y.priority;
  }

  /** Of two listed groups the one that is better in something that counts, and worse in nothing, is listed first. */
  lemma BetterIsFirst(f: Profile, known: map<string, Seat>, p: Preferences, groups: seq<Ranked>, i: nat, j: nat)
    requires p.Valid() && Ranks(f, known, p, groups) && i < |groups| && j < |groups| && Beats(groups[i], groups[j], p)
    ensures i < j
  {
    hide Beats, KeyLeq, IsCandidate, Copies;
    assert groups[i] in groups && groups[j] in groups;
    BeaterComesFirst(f, known, p, groups[i], groups[j]);
    KeyTotal(groups[i], groups[i]);
  }

  /** Preferred groups come before others, and those of a smaller priority first. */
  lemma PreferredIsFirst(f: Profile, known: map<string, Seat>, p: Preferences, groups: seq<Ranked>, i: nat, j: nat)
    requires Ranks(f, known, p, groups) && i < |groups| && j < |groups|
    requires (groups[i].manual && !groups[j].manual) || (groups[i].manual == groups[j].manual && groups[i].priority < groups[j].priority)
    ensures i < j
  {
    hide Lists;
  }

  /** Among groups of the same quality and price, the order is that of the segments' names, and within one of their places. */
  lemma EqualsAreInOrder(f: Profile, known: map<string, Seat>, p: Preferences, groups: seq<Ranked>, i: nat, j: nat)
    requires Ranks(f, known, p, groups) && i < j < |groups|
    requires var a, b := groups[i], groups[j];
      a.manual == b.manual && a.priority == b.priority && a.group.quality == b.group.quality && Total(a.group.seats) == Total(b.group.seats)
    ensures TextLeq(groups[i].group.segment, groups[j].group.segment)
    ensures groups[i].group.segment == groups[j].group.segment ==> groups[i].start <= groups[j].start
  {
    hide Lists;
    TextReflexive(groups[i].group.segment);
  }

  // ----- independence of the inventory's order

  lemma SameDictionary(a: seq<Seat>, b: seq<Seat>)
    requires multiset(a) == multiset(b) && UniqueIds(a)
    ensures ById(a) == ById(b)
  {
    SameElements(a, b);
    IdsPermuted(a, b);
    RepeatsPermuted(Ids(a), Ids(b));
    forall id ensures id in ById(a) <==> id in ById(b) { ByIdKeys(a, id); ByIdKeys(b, id); }
    forall id | id in ById(a) ensures ById(a)[id] == ById(b)[id] {
      ByIdKeys(a, id);
      ByIdFinds(b, ById(a)[id]);
    }
  }

  /** Listing the same seats in another order changes neither the match nor the candidates. */
  lemma InventoryOrder(f: Profile, a: seq<Seat>, b: seq<Seat>)
    requires multiset(a) == multiset(b) && UniqueIds(a)
    ensures MatchesInventory(f, a) <==> MatchesInventory(f, b)
    ensures ById(a) == ById(b)
  {
    SameElements(a, b);
    SameDictionary(a, b);
    MapPermuted(PlaceOf, a, b);
    if a != [] {
      assert a[0] in a && b[0] in b;
      if forall s :: s in a ==> s.hall == f.hall { assert FingerprintOf(a) == FingerprintOf(b); }
    }
  }

  ghost predicate OwnNames(known: map<string, Seat>) { forall id :: id in known ==> known[id].id == id }

  /** The seats of a ranked group are those the dictionary has for their ids. */
  lemma CandidateSeats(f: Profile, known: map<string, Seat>, p: Preferences, r: Ranked)
    requires OwnNames(known) && IsCandidate(f, known, p, r)
    ensures Known(known, Ids(r.group.seats)) && SeatsAt(known, Ids(r.group.seats)) == r.group.seats
  {
    if IsManual(f, known, p, r) {
      var q :| q in f.preferred && ManualWindow(f, known, p, q, r);
      var i: nat, at: nat :| i < |f.segments| && RunsIn(f.segments[i], q, at)
        && WindowAt(f.segments[i], known, p, at, r.(manual := false, priority := 0));
      WindowIds(f.segments[i], known, p, at, r.(manual := false, priority := 0));
    } else {
      var i: nat, start: nat :| i < |f.segments| && WindowAt(f.segments[i], known, p, start, r);
      WindowIds(f.segments[i], known, p, start, r);
    }
  }

  lemma WindowIds(g: RowSegment, known: map<string, Seat>, p: Preferences, start: nat, r: Ranked)
    requires OwnNames(known) && WindowAt(g, known, p, start, r)
    ensures Known(known, Ids(r.group.seats)) && SeatsAt(known, Ids(r.group.seats)) == r.group.seats
  {
    var ids := g.seats[start..start + p.count];
    assert Ids(SeatsAt(known, ids)) == ids;
  }

  /** No two candidates rank the same. */
  lemma KeysDiffer(f: Profile, known: map<string, Seat>, p: Preferences, x: Ranked, y: Ranked)
    requires OwnNames(known) && IsCandidate(f, known, p, x) && IsCandidate(f, known, p, y) && KeyLeq(x, y) && KeyLeq(y, x)
    ensures x == y
  {
    KeyTotal(x, y);
    TextsTotal(Ids(x.group.seats), Ids(y.group.seats));
    CandidateSeats(f, known, p, x);
    CandidateSeats(f, known, p, y);
  }

  /** The groups are in the order of their keys, each as often as it is asked for. */
  ghost predicate Ranks(f: Profile, known: map<string, Seat>, p: Preferences, groups: seq<Ranked>) {
    InOrder(groups, KeyLeq) && Lists(f, known, p, groups)
  }

  /** In every mode there is only one ranking. */
  lemma RankingIsUnique(f: Profile, known: map<string, Seat>, p: Preferences, u: seq<Ranked>, v: seq<Ranked>)
    requires OwnNames(known) && Ranks(f, known, p, u) && Ranks(f, known, p, v)
    ensures u == v
  {
    hide KeyLeq, Copies, IsCandidate;
    forall x, y | x in u && y in u && KeyLeq(x, y) && KeyLeq(y, x) ensures x == y {
      assert IsCandidate(f, known, p, x) && IsCandidate(f, known, p, y);
      KeysDiffer(f, known, p, x, y);
    }
    forall x ensures multiset(u)[x] == multiset(v)[x] { assert multiset(u)[x] == Copies(f, known, p, x); }
    SortedUnique(u, v, KeyLeq);
  }

  /** So the ranking does not depend on the order in which the seats are listed. */
  lemma ListingIsIrrelevant(f: Profile, p: Preferences, a: seq<Seat>, b: seq<Seat>, u: seq<Ranked>, v: seq<Ranked>)
    requires multiset(a) == multiset(b) && UniqueIds(a) && Ranks(f, ById(a), p, u) && Ranks(f, ById(b), p, v)
    ensures u == v
  {
    InventoryOrder(f, a, b);
    forall id | id in ById(a) ensures ById(a)[id].id == id { ByIdKeys(a, id); }
    RankingIsUnique(f, ById(a), p, u, v);
  }
}
