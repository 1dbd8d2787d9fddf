/** Halls, seats, and the row segments inferred from geometry. */
module Topology {
  import opened Wrappers
  import opened Checkout
  import opened Ordering

  /** A provider place; prices are in minor units of one currency. */
  datatype Seat = Seat(
    id: string, hall: string, block: string, row: string, number: string, price: nat, free: bool,
    x: Option<int>, y: Option<int>, width: Option<int>, height: Option<int>, rotation: Option<int>)
  {
    predicate Valid() {
      !Blank(id) && !Blank(block) && (row != "" ==> !Blank(row)) && (row == "" <==> number == "")
    }

    predicate Unnumbered() { row == "" }

    /** Geometry says where the seat is in its row. */
    predicate Placed() { x.Some? && width.Some? && block != "" && row != "" }
  }

  predicate Blank(s: string) { Strip(s) == "" }

  datatype Mode = ManualOnly | Automatic | ManualThenAuto

  datatype RowSegment = RowSegment(id: string, block: string, row: string, seats: seq<string>) {
    predicate Valid() {
      && !Blank(id) && !Blank(block) && !Blank(row)
      && seats != [] && (forall s :: s in seats ==> !Blank(s)) && NoRepeats(seats)
    }
  }

  datatype PreferredGroup = PreferredGroup(id: string, priority: nat, seats: seq<string>)

  /** The fingerprint stands for a collision-free digest of the physical records, in any order. */
  datatype Place = Place(
    id: string, block: string, row: string, number: string,
    x: Option<int>, y: Option<int>, width: Option<int>, height: Option<int>, rotation: Option<int>)

  datatype Fingerprint = Fingerprint(hall: string, places: multiset<Place>)

  datatype Profile = Profile(
    hall: string, fingerprint: Fingerprint, mode: Mode, segments: seq<RowSegment>, preferred: seq<PreferredGroup>)

  datatype Fault = EmptyHall | ManyHalls | NoGeometry | InvalidProfile

  predicate NoRepeats<T(==)>(s: seq<T>) {
    forall i, j :: 0 <= i < j < |s| ==> s[i] != s[j]
  }

  function PlaceOf(s: Seat): Place { Place(s.id, s.block, s.row, s.number, s.x, s.y, s.width, s.height, s.rotation) }

  function Places(seats: seq<Seat>): multiset<Place> { multiset(Map(PlaceOf, seats)) }

  predicate OneHall(seats: seq<Seat>) { forall s :: s in seats ==> seats != [] && s.hall == seats[0].hall }

  function FingerprintOf(seats: seq<Seat>): Fingerprint
    requires seats != []
  {
    Fingerprint(seats[0].hall, Places(seats))
  }

  /** The dictionary of seats by id; a later seat with the same id replaces an earlier one. */
  function ById(seats: seq<Seat>): map<string, Seat> {
    if seats == [] then map[] else ById(seats[..|seats| - 1])[seats[|seats| - 1].id := seats[|seats| - 1]]
  }

  predicate SegmentMatches(g: RowSegment, known: map<string, Seat>) {
    forall id :: id in g.seats ==> id in known && known[id].block == g.block && known[id].row == g.row
  }

  predicate MatchesInventory(p: Profile, seats: seq<Seat>) {
    && seats != [] && (forall s :: s in seats ==> s.hall == p.hall)
    && FingerprintOf(seats) == p.fingerprint
    && (forall g :: g in p.segments ==> SegmentMatches(g, ById(seats)))
  }

  /** The seat ids of all segments, one after the other. */
  function AllIds(segments: seq<RowSegment>): seq<string> {
    if segments == [] then [] else AllIds(segments[..|segments| - 1]) + segments[|segments| - 1].seats
  }

  function SegmentIds(segments: seq<RowSegment>): seq<string> { seq(|segments|, i requires 0 <= i < |segments| => segments[i].id) }

  // ----- texts of numbers

  function Digits(n: nat): string { if n < 10 then [Digit(n)] else Digits(n / 10) + [Digit(n % 10)] }

  function Digit(n: nat): char
    requires n < 10
  {
    "0123456789"[n]
  }

  lemma {:induction false} DigitsHaveNoColon(n: nat)
    ensures ':' !in Digits(n) && Digits(n) != ""
  {
    if n >= 10 { DigitsHaveNoColon(n / 10); }
  }

  lemma DigitInjective(m: nat, n: nat)
    requires m < 10 && n < 10 && Digit(m) == Digit(n)
    ensures m == n
  {}

  lemma {:induction false} DigitsLength(n: nat)
    ensures n >= 10 ==> |Digits(n)| >= 2
    ensures n < 10 ==> |Digits(n)| == 1
  {}

  lemma {:induction false} DigitsInjective(m: nat, n: nat)
    requires Digits(m) == Digits(n)
    ensures m == n
  {
    DigitsLength(m);
    DigitsLength(n);
    if m < 10 {
      DigitInjective(m, n);
    } else {
      var a, b := Digits(m), Digits(n);
      assert a[..|a| - 1] == Digits(m / 10) && b[..|b| - 1] == Digits(n / 10);
      assert a[|a| - 1] == Digit(m % 10) && b[|b| - 1] == Digit(n % 10);
      DigitsInjective(m / 10, n / 10);
      DigitInjective(m % 10, n % 10);
    }
  }

  /** The text before the last colon, and the text after it, are determined by the whole. */
  lemma LastColon(a: string, b: string, u: string, v: string)
    requires a + ":" + u == b + ":" + v && ':' !in u && ':' !in v
    ensures a == b && u == v
  {
    var w := a + ":" + u;
    assert w == b + ":" + v;
    assert forall i :: |a| < i < |w| ==> w[i] == u[i - |a| - 1];
    assert forall i :: |b| < i < |w| ==> w[i] == v[i - |b| - 1];
    assert w[|a|] == ':' && w[|b|] == ':';
    assert |a| == |b|;
    assert w[..|a|] == a && w[|a| + 1..] == u;
    assert (b + ":" + v)[..|b|] == b && (b + ":" + v)[|b| + 1..] == v;
  }
}
