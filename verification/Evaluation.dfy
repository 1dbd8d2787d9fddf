/** Choosing the seats of one booking attempt from what the provider shows now. */
module Evaluation {
  import opened Wrappers
  import opened Rows
  import Planning
  import Engine
  import opened Ordering
  import opened Topology
  import opened Inference
  import opened Profiles
  import opened Ranking

  datatype Selection = Selection(profile: Profile, preferences: Preferences)

  /** What the evaluator knows about the candidate. */
  datatype Context = Context(
    enabled: bool, config: Config, autoProfile: bool, target: Option<string>, excluded: set<string>)

  /** What the provider answers: the session, the sale limits, the seats, and a configured profile if one fits. */
  datatype Offer = Offer(
    sameSession: bool, startsAt: Time, hall: string, matches: bool, sellAvailable: bool, sellMax: nat,
    inventory: seq<Seat>, configured: Option<Selection>)

  datatype Reason =
    | SessionMismatch | SessionStarted | FiltersChanged | SaleQuantity | SaleUnavailable | InventoryMismatch
    | ProfileMismatch | NoGroup | NoSingleSeat | UnnumberedMultiple | NoUnnumbered | BudgetFilter

  datatype Outcome =
    | Paused | Attention(reason: Reason) | StoppedBy(reason: Reason) | Waiting(reason: Reason)
    | EvaluationFails | Chosen(group: Group)

  function Minor(m: Option<Money>): Option<nat> { if m.Some? then Some(m.value.minor) else None }

  /** The limits known before the provider quotes a checkout. */
  predicate Allows(g: Config, group: Group) {
    && |group.seats| == g.OrderTicketCount()
    && (g.maxTicketPrice.Some? ==> forall s :: s in group.seats ==> s.price <= g.maxTicketPrice.value.minor)
    && (g.maxOrderTotal.Some? ==> Total(group.seats) <= g.maxOrderTotal.value.minor)
  }

  function Single(s: Seat, prefix: string): Group { Group(prefix + s.id, [s], 0.0) }

  // ----- individual places

  /** A free place that no other slot holds, the slot's own if it has one, within the limits. */
  predicate Eligible(c: Context, s: Seat) {
    && s.free && s.id !in c.excluded && (c.target.Some? ==> s.id == c.target.value)
    && Allows(c.config, Single(s, "individual:"))
  }

  function FirstEligible(c: Context, inventory: seq<Seat>): Option<Seat> {
    if inventory == [] then None
    else if Eligible(c, inventory[0]) then Some(inventory[0])
    else FirstEligible(c, inventory[1..])
  }

  /** The search finds the first eligible place, and fails only when there is none. */
  lemma {:induction false} FirstIsFirst(c: Context, inventory: seq<Seat>)
    ensures FirstEligible(c, inventory).None? <==> forall s :: s in inventory ==> !Eligible(c, s)
    ensures FirstEligible(c, inventory).Some? ==>
      exists i :: 0 <= i < |inventory| && FirstEligible(c, inventory) == Some(inventory[i]) && Eligible(c, inventory[i])
        && forall j :: 0 <= j < i ==> !Eligible(c, inventory[j])
  {
    if inventory != [] {
      var rest := inventory[1..];
      FirstIsFirst(c, rest);
      assert inventory == [inventory[0]] + rest;
      if !Eligible(c, inventory[0]) && FirstEligible(c, rest).Some? {
        var i :| 0 <= i < |rest| && FirstEligible(c, rest) == Some(rest[i]) && Eligible(c, rest[i])
          && forall j :: 0 <= j < i ==> !Eligible(c, rest[j]);
        assert inventory[i + 1] == rest[i];
        forall j | 0 <= j < i + 1 ensures !Eligible(c, inventory[j]) { if j > 0 { assert inventory[j] == rest[j - 1]; } }
      }
    }
  }

  predicate OwnInventory(o: Offer) { UniqueIds(o.inventory) && forall s :: s in o.inventory ==> s.hall == o.hall }

  function EvaluateIndividual(c: Context, o: Offer): Outcome {
    if !OwnInventory(o) then Attention(InventoryMismatch)
    else
      var s := FirstEligible(c, o.inventory);
      if s.Some? then Chosen(Single(s.value, "individual:")) else Waiting(NoSingleSeat)
  }

  // ----- unnumbered places

  predicate CheaperLeq(a: Seat, b: Seat) { a.price < b.price || (a.price == b.price && TextLeq(a.id, b.id)) }

  lemma CheaperOrders()
    ensures Orders(CheaperLeq)
  {
    forall a, b ensures CheaperLeq(a, b) || CheaperLeq(b, a) { TextTotal(a.id, b.id); }
    forall a, b, c | CheaperLeq(a, b) && CheaperLeq(b, c) ensures CheaperLeq(a, c) {
      if a.price == b.price == c.price { TextTransitive(a.id, b.id, c.id); }
    }
  }

  function Unnumbered(inventory: seq<Seat>): seq<Seat> {
    if inventory == [] then []
    else (if inventory[0].Unnumbered() && inventory[0].free then [inventory[0]] else []) + Unnumbered(inventory[1..])
  }

  lemma {:induction false} UnnumberedIn(inventory: seq<Seat>, s: Seat)
    ensures s in Unnumbered(inventory) <==> s in inventory && s.Unnumbered() && s.free
  {
    if inventory != [] {
      UnnumberedIn(inventory[1..], s);
      assert inventory == [inventory[0]] + inventory[1..];
    }
  }

  predicate Affordable(g: Config, s: Seat) { Allows(g, Single(s, "unnumbered:")) }

  ghost predicate IsCheapest(g: Config, inventory: seq<Seat>, s: Seat) {
    && s in inventory && s.Unnumbered() && s.free && Affordable(g, s)
    && forall t :: t in inventory && t.Unnumbered() && t.free && Affordable(g, t) ==> CheaperLeq(s, t)
  }

  /** The cheapest free place without a number that the limits allow. */
  method EvaluateUnnumbered(g: Config, inventory: seq<Seat>) returns (v: Outcome)
    ensures v.Chosen? ==> g.ticketCount == 1 && exists s :: IsCheapest(g, inventory, s) && v.group == Single(s, "unnumbered:")
    ensures !v.Chosen? ==> v == Waiting(if g.ticketCount != 1 then UnnumberedMultiple else NoUnnumbered)
    ensures v == Waiting(NoUnnumbered) ==> forall t :: t in inventory && t.Unnumbered() && t.free ==> !Affordable(g, t)
  {
    if g.ticketCount != 1 { return Waiting(UnnumberedMultiple); }
    CheaperOrders();
    var sorted := SortBy(Unnumbered(inventory), CheaperLeq);
    SameElements(sorted, Unnumbered(inventory));
    forall t ensures t in sorted <==> t in inventory && t.Unnumbered() && t.free { UnnumberedIn(inventory, t); }
    var i := FirstAffordable(g, sorted);
    if i == |sorted| { return Waiting(NoUnnumbered); }
    FirstIsCheapest(g, sorted, i);
    assert IsCheapest(g, inventory, sorted[i]);
    return Chosen(Single(sorted[i], "unnumbered:"));
  }

  method FirstAffordable(g: Config, sorted: seq<Seat>) returns (i: nat)
    ensures i <= |sorted| && (i < |sorted| ==> Affordable(g, sorted[i]))
    ensures forall j :: 0 <= j < i ==> !Affordable(g, sorted[j])
  {
    i := 0;
    while i < |sorted| && !Affordable(g, sorted[i])
      invariant 0 <= i <= |sorted| && forall j :: 0 <= j < i ==> !Affordable(g, sorted[j])
    {
      i := i + 1;
    }
  }

  lemma FirstIsCheapest(g: Config, sorted: seq<Seat>, i: nat)
    requires i < |sorted| && InOrder(sorted, CheaperLeq) && forall j :: 0 <= j < i ==> !Affordable(g, sorted[j])
    ensures sorted[i] in sorted && forall t :: t in sorted && Affordable(g, t) ==> CheaperLeq(sorted[i], t)
  {
    TextReflexive(sorted[i].id);
    forall t | t in sorted && Affordable(g, t) ensures CheaperLeq(sorted[i], t) {
      var j :| 0 <= j < |sorted| && sorted[j] == t;
    }
  }

  // ----- adjacent places

  /** Scores for a hall that has no configured profile: every row and segment is as good as any other. */
  function InferredPreferences(segments: seq<RowSegment>, least: int, most: int): Preferences {
    Preferences(1, None, None, map i | 0 <= i < |segments| :: segments[i].row := 1.0,
      Weights(0.2, 0.4, 0.4, 0.0), 0.0, (least + most) as real / 2.0, (if most - least > 1 then most - least else 1) as real,
      map i | 0 <= i < |segments| :: segments[i].id := 1.0)
  }

  lemma InferredPreferencesValid(segments: seq<RowSegment>, least: int, most: int)
    ensures InferredPreferences(segments, least, most).Valid()
  {}

  ghost predicate AreExtremes(inventory: seq<Seat>, least: int, most: int) {
    && (exists s :: s in inventory && s.x == Some(least)) && (exists s :: s in inventory && s.x == Some(most))
    && forall s :: s in inventory && s.x.Some? ==> least <= s.x.value <= most
  }

  method Extremes(inventory: seq<Seat>) returns (r: Option<(int, int)>)
    ensures r.None? <==> forall s :: s in inventory ==> s.x.None?
    ensures r.Some? ==> AreExtremes(inventory, r.value.0, r.value.1)
  {
    r := None;
    var i := 0;
    while i < |inventory|
      invariant 0 <= i <= |inventory|
      invariant r.None? <==> forall s :: s in inventory[..i] ==> s.x.None?
      invariant r.Some? ==> AreExtremes(inventory[..i], r.value.0, r.value.1)
    {
      assert inventory[..i + 1] == inventory[..i] + [inventory[i]];
      if inventory[i].x.Some? {
        var x := inventory[i].x.value;
        r := if r.None? then Some((x, x))
             else Some((if x < r.value.0 then x else r.value.0, if x > r.value.1 then x else r.value.1));
      }
      i := i + 1;
    }
    assert inventory[..i] == inventory;
  }

  /** A profile can be inferred for the hall. */
  ghost predicate Inferrable(inventory: seq<Seat>) {
    inventory != [] && OneHall(inventory) && Placed(inventory) != [] && NoRepeats(PlacedIds(inventory)) && RowsTellApart(inventory)
  }

  /** The profile inferred from the hall, with preferences centred between its outermost places. */
  ghost predicate Infers(inventory: seq<Seat>, u: Selection) {
    && inventory != []
    && u.profile == Profile(inventory[0].hall, FingerprintOf(inventory), Automatic, u.profile.segments, [])
    && (exists order, split :: Inferred(inventory, u.profile.segments, order, split))
    && exists least, most :: AreExtremes(inventory, least, most)
         && u.preferences == InferredPreferences(u.profile.segments, least, most)
  }

  /** A profile inferred for the hall, when none is configured; no selection means that inferring it failed. */
  method InferredSelection(inventory: seq<Seat>) returns (r: Option<Selection>)
    requires forall s :: s in inventory ==> s.Valid()
    ensures r.Some? ==> Infers(inventory, r.value) && ProfileValid(r.value.profile) && r.value.preferences.Valid()
    ensures r.Some? && UniqueIds(inventory) ==> MatchesInventory(r.value.profile, inventory)
    ensures r.Some? <==> Inferrable(inventory)
  {
    var profile, order, split := InferProfile(inventory);
    if profile.Err? { return None; }
    if UniqueIds(inventory) { InferredMatches(inventory, profile.value, order, split); }
    var ends := Extremes(inventory);
    assert Placed(inventory)[0] in Placed(inventory);
    PlacedIn(inventory, Placed(inventory)[0]);
    InferredPreferencesValid(profile.value.segments, ends.value.0, ends.value.1);
    r := Some(Selection(profile.value, InferredPreferences(profile.value.segments, ends.value.0, ends.value.1)));
  }

  function Limited(p: Preferences, g: Config): Preferences {
    p.(count := g.ticketCount, maxTicket := Minor(g.maxTicketPrice), maxTotal := Minor(g.maxOrderTotal))
  }

  /** The selection the groups are ranked by: the configured one, or else the inferred one, if there is any. */
  ghost predicate Uses(o: Offer, used: Option<Selection>) {
    if o.configured.Some? then used == o.configured
    else (used.Some? <==> Inferrable(o.inventory)) && (used.Some? ==> Infers(o.inventory, used.value))
  }

  ghost predicate Offered(g: Config, inventory: seq<Seat>, u: Selection, x: Ranked) {
    MatchesInventory(u.profile, inventory) && IsCandidate(u.profile, ById(inventory), Limited(u.preferences, g), x)
  }

  /** The group that ranks first. */
  ghost predicate IsBest(g: Config, inventory: seq<Seat>, u: Selection, x: Ranked) {
    Offered(g, inventory, u, x) && forall y :: Offered(g, inventory, u, y) ==> Ranking.KeyLeq(x, y)
  }

  /** A group is chosen whenever there is one, and then the one that ranks first. */
  ghost predicate ChoosesBest(g: Config, inventory: seq<Seat>, u: Selection, v: Outcome) {
    && (v.Chosen? <==> exists x :: Offered(g, inventory, u, x))
    && (v.Chosen? ==> exists x :: IsBest(g, inventory, u, x) && v.group == x.group)
    && (!v.Chosen? ==> v == if MatchesInventory(u.profile, inventory) then Waiting(NoGroup) else Attention(ProfileMismatch))
  }

  method EvaluateAdjacent(c: Context, o: Offer) returns (v: Outcome, ghost used: Option<Selection>)
    requires !c.config.individual && c.config.ticketCount > 0 && forall s :: s in o.inventory ==> s.Valid()
    requires o.configured.Some? ==> ProfileValid(o.configured.value.profile) && o.configured.value.preferences.Valid()
    ensures Uses(o, used)
    ensures if used.Some? then ChoosesBest(c.config, o.inventory, used.value, v) else v.EvaluationFails?
    ensures v.Chosen? ==> Allows(c.config, v.group) && (forall s :: s in v.group.seats ==> s.free) && v.group.Valid()
    ensures v != Waiting(BudgetFilter) && !v.Paused? && !v.StoppedBy?
  {
    var selection := o.configured;
    if selection.None? {
      selection := InferredSelection(o.inventory);
      if selection.None? { return EvaluationFails, None; }
    }
    used := selection;
    assert Uses(o, used);
    v := ChooseBest(c.config, o.inventory, selection.value);
  }

  method ChooseBest(g: Config, inventory: seq<Seat>, u: Selection) returns (v: Outcome)
    requires !g.individual && g.ticketCount > 0 && ProfileValid(u.profile) && u.preferences.Valid()
    ensures ChoosesBest(g, inventory, u, v) && v != Waiting(BudgetFilter) && !v.Paused? && !v.StoppedBy? && !v.EvaluationFails?
    ensures v.Chosen? ==> Allows(g, v.group) && (forall s :: s in v.group.seats ==> s.free) && v.group.Valid()
  {
    hide ChoosesBest, ProfileValid, MatchesInventory, IsCandidate, Ranks, IsBest;
    var p := Limited(u.preferences, g);
    var ranking := RankGroups(inventory, u.profile, p);
    match ranking {
      case Mismatch =>
        NothingOffered(g, inventory, u);
        v := Attention(ProfileMismatch);
      case NoAdjacentGroup =>
        NothingOffered(g, inventory, u);
        v := Waiting(NoGroup);
      case Groups(groups) =>
        FirstIsBest(g, inventory, u, groups);
        BestIsChosen(g, inventory, u, groups[0]);
        v := if !Allows(g, groups[0].group) then Waiting(BudgetFilter) else Chosen(groups[0].group);
    }
  }

  lemma NothingOffered(g: Config, inventory: seq<Seat>, u: Selection)
    requires forall x :: !Offered(g, inventory, u, x)
    ensures ChoosesBest(g, inventory, u, if MatchesInventory(u.profile, inventory) then Waiting(NoGroup) else Attention(ProfileMismatch))
  {}

  lemma BestIsChosen(g: Config, inventory: seq<Seat>, u: Selection, x: Ranked)
    requires !g.individual && g.ticketCount > 0 && ProfileValid(u.profile) && u.preferences.Valid() && IsBest(g, inventory, u, x)
    ensures ChoosesBest(g, inventory, u, Chosen(x.group))
    ensures Allows(g, x.group) && x.group.Valid() && forall s :: s in x.group.seats ==> s.free
  {
    hide ProfileValid, MatchesInventory, IsCandidate;
    assert Offered(g, inventory, u, x);
    BestIsAllowed(g, inventory, u, x);
  }

  lemma BestIsAllowed(g: Config, inventory: seq<Seat>, u: Selection, x: Ranked)
    requires !g.individual && g.ticketCount > 0 && ProfileValid(u.profile) && u.preferences.Valid() && Offered(g, inventory, u, x)
    ensures Allows(g, x.group) && x.group.Valid() && forall s :: s in x.group.seats ==> s.free
  {
    hide ProfileValid, MatchesInventory, IsCandidate, Group.Valid, Total;
    CandidateIsValid(u.profile, inventory, Limited(u.preferences, g), x);
  }

  lemma FirstIsBest(g: Config, inventory: seq<Seat>, u: Selection, groups: seq<Ranked>)
    requires MatchesInventory(u.profile, inventory) && groups != []
    requires Ranks(u.profile, ById(inventory), Limited(u.preferences, g), groups)
    ensures IsBest(g, inventory, u, groups[0])
  {
    hide IsCandidate, Ranking.KeyLeq, Copies;
    assert groups[0] in groups;
    KeyReflexive(groups[0]);
    forall y | Offered(g, inventory, u, y) ensures Ranking.KeyLeq(groups[0], y) {
      assert y in groups;
      var i :| 0 <= i < |groups| && groups[i] == y;
    }
  }

  lemma KeyReflexive(x: Ranked)
    ensures Ranking.KeyLeq(x, x)
  {
    KeyTotal(x, x);
  }

  /** A ranked group already respects the limits it was ranked under. */
  lemma CandidateIsValid(f: Profile, inventory: seq<Seat>, p: Preferences, r: Ranked)
    requires p.Valid() && ProfileValid(f) && MatchesInventory(f, inventory) && IsCandidate(f, ById(inventory), p, r)
    ensures r.group.Valid() && |r.group.seats| == p.count && (forall s :: s in r.group.seats ==> s.free)
    ensures p.maxTicket.Some? ==> forall s :: s in r.group.seats ==> s.price <= p.maxTicket.value
    ensures p.maxTotal.Some? ==> Total(r.group.seats) <= p.maxTotal.value
  {
    var known := ById(inventory);
    forall id | id in known ensures known[id].id == id { ByIdKeys(inventory, id); }
    if IsManual(f, known, p, r) {
      var q :| q in f.preferred && ManualWindow(f, known, p, q, r);
      var i: nat, at: nat :| i < |f.segments| && RunsIn(f.segments[i], q, at)
        && WindowAt(f.segments[i], known, p, at, r.(manual := false, priority := 0));
      assert f.segments[i] in f.segments;
      WindowIsValid(f.segments[i], known, p, at, r.(manual := false, priority := 0));
    } else {
      var i: nat, start: nat :| i < |f.segments| && WindowAt(f.segments[i], known, p, start, r);
      assert f.segments[i] in f.segments;
      WindowIsValid(f.segments[i], known, p, start, r);
    }
  }

  // ----- the whole evaluation

  /** The sale is open for this subscription: checked before any seat is looked at. */
  function Gate(c: Context, now: Time, o: Offer): Option<Outcome> {
    if !c.enabled then Some(Outcome.Paused)
    else if !o.sameSession then Some(Attention(SessionMismatch))
    else if o.startsAt <= now then Some(StoppedBy(SessionStarted))
    else if !o.matches then Some(StoppedBy(FiltersChanged))
    else if c.config.individual && o.sellAvailable && c.config.ticketCount > o.sellMax then Some(Attention(SaleQuantity))
    else if !(c.config.ticketCount > 0 && o.sellAvailable && c.config.ticketCount <= o.sellMax) then Some(Waiting(SaleUnavailable))
    else None
  }

  /** The places of the hall have no numbers. */
  predicate AllUnnumbered(o: Offer) { o.inventory != [] && forall s :: s in o.inventory ==> s.Unnumbered() }

  /** Nothing about the session stands in the way. */
  predicate Ahead(c: Context, now: Time, o: Offer) { c.enabled && o.sameSession && now < o.startsAt && o.matches }

  /** As many tickets are on sale as the subscription wants. */
  predicate OnSale(c: Context, now: Time, o: Offer) { Ahead(c, now, o) && o.sellAvailable && c.config.ticketCount <= o.sellMax }

  predicate WithinPrice(g: Config, price: nat) {
    && (g.maxTicketPrice.None? || price <= g.maxTicketPrice.value.minor)
    && (g.maxOrderTotal.None? || price <= g.maxOrderTotal.value.minor)
  }

  /** A free place within the limits that is the slot's own, if it has one, and no other slot's. */
  predicate Buyable(c: Context, s: Seat) {
    s.free && s.id !in c.excluded && (c.target.None? || c.target == Some(s.id)) && WithinPrice(c.config, s.price)
  }

  predicate IsFirst(c: Context, inventory: seq<Seat>, i: int) {
    0 <= i < |inventory| && Buyable(c, inventory[i]) && forall j :: 0 <= j < i ==> !Buyable(c, inventory[j])
  }

  /** The first place in the listing that can be bought is taken, if there is one. */
  ghost predicate TakesFirst(c: Context, inventory: seq<Seat>, v: Outcome) {
    if exists s :: s in inventory && Buyable(c, s)
    then v.Chosen? && exists i :: IsFirst(c, inventory, i) && v.group.seats == [inventory[i]]
    else v == Waiting(NoSingleSeat)
  }

  /** A free place without a number, within the limits. */
  predicate Affords(g: Config, inventory: seq<Seat>, s: Seat) {
    s in inventory && s.row == "" && s.free && WithinPrice(g, s.price)
  }

  ghost predicate CostsLeast(g: Config, inventory: seq<Seat>, s: Seat) {
    && Affords(g, inventory, s)
    && forall t :: Affords(g, inventory, t) ==> s.price < t.price || (s.price == t.price && TextLeq(s.id, t.id))
  }

  /** The cheapest such place is taken, if there is one: of several the first by id. */
  ghost predicate TakesCheapest(g: Config, inventory: seq<Seat>, v: Outcome) {
    if exists s :: Affords(g, inventory, s) then v.Chosen? && exists s :: CostsLeast(g, inventory, s) && v.group.seats == [s]
    else v == Waiting(NoUnnumbered)
  }

  lemma TotalOfOne(s: Seat)
    ensures Total([s]) == s.price
  {
    assert [s][..0] == [];
  }

  lemma EligibleIsBuyable(c: Context, s: Seat)
    requires c.config.individual
    ensures Eligible(c, s) <==> Buyable(c, s)
  {
    TotalOfOne(s);
  }

  lemma IndividualTakesFirst(c: Context, o: Offer)
    requires c.config.individual && OwnInventory(o)
    ensures TakesFirst(c, o.inventory, EvaluateIndividual(c, o))
  {
    hide Eligible, Buyable;
    FirstIsFirst(c, o.inventory);
    forall s ensures Eligible(c, s) <==> Buyable(c, s) { EligibleIsBuyable(c, s); }
  }

  lemma CheapestIsTaken(g: Config, inventory: seq<Seat>, v: Outcome)
    requires !g.individual && g.ticketCount == 1
    requires v.Chosen? ==> exists s :: IsCheapest(g, inventory, s) && v.group == Single(s, "unnumbered:")
    requires v == Waiting(NoUnnumbered) ==> forall t :: t in inventory && t.Unnumbered() && t.free ==> !Affordable(g, t)
    requires v.Chosen? || v == Waiting(NoUnnumbered)
    ensures TakesCheapest(g, inventory, v)
  {
    forall s ensures Affordable(g, s) <==> WithinPrice(g, s.price) { TotalOfOne(s); }
    if v.Chosen? {
      var s :| IsCheapest(g, inventory, s) && v.group == Single(s, "unnumbered:");
      assert Affords(g, inventory, s);
    }
  }

  method Evaluate(c: Context, now: Time, o: Offer) returns (v: Outcome, ghost used: Option<Selection>)
    requires c.config.Valid() && forall s :: s in o.inventory ==> s.Valid()
    requires o.configured.Some? ==> ProfileValid(o.configured.value.profile) && o.configured.value.preferences.Valid()
    // before any seat is looked at
    ensures !c.enabled ==> v == Outcome.Paused
    ensures c.enabled && !o.sameSession ==> v == Attention(SessionMismatch)
    ensures c.enabled && o.sameSession && o.startsAt <= now ==> v == StoppedBy(SessionStarted)
    ensures c.enabled && o.sameSession && now < o.startsAt && !o.matches ==> v == StoppedBy(FiltersChanged)
    ensures Ahead(c, now, o) && o.sellAvailable && o.sellMax < c.config.ticketCount ==>
      v == if c.config.individual then Attention(SaleQuantity) else Waiting(SaleUnavailable)
    ensures Ahead(c, now, o) && !o.sellAvailable ==> v == Waiting(SaleUnavailable)
    // single places
    ensures OnSale(c, now, o) && c.config.individual ==>
      if UniqueIds(o.inventory) && forall s :: s in o.inventory ==> s.hall == o.hall then TakesFirst(c, o.inventory, v)
      else v == Attention(InventoryMismatch)
    // places without numbers
    ensures OnSale(c, now, o) && !c.config.individual && AllUnnumbered(o) ==>
      if !c.autoProfile then v == Attention(ProfileMismatch)
      else if c.config.ticketCount != 1 then v == Waiting(UnnumberedMultiple)
      else TakesCheapest(c.config, o.inventory, v)
    // adjacent places
    ensures OnSale(c, now, o) && !c.config.individual && !AllUnnumbered(o) ==>
      Uses(o, used) && if used.Some? then ChoosesBest(c.config, o.inventory, used.value, v) else v.EvaluationFails?
    // whatever is chosen
    ensures v.Chosen? ==> OnSale(c, now, o) && Allows(c.config, v.group) && UniqueIds(v.group.seats) && forall s :: s in v.group.seats ==> s.free
    ensures v != Waiting(BudgetFilter)
  {
    hide Uses, ChoosesBest, TakesFirst, TakesCheapest;
    used := None;
    var gate := Gate(c, now, o);
    if gate.Some? { return gate.value, used; }
    if c.config.individual {
      v := EvaluateIndividual(c, o);
      SingleIsAllowed(c, o);
    } else if AllUnnumbered(o) {
      if !c.autoProfile { return Attention(ProfileMismatch), used; }
      v := EvaluateUnnumbered(c.config, o.inventory);
      if c.config.ticketCount == 1 { CheapestIsTaken(c.config, o.inventory, v); }
    } else {
      v, used := EvaluateAdjacent(c, o);
    }
  }

  lemma SingleIsAllowed(c: Context, o: Offer)
    requires c.config.individual
    ensures OwnInventory(o) ==> TakesFirst(c, o.inventory, EvaluateIndividual(c, o))
    ensures !OwnInventory(o) ==> EvaluateIndividual(c, o) == Attention(InventoryMismatch)
    ensures EvaluateIndividual(c, o).Chosen? ==>
      var group := EvaluateIndividual(c, o).group; Allows(c.config, group) && UniqueIds(group.seats) && forall s :: s in group.seats ==> s.free
  {
    hide TakesFirst;
    FirstIsFirst(c, o.inventory);
    if OwnInventory(o) { IndividualTakesFirst(c, o); }
  }

  // ----- which group is the best one

  /** The group that is chosen is not worse than another one in everything and worse in something that counts. */
  lemma BestIsUnbeaten(g: Config, inventory: seq<Seat>, u: Selection, x: Ranked, y: Ranked)
    requires g.ticketCount > 0 && u.preferences.Valid() && IsBest(g, inventory, u, x) && Offered(g, inventory, u, y)
    ensures !Beats(y, x, Limited(u.preferences, g))
  {
    hide IsCandidate, Beats, Ranking.KeyLeq, MatchesInventory;
    if Beats(y, x, Limited(u.preferences, g)) {
      BeaterComesFirst(u.profile, ById(inventory), Limited(u.preferences, g), y, x);
    }
  }

  /**
   Without a configured profile the group nearer to the middle of the hall beats one that is not cheaper, and the
   cheaper one beats one that is not nearer.
   */
  lemma InferredPrefersTheMiddle(g: Config, inventory: seq<Seat>, u: Selection, x: Ranked, y: Ranked)
    requires g.ticketCount > 0 && Infers(inventory, u) && Offered(g, inventory, u, x) && Offered(g, inventory, u, y)
    requires var p := Limited(u.preferences, g); var a, b := x.group.seats, y.group.seats;
      || (Off(a, p) < Off(b, p) && Off(a, p) < p.width && Total(a) <= Total(b))
      || (Off(a, p) <= Off(b, p) && Total(a) < Total(b))
    ensures Beats(x, y, Limited(u.preferences, g))
    ensures exists least, most :: AreExtremes(inventory, least, most) && Limited(u.preferences, g).axis == (least + most) as real / 2.0
  {
    hide IsCandidate, Off, Total, Infers, MatchesInventory, Beats, Scored, RowScore, AisleScore, Limited;
    InferredAxis(g, inventory, u);
    var p := Limited(u.preferences, g);
    InferredScores(g, inventory, u, x);
    InferredScores(g, inventory, u, y);
    EqualScoresBeat(x, y, p);
  }

  lemma InferredAxis(g: Config, inventory: seq<Seat>, u: Selection)
    requires Infers(inventory, u)
    ensures exists least, most :: AreExtremes(inventory, least, most) && Limited(u.preferences, g).axis == (least + most) as real / 2.0
  {
    hide Inferred, AreExtremes;
  }

  /** All rows and all aisles of an inferred profile are as good as any other. */
  lemma InferredScores(g: Config, inventory: seq<Seat>, u: Selection, x: Ranked)
    requires g.ticketCount > 0 && Infers(inventory, u) && Offered(g, inventory, u, x)
    ensures var p := Limited(u.preferences, g);
      && Scored(x, p) && RowScore(x, p) == 1.0 && AisleScore(x, p) == 1.0 && !x.manual && x.priority == 0
      && p.weights.center > 0.0 && p.weights.price > 0.0
  {
    hide IsCandidate, Inferred, MatchesInventory;
    var p := Limited(u.preferences, g);
    QualityExactly(u.profile, ById(inventory), p, x);
    AutomaticIsPlain(u.profile, ById(inventory), p, x);
  }

  lemma EqualScoresBeat(x: Ranked, y: Ranked, p: Preferences)
    requires Scored(x, p) && Scored(y, p) && x.manual == y.manual && x.priority == y.priority && p.weights.center > 0.0
    requires RowScore(x, p) == RowScore(y, p) && AisleScore(x, p) == AisleScore(y, p)
    requires var a, b := x.group.seats, y.group.seats;
      || (Off(a, p) < Off(b, p) && Off(a, p) < p.width && Total(a) <= Total(b))
      || (Off(a, p) <= Off(b, p) && Total(a) < Total(b))
    ensures Beats(x, y, p)
  {
    hide Off, Total;
  }

  /** In automatic mode no group is a preferred one. */
  lemma AutomaticIsPlain(f: Profile, known: map<string, Seat>, p: Preferences, r: Ranked)
    requires f.mode.Automatic? && IsCandidate(f, known, p, r)
    ensures !r.manual && r.priority == 0
  {}

  // ----- what a plan is given

  /** The plan asked for a chosen group; `number` stands for the identifiers of the seats. */
  function PlanOf(g: Config, group: Group, number: string -> int, cand: CandId, sub: SubId, now: Time, version: nat): Planning.PlanRequest {
    var total := Money(Total(group.seats), 0);
    Planning.PlanRequest(cand, sub, g, if g.maxOrderTotal.Some? then g.maxOrderTotal.value else total, Some(total),
                         Map(number, Ids(group.seats)), now, Some(version))
  }

  /** Amounts are in one currency. */
  predicate OneCurrency(g: Config) { g.maxOrderTotal.Some? ==> g.maxOrderTotal.value.currency == 0 }

  /** A chosen group passes every check a plan makes of its input, unless nothing would be reserved for it. */
  lemma ChosenPassesPlan(g: Config, group: Group, number: string -> int, cand: CandId, sub: SubId, now: Time, version: nat)
    requires g.Valid() && OneCurrency(g) && Allows(g, group) && UniqueIds(group.seats)
    requires forall a, b :: number(a) == number(b) ==> a == b
    ensures var r := PlanOf(g, group, number, cand, sub, now, version);
      r.WellFormed() <==> (if g.maxOrderTotal.Some? then g.maxOrderTotal.value.minor else Total(group.seats)) > 0
  {}

  /** A place chosen for a slot is the slot's own, and no other slot's. */
  lemma ChosenKeepsSeat(c: Context, o: Offer, a: Candidate, number: string -> int, cand: CandId, sub: SubId, now: Time, version: nat)
    requires c.config.Valid() && c.config.individual && EvaluateIndividual(c, o).Chosen?
    requires a.target == (if c.target.Some? then Some(number(c.target.value)) else None) && 1 <= a.ticketNo <= c.config.ticketCount
    ensures var r := PlanOf(c.config, EvaluateIndividual(c, o).group, number, cand, sub, now, version);
      r.WellFormed() ==> !Planning.SlotRaises(a, r)
    ensures EvaluateIndividual(c, o).group.seats[0].id !in c.excluded
  {
    FirstIsFirst(c, o.inventory);
    var group := EvaluateIndividual(c, o).group;
    assert Map(number, Ids(group.seats))[0] == number(group.seats[0].id);
  }
}
