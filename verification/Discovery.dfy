/** Finding new sessions in catalogue snapshots, and the candidate slots they lead to. */
module Discovery {
  import opened Wrappers
  import opened Rows

  datatype SessKey = SessKey(theatre: int, id: int)

  /** A listed session; `kind` stands for everything the filters of a subscription look at. */
  datatype Item = Item(key: SessKey, kind: int, startsAt: Time)

  /** A catalogue that returns to an old fingerprint is the same snapshot. */
  datatype SnapId = SnapId(theatre: int, fingerprint: int)

  datatype Watcher = Watcher(
    buyer: BuyerId, theatre: int, individual: bool, count: nat, enabled: bool, version: nat, live: bool, kinds: set<int>)

  datatype SlotKey = SlotKey(buyer: BuyerId, session: SessKey, no: nat)

  datatype Slot = Slot(sub: SubId, batch: SnapId, version: nat, live: bool, watchUntil: Time)

  datatype Catalogue = Catalogue(
    sessions: map<SessKey, Item>, baselines: map<SubId, SnapId>, batches: map<SnapId, seq<SessKey>>,
    slots: map<SlotKey, Slot>)

  function Relevant(items: seq<Item>, theatre: int): seq<Item> {
    if items == [] then []
    else Relevant(items[..|items| - 1], theatre) + if items[|items| - 1].key.theatre == theatre then [items[|items| - 1]] else []
  }

  function Listed(items: seq<Item>): map<SessKey, Item> {
    if items == [] then map[] else Listed(items[..|items| - 1])[items[|items| - 1].key := items[|items| - 1]]
  }

  /** The listed sessions that were not known before. */
  function Unseen(known: map<SessKey, Item>, items: seq<Item>): seq<SessKey> {
    if items == [] then []
    else Unseen(known, items[..|items| - 1]) + if items[|items| - 1].key in known then [] else [items[|items| - 1].key]
  }

  predicate Booked(slots: map<SlotKey, Slot>, buyer: BuyerId, session: SessKey) {
    exists k :: k in slots && k.buyer == buyer && k.session == session
  }

  predicate Numbers(w: Watcher, no: nat) { if w.individual then 1 <= no <= w.count else no == 0 }

  function NumbersUpTo(w: Watcher): set<nat> { set n: nat | n <= w.count && Numbers(w, n) }

  function NewSlots(s: SubId, w: Watcher, snap: SnapId, item: Item): map<SlotKey, Slot> {
    map n | n in NumbersUpTo(w) :: SlotKey(w.buyer, item.key, n) := Slot(s, snap, w.version, w.live, item.startsAt)
  }

  function AddSlots(slots: map<SlotKey, Slot>, s: SubId, w: Watcher, snap: SnapId, listed: map<SessKey, Item>, batch: seq<SessKey>)
    : map<SlotKey, Slot>
  {
    if batch == [] then slots
    else
      var before := AddSlots(slots, s, w, snap, listed, batch[..|batch| - 1]);
      var key := batch[|batch| - 1];
      if key !in listed || listed[key].kind !in w.kinds || Booked(before, w.buyer, key) then before
      else before + NewSlots(s, w, snap, listed[key])
  }

  /** The batch of the snapshot: the one it has, or a new one if it lists unseen sessions. */
  function BatchOf(c: Catalogue, snap: SnapId, items: seq<Item>): Option<seq<SessKey>> {
    if snap in c.batches then Some(c.batches[snap])
    else if Unseen(c.sessions, items) != [] then Some(Unseen(c.sessions, items))
    else None
  }

  /** One complete snapshot, seen for one subscription. */
  function Process(c: Catalogue, s: SubId, w: Watcher, all: seq<Item>, fingerprint: int): Catalogue {
    var items := Relevant(all, w.theatre);
    var snap := SnapId(w.theatre, fingerprint);
    var seen := c.(sessions := c.sessions + Listed(items));
    if s !in c.baselines then seen.(baselines := c.baselines[s := snap])
    else if c.baselines[s] == snap then seen
    else
      var batch := BatchOf(c, snap, items);
      var moved := seen.(baselines := c.baselines[s := snap],
                         batches := if batch.Some? then c.batches[snap := batch.value] else c.batches);
      if batch.None? || !w.enabled then moved
      else moved.(slots := AddSlots(c.slots, s, w, snap, Listed(items), batch.value))
  }

  // ----- which slots are added

  ghost predicate Wanted(slots: map<SlotKey, Slot>, w: Watcher, listed: map<SessKey, Item>, batch: seq<SessKey>, k: SlotKey) {
    && k.buyer == w.buyer && k.session in batch && k.session in listed && listed[k.session].kind in w.kinds
    && Numbers(w, k.no) && !Booked(slots, w.buyer, k.session)
  }

  lemma NewSlotsExactly(s: SubId, w: Watcher, snap: SnapId, item: Item, k: SlotKey)
    ensures k in NewSlots(s, w, snap, item) <==> k.buyer == w.buyer && k.session == item.key && Numbers(w, k.no)
    ensures k in NewSlots(s, w, snap, item) ==> NewSlots(s, w, snap, item)[k] == Slot(s, snap, w.version, w.live, item.startsAt)
  {}

  /** A watcher has some number to give a slot. */
  predicate Asks(w: Watcher) { w.individual ==> w.count > 0 }

  /**
   Slots are added for exactly the listed, matching sessions of the batch that the buyer has no slot for yet:
   slot 0, or slots 1 to the number of tickets.
   */
  lemma {:induction false} SlotsExactly(
    slots: map<SlotKey, Slot>, s: SubId, w: Watcher, snap: SnapId, listed: map<SessKey, Item>, batch: seq<SessKey>, k: SlotKey)
    requires Asks(w) && forall x :: x in listed ==> listed[x].key == x
    ensures var after := AddSlots(slots, s, w, snap, listed, batch);
      && (k in after <==> k in slots || Wanted(slots, w, listed, batch, k))
      && (k in slots ==> after[k] == slots[k])
      && (Wanted(slots, w, listed, batch, k) ==> after[k] == Slot(s, snap, w.version, w.live, listed[k.session].startsAt))
  {
    if batch != [] {
      var init, key := batch[..|batch| - 1], batch[|batch| - 1];
      assert batch == init + [key];
      var before := AddSlots(slots, s, w, snap, listed, init);
      SlotsExactly(slots, s, w, snap, listed, init, k);
      BookedAfter(slots, s, w, snap, listed, init, key);
      if key in listed { NewSlotsExactly(s, w, snap, listed[key], k); }
      if k in slots && k.buyer == w.buyer && k.session == key { assert Booked(slots, w.buyer, key); }
    }
  }

  /** A session is booked after the loop iff it was before, or the loop got to it. */
  lemma {:induction false} BookedAfter(
    slots: map<SlotKey, Slot>, s: SubId, w: Watcher, snap: SnapId, listed: map<SessKey, Item>, batch: seq<SessKey>, key: SessKey)
    requires Asks(w) && forall x :: x in listed ==> listed[x].key == x
    ensures Booked(AddSlots(slots, s, w, snap, listed, batch), w.buyer, key) <==>
      Booked(slots, w.buyer, key) || (key in batch && key in listed && listed[key].kind in w.kinds)
  {
    if batch != [] {
      var init, last := batch[..|batch| - 1], batch[|batch| - 1];
      assert batch == init + [last];
      var before := AddSlots(slots, s, w, snap, listed, init);
      BookedAfter(slots, s, w, snap, listed, init, key);
      BookedAfter(slots, s, w, snap, listed, init, last);
      if last in listed && listed[last].kind in w.kinds && !Booked(before, w.buyer, last) {
        BookedGrows(before, NewSlots(s, w, snap, listed[last]), s, w, snap, listed[last], key);
      }
    }
  }

  lemma BookedGrows(before: map<SlotKey, Slot>, more: map<SlotKey, Slot>, s: SubId, w: Watcher, snap: SnapId, item: Item, key: SessKey)
    requires Asks(w) && more == NewSlots(s, w, snap, item)
    ensures Booked(before + more, w.buyer, key) <==> Booked(before, w.buyer, key) || key == item.key
  {
    if Booked(before, w.buyer, key) {
      var k :| k in before && k.buyer == w.buyer && k.session == key;
      assert k in before + more;
    }
    if key == item.key {
      var k := SlotKey(w.buyer, key, if w.individual then 1 else 0);
      NewSlotsExactly(s, w, snap, item, k);
      assert k in before + more;
    }
    if Booked(before + more, w.buyer, key) {
      var k :| k in before + more && k.buyer == w.buyer && k.session == key;
      NewSlotsExactly(s, w, snap, item, k);
    }
  }

  lemma {:induction false} ListedKeys(items: seq<Item>)
    ensures forall x :: x in Listed(items) ==> Listed(items)[x].key == x
    ensures forall x :: x in Listed(items) <==> exists i :: 0 <= i < |items| && items[i].key == x
  {
    if items != [] {
      var init, last := items[..|items| - 1], items[|items| - 1];
      assert items == init + [last];
      ListedKeys(init);
      forall x ensures x in Listed(items) <==> exists i :: 0 <= i < |items| && items[i].key == x {
        if x in Listed(init) { var i :| 0 <= i < |init| && init[i].key == x; assert items[i].key == x; }
        if x == last.key { assert items[|items| - 1].key == x; }
        if exists i :: 0 <= i < |items| && items[i].key == x {
          var i :| 0 <= i < |items| && items[i].key == x;
          if i < |init| { assert init[i].key == x; }
        }
      }
    }
  }

  lemma {:induction false} UnseenExactly(known: map<SessKey, Item>, items: seq<Item>, x: SessKey)
    ensures x in Unseen(known, items) <==> x !in known && exists i :: 0 <= i < |items| && items[i].key == x
  {
    if items != [] {
      var init, last := items[..|items| - 1], items[|items| - 1];
      assert items == init + [last];
      UnseenExactly(known, init, x);
      if x == last.key { assert items[|items| - 1].key == x; }
      if exists i :: 0 <= i < |init| && init[i].key == x {
        var i :| 0 <= i < |init| && init[i].key == x;
        assert items[i].key == x;
      }
    }
  }

  /** Unseen sessions only depend on which of the listed sessions are known. */
  lemma {:induction false} UnseenSame(a: map<SessKey, Item>, b: map<SessKey, Item>, items: seq<Item>)
    requires forall i :: 0 <= i < |items| ==> (items[i].key in a <==> items[i].key in b)
    ensures Unseen(a, items) == Unseen(b, items)
  {
    if items != [] { UnseenSame(a, b, items[..|items| - 1]); }
  }

  lemma {:induction false} NothingUnseen(known: map<SessKey, Item>, items: seq<Item>)
    requires forall i :: 0 <= i < |items| ==> items[i].key in known
    ensures Unseen(known, items) == []
  {
    if items != [] { NothingUnseen(known, items[..|items| - 1]); }
  }

  // ----- histories

  datatype Look = Look(sub: SubId, watcher: Watcher, items: seq<Item>, fingerprint: int, complete: bool)

  /** An incomplete snapshot is ignored. */
  function Apply(c: Catalogue, l: Look): Catalogue {
    if l.complete then Process(c, l.sub, l.watcher, l.items, l.fingerprint) else c
  }

  function History(looks: seq<Look>): Catalogue {
    if looks == [] then Catalogue(map[], map[], map[], map[])
    else Apply(History(looks[..|looks| - 1]), looks[|looks| - 1])
  }

  /** A session is in at most one batch, and every session of a batch is known. */
  ghost predicate BatchesApart(c: Catalogue) {
    && (forall p, x :: p in c.batches && x in c.batches[p] ==> x in c.sessions)
    && (forall p, q, x :: p in c.batches && q in c.batches && x in c.batches[p] && x in c.batches[q] ==> p == q)
  }

  /** The slots of the buyer for the session are those one look of the buyer asked for, under its subscription. */
  ghost predicate MadeBy(c: Catalogue, l: Look, buyer: BuyerId, session: SessKey) {
    && l.complete && l.watcher.buyer == buyer
    && (forall n: nat :: SlotKey(buyer, session, n) in c.slots <==> Numbers(l.watcher, n))
    && (forall n: nat :: SlotKey(buyer, session, n) in c.slots ==> c.slots[SlotKey(buyer, session, n)].sub == l.sub)
  }

  ghost predicate Shaped(c: Catalogue, looks: seq<Look>, buyer: BuyerId, session: SessKey) {
    Booked(c.slots, buyer, session) ==> exists i :: 0 <= i < |looks| && MadeBy(c, looks[i], buyer, session)
  }

  ghost predicate Sound(c: Catalogue, looks: seq<Look>) {
    BatchesApart(c) && forall b, x :: Shaped(c, looks, b, x)
  }

  lemma BatchesStayApart(c: Catalogue, s: SubId, w: Watcher, all: seq<Item>, fingerprint: int)
    requires BatchesApart(c)
    ensures BatchesApart(Process(c, s, w, all, fingerprint))
  {
    var items := Relevant(all, w.theatre);
    ListedKeys(items);
    forall x ensures x in Unseen(c.sessions, items) ==> x !in c.sessions && x in Listed(items) { UnseenExactly(c.sessions, items, x); }
    OnlyNewBatch(c, s, w, all, fingerprint);
  }

  lemma OnlyNewBatch(c: Catalogue, s: SubId, w: Watcher, all: seq<Item>, fingerprint: int)
    ensures var e, snap := Process(c, s, w, all, fingerprint), SnapId(w.theatre, fingerprint);
      forall p :: p in e.batches && p != snap ==> p in c.batches && e.batches[p] == c.batches[p]
  {}

  /** A look leaves the slots of a booked session alone, and gives an unbooked one its own slots or none. */
  lemma SlotsOfLook(c: Catalogue, l: Look, b: BuyerId, x: SessKey)
    requires Asks(l.watcher)
    ensures var e := Apply(c, l);
      || (forall n: nat :: var k := SlotKey(b, x, n); (k in e.slots <==> k in c.slots) && (k in c.slots ==> e.slots[k] == c.slots[k]))
      || (!Booked(c.slots, b, x) && MadeBy(e, l, b, x))
  {
    var w := l.watcher;
    var items, snap := Relevant(l.items, w.theatre), SnapId(w.theatre, l.fingerprint);
    var e, batch := Apply(c, l), BatchOf(c, snap, items);
    ListedKeys(items);
    if e.slots != c.slots {
      forall n: nat
        ensures var k := SlotKey(b, x, n);
          && (k in e.slots <==> k in c.slots || Wanted(c.slots, w, Listed(items), batch.value, k))
          && (k in c.slots ==> e.slots[k] == c.slots[k])
          && (Wanted(c.slots, w, Listed(items), batch.value, k) ==> e.slots[k].sub == l.sub)
      { SlotsExactly(c.slots, l.sub, w, snap, Listed(items), batch.value, SlotKey(b, x, n)); }
      if Booked(c.slots, b, x) || b != w.buyer {
        assert forall n: nat :: !Wanted(c.slots, w, Listed(items), batch.value, SlotKey(b, x, n));
      } else {
        forall n: nat ensures SlotKey(b, x, n) !in c.slots { if SlotKey(b, x, n) in c.slots { assert Booked(c.slots, b, x); } }
      }
    }
  }

  lemma StillBooked(c: Catalogue, e: Catalogue, b: BuyerId, x: SessKey)
    requires forall n: nat :: SlotKey(b, x, n) in e.slots <==> SlotKey(b, x, n) in c.slots
    ensures Booked(e.slots, b, x) ==> Booked(c.slots, b, x)
  {
    if Booked(e.slots, b, x) {
      var k :| k in e.slots && k.buyer == b && k.session == x;
      assert k == SlotKey(b, x, k.no);
    }
  }

  lemma SlotsStayShaped(c: Catalogue, looks: seq<Look>, l: Look, b: BuyerId, x: SessKey)
    requires Shaped(c, looks, b, x) && Asks(l.watcher)
    ensures Shaped(Apply(c, l), looks + [l], b, x)
  {
    var e := Apply(c, l);
    SlotsOfLook(c, l, b, x);
    if MadeBy(e, l, b, x) {
      assert (looks + [l])[|looks|] == l;
    } else if Booked(e.slots, b, x) {
      StillBooked(c, e, b, x);
      var i :| 0 <= i < |looks| && MadeBy(c, looks[i], b, x);
      assert (looks + [l])[i] == looks[i];
      assert MadeBy(e, looks[i], b, x);
    }
  }

  /**
   Over every history of snapshots, batches stay apart, and the slots of a buyer and session are exactly those that
   one look of the buyer asked for: slot 0, or slots 1 to the ticket count of the subscription in the slots.
   */
  lemma {:induction false} HistoryIsSound(looks: seq<Look>)
    requires forall i :: 0 <= i < |looks| ==> Asks(looks[i].watcher)
    ensures Sound(History(looks), looks)
  {
    if looks != [] {
      var before, l := looks[..|looks| - 1], looks[|looks| - 1];
      HistoryIsSound(before);
      var c := History(before);
      BatchesStayApart(c, l.sub, l.watcher, l.items, l.fingerprint);
      assert looks == before + [l];
      forall b, x ensures Shaped(Apply(c, l), looks, b, x) { SlotsStayShaped(c, before, l, b, x); }
    }
  }

  /** Seeing the same snapshot again for the same subscription changes nothing. */
  lemma ReprocessingAddsNothing(c: Catalogue, s: SubId, w: Watcher, all: seq<Item>, fingerprint: int)
    ensures var e := Process(c, s, w, all, fingerprint); Process(e, s, w, all, fingerprint) == e
  {
    var e := Process(c, s, w, all, fingerprint);
    assert e.baselines[s] == SnapId(w.theatre, fingerprint);
    assert e.sessions + Listed(Relevant(all, w.theatre)) == e.sessions;
  }

  // ----- the order of two subscriptions

  predicate AllKnown(c: Catalogue, items: seq<Item>) {
    forall i :: 0 <= i < |items| ==> items[i].key in c.sessions
  }

  lemma BookedForOthers(
    slots: map<SlotKey, Slot>, s: SubId, w: Watcher, snap: SnapId, listed: map<SessKey, Item>, batch: seq<SessKey>,
    buyer: BuyerId, x: SessKey)
    requires Asks(w) && buyer != w.buyer && forall y :: y in listed ==> listed[y].key == y
    ensures Booked(AddSlots(slots, s, w, snap, listed, batch), buyer, x) <==> Booked(slots, buyer, x)
  {}

  lemma WantedByOthers(
    slots: map<SlotKey, Slot>, s: SubId, w: Watcher, snap: SnapId, listed: map<SessKey, Item>, batch: seq<SessKey>,
    v: Watcher, k: SlotKey)
    requires Asks(w) && v.buyer != w.buyer && forall y :: y in listed ==> listed[y].key == y
    ensures Wanted(AddSlots(slots, s, w, snap, listed, batch), v, listed, batch, k) <==> Wanted(slots, v, listed, batch, k)
  {
    BookedForOthers(slots, s, w, snap, listed, batch, v.buyer, k.session);
  }

  /** Slots of different buyers are added independently. */
  lemma SlotsCommute(
    slots: map<SlotKey, Slot>, s: SubId, w: Watcher, t: SubId, v: Watcher, snap: SnapId, listed: map<SessKey, Item>, batch: seq<SessKey>)
    requires Asks(w) && Asks(v) && w.buyer != v.buyer && forall y :: y in listed ==> listed[y].key == y
    ensures AddSlots(AddSlots(slots, s, w, snap, listed, batch), t, v, snap, listed, batch)
         == AddSlots(AddSlots(slots, t, v, snap, listed, batch), s, w, snap, listed, batch)
  {
    var a, b := AddSlots(slots, s, w, snap, listed, batch), AddSlots(slots, t, v, snap, listed, batch);
    var ab, ba := AddSlots(a, t, v, snap, listed, batch), AddSlots(b, s, w, snap, listed, batch);
    forall k ensures (k in ab <==> k in ba) && (k in ab ==> ab[k] == ba[k]) {
      SlotsExactly(slots, s, w, snap, listed, batch, k);
      SlotsExactly(slots, t, v, snap, listed, batch, k);
      SlotsExactly(a, t, v, snap, listed, batch, k);
      SlotsExactly(b, s, w, snap, listed, batch, k);
      WantedByOthers(slots, s, w, snap, listed, batch, v, k);
      WantedByOthers(slots, t, v, snap, listed, batch, w, k);
    }
  }

  lemma ProcessedIsKnown(c: Catalogue, s: SubId, w: Watcher, all: seq<Item>, fingerprint: int)
    ensures AllKnown(Process(c, s, w, all, fingerprint), Relevant(all, w.theatre))
  {
    var items := Relevant(all, w.theatre);
    ListedKeys(items);
    forall i | 0 <= i < |items| ensures items[i].key in Process(c, s, w, all, fingerprint).sessions {
      assert items[i].key in Listed(items);
    }
  }

  /** The batch found second is the batch found first. */
  lemma BatchStays(c: Catalogue, s: SubId, w: Watcher, all: seq<Item>, fingerprint: int)
    requires s in c.baselines
    requires c.baselines[s] == SnapId(w.theatre, fingerprint) ==>
      SnapId(w.theatre, fingerprint) in c.batches || AllKnown(c, Relevant(all, w.theatre))
    ensures var items := Relevant(all, w.theatre); var snap := SnapId(w.theatre, fingerprint);
      BatchOf(Process(c, s, w, all, fingerprint), snap, items) == BatchOf(c, snap, items)
  {
    var items := Relevant(all, w.theatre);
    ProcessedIsKnown(c, s, w, all, fingerprint);
    NothingUnseen(Process(c, s, w, all, fingerprint).sessions, items);
    if AllKnown(c, items) { NothingUnseen(c.sessions, items); }
  }

  /** What a subscription with a baseline makes of a snapshot whose batch is known. */
  function ProcessBatch(c: Catalogue, s: SubId, w: Watcher, items: seq<Item>, snap: SnapId, batch: Option<seq<SessKey>>): Catalogue
    requires s in c.baselines
  {
    var moves := c.baselines[s] != snap;
    c.(sessions := c.sessions + Listed(items), baselines := c.baselines[s := snap],
       batches := if moves && batch.Some? then c.batches[snap := batch.value] else c.batches,
       slots := if moves && batch.Some? && w.enabled then AddSlots(c.slots, s, w, snap, Listed(items), batch.value) else c.slots)
  }

  lemma ProcessIsBatch(c: Catalogue, s: SubId, w: Watcher, all: seq<Item>, fingerprint: int)
    requires s in c.baselines
    ensures var items := Relevant(all, w.theatre); var snap := SnapId(w.theatre, fingerprint);
      Process(c, s, w, all, fingerprint) == ProcessBatch(c, s, w, items, snap, BatchOf(c, snap, items))
  {}

  lemma BatchesCommute(
    c: Catalogue, s: SubId, w: Watcher, t: SubId, v: Watcher, items: seq<Item>, snap: SnapId, batch: Option<seq<SessKey>>)
    requires s in c.baselines && t in c.baselines && s != t && w.buyer != v.buyer && Asks(w) && Asks(v)
    ensures ProcessBatch(ProcessBatch(c, s, w, items, snap, batch), t, v, items, snap, batch)
         == ProcessBatch(ProcessBatch(c, t, v, items, snap, batch), s, w, items, snap, batch)
  {
    ListedKeys(items);
    if batch.Some? { SlotsCommute(c.slots, s, w, t, v, snap, Listed(items), batch.value); }
    assert c.baselines[s := snap][t := snap] == c.baselines[t := snap][s := snap];
  }

  /** For two subscriptions of different buyers that have baselines, the order of processing does not matter. */
  lemma OrderDoesNotMatter(c: Catalogue, s: SubId, w: Watcher, t: SubId, v: Watcher, all: seq<Item>, fingerprint: int)
    requires s in c.baselines && t in c.baselines && s != t && w.buyer != v.buyer && w.theatre == v.theatre && Asks(w) && Asks(v)
    requires var snap := SnapId(w.theatre, fingerprint);
      c.baselines[s] == snap || c.baselines[t] == snap ==> snap in c.batches || AllKnown(c, Relevant(all, w.theatre))
    ensures Process(Process(c, s, w, all, fingerprint), t, v, all, fingerprint)
         == Process(Process(c, t, v, all, fingerprint), s, w, all, fingerprint)
  {
    var items, snap := Relevant(all, w.theatre), SnapId(w.theatre, fingerprint);
    var e, f := Process(c, s, w, all, fingerprint), Process(c, t, v, all, fingerprint);
    ProcessIsBatch(c, s, w, all, fingerprint);
    ProcessIsBatch(c, t, v, all, fingerprint);
    ProcessIsBatch(e, t, v, all, fingerprint);
    ProcessIsBatch(f, s, w, all, fingerprint);
    BatchStays(c, s, w, all, fingerprint);
    BatchStays(c, t, v, all, fingerprint);
    BatchesCommute(c, s, w, t, v, items, snap, BatchOf(c, snap, items));
  }

  /** A history in which a snapshot always lists the same sessions. */
  ghost predicate Faithful(looks: seq<Look>, listing: SnapId -> seq<Item>) {
    forall i :: 0 <= i < |looks| ==>
      looks[i].complete ==>
        var theatre := looks[i].watcher.theatre;
        Relevant(looks[i].items, theatre) == listing(SnapId(theatre, looks[i].fingerprint))
  }

  /** The sessions of every baseline are known. */
  lemma {:induction false} BaselinesAreKnown(looks: seq<Look>, listing: SnapId -> seq<Item>)
    requires Faithful(looks, listing)
    ensures forall s :: s in History(looks).baselines ==> AllKnown(History(looks), listing(History(looks).baselines[s]))
  {
    if looks != [] {
      var before, l := looks[..|looks| - 1], looks[|looks| - 1];
      BaselinesAreKnown(before, listing);
      var c, e := History(before), History(looks);
      if l.complete {
        ProcessedIsKnown(c, l.sub, l.watcher, l.items, l.fingerprint);
        forall s | s in e.baselines ensures AllKnown(e, listing(e.baselines[s])) {
          if s != l.sub { assert e.baselines[s] == c.baselines[s] && AllKnown(c, listing(c.baselines[s])); }
        }
      }
    }
  }

  /** So in such histories the order never matters once both subscriptions have baselines. */
  lemma OrderInHistory(
    looks: seq<Look>, listing: SnapId -> seq<Item>, s: SubId, w: Watcher, t: SubId, v: Watcher, all: seq<Item>, fingerprint: int)
    requires Faithful(looks, listing) && Relevant(all, w.theatre) == listing(SnapId(w.theatre, fingerprint))
    requires s in History(looks).baselines && t in History(looks).baselines && s != t
    requires w.buyer != v.buyer && w.theatre == v.theatre && Asks(w) && Asks(v)
    ensures var c := History(looks);
      Process(Process(c, s, w, all, fingerprint), t, v, all, fingerprint)
        == Process(Process(c, t, v, all, fingerprint), s, w, all, fingerprint)
  {
    BaselinesAreKnown(looks, listing);
    OrderDoesNotMatter(History(looks), s, w, t, v, all, fingerprint);
  }

  // ----- a subscription without a baseline

  lemma {:induction false} NothingAdded(
    slots: map<SlotKey, Slot>, s: SubId, w: Watcher, snap: SnapId, listed: map<SessKey, Item>, batch: seq<SessKey>)
    requires Asks(w) && forall y :: y in listed ==> listed[y].key == y
    ensures AddSlots(slots, s, w, snap, listed, batch) == slots <==> forall k :: !Wanted(slots, w, listed, batch, k)
  {
    var after := AddSlots(slots, s, w, snap, listed, batch);
    if after == slots {
      forall k ensures !Wanted(slots, w, listed, batch, k) {
        SlotsExactly(slots, s, w, snap, listed, batch, k);
        if k in slots && k.buyer == w.buyer { assert Booked(slots, k.buyer, k.session); }
      }
    }
    if forall k :: !Wanted(slots, w, listed, batch, k) {
      forall k ensures (k in after <==> k in slots) && (k in slots ==> after[k] == slots[k]) {
        SlotsExactly(slots, s, w, snap, listed, batch, k);
      }
    }
  }

  /** After a baseline was set at the snapshot, only a batch that was there before can be used. */
  lemma SlotsAfterBaseline(c: Catalogue, s: SubId, w: Watcher, t: SubId, v: Watcher, all: seq<Item>, fingerprint: int)
    requires s !in c.baselines && t in c.baselines && w.theatre == v.theatre
    ensures var items := Relevant(all, w.theatre); var snap := SnapId(w.theatre, fingerprint);
      Process(Process(c, s, w, all, fingerprint), t, v, all, fingerprint).slots ==
        if c.baselines[t] != snap && snap in c.batches && v.enabled
        then AddSlots(c.slots, t, v, snap, Listed(items), c.batches[snap]) else c.slots
  {
    var e := Process(c, s, w, all, fingerprint);
    ProcessedIsKnown(c, s, w, all, fingerprint);
    NothingUnseen(e.sessions, Relevant(all, w.theatre));
    ProcessIsBatch(e, t, v, all, fingerprint);
  }

  lemma SlotsBeforeBaseline(c: Catalogue, s: SubId, w: Watcher, t: SubId, v: Watcher, all: seq<Item>, fingerprint: int)
    requires s !in c.baselines && t in c.baselines && w.theatre == v.theatre
    ensures var items := Relevant(all, w.theatre); var snap := SnapId(w.theatre, fingerprint);
      Process(Process(c, t, v, all, fingerprint), s, w, all, fingerprint).slots ==
        if c.baselines[t] != snap && BatchOf(c, snap, items).Some? && v.enabled
        then AddSlots(c.slots, t, v, snap, Listed(items), BatchOf(c, snap, items).value) else c.slots
  {}

  /** The snapshot lists nothing new that the watcher could take. */
  ghost predicate NothingToFind(c: Catalogue, v: Watcher, items: seq<Item>) {
    forall k :: !Wanted(c.slots, v, Listed(items), Unseen(c.sessions, items), k)
  }

  function SlotsFrom(c: Catalogue, t: SubId, v: Watcher, items: seq<Item>, snap: SnapId, batch: Option<seq<SessKey>>): map<SlotKey, Slot> {
    if batch.Some? && v.enabled then AddSlots(c.slots, t, v, snap, Listed(items), batch.value) else c.slots
  }

  lemma FromNewBatch(c: Catalogue, t: SubId, v: Watcher, items: seq<Item>, snap: SnapId)
    requires Asks(v) && snap !in c.batches
    ensures SlotsFrom(c, t, v, items, snap, BatchOf(c, snap, items)) == c.slots <==> !v.enabled || NothingToFind(c, v, items)
  {
    ListedKeys(items);
    NothingAdded(c.slots, t, v, snap, Listed(items), Unseen(c.sessions, items));
  }

  /**
   A subscription that only sets its baseline makes the listed sessions known without a batch. If it goes first,
   the other one finds the same slots exactly when the snapshot already had a batch, or when there was nothing for
   the other one to find.
   */
  lemma BaselineFirst(c: Catalogue, s: SubId, w: Watcher, t: SubId, v: Watcher, all: seq<Item>, fingerprint: int)
    requires s !in c.baselines && t in c.baselines && w.theatre == v.theatre && Asks(v)
    ensures var snap := SnapId(w.theatre, fingerprint);
      Process(Process(c, s, w, all, fingerprint), t, v, all, fingerprint).slots
        == Process(Process(c, t, v, all, fingerprint), s, w, all, fingerprint).slots
      <==> snap in c.batches || c.baselines[t] == snap || !v.enabled || NothingToFind(c, v, Relevant(all, w.theatre))
  {
    var items, snap := Relevant(all, w.theatre), SnapId(w.theatre, fingerprint);
    SlotsAfterBaseline(c, s, w, t, v, all, fingerprint);
    SlotsBeforeBaseline(c, s, w, t, v, all, fingerprint);
    if snap !in c.batches { FromNewBatch(c, t, v, items, snap); }
  }

  /**
   A history with one subscription that has a baseline: a new one that is processed before it on the next snapshot
   loses it the slot of a new session.
   */
  lemma LostDiscovery()
    ensures var w := Watcher(1, 1, false, 1, true, 1, true, {5});
      var v := w.(buyer := 2);
      var first := [Look(2, v, [], 0, true)];
      var all := [Item(SessKey(1, 7), 5, 100)];
      var a, b := Look(1, w, all, 9, true), Look(2, v, all, 9, true);
      History(first + [a] + [b]).slots != History(first + [b] + [a]).slots
  {
    var w := Watcher(1, 1, false, 1, true, 1, true, {5});
    var v := w.(buyer := 2);
    var first := [Look(2, v, [], 0, true)];
    var all := [Item(SessKey(1, 7), 5, 100)];
    var a, b := Look(1, w, all, 9, true), Look(2, v, all, 9, true);
    var c := Catalogue(map[], map[2 := SnapId(1, 0)], map[], map[]);
    assert first[..0] == [] && all[..0] == [];
    assert c.sessions + Listed([]) == c.sessions;
    assert History(first) == c;
    assert (first + [a])[..1] == first && (first + [a] + [b])[..2] == first + [a];
    assert (first + [b])[..1] == first && (first + [b] + [a])[..2] == first + [b];
    assert Relevant(all, 1) == all;
    assert Unseen(c.sessions, all) == [SessKey(1, 7)] && Listed(all) == map[SessKey(1, 7) := all[0]];
    assert Wanted(c.slots, v, Listed(all), Unseen(c.sessions, all), SlotKey(2, SessKey(1, 7), 0));
    BaselineFirst(c, 1, w, 2, v, all, 9);
  }

  // ----- the service

  datatype Outcome = Outcome(baselineEstablished: bool, added: set<SlotKey>)

  class Service {
    var sessions: map<SessKey, Item>
    var baselines: map<SubId, SnapId>
    var batches: map<SnapId, seq<SessKey>>
    var slots: map<SlotKey, Slot>

    constructor ()
      ensures View() == History([])
    {
      sessions, baselines, batches, slots := map[], map[], map[], map[];
    }

    function View(): Catalogue
      reads this
    {
      Catalogue(sessions, baselines, batches, slots)
    }

    /** A snapshot is applied to the catalogue for one subscription; an incomplete one is ignored. */
    method ProcessSnapshot(s: SubId, w: Watcher, all: seq<Item>, fingerprint: int, complete: bool) returns (r: Outcome)
      requires Asks(w)
      modifies this
      ensures View() == Apply(old(View()), Look(s, w, all, fingerprint, complete))
      ensures r.baselineEstablished <==> complete && s !in old(baselines)
      ensures r.added == slots.Keys - old(slots).Keys
    {
      r := Outcome(false, {});
      if !complete { return; }
      ghost var c := View();
      var items := Relevant(all, w.theatre);
      var known := sessions;
      UpsertSessions(items);
      var snap := SnapId(w.theatre, fingerprint);
      if s !in baselines {
        baselines := baselines[s := snap];
        return Outcome(true, {});
      }
      if baselines[s] == snap { return; }
      if snap !in batches {
        var unseen := NewlySeen(known, items);
        if unseen != [] { batches := batches[snap := unseen]; }
      }
      baselines := baselines[s := snap];
      if snap !in batches || !w.enabled { return; }
      ListedKeys(items);
      var added := AddCandidates(s, w, snap, Listed(items), batches[snap]);
      r := Outcome(false, added);
    }

    method UpsertSessions(items: seq<Item>)
      modifies this`sessions
      ensures sessions == old(sessions) + Listed(items)
    {
      var i := 0;
      assert items[..0] == [];
      while i < |items|
        invariant 0 <= i <= |items| && sessions == old(sessions) + Listed(items[..i])
      {
        sessions := sessions[items[i].key := items[i]];
        assert items[..i + 1][..i] == items[..i];
        i := i + 1;
      }
      assert items[..i] == items;
    }

    method NewlySeen(known: map<SessKey, Item>, items: seq<Item>) returns (unseen: seq<SessKey>)
      ensures unseen == Unseen(known, items)
    {
      unseen := [];
      var i := 0;
      assert items[..0] == [];
      while i < |items|
        invariant 0 <= i <= |items| && unseen == Unseen(known, items[..i])
      {
        if items[i].key !in known { unseen := unseen + [items[i].key]; }
        assert items[..i + 1][..i] == items[..i];
        i := i + 1;
      }
      assert items[..i] == items;
    }

    /** The loop over the discovered sessions, and over the ticket numbers of each. */
    method AddCandidates(s: SubId, w: Watcher, snap: SnapId, listed: map<SessKey, Item>, batch: seq<SessKey>) returns (added: set<SlotKey>)
      requires Asks(w) && forall x :: x in listed ==> listed[x].key == x
      modifies this`slots
      ensures slots == AddSlots(old(slots), s, w, snap, listed, batch)
      ensures added == slots.Keys - old(slots).Keys
    {
      added := {};
      var i := 0;
      assert batch[..0] == [];
      while i < |batch|
        invariant 0 <= i <= |batch| && slots == AddSlots(old(slots), s, w, snap, listed, batch[..i])
        invariant added == slots.Keys - old(slots).Keys && old(slots).Keys <= slots.Keys
      {
        var key := batch[i];
        assert batch[..i + 1][..i] == batch[..i];
        if key in listed && listed[key].kind in w.kinds && !Booked(slots, w.buyer, key) {
          var more := AddTickets(s, w, snap, listed[key]);
          added := added + more;
        }
        i := i + 1;
      }
      assert batch[..i] == batch;
    }

    method AddTickets(s: SubId, w: Watcher, snap: SnapId, item: Item) returns (added: set<SlotKey>)
      requires !Booked(slots, w.buyer, item.key)
      modifies this`slots
      ensures slots == old(slots) + NewSlots(s, w, snap, item)
      ensures added == NewSlots(s, w, snap, item).Keys && added !! old(slots).Keys
    {
      assert forall k :: k in slots ==> k.buyer != w.buyer || k.session != item.key;
      added := {};
      var first, last := if w.individual then 1 else 0, if w.individual then w.count else 0;
      var n := first;
      while n <= last
        invariant first <= n && (n <= last + 1 || n == first)
        invariant forall k :: k in added <==> k.buyer == w.buyer && k.session == item.key && first <= k.no < n
        invariant slots == old(slots) + map k | k in added :: Slot(s, snap, w.version, w.live, item.startsAt)
      {
        var k := SlotKey(w.buyer, item.key, n);
        slots := slots[k := Slot(s, snap, w.version, w.live, item.startsAt)];
        added := added + {k};
        n := n + 1;
      }
      forall k ensures k in NewSlots(s, w, snap, item) <==> k in added { NewSlotsExactly(s, w, snap, item, k); }
      assert NewSlots(s, w, snap, item) == map k | k in added :: Slot(s, snap, w.version, w.live, item.startsAt);
    }
  }
}
