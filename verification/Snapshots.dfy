/** What one look at a snapshot adds to the catalogue, in terms of what the snapshot lists alone. */
module Snapshots {
  import opened Wrappers
  import opened Rows
  import opened Discovery

  /** The snapshot lists the session of this theatre; of several entries the last one counts. */
  ghost predicate IsListed(all: seq<Item>, theatre: int, x: Item) {
    exists i :: 0 <= i < |all| && all[i] == x && x.key.theatre == theatre && forall j :: i < j < |all| ==> all[j].key != x.key
  }

  ghost predicate Lists(all: seq<Item>, theatre: int, key: SessKey) { exists x :: IsListed(all, theatre, x) && x.key == key }

  lemma {:induction false} ListedExactly(all: seq<Item>, theatre: int, key: SessKey)
    ensures var listed := Listed(Relevant(all, theatre));
      && (key in listed <==> Lists(all, theatre, key))
      && (key in listed ==> IsListed(all, theatre, listed[key]) && listed[key].key == key)
  {
    if all != [] {
      var init, last := all[..|all| - 1], all[|all| - 1];
      assert all == init + [last];
      ListedExactly(init, theatre, key);
      RelevantMore(init, last, theatre);
      ListedMore(Relevant(init, theatre), last);
      if last.key == key && last.key.theatre == theatre { LastIsListed(init, last, theatre); }
      else { OtherIsListed(init, last, theatre, key); }
    }
  }

  lemma LastIsListed(init: seq<Item>, last: Item, theatre: int)
    requires last.key.theatre == theatre
    ensures IsListed(init + [last], theatre, last) && Lists(init + [last], theatre, last.key)
  {
    assert (init + [last])[|init|] == last;
  }

  lemma OtherIsListed(init: seq<Item>, last: Item, theatre: int, key: SessKey)
    requires last.key != key || last.key.theatre != theatre
    requires var listed := Listed(Relevant(init, theatre));
      (key in listed <==> Lists(init, theatre, key)) && (key in listed ==> IsListed(init, theatre, listed[key]) && listed[key].key == key)
    requires Relevant(init + [last], theatre) == Relevant(init, theatre) + if last.key.theatre == theatre then [last] else []
    ensures var listed := Listed(Relevant(init + [last], theatre));
      (key in listed <==> Lists(init + [last], theatre, key))
      && (key in listed ==> IsListed(init + [last], theatre, listed[key]) && listed[key].key == key)
  {
    hide IsListed, Lists, Listed;
    StillListed(init, last, theatre, key);
    ListedMore(Relevant(init, theatre), last);
    var was, now := Listed(Relevant(init, theatre)), Listed(Relevant(init + [last], theatre));
    if last.key.theatre != theatre { assert Relevant(init, theatre) + [] == Relevant(init, theatre); }
    assert (key in now <==> key in was) && (key in was ==> now[key] == was[key]);
    if key in was { assert IsListed(init, theatre, was[key]); }
  }

  lemma RelevantMore(init: seq<Item>, last: Item, theatre: int)
    ensures Relevant(init + [last], theatre) == Relevant(init, theatre) + if last.key.theatre == theatre then [last] else []
  {
    assert (init + [last])[..|init|] == init;
  }

  lemma ListedMore(items: seq<Item>, last: Item)
    ensures Listed(items + [last]) == Listed(items)[last.key := last]
  {
    assert (items + [last])[..|items|] == items;
  }

  lemma StillListed(init: seq<Item>, last: Item, theatre: int, key: SessKey)
    requires last.key != key || last.key.theatre != theatre
    ensures Lists(init + [last], theatre, key) <==> Lists(init, theatre, key)
    ensures forall x: Item :: x.key == key ==> (IsListed(init + [last], theatre, x) <==> IsListed(init, theatre, x))
  {
    var all := init + [last];
    forall x: Item | x.key == key ensures IsListed(all, theatre, x) <==> IsListed(init, theatre, x) {
      if IsListed(all, theatre, x) {
        var i :| 0 <= i < |all| && all[i] == x && x.key.theatre == theatre && forall j :: i < j < |all| ==> all[j].key != x.key;
        assert i < |init| && init[i] == x && forall j :: i < j < |init| ==> all[j] == init[j];
      }
      if IsListed(init, theatre, x) {
        var i :| 0 <= i < |init| && init[i] == x && x.key.theatre == theatre && forall j :: i < j < |init| ==> init[j].key != x.key;
        assert all[i] == x && forall j :: i < j < |init| ==> all[j] == init[j];
      }
    }
    if Lists(all, theatre, key) { var x :| IsListed(all, theatre, x) && x.key == key; }
    if Lists(init, theatre, key) { var x :| IsListed(init, theatre, x) && x.key == key; }
  }

  /** The subscription has looked before, and at another snapshot. */
  predicate SeesNews(c: Catalogue, s: SubId, snap: SnapId) { s in c.baselines && c.baselines[s] != snap }

  /** The look opens a batch: the snapshot has none, and lists a session nobody has seen. */
  ghost predicate OpensBatch(c: Catalogue, s: SubId, w: Watcher, all: seq<Item>, snap: SnapId) {
    SeesNews(c, s, snap) && snap !in c.batches && exists key :: Lists(all, w.theatre, key) && key !in c.sessions
  }

  /** Every listed session is known afterwards, as it is listed. */
  ghost predicate AddsSessions(c: Catalogue, e: Catalogue, w: Watcher, all: seq<Item>) {
    forall key ::
      && (key in e.sessions <==> key in c.sessions || Lists(all, w.theatre, key))
      && (Lists(all, w.theatre, key) ==> IsListed(all, w.theatre, e.sessions[key]) && e.sessions[key].key == key)
      && (key in c.sessions && !Lists(all, w.theatre, key) ==> e.sessions[key] == c.sessions[key])
  }

  /** A new batch holds exactly the sessions nobody has seen. */
  ghost predicate AddsBatch(c: Catalogue, e: Catalogue, s: SubId, w: Watcher, all: seq<Item>, snap: SnapId) {
    && e.batches.Keys == c.batches.Keys + (if OpensBatch(c, s, w, all, snap) then {snap} else {})
    && (forall p :: p in c.batches ==> e.batches[p] == c.batches[p])
    && (OpensBatch(c, s, w, all, snap) ==>
          forall key :: key in e.batches[snap] <==> Lists(all, w.theatre, key) && key !in c.sessions)
  }

  /** The slot is one the subscription wants of the snapshot's batch, for a session its buyer has no slot of. */
  ghost predicate IsWanted(c: Catalogue, e: Catalogue, s: SubId, w: Watcher, all: seq<Item>, snap: SnapId, k: SlotKey) {
    && SeesNews(c, s, snap) && w.enabled && snap in e.batches && k.session in e.batches[snap]
    && k.buyer == w.buyer && (if w.individual then 1 <= k.no <= w.count else k.no == 0)
    && (exists x :: IsListed(all, w.theatre, x) && x.key == k.session && x.kind in w.kinds)
    && forall j :: j in c.slots ==> j.buyer != k.buyer || j.session != k.session
  }

  ghost predicate AddsSlots(c: Catalogue, e: Catalogue, s: SubId, w: Watcher, all: seq<Item>, snap: SnapId) {
    forall k ::
      && (k in e.slots <==> k in c.slots || IsWanted(c, e, s, w, all, snap, k))
      && (k in c.slots ==> e.slots[k] == c.slots[k])
      && (k in e.slots && k !in c.slots ==>
            exists x :: IsListed(all, w.theatre, x) && x.key == k.session && e.slots[k] == Slot(s, snap, w.version, w.live, x.startsAt))
  }

  lemma ListedOnce(all: seq<Item>, theatre: int, x: Item, y: Item)
    requires IsListed(all, theatre, x) && IsListed(all, theatre, y) && x.key == y.key
    ensures x == y
  {
    var i :| 0 <= i < |all| && all[i] == x && x.key.theatre == theatre && forall j :: i < j < |all| ==> all[j].key != x.key;
    var j :| 0 <= j < |all| && all[j] == y && y.key.theatre == theatre && forall n :: j < n < |all| ==> all[n].key != y.key;
  }

  lemma SessionsAdded(c: Catalogue, s: SubId, w: Watcher, all: seq<Item>, fingerprint: int)
    ensures AddsSessions(c, Process(c, s, w, all, fingerprint), w, all)
  {
    hide IsListed, Lists;
    var e := Process(c, s, w, all, fingerprint);
    assert e.sessions == c.sessions + Listed(Relevant(all, w.theatre));
    forall key
      ensures key in e.sessions <==> key in c.sessions || Lists(all, w.theatre, key)
      ensures Lists(all, w.theatre, key) ==> IsListed(all, w.theatre, e.sessions[key]) && e.sessions[key].key == key
      ensures key in c.sessions && !Lists(all, w.theatre, key) ==> e.sessions[key] == c.sessions[key]
    { ListedExactly(all, w.theatre, key); }
  }

  lemma UnseenIsListed(c: Catalogue, w: Watcher, all: seq<Item>, key: SessKey)
    ensures key in Unseen(c.sessions, Relevant(all, w.theatre)) <==> key !in c.sessions && Lists(all, w.theatre, key)
  {
    hide IsListed, Lists;
    UnseenExactly(c.sessions, Relevant(all, w.theatre), key);
    ListedKeys(Relevant(all, w.theatre));
    ListedExactly(all, w.theatre, key);
  }

  lemma BatchAdded(c: Catalogue, s: SubId, w: Watcher, all: seq<Item>, fingerprint: int)
    ensures AddsBatch(c, Process(c, s, w, all, fingerprint), s, w, all, SnapId(w.theatre, fingerprint))
  {
    hide IsListed, Lists, AddSlots;
    forall key ensures key in Unseen(c.sessions, Relevant(all, w.theatre)) <==> key !in c.sessions && Lists(all, w.theatre, key) {
      UnseenIsListed(c, w, all, key);
    }
    var unseen := Unseen(c.sessions, Relevant(all, w.theatre));
    assert unseen != [] ==> unseen[0] in unseen;
  }

  lemma BatchIsThere(c: Catalogue, s: SubId, w: Watcher, all: seq<Item>, fingerprint: int)
    requires SeesNews(c, s, SnapId(w.theatre, fingerprint))
    ensures var e, snap := Process(c, s, w, all, fingerprint), SnapId(w.theatre, fingerprint);
      var batch := BatchOf(c, snap, Relevant(all, w.theatre));
      (batch.Some? <==> snap in e.batches) && (batch.Some? ==> e.batches[snap] == batch.value)
  {
    hide AddSlots;
  }

  lemma SlotsAdded(c: Catalogue, s: SubId, w: Watcher, all: seq<Item>, fingerprint: int)
    requires Asks(w)
    ensures AddsSlots(c, Process(c, s, w, all, fingerprint), s, w, all, SnapId(w.theatre, fingerprint))
  {
    hide IsListed, IsWanted, Process;
    var e, snap := Process(c, s, w, all, fingerprint), SnapId(w.theatre, fingerprint);
    forall k
      ensures k in e.slots <==> k in c.slots || IsWanted(c, e, s, w, all, snap, k)
      ensures k in c.slots ==> e.slots[k] == c.slots[k]
      ensures k in e.slots && k !in c.slots ==>
        exists x :: IsListed(all, w.theatre, x) && x.key == k.session && e.slots[k] == Slot(s, snap, w.version, w.live, x.startsAt)
    { SlotAdded(c, s, w, all, fingerprint, k); }
  }

  lemma SlotAdded(c: Catalogue, s: SubId, w: Watcher, all: seq<Item>, fingerprint: int, k: SlotKey)
    requires Asks(w)
    ensures var e, snap := Process(c, s, w, all, fingerprint), SnapId(w.theatre, fingerprint);
      && (k in e.slots <==> k in c.slots || IsWanted(c, e, s, w, all, snap, k))
      && (k in c.slots ==> e.slots[k] == c.slots[k])
      && (k in e.slots && k !in c.slots ==>
            exists x :: IsListed(all, w.theatre, x) && x.key == k.session && e.slots[k] == Slot(s, snap, w.version, w.live, x.startsAt))
  {
    hide IsListed, Lists, AddSlots;
    var e, snap := Process(c, s, w, all, fingerprint), SnapId(w.theatre, fingerprint);
    var items := Relevant(all, w.theatre);
    ListedKeys(items);
    if SeesNews(c, s, snap) {
      BatchIsThere(c, s, w, all, fingerprint);
      var batch := BatchOf(c, snap, items);
      if batch.Some? {
        SlotsExactly(c.slots, s, w, snap, Listed(items), batch.value, k);
        WantedExactly(c, e, s, w, all, snap, batch.value, k);
        ListedExactly(all, w.theatre, k.session);
      }
    }
  }

  lemma WantedExactly(c: Catalogue, e: Catalogue, s: SubId, w: Watcher, all: seq<Item>, snap: SnapId, batch: seq<SessKey>, k: SlotKey)
    requires SeesNews(c, s, snap) && snap in e.batches && e.batches[snap] == batch
    ensures IsWanted(c, e, s, w, all, snap, k) <==> w.enabled && Wanted(c.slots, w, Listed(Relevant(all, w.theatre)), batch, k)
  {
    hide IsListed;
    var listed := Listed(Relevant(all, w.theatre));
    ListedExactly(all, w.theatre, k.session);
    if Lists(all, w.theatre, k.session) {
      forall x | IsListed(all, w.theatre, x) && x.key == k.session ensures x == listed[k.session] {
        ListedOnce(all, w.theatre, x, listed[k.session]);
      }
    }
  }

  /** One complete look adds exactly the listed sessions, at most one batch of new ones, and the slots wanted of it. */
  lemma LookAdds(c: Catalogue, l: Look)
    requires Asks(l.watcher)
    ensures !l.complete ==> Apply(c, l) == c
    ensures l.complete ==>
      var e, snap := Apply(c, l), SnapId(l.watcher.theatre, l.fingerprint);
      && e.baselines == c.baselines[l.sub := snap]
      && AddsSessions(c, e, l.watcher, l.items) && AddsBatch(c, e, l.sub, l.watcher, l.items, snap)
      && AddsSlots(c, e, l.sub, l.watcher, l.items, snap)
  {
    hide AddsSessions, AddsBatch, AddsSlots, AddSlots;
    if l.complete {
      SessionsAdded(c, l.sub, l.watcher, l.items, l.fingerprint);
      BatchAdded(c, l.sub, l.watcher, l.items, l.fingerprint);
      SlotsAdded(c, l.sub, l.watcher, l.items, l.fingerprint);
    }
  }
}
