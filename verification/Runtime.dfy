/** The process lease, the waits of a polling worker, and the slots of the rate limiter. */
module Runtime {
  import opened Wrappers
  import opened Rows

  type Owner = int

  // ----- the lease

  datatype Row = Row(owner: Owner, expiresAt: Time)

  /** The lease row, the last expiry each owner was told and has not released, and the latest clock read. */
  datatype Lease = Lease(row: Option<Row>, granted: map<Owner, Time>, clock: Time)

  datatype LeaseEvent =
    | Acquire(owner: Owner, now: Time, seconds: int)
    | Heartbeat(owner: Owner, now: Time, seconds: int)
    | Release(owner: Owner)

  predicate TakesLease(l: Lease, e: LeaseEvent) {
    match e
    case Acquire(o, now, _) => l.row.None? || l.row.value.expiresAt <= now || l.row.value.owner == o
    case Heartbeat(o, now, _) => l.row.Some? && l.row.value.owner == o && l.row.value.expiresAt > now
    case Release(o) => false
  }

  function LeaseStep(l: Lease, e: LeaseEvent): Lease {
    if e.Release? then
      Lease(if l.row.Some? && l.row.value.owner == e.owner then None else l.row, l.granted - {e.owner}, l.clock)
    else if TakesLease(l, e) then
      Lease(Some(Row(e.owner, e.now + e.seconds)), l.granted[e.owner := e.now + e.seconds], e.now)
    else l.(clock := e.now)
  }

  function LeaseRun(events: seq<LeaseEvent>): Lease {
    if events == [] then Lease(None, map[], 0) else LeaseStep(LeaseRun(events[..|events| - 1]), events[|events| - 1])
  }

  /** Clock reads do not go back. */
  ghost predicate Forward(events: seq<LeaseEvent>) {
    forall i :: 0 <= i < |events| && !events[i].Release? ==> LeaseRun(events[..i]).clock <= events[i].now
  }

  /** An owner whose grant has not run out is the owner in the row, and the row is somebody's last grant. */
  ghost predicate Exclusive(l: Lease) {
    && (forall o :: o in l.granted && l.granted[o] > l.clock ==> l.row == Some(Row(o, l.granted[o])))
    && (l.row.Some? ==> l.row.value.owner in l.granted && l.granted[l.row.value.owner] == l.row.value.expiresAt)
  }

  lemma ExclusiveStep(l: Lease, e: LeaseEvent)
    requires Exclusive(l) && (!e.Release? ==> l.clock <= e.now)
    ensures Exclusive(LeaseStep(l, e))
  {}

  lemma {:induction false} LeaseIsExclusive(events: seq<LeaseEvent>)
    requires Forward(events)
    ensures Exclusive(LeaseRun(events))
  {
    if events != [] {
      var before, last := events[..|events| - 1], events[|events| - 1];
      forall i | 0 <= i < |before| && !before[i].Release? ensures LeaseRun(before[..i]).clock <= before[i].now {
        assert before[..i] == events[..i];
      }
      LeaseIsExclusive(before);
      assert !last.Release? ==> LeaseRun(before).clock <= last.now by { assert events[..|before|] == before; }
      ExclusiveStep(LeaseRun(before), last);
    }
  }

  /** At any instant from the last clock read on, at most one owner holds a grant that has not run out. */
  lemma OneOwner(events: seq<LeaseEvent>, at: Time, a: Owner, b: Owner)
    requires Forward(events) && at >= LeaseRun(events).clock
    requires a in LeaseRun(events).granted && b in LeaseRun(events).granted
    requires LeaseRun(events).granted[a] > at && LeaseRun(events).granted[b] > at
    ensures a == b
  {
    LeaseIsExclusive(events);
  }

  /** The owner was told an expiry that is still ahead, and has not released the lease. */
  predicate Holds(granted: map<Owner, Time>, o: Owner, now: Time) { o in granted && granted[o] > now }

  class LeaseStore {
    var row: Option<Row>
    ghost var granted: map<Owner, Time>
    ghost var clock: Time

    ghost predicate Valid()
      reads this
    {
      Exclusive(View())
    }

    constructor ()
      ensures View() == LeaseRun([]) && Valid()
    {
      row, granted, clock := None, map[], 0;
    }

    ghost function View(): Lease
      reads this
    {
      Lease(row, granted, clock)
    }

    /** The lease is given exactly when nobody else holds it, and then nobody else does. */
    method AcquireLock(owner: Owner, now: Time, seconds: int) returns (ok: bool)
      requires Valid() && seconds > 0 && now >= clock
      modifies this
      ensures Valid() && View() == LeaseStep(old(View()), Acquire(owner, now, seconds))
      ensures ok <==> forall o :: Holds(old(granted), o, now) ==> o == owner
      ensures ok ==> granted == old(granted)[owner := now + seconds] && forall o :: Holds(granted, o, now) <==> o == owner
      ensures !ok ==> granted == old(granted)
    {
      ok := row.None? || row.value.expiresAt <= now || row.value.owner == owner;
      ExclusiveStep(View(), Acquire(owner, now, seconds));
      assert !ok ==> Holds(granted, row.value.owner, now);
      clock := now;
      if ok {
        row := Some(Row(owner, now + seconds));
        granted := granted[owner := now + seconds];
      }
    }

    /** A holder, and nobody else, extends its own lease. */
    method Beat(owner: Owner, now: Time, seconds: int) returns (ok: bool)
      requires Valid() && seconds > 0 && now >= clock
      modifies this
      ensures Valid() && View() == LeaseStep(old(View()), Heartbeat(owner, now, seconds))
      ensures ok <==> Holds(old(granted), owner, now)
      ensures ok ==> granted == old(granted)[owner := now + seconds] && forall o :: Holds(granted, o, now) <==> o == owner
      ensures !ok ==> granted == old(granted)
    {
      ok := row.Some? && row.value.owner == owner && row.value.expiresAt > now;
      ExclusiveStep(View(), Heartbeat(owner, now, seconds));
      clock := now;
      if ok {
        row := Some(row.value.(expiresAt := now + seconds));
        granted := granted[owner := now + seconds];
      }
    }

    /** The owner holds nothing any more, and whoever else holds the lease keeps it; a free lease can be acquired at once. */
    method ReleaseLock(owner: Owner)
      requires Valid()
      modifies this
      ensures Valid() && View() == LeaseStep(old(View()), Release(owner))
      ensures forall o, now :: now >= clock ==> (Holds(granted, o, now) <==> o != owner && Holds(old(granted), o, now))
      ensures Holds(old(granted), owner, old(clock)) ==> row.None?
    {
      ExclusiveStep(View(), Release(owner));
      if row.Some? && row.value.owner == owner { row := None; }
      granted := granted - {owner};
    }
  }

  // ----- backoff

  datatype Schedule = Schedule(initial: real, max: real) {
    predicate Valid() { 0.0 < initial <= max }
  }

  datatype Pass = Succeeded | Failed(retryAfter: Option<real>)

  function MinReal(a: real, b: real): real { if a <= b then a else b }

  function MaxReal(a: real, b: real): real { if a >= b then a else b }

  function Doubled(initial: real, n: nat): real { if n == 0 then initial else 2.0 * Doubled(initial, n - 1) }

  /** Failures since the last success that came without a wait of their own. */
  function PlainFailures(passes: seq<Pass>): nat {
    if passes == [] then 0
    else
      var last := passes[|passes| - 1];
      if last.Succeeded? then 0 else PlainFailures(passes[..|passes| - 1]) + if last.retryAfter.None? then 1 else 0
  }

  function Failures(passes: seq<Pass>): nat {
    if passes == [] || passes[|passes| - 1].Succeeded? then 0 else Failures(passes[..|passes| - 1]) + 1
  }

  /** The wait the n-th plain failure since the last success leads to. */
  function PlainWait(s: Schedule, n: nat): real
    requires n >= 1
  {
    MinReal(Doubled(s.initial, n - 1), s.max)
  }

  lemma {:induction false} WaitDoubles(s: Schedule, n: nat)
    requires s.Valid() && n >= 1
    ensures PlainWait(s, n + 1) == MinReal(PlainWait(s, n) * 2.0, s.max)
    ensures s.initial <= PlainWait(s, n) <= s.max
  {
    if n > 1 { WaitDoubles(s, n - 1); }
  }

  class Polling {
    const schedule: Schedule
    var failures: nat
    var backoff: real
    ghost var passes: seq<Pass>

    /** The fields hold the count of failures, and the wait of the next plain one. */
    ghost predicate Valid()
      reads this
    {
      && schedule.Valid() && failures == Failures(passes)
      && backoff == PlainWait(schedule, PlainFailures(passes) + 1)
    }

    constructor (schedule: Schedule)
      requires schedule.Valid()
      ensures this.schedule == schedule && passes == [] && Valid()
    {
      this.schedule, failures, backoff, passes := schedule, 0, schedule.initial, [];
    }

    /** A failed pass: its own wait if it names one, otherwise the next doubled one. */
    method Fail(retryAfter: Option<real>) returns (delay: real)
      requires Valid()
      modifies this`failures, this`backoff, this`passes
      ensures Valid() && passes == old(passes) + [Failed(retryAfter)]
      ensures delay == if retryAfter.Some? then MaxReal(retryAfter.value, schedule.initial)
                       else PlainWait(schedule, PlainFailures(passes))
    {
      assert (passes + [Failed(retryAfter)])[..|passes|] == passes;
      failures := failures + 1;
      passes := passes + [Failed(retryAfter)];
      if retryAfter.Some? { return MaxReal(retryAfter.value, schedule.initial); }
      delay := backoff;
      WaitDoubles(schedule, PlainFailures(passes));
      backoff := MinReal(backoff * 2.0, schedule.max);
    }

    method Succeed()
      requires Valid()
      modifies this`failures, this`backoff, this`passes
      ensures Valid() && passes == old(passes) + [Succeeded] && failures == 0
    {
      failures, backoff := 0, schedule.initial;
      passes := passes + [Succeeded];
    }
  }

  /** Failures that name their own wait do not advance the doubling. */
  lemma RateLimitedDoesNotAdvance(passes: seq<Pass>, retryAfter: real)
    ensures PlainFailures(passes + [Failed(Some(retryAfter))]) == PlainFailures(passes)
    ensures PlainFailures(passes + [Failed(None)]) == PlainFailures(passes) + 1
    ensures PlainFailures(passes + [Succeeded]) == 0
  {}

  // ----- request slots

  /** The times at which requests asked at the given times may be sent. */
  ghost predicate Slots(slots: seq<real>, interval: real) {
    forall i, j :: 0 <= i < j < |slots| ==> slots[j] - slots[i] >= (j - i) as real * interval
  }

  datatype Response = TimesOut | Status(code: nat, json: bool)

  datatype Fetched = Received | TimedOut | AuthRefused | RateLimited | ServerError | OtherStatus | NotJson

  predicate Retries(r: Response) { r.TimesOut? || r.code == 429 || 500 <= r.code < 600 }

  /** What a response means when no retry is left, or none is due. */
  function Meaning(r: Response, expectJson: bool): Fetched {
    if r.TimesOut? then TimedOut
    else if r.code == 401 || r.code == 403 then AuthRefused
    else if r.code == 429 then RateLimited
    else if 500 <= r.code < 600 then ServerError
    else if r.code >= 400 then OtherStatus
    else if expectJson && !r.json then NotJson
    else Received
  }

  /** No answer in time, too many requests, or trouble at the server. */
  predicate IsTemporary(r: Response) { r.TimesOut? || r.code == 429 || (r.code >= 500 && r.code <= 599) }

  /** Exactly what the deciding answer is taken for. */
  predicate Says(r: Response, expectJson: bool, f: Fetched) {
    && (f.TimedOut? <==> r.TimesOut?)
    && (f.AuthRefused? <==> !r.TimesOut? && r.code in {401, 403})
    && (f.RateLimited? <==> !r.TimesOut? && r.code == 429)
    && (f.ServerError? <==> !r.TimesOut? && 500 <= r.code <= 599)
    && (f.OtherStatus? <==> !r.TimesOut? && r.code >= 400 && r.code !in {401, 403, 429} && !(500 <= r.code <= 599))
    && (f.NotJson? <==> !r.TimesOut? && r.code < 400 && expectJson && !r.json)
    && (f.Received? <==> !r.TimesOut? && r.code < 400 && (expectJson ==> r.json))
  }

  /** The next slot keeps the interval to all earlier ones. */
  ghost predicate Clear(slots: seq<real>, slot: real, interval: real) {
    forall i :: 0 <= i < |slots| ==> slot - slots[i] >= (|slots| - i) as real * interval
  }

  class Limiter {
    const interval: real
    var nextAt: real
    ghost var slots: seq<real>

    ghost predicate Valid()
      reads this
    {
      && interval >= 0.0 && Slots(slots, interval)
      && Clear(slots, nextAt, interval)
      && nextAt == if slots == [] then 0.0 else slots[|slots| - 1] + interval
    }

    constructor (interval: real)
      requires interval >= 0.0
      ensures this.interval == interval && slots == [] && Valid()
    {
      this.interval, nextAt, slots := interval, 0.0, [];
    }

    /** Reserves the next slot; the caller waits until it comes. */
    method Reserve(now: real) returns (wait: real)
      requires Valid()
      modifies this`nextAt, this`slots
      ensures Valid() && slots == old(slots) + [now + wait]
      ensures old(slots) == [] && now >= 0.0 ==> wait == 0.0
      ensures old(slots) != [] ==> wait == MaxReal(0.0, old(slots)[|old(slots)| - 1] + interval - now)
    {
      wait := MaxReal(0.0, nextAt - now);
      var slot := MaxReal(now, nextAt);
      hide Clear, Slots;
      ClearLater(slots, nextAt, slot, interval);
      SlotsGrow(slots, slot, interval);
      ClearAfter(slots, slot, interval);
      slots := slots + [slot];
      nextAt := slot + interval;
    }

    /** A bounded number of reads, each in a slot of its own; the first answer that is not worth a retry decides. */
    method Request(maxRetries: nat, expectJson: bool, answers: seq<Response>, clocks: seq<real>) returns (r: Fetched, ghost used: nat)
      requires Valid() && |answers| > maxRetries && |clocks| > maxRetries
      modifies this`nextAt, this`slots
      ensures Valid() && 1 <= used <= maxRetries + 1 && |slots| == |old(slots)| + used
      ensures forall i :: 0 <= i < used - 1 ==> IsTemporary(answers[i])
      ensures used == maxRetries + 1 || !IsTemporary(answers[used - 1])
      ensures Says(answers[used - 1], expectJson, r)
    {
      var attempt := 0;
      while attempt <= maxRetries
        invariant 0 <= attempt <= maxRetries && Valid() && |slots| == |old(slots)| + attempt
        invariant forall i :: 0 <= i < attempt ==> IsTemporary(answers[i])
      {
        var wait := Reserve(clocks[attempt]);
        used := attempt + 1;
        r := Meaning(answers[attempt], expectJson);
        if !Retries(answers[attempt]) || attempt >= maxRetries { return; }
        attempt := attempt + 1;
      }
    }
  }

  lemma ClearLater(slots: seq<real>, slot: real, later: real, interval: real)
    requires Clear(slots, slot, interval) && slot <= later
    ensures Clear(slots, later, interval)
  {}

  lemma ClearAfter(slots: seq<real>, slot: real, interval: real)
    requires interval >= 0.0 && Clear(slots, slot, interval)
    ensures Clear(slots + [slot], slot + interval, interval)
  {
    forall i | 0 <= i <= |slots| ensures slot + interval - (slots + [slot])[i] >= (|slots| + 1 - i) as real * interval {
      assert (|slots| + 1 - i) as real * interval == (|slots| - i) as real * interval + interval;
    }
  }

  lemma SlotsGrow(slots: seq<real>, slot: real, interval: real)
    requires interval >= 0.0 && Slots(slots, interval)
    requires Clear(slots, slot, interval)
    ensures Slots(slots + [slot], interval)
  {}

  /** A window of the given length holds at most length / interval + 1 slots. */
  lemma WindowBound(slots: seq<real>, interval: real, first: nat, last: nat, length: real)
    requires interval > 0.0 && Slots(slots, interval) && first <= last < |slots| && slots[last] - slots[first] <= length
    ensures (last - first + 1) as real <= length / interval + 1.0
  {
    if first < last {
      var n := (last - first) as real;
      assert n * interval <= length;
      Divide(n, interval, length);
    } else {
      Divide(0.0, interval, length);
    }
  }

  lemma Divide(n: real, interval: real, length: real)
    requires interval > 0.0 && n * interval <= length
    ensures n <= length / interval
  {}
}
