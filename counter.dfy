/** The service counter: a pool of `capacity` interchangeable attendants and
    no waiting line, driven by an explicit event-ordered scheduler that
    stands in for the coroutine engine.

    Two kinds of event exist: a spawned passenger arrives and asks for an
    attendant, or an admitted passenger's service ends and the attendant is
    released. The scheduler always takes the earliest pending event. At equal
    instants a release comes before an arrival (a server that frees up at
    time t is free for a passenger arriving at t), and releases at the same
    instant come in admission order. An event at or after the horizon is
    never processed, so a passenger still in service then leaves no entry.

    The pure functions below (`NextEvent`, `Step`, `Simulate`) are the
    reference; the class `Lounge` runs the same loop on mutable state and is
    proved to end in the state `Simulate` describes. */
module Counter {
  import opened Records

  /** Scheduler state: the clock, how many spawned passengers have arrived,
      the passengers in service (admission order), and the two logs. */
  datatype Sim = Sim(clock: real, next: nat, inService: seq<Record>, attended: seq<Record>, denied: seq<real>)

  /** A fresh run: clock at zero, nothing arrived, every attendant idle. */
  const Initial: Sim := Sim(0.0, 0, [], [], [])

  /** The generators spawn passengers at non-negative, non-decreasing clock
      instants. */
  predicate Sorted(spawns: seq<Spawn>)
  {
    && (forall i :: 0 <= i < |spawns| ==> 0.0 <= spawns[i].at)
    && (forall i, j :: 0 <= i <= j < |spawns| ==> spawns[i].at <= spawns[j].at)
  }

  /** State t is reached from s by a run: the clock has not gone back, no
      arrival is undone, and both logs have only grown at their ends. */
  predicate Later(s: Sim, t: Sim)
  {
    s.clock <= t.clock && s.next <= t.next && s.attended <= t.attended && s.denied <= t.denied
  }

  /** The logged arrival times of a sequence of spawns, in order. */
  function Stamps(spawns: seq<Spawn>): (r: seq<real>)
    ensures |r| == |spawns|
    ensures forall i :: 0 <= i < |r| ==> r[i] == spawns[i].stamp
    decreases |spawns|
  {
    if spawns == [] then [] else Stamps(spawns[..|spawns| - 1]) + [spawns[|spawns| - 1].stamp]
  }

  /** The first passenger in service whose service ends soonest. */
  function FirstDue(q: seq<Record>): (k: nat)
    requires |q| > 0
    ensures k < |q|
    ensures forall i :: 0 <= i < |q| ==> q[k].end <= q[i].end
    ensures forall i :: 0 <= i < k ==> q[k].end < q[i].end
  {
    if |q| == 1 then 0
    else
      var k := FirstDue(q[1..]);
      if q[0].end <= q[1 + k].end then 0 else 1 + k
  }

  /** Entry k taken out of q, the others keeping their order. */
  function Without<T>(q: seq<T>, k: nat): (r: seq<T>)
    requires k < |q|
    ensures |r| == |q| - 1
    ensures forall i :: 0 <= i < k ==> r[i] == q[i]
    ensures forall i :: k <= i < |r| ==> r[i] == q[i + 1]
  {
    q[..k] + q[k + 1..]
  }

  /** A passenger spawned as `sp` asks for an attendant at its arrival
      instant: with no pool it is denied; otherwise it is admitted exactly
      when fewer than `capacity` attendants are busy, and denied at once
      when all are. */
  function OnArrival(s: Sim, sp: Spawn, draw: real, capacity: nat): (t: Sim)
    ensures t.clock == sp.at && t.next == s.next + 1 && t.attended == s.attended
    ensures |s.inService| < capacity ==> t.inService == s.inService + [Served(sp, draw)] && t.denied == s.denied
    ensures capacity <= |s.inService| ==> t.inService == s.inService && t.denied == s.denied + [sp.stamp]
  {
    var arrived := s.(clock := sp.at, next := s.next + 1);
    if capacity == 0 then arrived.(denied := s.denied + [sp.stamp])
    else if |s.inService| < capacity then arrived.(inService := s.inService + [Served(sp, draw)])
    else arrived.(denied := s.denied + [sp.stamp])
  }

  /** The service of entry k ends: the clock moves to its end, the attendant
      is released and the entry is logged as attended. */
  function OnCompletion(s: Sim, k: nat): (t: Sim)
    requires k < |s.inService|
    ensures t.clock == s.inService[k].end && t.next == s.next && t.denied == s.denied
    ensures t.attended == s.attended + [s.inService[k]]
    ensures t.inService == Without(s.inService, k)
    ensures |t.inService| == |s.inService| - 1
    ensures multiset(t.inService) + multiset{s.inService[k]} == multiset(s.inService)
  {
    assert s.inService == s.inService[..k] + [s.inService[k]] + s.inService[k + 1..];
    s.(clock := s.inService[k].end, inService := Without(s.inService, k), attended := s.attended + [s.inService[k]])
  }

  /** Events still pending: every unarrived passenger counts twice (arrival,
      then possibly a completion), every passenger in service once. */
  function Work(n: nat, s: Sim): nat
    requires s.next <= n
  {
    2 * (n - s.next) + |s.inService|
  }

  datatype Event = Completion(k: nat) | Arrival | Stop

  /** The earliest pending event, releases first at equal instants; `Stop`
      when none is pending before the horizon. */
  function NextEvent(spawns: seq<Spawn>, horizon: real, s: Sim): (e: Event)
    requires s.next <= |spawns|
    ensures e.Completion? ==> e.k < |s.inService| && s.inService[e.k].end < horizon
    ensures e.Completion? ==> forall i :: 0 <= i < |s.inService| ==> s.inService[e.k].end <= s.inService[i].end
    ensures e.Completion? ==> forall i :: 0 <= i < e.k ==> s.inService[e.k].end < s.inService[i].end
    ensures e.Completion? && s.next < |spawns| ==> s.inService[e.k].end <= spawns[s.next].at
    ensures e.Arrival? ==> s.next < |spawns| && spawns[s.next].at < horizon
    ensures e.Arrival? ==> forall i :: 0 <= i < |s.inService| ==> spawns[s.next].at < s.inService[i].end
    ensures e.Stop? ==> s.next == |spawns| || horizon <= spawns[s.next].at
    ensures e.Stop? ==> forall i :: 0 <= i < |s.inService| ==> horizon <= s.inService[i].end
  {
    if |s.inService| > 0 && (s.next == |spawns| || s.inService[FirstDue(s.inService)].end <= spawns[s.next].at) then
      var k := FirstDue(s.inService);
      if s.inService[k].end < horizon then Completion(k) else Stop
    else if s.next < |spawns| && spawns[s.next].at < horizon then Arrival
    else Stop
  }

  /** One scheduler step, or None once the run has reached its horizon. */
  function Step(spawns: seq<Spawn>, draws: seq<real>, capacity: nat, horizon: real, s: Sim): (r: Option<Sim>)
    requires |draws| == |spawns| && s.next <= |spawns|
    ensures r.Some? ==> r.value.next <= |spawns| && Work(|spawns|, r.value) < Work(|spawns|, s)
    ensures r.None? <==> NextEvent(spawns, horizon, s).Stop?
  {
    match NextEvent(spawns, horizon, s)
    case Completion(k) => Some(OnCompletion(s, k))
    case Arrival => Some(OnArrival(s, spawns[s.next], draws[s.next], capacity))
    case Stop => None
  }

  /** The state in which the run stops, from state s. */
  function Simulate(spawns: seq<Spawn>, draws: seq<real>, capacity: nat, horizon: real, s: Sim): (f: Sim)
    requires |draws| == |spawns| && s.next <= |spawns|
    ensures s.next <= f.next <= |spawns|
    decreases Work(|spawns|, s)
  {
    match Step(spawns, draws, capacity, horizon, s)
    case None => s
    case Some(t) => Simulate(spawns, draws, capacity, horizon, t)
  }

  /** Entry r is the one passenger k < n would have logged on admission. */
  ghost predicate Logged(spawns: seq<Spawn>, draws: seq<real>, n: nat, r: Record)
  {
    exists k :: 0 <= k < n && k < |spawns| && k < |draws| && r == Served(spawns[k], draws[k])
  }

  /** Denied time x is the arrival time of some passenger k < n. */
  ghost predicate Turned(spawns: seq<Spawn>, n: nat, x: real)
  {
    exists k :: 0 <= k < n && k < |spawns| && x == spawns[k].stamp
  }

  lemma LoggedLater(spawns: seq<Spawn>, draws: seq<real>, n: nat, r: Record)
    requires Logged(spawns, draws, n, r)
    ensures Logged(spawns, draws, n + 1, r)
  {
    var k :| 0 <= k < n && k < |spawns| && k < |draws| && r == Served(spawns[k], draws[k]);
  }

  lemma TurnedLater(spawns: seq<Spawn>, n: nat, x: real)
    requires Turned(spawns, n, x)
    ensures Turned(spawns, n + 1, x)
  {
    var k :| 0 <= k < n && k < |spawns| && x == spawns[k].stamp;
  }

  /** What holds of every state a run passes through. */
  ghost predicate Inv(spawns: seq<Spawn>, draws: seq<real>, capacity: nat, horizon: real, s: Sim)
  {
    && |draws| == |spawns| && Sorted(spawns)
    && s.next <= |spawns|
    // never more passengers in service than attendants
    && |s.inService| <= capacity
    // every arrived passenger is in exactly one place
    && |s.attended| + |s.denied| + |s.inService| == s.next
    // arrivals so far all fell before the horizon, and the clock never runs ahead of the next one
    && (s.next > 0 ==> spawns[s.next - 1].at < horizon && spawns[s.next - 1].at <= s.clock)
    && (s.next < |spawns| ==> s.clock <= spawns[s.next].at)
    // passengers in service end no earlier than now; attended ones ended before now and before the horizon
    && (forall r :: r in s.inService ==> s.clock <= r.end && Logged(spawns, draws, s.next, r))
    && (forall r :: r in s.attended ==> r.end <= s.clock && r.end < horizon && Logged(spawns, draws, s.next, r))
    // the attended log is in completion order
    && (forall i, j :: 0 <= i <= j < |s.attended| ==> s.attended[i].end <= s.attended[j].end)
    && (forall x :: x in s.denied ==> Turned(spawns, s.next, x))
    // with no attendants everybody is denied, in arrival order
    && (capacity == 0 ==> s.attended == [] && s.inService == [] && s.denied == Stamps(spawns[..s.next]))
    // with an attendant per spawned passenger nobody is denied
    && (capacity >= |spawns| ==> s.denied == [])
  }

  lemma InitialInv(spawns: seq<Spawn>, draws: seq<real>, capacity: nat, horizon: real)
    requires |draws| == |spawns| && Sorted(spawns)
    ensures Inv(spawns, draws, capacity, horizon, Initial)
  {
    assert spawns[..0] == [];
  }

  /** Admission rule: at an arrival every attendant in use is busy past that
      instant, and the passenger is admitted exactly when one is free. */
  lemma ArrivalRule(spawns: seq<Spawn>, draws: seq<real>, capacity: nat, horizon: real, s: Sim)
    requires Inv(spawns, draws, capacity, horizon, s)
    requires NextEvent(spawns, horizon, s).Arrival?
    ensures s.next < |spawns| && Step(spawns, draws, capacity, horizon, s).Some?
    ensures var sp, t := spawns[s.next], Step(spawns, draws, capacity, horizon, s).value;
      && (forall r :: r in s.inService ==> sp.at < r.end)
      && t.clock == sp.at && t.next == s.next + 1 && t.attended == s.attended
      && (|s.inService| < capacity ==> t.inService == s.inService + [Served(sp, draws[s.next])] && t.denied == s.denied)
      && (|s.inService| >= capacity ==> t.inService == s.inService && t.denied == s.denied + [sp.stamp])
  {
    var sp := spawns[s.next];
    forall r | r in s.inService ensures sp.at < r.end {
      var i :| 0 <= i < |s.inService| && s.inService[i] == r;
    }
  }

  /** Release rule: at a completion the passenger whose service ends soonest
      leaves, its attendant is freed and its entry is logged; since its end
      is not after the next arrival, that arrival finds the server free. */
  lemma CompletionRule(spawns: seq<Spawn>, draws: seq<real>, capacity: nat, horizon: real, s: Sim)
    requires Inv(spawns, draws, capacity, horizon, s)
    requires NextEvent(spawns, horizon, s).Completion?
    ensures var k, t := NextEvent(spawns, horizon, s).k, Step(spawns, draws, capacity, horizon, s).value;
      && |t.inService| == |s.inService| - 1 && t.attended == s.attended + [s.inService[k]]
      && t.clock == s.inService[k].end && t.denied == s.denied && t.next == s.next
      && (forall r :: r in s.inService ==> t.clock <= r.end)
      && multiset(t.inService) + multiset{s.inService[k]} == multiset(s.inService)
  {
    var k := NextEvent(spawns, horizon, s).k;
    var q := s.inService;
    assert q == q[..k] + [q[k]] + q[k + 1..];
    forall r | r in q ensures q[k].end <= r.end {
      var i :| 0 <= i < |q| && q[i] == r;
    }
  }

  lemma StampsSnoc(spawns: seq<Spawn>, n: nat)
    requires n < |spawns|
    ensures Stamps(spawns[..n + 1]) == Stamps(spawns[..n]) + [spawns[n].stamp]
  {
    assert spawns[..n + 1][..n] == spawns[..n];
  }

  /** A completion keeps the invariant and only moves forward. */
  lemma CompletionKeepsInv(spawns: seq<Spawn>, draws: seq<real>, capacity: nat, horizon: real, s: Sim)
    requires Inv(spawns, draws, capacity, horizon, s)
    requires NextEvent(spawns, horizon, s).Completion?
    ensures var t := OnCompletion(s, NextEvent(spawns, horizon, s).k);
      Inv(spawns, draws, capacity, horizon, t) && Later(s, t)
  {
    var k := NextEvent(spawns, horizon, s).k;
    var t := OnCompletion(s, k);
    CompletionRule(spawns, draws, capacity, horizon, s);
    var q := s.inService;
    assert |t.attended| + |t.denied| + |t.inService| == t.next;
    forall r | r in t.inService ensures t.clock <= r.end && Logged(spawns, draws, t.next, r) {
      assert r in q;
    }
    forall r | r in t.attended ensures r.end <= t.clock && r.end < horizon && Logged(spawns, draws, t.next, r) {
      if r != q[k] { assert r in s.attended; }
    }
    assert s.attended <= t.attended;
    forall i, j | 0 <= i <= j < |t.attended| ensures t.attended[i].end <= t.attended[j].end {
      if j == |s.attended| && i < j { assert s.attended[i] in s.attended; }
    }
  }

  /** An arrival keeps the invariant and only moves forward. */
  lemma ArrivalKeepsInv(spawns: seq<Spawn>, draws: seq<real>, capacity: nat, horizon: real, s: Sim)
    requires Inv(spawns, draws, capacity, horizon, s)
    requires NextEvent(spawns, horizon, s).Arrival?
    ensures s.next < |spawns|
    ensures var t := OnArrival(s, spawns[s.next], draws[s.next], capacity);
      Inv(spawns, draws, capacity, horizon, t) && Later(s, t)
  {
    ArrivalRule(spawns, draws, capacity, horizon, s);
    if |s.inService| < capacity {
      AdmitKeepsInv(spawns, draws, capacity, horizon, s);
    } else {
      DenyKeepsInv(spawns, draws, capacity, horizon, s);
    }
  }

  /** An admitted arrival keeps the invariant. */
  lemma AdmitKeepsInv(spawns: seq<Spawn>, draws: seq<real>, capacity: nat, horizon: real, s: Sim)
    requires Inv(spawns, draws, capacity, horizon, s)
    requires NextEvent(spawns, horizon, s).Arrival? && |s.inService| < capacity
    ensures s.next < |spawns|
    ensures var t := OnArrival(s, spawns[s.next], draws[s.next], capacity);
      Inv(spawns, draws, capacity, horizon, t) && Later(s, t)
  {
    var n := s.next;
    var sp := spawns[n];
    var t := OnArrival(s, sp, draws[n], capacity);
    ArrivalRule(spawns, draws, capacity, horizon, s);
    assert n + 1 < |spawns| ==> spawns[n].at <= spawns[n + 1].at;
    forall r | r in t.inService ensures t.clock <= r.end && Logged(spawns, draws, t.next, r) {
      if r == Served(sp, draws[n]) {
        assert Logged(spawns, draws, t.next, r) by { assert r == Served(spawns[n], draws[n]); }
      } else {
        assert r in s.inService;
        LoggedLater(spawns, draws, n, r);
      }
    }
    forall r | r in t.attended ensures r.end <= t.clock && r.end < horizon && Logged(spawns, draws, t.next, r) {
      LoggedLater(spawns, draws, n, r);
    }
    forall x | x in t.denied ensures Turned(spawns, t.next, x) {
      TurnedLater(spawns, n, x);
    }
  }

  /** A denied arrival keeps the invariant. */
  lemma DenyKeepsInv(spawns: seq<Spawn>, draws: seq<real>, capacity: nat, horizon: real, s: Sim)
    requires Inv(spawns, draws, capacity, horizon, s)
    requires NextEvent(spawns, horizon, s).Arrival? && capacity <= |s.inService|
    ensures s.next < |spawns|
    ensures var t := OnArrival(s, spawns[s.next], draws[s.next], capacity);
      Inv(spawns, draws, capacity, horizon, t) && Later(s, t)
  {
    var n := s.next;
    var sp := spawns[n];
    var t := OnArrival(s, sp, draws[n], capacity);
    ArrivalRule(spawns, draws, capacity, horizon, s);
    assert n + 1 < |spawns| ==> spawns[n].at <= spawns[n + 1].at;
    forall r | r in t.inService ensures t.clock <= r.end && Logged(spawns, draws, t.next, r) {
      LoggedLater(spawns, draws, n, r);
    }
    forall r | r in t.attended ensures r.end <= t.clock && r.end < horizon && Logged(spawns, draws, t.next, r) {
      LoggedLater(spawns, draws, n, r);
    }
    forall x | x in t.denied ensures Turned(spawns, t.next, x) {
      if x in s.denied {
        TurnedLater(spawns, n, x);
      } else {
        assert x == spawns[n].stamp;
      }
    }
    if capacity == 0 { StampsSnoc(spawns, n); }
    assert s.denied <= t.denied;
  }

  /** Every step keeps the invariant, moves the clock forward only, and only
      appends to the two logs. */
  lemma StepKeepsInv(spawns: seq<Spawn>, draws: seq<real>, capacity: nat, horizon: real, s: Sim)
    requires Inv(spawns, draws, capacity, horizon, s)
    requires Step(spawns, draws, capacity, horizon, s).Some?
    ensures var t := Step(spawns, draws, capacity, horizon, s).value;
      Inv(spawns, draws, capacity, horizon, t) && Later(s, t)
  {
    match NextEvent(spawns, horizon, s)
    case Completion(k) => CompletionKeepsInv(spawns, draws, capacity, horizon, s);
    case Arrival => ArrivalKeepsInv(spawns, draws, capacity, horizon, s);
  }

  /** The state a run stops in keeps the invariant, has nothing pending
      before the horizon, and extends the logs of the state it started
      from. */
  lemma {:induction false} SimulateKeepsInv(spawns: seq<Spawn>, draws: seq<real>, capacity: nat, horizon: real, s: Sim)
    requires Inv(spawns, draws, capacity, horizon, s)
    ensures var f := Simulate(spawns, draws, capacity, horizon, s);
      && Inv(spawns, draws, capacity, horizon, f)
      && NextEvent(spawns, horizon, f).Stop?
      && Later(s, f)
    decreases Work(|spawns|, s)
  {
    match Step(spawns, draws, capacity, horizon, s)
    case None =>
    case Some(t) =>
      StepKeepsInv(spawns, draws, capacity, horizon, s);
      SimulateKeepsInv(spawns, draws, capacity, horizon, t);
  }

  /** Passenger accounting by index: `a`, `q` and `d` say which passenger
      each attended entry, each entry in service and each denied arrival
      time belongs to, and together they name every arrived passenger
      0 .. s.next - 1 exactly once; the denied ones in arrival order. */
  ghost predicate Accounted(spawns: seq<Spawn>, draws: seq<real>, s: Sim, a: seq<nat>, q: seq<nat>, d: seq<nat>)
  {
    && |a| == |s.attended| && |q| == |s.inService| && |d| == |s.denied|
    && (forall k: nat :: multiset(a + q + d)[k] == if k < s.next then 1 else 0)
    && (forall i :: 0 <= i < |a| ==> a[i] < |spawns| && a[i] < |draws| && s.attended[i] == Served(spawns[a[i]], draws[a[i]]))
    && (forall i :: 0 <= i < |q| ==> q[i] < |spawns| && q[i] < |draws| && s.inService[i] == Served(spawns[q[i]], draws[q[i]]))
    && (forall i :: 0 <= i < |d| ==> d[i] < |spawns| && s.denied[i] == spawns[d[i]].stamp)
    // a denial is logged on arrival, so the denied log is in arrival order
    && (forall i, j :: 0 <= i < j < |d| ==> d[i] < d[j])
  }

  ghost predicate Tracked(spawns: seq<Spawn>, draws: seq<real>, s: Sim)
  {
    exists a, q, d :: Accounted(spawns, draws, s, a, q, d)
  }

  /** Before the run nobody has arrived and nothing is logged. */
  lemma InitialTracked(spawns: seq<Spawn>, draws: seq<real>)
    ensures Tracked(spawns, draws, Initial)
  {
    var none: seq<nat> := [];
    assert none + none + none == none;
    forall k: nat ensures multiset(none + none + none)[k] == if k < Initial.next then 1 else 0 {
      assert Initial.next == 0;
      assert multiset(none + none + none) == multiset{};
    }
    assert Accounted(spawns, draws, Initial, none, none, none);
  }

  /** An arrival files the new passenger under the entry it adds. */
  lemma ArrivalTracked(spawns: seq<Spawn>, draws: seq<real>, capacity: nat, s: Sim, a: seq<nat>, q: seq<nat>, d: seq<nat>)
    requires |draws| == |spawns| && s.next < |spawns|
    requires Accounted(spawns, draws, s, a, q, d)
    ensures Tracked(spawns, draws, OnArrival(s, spawns[s.next], draws[s.next], capacity))
  {
    var n := s.next;
    var t := OnArrival(s, spawns[n], draws[n], capacity);
    if |s.inService| < capacity {
      AdmitTracked(spawns, draws, s, t, a, q, d);
      assert Accounted(spawns, draws, t, a, q + [n], d);
    } else {
      DenyTracked(spawns, draws, s, t, a, q, d);
      assert Accounted(spawns, draws, t, a, q, d + [n]);
    }
  }

  lemma AdmitTracked(spawns: seq<Spawn>, draws: seq<real>, s: Sim, t: Sim, a: seq<nat>, q: seq<nat>, d: seq<nat>)
    requires |draws| == |spawns| && s.next < |spawns|
    requires Accounted(spawns, draws, s, a, q, d)
    requires t.next == s.next + 1
    requires t.attended == s.attended && t.denied == s.denied
    requires t.inService == s.inService + [Served(spawns[s.next], draws[s.next])]
    ensures Accounted(spawns, draws, t, a, q + [s.next], d)
  {
    var n := s.next;
    var q' := q + [n];
    InsertCount(a, q, d, n);
    forall k: nat ensures multiset(a + q' + d)[k] == if k < t.next then 1 else 0 {
      assert multiset(a + q' + d)[k] == multiset(a + q + d)[k] + multiset{n}[k];
    }
    forall i | 0 <= i < |q'|
      ensures q'[i] < |spawns| && q'[i] < |draws| && t.inService[i] == Served(spawns[q'[i]], draws[q'[i]])
    {
      if i < |q| { assert q'[i] == q[i] && t.inService[i] == s.inService[i]; }
    }
  }

  lemma DenyTracked(spawns: seq<Spawn>, draws: seq<real>, s: Sim, t: Sim, a: seq<nat>, q: seq<nat>, d: seq<nat>)
    requires |draws| == |spawns| && s.next < |spawns|
    requires Accounted(spawns, draws, s, a, q, d)
    requires t.next == s.next + 1
    requires t.attended == s.attended && t.inService == s.inService
    requires t.denied == s.denied + [spawns[s.next].stamp]
    ensures Accounted(spawns, draws, t, a, q, d + [s.next])
  {
    var n := s.next;
    var d' := d + [n];
    assert a + q + d' == (a + q + d) + [n];
    forall k: nat ensures multiset(a + q + d')[k] == if k < t.next then 1 else 0 {
      assert multiset(a + q + d')[k] == multiset(a + q + d)[k] + multiset{n}[k];
    }
    forall i | 0 <= i < |d'|
      ensures d'[i] < |spawns| && t.denied[i] == spawns[d'[i]].stamp
    {
      if i < |d| { assert d'[i] == d[i] && t.denied[i] == s.denied[i]; }
    }
    DeniedBefore(a, q, d, n);
    forall i, j | 0 <= i < j < |d'| ensures d'[i] < d'[j] {
      assert d'[i] == d[i];
      if j < |d| { assert d'[j] == d[j]; }
    }
  }

  /** Indices that occur once exactly when below n are all below n. */
  lemma DeniedBefore(a: seq<nat>, q: seq<nat>, d: seq<nat>, n: nat)
    requires forall k: nat :: multiset(a + q + d)[k] == if k < n then 1 else 0
    ensures forall i :: 0 <= i < |d| ==> d[i] < n
  {
    forall i | 0 <= i < |d| ensures d[i] < n {
      assert (a + q + d)[|a| + |q| + i] == d[i];
      assert multiset(a + q + d)[d[i]] > 0;
    }
  }

  /** A completion moves the passenger's index from the in-service part to
      the attended part. */
  lemma CompletionTracked(spawns: seq<Spawn>, draws: seq<real>, s: Sim, k: nat, a: seq<nat>, q: seq<nat>, d: seq<nat>)
    requires k < |s.inService|
    requires Accounted(spawns, draws, s, a, q, d)
    ensures Tracked(spawns, draws, OnCompletion(s, k))
  {
    var t := OnCompletion(s, k);
    var rest := Without(q, k);
    MoveCount(a, q, d, k);
    var a' := a + [q[k]];
    forall i | 0 <= i < |a'|
      ensures a'[i] < |spawns| && a'[i] < |draws| && t.attended[i] == Served(spawns[a'[i]], draws[a'[i]])
    {
      if i < |a| { assert a'[i] == a[i] && t.attended[i] == s.attended[i]; }
    }
    forall i | 0 <= i < |rest|
      ensures rest[i] < |spawns| && rest[i] < |draws| && t.inService[i] == Served(spawns[rest[i]], draws[rest[i]])
    {
      if i < k { assert rest[i] == q[i] && t.inService[i] == s.inService[i]; }
      else { assert rest[i] == q[i + 1] && t.inService[i] == s.inService[i + 1]; }
    }
    assert Accounted(spawns, draws, t, a', rest, d);
  }

  lemma InsertCount(a: seq<nat>, q: seq<nat>, d: seq<nat>, n: nat)
    ensures multiset(a + (q + [n]) + d) == multiset(a + q + d) + multiset{n}
  {
    assert a + (q + [n]) + d == a + q + [n] + d;
  }

  lemma MoveCount(a: seq<nat>, q: seq<nat>, d: seq<nat>, k: nat)
    requires k < |q|
    ensures multiset((a + [q[k]]) + Without(q, k) + d) == multiset(a + q + d)
  {
    var x, front, back := q[k], q[..k], q[k + 1..];
    assert q == front + [x] + back;
    assert Without(q, k) == front + back;
    calc {
      multiset((a + [x]) + Without(q, k) + d);
      multiset(a) + multiset{x} + multiset(front) + multiset(back) + multiset(d);
      multiset(a) + multiset(q) + multiset(d);
      multiset(a + q + d);
    }
  }


  lemma {:induction false} SimulateTracked(spawns: seq<Spawn>, draws: seq<real>, capacity: nat, horizon: real, s: Sim)
    requires |draws| == |spawns| && s.next <= |spawns|
    requires Tracked(spawns, draws, s)
    ensures Tracked(spawns, draws, Simulate(spawns, draws, capacity, horizon, s))
    decreases Work(|spawns|, s)
  {
    var a, q, d :| Accounted(spawns, draws, s, a, q, d);
    match NextEvent(spawns, horizon, s)
    case Stop =>
    case Completion(k) =>
      CompletionTracked(spawns, draws, s, k, a, q, d);
      SimulateTracked(spawns, draws, capacity, horizon, OnCompletion(s, k));
    case Arrival =>
      ArrivalTracked(spawns, draws, capacity, s, a, q, d);
      SimulateTracked(spawns, draws, capacity, horizon, OnArrival(s, spawns[s.next], draws[s.next], capacity));
  }

  /** What the invariant says about a state at which the run stops. */
  lemma StoppedOutcome(spawns: seq<Spawn>, draws: seq<real>, capacity: nat, horizon: real, f: Sim)
    requires Inv(spawns, draws, capacity, horizon, f)
    requires NextEvent(spawns, horizon, f).Stop?
    ensures f.next <= |spawns|
    ensures forall k :: 0 <= k < |spawns| ==> (k < f.next <==> spawns[k].at < horizon)
    ensures |f.attended| + |f.denied| + |f.inService| == f.next
    ensures |f.inService| <= capacity
    ensures forall r :: r in f.inService ==> horizon <= r.end
    ensures forall r :: r in f.attended ==> r.end < horizon && Logged(spawns, draws, f.next, r)
    ensures forall i, j :: 0 <= i <= j < |f.attended| ==> f.attended[i].end <= f.attended[j].end
    ensures forall x :: x in f.denied ==> Turned(spawns, f.next, x)
  {
    forall r | r in f.inService ensures horizon <= r.end {
      var i :| 0 <= i < |f.inService| && f.inService[i] == r;
    }
    forall k | 0 <= k < |spawns| ensures k < f.next <==> spawns[k].at < horizon {
      if k < f.next {
        assert spawns[k].at <= spawns[f.next - 1].at;
      } else {
        assert spawns[f.next].at <= spawns[k].at;
      }
    }
  }

  /** A whole run from the initial state: exactly the passengers spawned
      before the horizon arrive; each is attended, denied, or still in
      service at the horizon (and then leaves no entry); no more passengers
      are in service than there are attendants; and every attended entry is
      the one its passenger logged on admission, ended before the horizon.
      The accounting `Accounted` names, for every entry of the two logs and
      of the service pool, the passenger it belongs to, each arrived
      passenger exactly once. */
  lemma RunOutcome(spawns: seq<Spawn>, draws: seq<real>, capacity: nat, horizon: real)
    requires |draws| == |spawns| && Sorted(spawns)
    ensures var f := Simulate(spawns, draws, capacity, horizon, Initial);
      && f.next <= |spawns|
      && (forall k :: 0 <= k < |spawns| ==> (k < f.next <==> spawns[k].at < horizon))
      && |f.attended| + |f.denied| + |f.inService| == f.next
      && |f.inService| <= capacity
      && (forall r :: r in f.inService ==> horizon <= r.end)
      && (forall r :: r in f.attended ==> r.end < horizon && Logged(spawns, draws, f.next, r))
      && (forall i, j :: 0 <= i <= j < |f.attended| ==> f.attended[i].end <= f.attended[j].end)
      && (forall x :: x in f.denied ==> Turned(spawns, f.next, x))
      && exists a, q, d :: Accounted(spawns, draws, f, a, q, d)
  {
    InitialTracked(spawns, draws);
    SimulateTracked(spawns, draws, capacity, horizon, Initial);
    InitialInv(spawns, draws, capacity, horizon);
    SimulateKeepsInv(spawns, draws, capacity, horizon, Initial);
    StoppedOutcome(spawns, draws, capacity, horizon, Simulate(spawns, draws, capacity, horizon, Initial));
  }

  /** With no attendants nobody is attended and every passenger spawned
      before the horizon is denied, in arrival order. */
  lemma RunWithoutAttendants(spawns: seq<Spawn>, draws: seq<real>, horizon: real)
    requires |draws| == |spawns| && Sorted(spawns)
    ensures var f := Simulate(spawns, draws, 0, horizon, Initial);
      f.attended == [] && f.inService == [] && f.denied == Stamps(spawns[..f.next])
  {
    InitialInv(spawns, draws, 0, horizon);
    SimulateKeepsInv(spawns, draws, 0, horizon, Initial);
  }

  /** With at least as many attendants as spawned passengers nobody is
      denied. */
  lemma RunWithAmpleAttendants(spawns: seq<Spawn>, draws: seq<real>, capacity: nat, horizon: real)
    requires |draws| == |spawns| && Sorted(spawns) && |spawns| <= capacity
    ensures Simulate(spawns, draws, capacity, horizon, Initial).denied == []
  {
    InitialInv(spawns, draws, capacity, horizon);
    SimulateKeepsInv(spawns, draws, capacity, horizon, Initial);
  }

  /** The per-run context: the clock, the attendant pool (its capacity and
      the passengers holding a server) and the two result logs. */
  class Lounge {
    const capacity: nat
    var clock: real
    var next: nat
    var inService: seq<Record>
    var attended: seq<Record>
    var denied: seq<real>

    function State(): Sim
      reads this
    {
      Sim(clock, next, inService, attended, denied)
    }

    /** A fresh context with `capacity` idle attendants and empty logs. */
    constructor (capacity: nat)
      ensures this.capacity == capacity && State() == Initial
    {
      this.capacity := capacity;
      clock, next := 0.0, 0;
      inService, attended, denied := [], [], [];
    }

    /** A passenger process starts: it asks for an attendant once, at this
        instant, and is either admitted (holding a server) or denied. */
    method Arrive(sp: Spawn, draw: real)
      modifies this
      ensures State() == OnArrival(old(State()), sp, draw, capacity)
    {
      clock := sp.at;
      next := next + 1;
      if capacity == 0 {
        denied := denied + [sp.stamp];
      } else if |inService| < capacity {
        inService := inService + [Served(sp, draw)];
      } else {
        denied := denied + [sp.stamp];
      }
    }

    /** The service of entry k ends: its attendant is released and the
        entry logged. */
    method Complete(k: nat)
      requires k < |inService|
      modifies this
      ensures State() == OnCompletion(old(State()), k)
    {
      var r := inService[k];
      clock := r.end;
      inService := inService[..k] + inService[k + 1..];
      attended := attended + [r];
    }

    /** Process events in time order until none is pending before the
        horizon. */
    method Run(spawns: seq<Spawn>, draws: seq<real>, horizon: real)
      requires |draws| == |spawns| && next <= |spawns|
      modifies this
      ensures State() == Simulate(spawns, draws, capacity, horizon, old(State()))
    {
      var running := true;
      while running
        invariant next <= |spawns|
        invariant Simulate(spawns, draws, capacity, horizon, State()) == Simulate(spawns, draws, capacity, horizon, old(State()))
        invariant !running ==> NextEvent(spawns, horizon, State()).Stop?
        decreases running, Work(|spawns|, State())
      {
        match NextEvent(spawns, horizon, State())
        case Completion(k) =>
          Complete(k);
        case Arrival =>
          Arrive(spawns[next], draws[next]);
        case Stop =>
          running := false;
      }
    }
  }
}
