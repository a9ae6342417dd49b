/** The flight-schedule generator as evidently intended. The generator of
    voo/test.py waits `arrival_time - now` before each spawn, but the arrival
    times of the seats are independent draws and are not in time order. Two
    things then go wrong. A seat that arrives earlier than the one before it
    asks for a negative wait (`Flights.Premium` ends in `NegativeDelay`).
    A seat that arrives at or after the horizon (for the listed schedule,
    any seat of the 0:40 flight drawn more than 40 minutes before departure
    wraps to minute 1360 or later, past the horizon 1140) makes the
    generator wait past the end of the run: it stops without an error, and
    no later seat or flight spawns anyone. Here every premium
    passenger whose arrival time falls before the horizon is spawned at
    that time, in time order, whatever order the draws come in; when the
    draws are already in order this is exactly what the generator does. */
module InOrder {
  import opened Records
  import Counter
  import opened Flights

  predicate Ascending(s: seq<real>)
  {
    forall i, j :: 0 <= i <= j < |s| ==> s[i] <= s[j]
  }

  /** x placed into an ascending sequence before the first element not
      smaller than it. */
  function Insert(x: real, s: seq<real>): (r: seq<real>)
    requires Ascending(s)
    ensures Ascending(r) && multiset(r) == multiset(s) + multiset{x}
    ensures forall y :: y in r ==> y == x || y in s
    decreases |s|
  {
    if s == [] || x <= s[0] then [x] + s
    else
      assert s == [s[0]] + s[1..];
      var t := Insert(x, s[1..]);
      LowerBound(s[0], t, x, s[1..]);
      [s[0]] + t
  }

  lemma LowerBound(lo: real, t: seq<real>, x: real, s: seq<real>)
    requires lo <= x && (forall i :: 0 <= i < |s| ==> lo <= s[i])
    requires forall y :: y in t ==> y == x || y in s
    ensures forall j :: 0 <= j < |t| ==> lo <= t[j]
  {
    forall j | 0 <= j < |t| ensures lo <= t[j] {
      assert t[j] in t;
    }
  }

  /** The times in ascending order. */
  function SortTimes(s: seq<real>): (r: seq<real>)
    ensures Ascending(r) && multiset(r) == multiset(s)
    decreases |s|
  {
    if s == [] then []
    else
      assert s == [s[0]] + s[1..];
      Insert(s[0], SortTimes(s[1..]))
  }

  /** The times before the horizon, in their original order. */
  function Below(s: seq<real>, horizon: real): (r: seq<real>)
    ensures forall x :: multiset(r)[x] == if x < horizon then multiset(s)[x] else 0
    decreases |s|
  {
    if s == [] then []
    else
      assert s == [s[0]] + s[1..];
      (if s[0] < horizon then [s[0]] else []) + Below(s[1..], horizon)
  }

  lemma {:induction false} StampsOfSpawns(t: seq<real>)
    ensures Counter.Stamps(AsSpawns(t)) == t
    decreases |t|
  {
    if t != [] {
      var n := |t| - 1;
      assert AsSpawns(t)[..n] == AsSpawns(t[..n]);
      StampsOfSpawns(t[..n]);
      assert t == t[..n] + [t[n]];
    }
  }

  /** Every time kept and sorted lies between 0 and the horizon. */
  lemma KeptTimesBounded(times: seq<real>, horizon: real)
    requires forall k :: 0 <= k < |times| ==> 0.0 <= times[k]
    ensures forall k :: 0 <= k < |SortTimes(Below(times, horizon))| ==> 0.0 <= SortTimes(Below(times, horizon))[k] < horizon
  {
    var t := SortTimes(Below(times, horizon));
    forall k | 0 <= k < |t| ensures 0.0 <= t[k] < horizon {
      assert t[k] in multiset(Below(times, horizon));
      var j :| 0 <= j < |times| && times[j] == t[k];
    }
  }

  /** Spawning at ascending times in [0, horizon) gives spawns in time order
      that log their own start instants and end before the horizon. */
  lemma AscendingSpawns(t: seq<real>, horizon: real)
    requires Ascending(t) && forall k :: 0 <= k < |t| ==> 0.0 <= t[k] < horizon
    ensures Counter.Sorted(AsSpawns(t))
    ensures forall k :: 0 <= k < |t| ==> AsSpawns(t)[k].stamp == AsSpawns(t)[k].at < horizon
  {
  }

  /** The spawns of the intended generator: one per arrival time before the
      horizon, each logging the instant it starts at, in time order. */
  function Scheduled(times: seq<real>, horizon: real): (r: seq<Spawn>)
    requires forall k :: 0 <= k < |times| ==> 0.0 <= times[k]
    ensures Counter.Sorted(r)
    ensures forall k :: 0 <= k < |r| ==> r[k].stamp == r[k].at < horizon
    ensures forall x :: multiset(Counter.Stamps(r))[x] == if x < horizon then multiset(times)[x] else 0
  {
    var t := SortTimes(Below(times, horizon));
    StampsOfSpawns(t);
    KeptTimesBounded(times, horizon);
    AscendingSpawns(t, horizon);
    AsSpawns(t)
  }

  /** A wrapped arrival time is never negative: a departure minus at most
      120 minutes, moved up by a day when it falls before midnight. */
  lemma {:induction false} TimesNotNegative(deps: seq<nat>, offsets: seq<seq<real>>)
    requires |deps| == |offsets| && Bounded(offsets)
    ensures forall k :: 0 <= k < |AllTimes(deps, offsets)| ==> 0.0 <= AllTimes(deps, offsets)[k]
    decreases |deps|
  {
    if deps != [] {
      TimesNotNegative(deps[1..], offsets[1..]);
      var head, tail := FlightTimes(deps[0], offsets[0]), AllTimes(deps[1..], offsets[1..]);
      var times := AllTimes(deps, offsets);
      assert times == head + tail;
      forall k | 0 <= k < |times| ensures 0.0 <= times[k] {
        if k < |head| {
          assert offsets[0][k] <= 120.0;
          assert 0.0 <= ArrivalBefore(deps[0], offsets[0][k]);
          assert times[k] == head[k] == ArrivalBefore(deps[0], offsets[0][k]);
        } else {
          assert times[k] == tail[k - |head|];
        }
      }
    }
  }

  /** The offsets of `Drawn` are at most 120 minutes. */
  predicate Bounded(offsets: seq<seq<real>>)
  {
    forall f, j :: 0 <= f < |offsets| && 0 <= j < |offsets[f]| ==> offsets[f][j] <= 120.0
  }

  /** The spawns for departures `deps` in minutes. */
  function SeatSpawns(deps: seq<nat>, offsets: seq<seq<real>>, horizon: real): (r: seq<Spawn>)
    requires |deps| == |offsets| && Bounded(offsets)
    ensures |r| <= Draws(offsets)
  {
    var times := AllTimes(deps, offsets);
    TimesNotNegative(deps, offsets);
    BelowShorter(times, horizon);
    var r := Scheduled(times, horizon);
    assert |Counter.Stamps(r)| == |multiset(Counter.Stamps(r))|;
    assert |multiset(Counter.Stamps(r))| == |multiset(Below(times, horizon))| by {
      assert multiset(Counter.Stamps(r)) == multiset(Below(times, horizon));
    }
    r
  }

  /** The premium passengers the intended generator spawns before the
      horizon; the only errors left are those of the horizon itself. */
  function PremiumInOrder(schedule: seq<Flight>, offsets: seq<seq<real>>): (r: Result<seq<Spawn>>)
    requires Drawn(schedule, offsets)
    ensures r.Err? <==> ScheduleHorizon(schedule).Err?
    ensures r.Err? ==> r.error == ScheduleHorizon(schedule).error
  {
    match ScheduleHorizon(schedule)
    case Err(e) => Err(e)
    case Ok(horizon) => Ok(SeatSpawns(ParseDepartures(schedule).value, offsets, horizon))
  }

  /** Every premium passenger arriving before the horizon is spawned once,
      at its arrival time, and the spawns are in time order. */
  lemma PremiumInOrderSpawnsAll(schedule: seq<Flight>, offsets: seq<seq<real>>)
    requires Drawn(schedule, offsets) && ScheduleHorizon(schedule).Ok?
    ensures var spawns, horizon := PremiumInOrder(schedule, offsets).value, ScheduleHorizon(schedule).value;
      var times := AllTimes(ParseDepartures(schedule).value, offsets);
      && Counter.Sorted(spawns)
      && (forall k :: 0 <= k < |spawns| ==> spawns[k].stamp == spawns[k].at < horizon)
      && (forall x :: multiset(Counter.Stamps(spawns))[x] == if x < horizon then multiset(times)[x] else 0)
  {
  }

  lemma {:induction false} SortAscending(s: seq<real>)
    requires Ascending(s)
    ensures SortTimes(s) == s
    decreases |s|
  {
    if s != [] {
      SortAscending(s[1..]);
      assert s == [s[0]] + s[1..];
    }
  }

  /** In time order, the generator's waits are never negative, and it stops
      at the first arrival not before the horizon: it spawns exactly the
      arrivals before the horizon. */
  lemma {:induction false} SpawnedAscending(times: seq<real>, now: real, horizon: real)
    requires Ascending(times) && (times != [] ==> now <= times[0])
    ensures Spawned(times, now, horizon) == Ok(Below(times, horizon))
    decreases |times|
  {
    if times != [] {
      var rest := times[1..];
      if horizon <= times[0] {
        BelowNone(times, horizon);
      } else {
        SpawnedAscending(rest, times[0], horizon);
      }
    }
  }

  lemma {:induction false} BelowNone(times: seq<real>, horizon: real)
    requires Ascending(times) && times != [] && horizon <= times[0]
    ensures Below(times, horizon) == []
    decreases |times|
  {
    if |times| > 1 {
      BelowNone(times[1..], horizon);
    }
  }

  /** Where the arrival times come in time order the generator as written
      and the intended one spawn the same passengers. */
  lemma SpawnsAgree(deps: seq<nat>, offsets: seq<seq<real>>, horizon: real)
    requires |deps| == |offsets| && Bounded(offsets)
    requires Ascending(AllTimes(deps, offsets))
    ensures Lift(Spawned(AllTimes(deps, offsets), 0.0, horizon)) == Ok(SeatSpawns(deps, offsets, horizon))
  {
    var times := AllTimes(deps, offsets);
    TimesNotNegative(deps, offsets);
    SpawnedAscending(times, 0.0, horizon);
    BelowAscending(times, horizon);
    SortAscending(Below(times, horizon));
  }

  /** The same for a whole schedule. */
  lemma PremiumAgrees(schedule: seq<Flight>, offsets: seq<seq<real>>)
    requires Drawn(schedule, offsets) && ScheduleHorizon(schedule).Ok?
    requires Ascending(AllTimes(ParseDepartures(schedule).value, offsets))
    ensures Premium(schedule, offsets) == PremiumInOrder(schedule, offsets)
  {
    SpawnsAgree(ParseDepartures(schedule).value, offsets, ScheduleHorizon(schedule).value);
  }

  lemma {:induction false} BelowAscending(times: seq<real>, horizon: real)
    requires Ascending(times)
    ensures Ascending(Below(times, horizon)) && Below(times, horizon) <= times
    decreases |times|
  {
    if times != [] {
      BelowAscending(times[1..], horizon);
      if times[0] < horizon {
        var rest := Below(times[1..], horizon);
        assert rest <= times[1..];
        forall j | 0 <= j < |rest| ensures times[0] <= rest[j] {
          assert rest[j] == times[1 + j];
        }
      } else if |times| > 1 {
        BelowNone(times, horizon);
      }
    }
  }

  /** Two seats of the 0:40 flight drawing 30 and then 35 minutes arrive at
      0:10 and then 0:05: the generator as written asks for a wait of -5
      minutes and the run fails. */
  lemma SeatsOutOfOrder()
    ensures Premium([Flight(Carrier, "0:40", 2)], [[30.0, 35.0]]) == Err(NegativeDelay(5.0, 10.0))
  {
    FirstFlightHorizon();
    ExampleTimes();
  }

  /** The intended generator spawns both passengers of that example, the
      second one first. */
  lemma SeatsInOrder()
    ensures PremiumInOrder([Flight(Carrier, "0:40", 2)], [[30.0, 35.0]]) == Ok([Spawn(5.0, 5.0), Spawn(10.0, 10.0)])
  {
    FirstFlightHorizon();
    ExampleTimes();
  }

  /** The example's arrival times, what the generator as written makes of
      them, and what the intended one makes of them. */
  lemma ExampleTimes()
    ensures AllTimes([40], [[30.0, 35.0]]) == [10.0, 5.0]
    ensures Spawned([10.0, 5.0], 0.0, 100.0) == Err(NegativeDelay(5.0, 10.0))
    ensures SeatSpawns([40], [[30.0, 35.0]], 100.0) == [Spawn(5.0, 5.0), Spawn(10.0, 10.0)]
  {
    var offsets := [[30.0, 35.0]];
    assert AllTimes([40], offsets) == FlightTimes(40, [30.0, 35.0]) + AllTimes([], []);
    var times := [10.0, 5.0];
    assert times[1..] == [5.0];
    assert Below([5.0], 100.0) == [5.0] by { assert [5.0][1..] == []; }
    assert Below(times, 100.0) == [10.0, 5.0];
    assert SortTimes([5.0]) == [5.0] by { assert [5.0][1..] == []; }
    assert SortTimes([10.0, 5.0]) == [5.0, 10.0];
  }

  /** The generator as written stops for good at a seat whose wrapped
      arrival lies past the horizon: with offsets 50 then 30 the first seat
      arrives at 1430 (40 - 50 wrapped into the day), past the horizon 100,
      and the second seat, arriving at 10, is never spawned. The intended
      generator spawns that second passenger. */
  lemma SeatBeyondHorizon()
    ensures Premium([Flight(Carrier, "0:40", 2)], [[50.0, 30.0]]) == Ok([])
    ensures PremiumInOrder([Flight(Carrier, "0:40", 2)], [[50.0, 30.0]]) == Ok([Spawn(10.0, 10.0)])
  {
    FirstFlightHorizon();
    OvershootTimes();
  }

  /** The arrival times of that example and what either generator makes of
      them. */
  lemma OvershootTimes()
    ensures AllTimes([40], [[50.0, 30.0]]) == [1430.0, 10.0]
    ensures Spawned([1430.0, 10.0], 0.0, 100.0) == Ok([])
    ensures SeatSpawns([40], [[50.0, 30.0]], 100.0) == [Spawn(10.0, 10.0)]
  {
    var offsets := [[50.0, 30.0]];
    assert AllTimes([40], offsets) == FlightTimes(40, [50.0, 30.0]) + AllTimes([], []);
    var times := [1430.0, 10.0];
    assert times[1..] == [10.0];
    assert Below([10.0], 100.0) == [10.0] by { assert [10.0][1..] == []; }
    assert Below(times, 100.0) == [10.0];
    assert SortTimes([10.0]) == [10.0] by { assert [10.0][1..] == []; }
  }

  /** The one-flight schedule of the example departs at minute 40 and runs
      until minute 100. */
  lemma FirstFlightHorizon()
    ensures var schedule := [Flight(Carrier, "0:40", 2)];
      ParseDepartures(schedule) == Ok([40]) && ScheduleHorizon(schedule) == Ok(100.0)
  {
    var schedule := [Flight(Carrier, "0:40", 2)];
    Departure0();
    assert Departures[0] == "0:40";
    assert schedule[1..] == [];
    assert DepartureMinutes[0] == 40;
    assert TimeToMinutes(schedule[0].departure) == Ok(40);
    assert ParseDepartures(schedule[1..]) == Ok([]);
    assert [40] + [] == [40];
  }

  /** run_simulation with the intended generator: the counter run over the
      spawns of `PremiumInOrder`. */
  method RunInOrder(schedule: seq<Flight>, offsets: seq<seq<real>>, serviceDraws: seq<real>, numAttendants: int)
    returns (r: Result<Outcome>)
    requires Drawn(schedule, offsets)
    requires |serviceDraws| == Draws(offsets)  // one service draw per premium seat
    ensures r.Err? <==> ScheduleHorizon(schedule).Err?
    ensures r.Ok? ==>
      var spawns, horizon := PremiumInOrder(schedule, offsets).value, ScheduleHorizon(schedule).value;
      var f := Counter.Simulate(spawns, serviceDraws[..|spawns|], Capacity(numAttendants), horizon, Counter.Initial);
      r.value == Outcome(f.attended, f.denied, Utilization(|f.attended|, |schedule|, numAttendants))
    ensures r.Ok? ==> |r.value.attended| + |r.value.denied| <= |PremiumInOrder(schedule, offsets).value|
    ensures r.Ok? ==> forall e :: e in r.value.attended ==>
      e.start == e.arrival <= e.end < ScheduleHorizon(schedule).value
    ensures r.Ok? && numAttendants <= 0 ==>
      (r.value.attended == [] && r.value.utilization == 0.0 && r.value.denied == Counter.Stamps(PremiumInOrder(schedule, offsets).value))
  {
    var h := ScheduleHorizon(schedule);
    if h.Err? {
      return Err(h.error);
    }
    var g := PremiumInOrder(schedule, offsets);
    var spawns := g.value;
    var o := Serve(spawns, serviceDraws[..|spawns|], h.value, numAttendants, |schedule|);
    r := Ok(o);
  }

  lemma {:induction false} BelowShorter(times: seq<real>, horizon: real)
    ensures |Below(times, horizon)| <= |times|
    decreases |times|
  {
    if times != [] {
      BelowShorter(times[1..], horizon);
    }
  }
}
