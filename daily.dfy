/** The per-day arrival model (voo/main.py): a day loop draws how many
    passengers come that day and, for each, an intraday offset; the clock is
    advanced by the offset before the passenger is spawned, while the
    passenger logs `day * 24 + offset`. Times are in hours. The random draws
    are inputs: one count draw per day, that day's offsets (uniform in
    [0, 24)), and one service draw per spawned passenger. */
module Daily {
  import opened Records
  import Counter

  /** Python's int() on a float: truncation toward zero. */
  function Truncate(x: real): (n: int)
    ensures 0.0 <= x ==> n as real <= x < n as real + 1.0
    ensures x < 0.0 ==> n as real - 1.0 < x <= n as real
  {
    if 0.0 <= x then x.Floor else -((-x).Floor)
  }

  /** The day's passenger count: max(0, int(draw)). */
  function DailyCount(draw: real): (n: nat)
    ensures n == 0 <==> draw < 1.0
    ensures n > 0 ==> n as real <= draw < n as real + 1.0
  {
    var t := Truncate(draw);
    if t > 0 then t else 0
  }

  /** Total passengers of all days. */
  function Passengers(countDraws: seq<real>): nat
    decreases |countDraws|
  {
    if countDraws == [] then 0
    else Passengers(countDraws[..|countDraws| - 1]) + DailyCount(countDraws[|countDraws| - 1])
  }

  /** The shape of the draws: one offset per counted passenger of each day,
      every offset in [0, 24). */
  predicate Drawn(countDraws: seq<real>, offsets: seq<seq<real>>)
  {
    && |offsets| == |countDraws|
    && (forall d :: 0 <= d < |offsets| ==> |offsets[d]| == DailyCount(countDraws[d]))
    && (forall d, i :: 0 <= d < |offsets| && 0 <= i < |offsets[d]| ==> 0.0 <= offsets[d][i] < 24.0)
  }

  function Sum(xs: seq<real>): real
    decreases |xs|
  {
    if xs == [] then 0.0 else Sum(xs[..|xs| - 1]) + xs[|xs| - 1]
  }

  /** Everything the generator's clock has advanced by over whole days. */
  function TotalSum(days: seq<seq<real>>): real
    decreases |days|
  {
    if days == [] then 0.0 else TotalSum(days[..|days| - 1]) + Sum(days[|days| - 1])
  }

  /** All offsets of all days. */
  function Count(days: seq<seq<real>>): nat
    decreases |days|
  {
    if days == [] then 0 else Count(days[..|days| - 1]) + |days[|days| - 1]|
  }

  /** The passengers of day `day` whose offsets are `offs`, the clock being
      at `clock` when the day starts. */
  function DaySpawns(day: nat, offs: seq<real>, clock: real): (r: seq<Spawn>)
    ensures |r| == |offs|
    ensures forall i :: 0 <= i < |r| ==> r[i].stamp == (day * 24) as real + offs[i]
    decreases |offs|
  {
    if offs == [] then []
    else DaySpawns(day, offs[..|offs| - 1], clock) + [Spawn(clock + Sum(offs), (day * 24) as real + offs[|offs| - 1])]
  }

  /** The passengers of days 0 .. |days| - 1, in spawning order. */
  function AllSpawns(days: seq<seq<real>>): (r: seq<Spawn>)
    ensures |r| == Count(days)
    decreases |days|
  {
    if days == [] then []
    else AllSpawns(days[..|days| - 1]) + DaySpawns(|days| - 1, days[|days| - 1], TotalSum(days[..|days| - 1]))
  }

  /** The run lasts num_days * 24 hours. */
  function Horizon(numDays: nat): (h: real)
    ensures h == 24.0 * numDays as real
    ensures 0.0 < h <==> numDays > 0
  {
    (numDays * 24) as real
  }

  lemma SumSnoc(xs: seq<real>, n: nat)
    requires n < |xs|
    ensures Sum(xs[..n + 1]) == Sum(xs[..n]) + xs[n]
  {
    assert xs[..n + 1][..n] == xs[..n];
  }

  /** Passenger i of a day is spawned when the clock has advanced by the
      day's first i + 1 offsets, yet logs only the day's start plus its own
      offset: the two drift apart from the second passenger of a day on. */
  lemma {:induction false} DaySpawnAt(day: nat, offs: seq<real>, clock: real, i: nat)
    requires i < |offs|
    ensures DaySpawns(day, offs, clock)[i] == Spawn(clock + Sum(offs[..i + 1]), (day * 24) as real + offs[i])
    decreases |offs|
  {
    var m := |offs| - 1;
    if i < m {
      DaySpawnAt(day, offs[..m], clock, i);
      assert offs[..m][..i + 1] == offs[..i + 1];
    } else {
      assert offs[..i + 1] == offs;
    }
  }

  /** Day d's passengers form one block of the spawns, right after the
      passengers of days 0 .. d - 1. */
  lemma {:induction false} SpawnAt(days: seq<seq<real>>, d: nat, i: nat)
    requires d < |days| && i < |days[d]|
    ensures Count(days[..d]) + i < |AllSpawns(days)|
    ensures AllSpawns(days)[Count(days[..d]) + i]
         == Spawn(TotalSum(days[..d]) + Sum(days[d][..i + 1]), (d * 24) as real + days[d][i])
    decreases |days|
  {
    var m := |days| - 1;
    var front := days[..m];
    if d < m {
      SpawnAt(front, d, i);
      assert front[..d] == days[..d];
    } else {
      assert days[..d] == front;
      DaySpawnAt(d, days[d], TotalSum(front), i);
    }
  }

  /** Every offset of day d lies in [0, 24), so every arrival time that day
      logs lies in [24 d, 24 d + 24). */
  lemma StampInDay(countDraws: seq<real>, offsets: seq<seq<real>>, d: nat, i: nat)
    requires Drawn(countDraws, offsets) && d < |offsets| && i < |offsets[d]|
    ensures Count(offsets[..d]) + i < |AllSpawns(offsets)|
    ensures var sp := AllSpawns(offsets)[Count(offsets[..d]) + i];
      (d * 24) as real <= sp.stamp < (d * 24 + 24) as real
  {
    SpawnAt(offsets, d, i);
  }

  /** Every arrival time a run of |countDraws| days logs lies before its
      horizon. */
  lemma StampBeforeHorizon(countDraws: seq<real>, offsets: seq<seq<real>>, d: nat, i: nat)
    requires Drawn(countDraws, offsets) && d < |offsets| && i < |offsets[d]|
    ensures Count(offsets[..d]) + i < |AllSpawns(offsets)|
    ensures AllSpawns(offsets)[Count(offsets[..d]) + i].stamp < Horizon(|countDraws|)
  {
    StampInDay(countDraws, offsets, d, i);
  }

  /** Day d spawns exactly DailyCount of its draw, so all days together
      spawn Passengers(countDraws). */
  lemma {:induction false} PassengersSpawned(countDraws: seq<real>, offsets: seq<seq<real>>)
    requires Drawn(countDraws, offsets)
    ensures |AllSpawns(offsets)| == Passengers(countDraws)
    decreases |countDraws|
  {
    if countDraws != [] {
      var m := |countDraws| - 1;
      assert Drawn(countDraws[..m], offsets[..m]);
      PassengersSpawned(countDraws[..m], offsets[..m]);
    }
  }

  ghost predicate Within(spawns: seq<Spawn>, lo: real, hi: real)
  {
    forall k :: 0 <= k < |spawns| ==> lo <= spawns[k].at <= hi
  }

  lemma {:induction false} DaySorted(day: nat, offs: seq<real>, clock: real)
    requires forall i :: 0 <= i < |offs| ==> 0.0 <= offs[i]
    ensures 0.0 <= Sum(offs)
    ensures var r := DaySpawns(day, offs, clock);
      Within(r, clock, clock + Sum(offs)) && forall i, j :: 0 <= i <= j < |r| ==> r[i].at <= r[j].at
    decreases |offs|
  {
    if offs != [] {
      DaySorted(day, offs[..|offs| - 1], clock);
    }
  }

  /** Offsets are never negative, so the generator's clock never goes back
      and the passengers are spawned in time order from 0 on. */
  lemma {:induction false} SpawnsSorted(days: seq<seq<real>>)
    requires forall d, i :: 0 <= d < |days| && 0 <= i < |days[d]| ==> 0.0 <= days[d][i]
    ensures 0.0 <= TotalSum(days)
    ensures Counter.Sorted(AllSpawns(days)) && Within(AllSpawns(days), 0.0, TotalSum(days))
    decreases |days|
  {
    if days != [] {
      var m := |days| - 1;
      var front, c := days[..m], TotalSum(days[..m]);
      SpawnsSorted(front);
      DaySorted(m, days[m], c);
      var a: seq<Spawn> := AllSpawns(front);
      var b: seq<Spawn> := DaySpawns(m, days[m], c);
      assert AllSpawns(days) == a + b;
      forall i, j | 0 <= i <= j < |a + b| ensures (a + b)[i].at <= (a + b)[j].at {
        if j < |a| {
        } else if i < |a| {
          assert a[i].at <= c <= b[j - |a|].at;
        }
      }
    }
  }

  /** The per-passenger loop of generate_passenger_arrivals for day `day`:
      `n` passengers, the clock advancing by each offset before the
      passenger is spawned, each passenger logging day * 24 + offset. */
  method SpawnDay(day: nat, offs: seq<real>, n: nat, clock0: real, spawns0: seq<Spawn>)
    returns (spawns: seq<Spawn>, clock: real)
    requires n == |offs|
    ensures spawns == spawns0 + DaySpawns(day, offs, clock0)
    ensures clock == clock0 + Sum(offs)
  {
    spawns, clock := spawns0, clock0;
    var i := 0;
    while i < n
      invariant 0 <= i <= n
      invariant spawns == spawns0 + DaySpawns(day, offs[..i], clock0)
      invariant clock == clock0 + Sum(offs[..i])
    {
      var u := offs[i];
      SumSnoc(offs, i);
      assert offs[..i + 1][..i] == offs[..i];
      clock := clock + u;                                         // the timeout of u hours
      spawns := spawns + [Spawn(clock, (day * 24) as real + u)];  // the passenger logs day * 24 + u
      i := i + 1;
    }
    assert offs[..n] == offs;
  }

  /** generate_passenger_arrivals: the day loop, each day drawing its
      passenger count. */
  method GenerateArrivals(countDraws: seq<real>, offsets: seq<seq<real>>) returns (spawns: seq<Spawn>)
    requires Drawn(countDraws, offsets)
    ensures spawns == AllSpawns(offsets)
    ensures |spawns| == Passengers(countDraws)
  {
    spawns := [];
    var clock := 0.0;
    var day := 0;
    while day < |countDraws|
      invariant 0 <= day <= |countDraws|
      invariant spawns == AllSpawns(offsets[..day])
      invariant clock == TotalSum(offsets[..day])
    {
      var n := DailyCount(countDraws[day]);
      spawns, clock := SpawnDay(day, offsets[day], n, clock, spawns);
      assert offsets[..day + 1][..day] == offsets[..day];
      day := day + 1;
    }
    assert offsets[..day] == offsets;
    PassengersSpawned(countDraws, offsets);
  }

  /** run_simulation of the per-day model. A run of zero days fails: the
      clock cannot be run until time 0. Otherwise the counter runs for
      num_days * 24 hours with Capacity(numAttendants) attendants. */
  method RunSimulation(countDraws: seq<real>, offsets: seq<seq<real>>, serviceDraws: seq<real>, numAttendants: int)
    returns (r: Result<Outcome>)
    requires Drawn(countDraws, offsets)
    requires |serviceDraws| == |AllSpawns(offsets)|  // one service draw per spawned passenger
    ensures r.Err? <==> |countDraws| == 0
    ensures r.Ok? ==>
      var f := Counter.Simulate(AllSpawns(offsets), serviceDraws, Capacity(numAttendants), Horizon(|countDraws|), Counter.Initial);
      r.value == Outcome(f.attended, f.denied, Utilization(|f.attended|, |countDraws|, numAttendants))
    // every passenger spawned before the horizon is attended, denied or still in service
    ensures r.Ok? ==> |r.value.attended| + |r.value.denied| <= Passengers(countDraws)
    // with no attendants: nobody attended, utilization 0, all passengers before the horizon denied in order
    ensures r.Ok? && numAttendants <= 0 ==>
      && r.value.attended == [] && r.value.utilization == 0.0
      && |r.value.denied| <= |AllSpawns(offsets)|
      && r.value.denied == Counter.Stamps(AllSpawns(offsets)[..|r.value.denied|])
      && forall k :: 0 <= k < |AllSpawns(offsets)| ==> (k < |r.value.denied| <==> AllSpawns(offsets)[k].at < Horizon(|countDraws|))
  {
    var numDays := |countDraws|;
    if numDays == 0 {
      return Err(HorizonNotAhead(0.0));
    }
    var spawns := GenerateArrivals(countDraws, offsets);
    SpawnsSorted(offsets);
    var horizon := Horizon(numDays);
    var lounge := new Counter.Lounge(Capacity(numAttendants));
    lounge.Run(spawns, serviceDraws, horizon);
    Counter.RunOutcome(spawns, serviceDraws, Capacity(numAttendants), horizon);
    if numAttendants <= 0 {
      Counter.RunWithoutAttendants(spawns, serviceDraws, horizon);
    }
    r := Ok(Outcome(lounge.attended, lounge.denied, Utilization(|lounge.attended|, numDays, numAttendants)));
  }
}
