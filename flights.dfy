/** The flight-schedule arrival model (voo/test.py): premium passengers of
    each flight arrive between 30 and 120 minutes before its departure,
    wrapped into the day; the generator waits until each arrival time and
    spawns the passenger there. The clock is in minutes. The random draws
    are inputs: the seat counts of the generated schedule, one offset per
    premium seat, and one service draw per spawned passenger. */
module Flights {
  import opened Records
  import Counter

  /** A minute-of-day clock wraps after 24 * 60 minutes. */
  const MinutesPerDay: nat := 1440

  // ---------------------------------------------------------------------
  // Departure times "H:MM"

  predicate IsDigit(c: char)
  {
    '0' <= c <= '9'
  }

  function DigitValue(c: char): (d: nat)
    requires IsDigit(c)
    ensures d < 10
  {
    c as int - '0' as int
  }

  function DigitChar(d: nat): (c: char)
    requires d < 10
    ensures IsDigit(c) && DigitValue(c) == d
  {
    ('0' as int + d) as char
  }

  /** int() of a string of decimal digits; None for anything else. */
  function ParseNat(s: string): (r: Option<nat>)
    ensures r.Some? <==> s != [] && forall i :: 0 <= i < |s| ==> IsDigit(s[i])
    decreases |s|
  {
    if s == [] || !IsDigit(s[|s| - 1]) then None
    else if |s| == 1 then Some(DigitValue(s[0]))
    else match ParseNat(s[..|s| - 1])
      case None => None
      case Some(v) => Some(10 * v + DigitValue(s[|s| - 1]))
  }

  /** The index of the first ':' in s, if any. */
  function ColonAt(s: string): (k: Option<nat>)
    ensures k.Some? ==> k.value < |s| && s[k.value] == ':' && ':' !in s[..k.value]
    ensures k.None? ==> ':' !in s
    decreases |s|
  {
    if s == [] then None
    else if s[0] == ':' then Some(0)
    else match ColonAt(s[1..])
      case None => None
      case Some(k) => Some(k + 1)
  }

  /** time_to_minutes: split at ':' into exactly two parts, read both as
      integers, and return hours * 60 + minutes. */
  function TimeToMinutes(s: string): (r: Result<nat>)
    ensures ':' !in s ==> r == Err(BadTime(s))
    ensures r.Err? ==> r.error == BadTime(s)
  {
    match ColonAt(s)
    case None => Err(BadTime(s))
    case Some(k) =>
      var hours, minutes := s[..k], s[k + 1..];
      if ':' in minutes then Err(BadTime(s))
      else match (ParseNat(hours), ParseNat(minutes))
        case (Some(h), Some(m)) => Ok(h * 60 + m)
        case _ => Err(BadTime(s))
  }

  /** s is an hours part and a minutes part, both decimal digits, joined
      by one ':'. */
  predicate SplitsAs(s: string, hours: string, minutes: string)
  {
    s == hours + ":" + minutes && ParseNat(hours).Some? && ParseNat(minutes).Some?
  }

  /** A time reads as v exactly when it splits at its one ':' into two
      integers h and m with v == h * 60 + m; two or more colons, or a part
      that is empty or not all digits, make it unreadable. */
  lemma TimeToMinutesSplit(s: string, v: nat)
    ensures TimeToMinutes(s) == Ok(v) <==>
      exists hours, minutes :: SplitsAs(s, hours, minutes) && v == ParseNat(hours).value * 60 + ParseNat(minutes).value
  {
    if TimeToMinutes(s) == Ok(v) {
      var hours, minutes := ReadSplits(s);
      assert SplitsAs(s, hours, minutes) && v == ParseNat(hours).value * 60 + ParseNat(minutes).value;
    }
    else {
      forall hours, minutes | SplitsAs(s, hours, minutes)
        ensures v != ParseNat(hours).value * 60 + ParseNat(minutes).value
      {
        SplitReads(s, hours, minutes);
      }
    }
  }

  /** A readable time is split at its first ':' into two integers. */
  lemma ReadSplits(s: string) returns (hours: string, minutes: string)
    requires TimeToMinutes(s).Ok?
    ensures SplitsAs(s, hours, minutes)
    ensures TimeToMinutes(s).value == ParseNat(hours).value * 60 + ParseNat(minutes).value
  {
    var k := ColonAt(s).value;
    hours, minutes := s[..k], s[k + 1..];
    assert s == hours + ":" + minutes;
  }

  /** Two integers joined by ':' read as hours * 60 + minutes. */
  lemma SplitReads(s: string, hours: string, minutes: string)
    requires SplitsAs(s, hours, minutes)
    ensures TimeToMinutes(s) == Ok(ParseNat(hours).value * 60 + ParseNat(minutes).value)
  {
    DigitsNoColon(hours);
    DigitsNoColon(minutes);
    ColonPrefix(hours, minutes);
    assert s[..|hours|] == hours && s[|hours| + 1..] == minutes;
  }

  lemma DigitsNoColon(t: string)
    requires ParseNat(t).Some?
    ensures ':' !in t
  {
    forall i | 0 <= i < |t| ensures t[i] != ':' { assert IsDigit(t[i]); }
  }

  /** The decimal digits of n, without leading zeros. */
  function Decimal(n: nat): (s: string)
    ensures s != [] && forall i :: 0 <= i < |s| ==> IsDigit(s[i])
    decreases n
  {
    if n < 10 then [DigitChar(n)] else Decimal(n / 10) + [DigitChar(n % 10)]
  }

  /** "H:MM": hours without leading zeros, minutes on two digits. */
  function FormatTime(h: nat, m: nat): string
    requires m < 100
  {
    Decimal(h) + ":" + [DigitChar(m / 10), DigitChar(m % 10)]
  }

  lemma {:induction false} ParseDecimal(n: nat)
    ensures ParseNat(Decimal(n)) == Some(n)
    decreases n
  {
    if n >= 10 {
      ParseDecimal(n / 10);
      var s := Decimal(n);
      assert s[..|s| - 1] == Decimal(n / 10);
    }
  }

  /** Reading back a formatted time gives hours * 60 + minutes, and a time
      of day (H < 24, MM < 60) is a minute of the day. */
  lemma TimeRoundTrip(h: nat, m: nat)
    requires m < 100
    ensures TimeToMinutes(FormatTime(h, m)) == Ok(h * 60 + m)
    ensures h < 24 && m < 60 ==> h * 60 + m < MinutesPerDay
  {
    var d := Decimal(h);
    var mm := [DigitChar(m / 10), DigitChar(m % 10)];
    var s := FormatTime(h, m);
    assert ':' !in d by {
      forall i | 0 <= i < |d| ensures d[i] != ':' { assert IsDigit(d[i]); }
    }
    assert ColonAt(s) == Some(|d|) by {
      ColonPrefix(d, mm);
    }
    assert s[..|d|] == d && s[|d| + 1..] == mm;
    ParseDecimal(h);
    assert mm[..1] == [DigitChar(m / 10)];
    assert ParseNat(mm) == Some(m);
  }

  lemma {:induction false} ColonPrefix(d: string, t: string)
    requires ':' !in d
    ensures ColonAt(d + ":" + t) == Some(|d|)
    decreases |d|
  {
    if d != [] {
      assert (d + ":" + t)[1..] == d[1..] + ":" + t;
      ColonPrefix(d[1..], t);
    }
  }

  // ---------------------------------------------------------------------
  // The flight schedule

  datatype Flight = Flight(carrier: string, departure: string, seats: int)

  const Carrier: string := "CIA AEREA NOS ARES"

  const Departures: seq<string> :=
    ["0:40", "1:20", "1:45", "1:50", "4:05", "9:15", "10:05", "10:35", "11:50", "13:50",
     "14:15", "14:15", "14:40", "15:30", "16:00", "17:05", "17:10", "17:40", "18:00", "18:00"]

  /** generate_schedule: one flight per listed departure, in order, with the
      seat count drawn for it; the draws come from randint(20, 100), which
      excludes 100. */
  method GenerateSchedule(seatDraws: seq<int>) returns (schedule: seq<Flight>)
    requires |seatDraws| == |Departures|
    requires forall i :: 0 <= i < |seatDraws| ==> 20 <= seatDraws[i] < 100
    ensures |schedule| == 20
    ensures forall i :: 0 <= i < |schedule| ==> schedule[i] == Flight(Carrier, Departures[i], seatDraws[i])
    ensures forall i :: 0 <= i < |schedule| ==> 20 <= schedule[i].seats <= 99
  {
    schedule := [];
    var i := 0;
    while i < |Departures|
      invariant 0 <= i <= |Departures|
      invariant |schedule| == i
      invariant forall k :: 0 <= k < i ==> schedule[k] == Flight(Carrier, Departures[k], seatDraws[k])
    {
      schedule := schedule + [Flight(Carrier, Departures[i], seatDraws[i])];
      i := i + 1;
    }
  }

  /** The listed departures in minutes since midnight. */
  const DepartureMinutes: seq<nat> :=
    [40, 80, 105, 110, 245, 555, 605, 635, 710, 830, 855, 855, 880, 930, 960, 1025, 1030, 1060, 1080, 1080]

  // One lemma per listed departure: each reads its "H:MM" literal through
  // TimeRoundTrip. Reading all twenty literals inside one proof (a case
  // split in DepartureAt) is beyond the solver's budget, so DepartureAt only
  // dispatches to these.
  lemma Departure0()
    ensures TimeToMinutes(Departures[0]) == Ok(DepartureMinutes[0])
  {
    TimeRoundTrip(0, 40);
    assert Departures[0] == FormatTime(0, 40);
  }

  lemma Departure1()
    ensures TimeToMinutes(Departures[1]) == Ok(DepartureMinutes[1])
  {
    TimeRoundTrip(1, 20);
    assert Departures[1] == FormatTime(1, 20);
  }

  lemma Departure2()
    ensures TimeToMinutes(Departures[2]) == Ok(DepartureMinutes[2])
  {
    TimeRoundTrip(1, 45);
    assert Departures[2] == FormatTime(1, 45);
  }

  lemma Departure3()
    ensures TimeToMinutes(Departures[3]) == Ok(DepartureMinutes[3])
  {
    TimeRoundTrip(1, 50);
    assert Departures[3] == FormatTime(1, 50);
  }

  lemma Departure4()
    ensures TimeToMinutes(Departures[4]) == Ok(DepartureMinutes[4])
  {
    TimeRoundTrip(4, 5);
    assert Departures[4] == FormatTime(4, 5);
  }

  lemma Departure5()
    ensures TimeToMinutes(Departures[5]) == Ok(DepartureMinutes[5])
  {
    TimeRoundTrip(9, 15);
    assert Departures[5] == FormatTime(9, 15);
  }

  lemma Departure6()
    ensures TimeToMinutes(Departures[6]) == Ok(DepartureMinutes[6])
  {
    TimeRoundTrip(10, 5);
    assert Departures[6] == FormatTime(10, 5);
  }

  lemma Departure7()
    ensures TimeToMinutes(Departures[7]) == Ok(DepartureMinutes[7])
  {
    TimeRoundTrip(10, 35);
    assert Departures[7] == FormatTime(10, 35);
  }

  lemma Departure8()
    ensures TimeToMinutes(Departures[8]) == Ok(DepartureMinutes[8])
  {
    TimeRoundTrip(11, 50);
    assert Departures[8] == FormatTime(11, 50);
  }

  lemma Departure9()
    ensures TimeToMinutes(Departures[9]) == Ok(DepartureMinutes[9])
  {
    TimeRoundTrip(13, 50);
    assert Departures[9] == FormatTime(13, 50);
  }

  lemma Departure10()
    ensures TimeToMinutes(Departures[10]) == Ok(DepartureMinutes[10])
  {
    TimeRoundTrip(14, 15);
    assert Departures[10] == FormatTime(14, 15);
  }

  lemma Departure11()
    ensures TimeToMinutes(Departures[11]) == Ok(DepartureMinutes[11])
  {
    TimeRoundTrip(14, 15);
    assert Departures[11] == FormatTime(14, 15);
  }

  lemma Departure12()
    ensures TimeToMinutes(Departures[12]) == Ok(DepartureMinutes[12])
  {
    TimeRoundTrip(14, 40);
    assert Departures[12] == FormatTime(14, 40);
  }

  lemma Departure13()
    ensures TimeToMinutes(Departures[13]) == Ok(DepartureMinutes[13])
  {
    TimeRoundTrip(15, 30);
    assert Departures[13] == FormatTime(15, 30);
  }

  lemma Departure14()
    ensures TimeToMinutes(Departures[14]) == Ok(DepartureMinutes[14])
  {
    TimeRoundTrip(16, 0);
    assert Departures[14] == FormatTime(16, 0);
  }

  lemma Departure15()
    ensures TimeToMinutes(Departures[15]) == Ok(DepartureMinutes[15])
  {
    TimeRoundTrip(17, 5);
    assert Departures[15] == FormatTime(17, 5);
  }

  lemma Departure16()
    ensures TimeToMinutes(Departures[16]) == Ok(DepartureMinutes[16])
  {
    TimeRoundTrip(17, 10);
    assert Departures[16] == FormatTime(17, 10);
  }

  lemma Departure17()
    ensures TimeToMinutes(Departures[17]) == Ok(DepartureMinutes[17])
  {
    TimeRoundTrip(17, 40);
    assert Departures[17] == FormatTime(17, 40);
  }

  lemma Departure18()
    ensures TimeToMinutes(Departures[18]) == Ok(DepartureMinutes[18])
  {
    TimeRoundTrip(18, 0);
    assert Departures[18] == FormatTime(18, 0);
  }

  lemma Departure19()
    ensures TimeToMinutes(Departures[19]) == Ok(DepartureMinutes[19])
  {
    TimeRoundTrip(18, 0);
    assert Departures[19] == FormatTime(18, 0);
  }

  /** Each listed departure reads as the minute of the day given above. */
  lemma DepartureAt(i: nat)
    requires i < |Departures|
    ensures TimeToMinutes(Departures[i]) == Ok(DepartureMinutes[i])
  {
    if i == 0 { Departure0();
    } else if i == 1 { Departure1();
    } else if i == 2 { Departure2();
    } else if i == 3 { Departure3();
    } else if i == 4 { Departure4();
    } else if i == 5 { Departure5();
    } else if i == 6 { Departure6();
    } else if i == 7 { Departure7();
    } else if i == 8 { Departure8();
    } else if i == 9 { Departure9();
    } else if i == 10 { Departure10();
    } else if i == 11 { Departure11();
    } else if i == 12 { Departure12();
    } else if i == 13 { Departure13();
    } else if i == 14 { Departure14();
    } else if i == 15 { Departure15();
    } else if i == 16 { Departure16();
    } else if i == 17 { Departure17();
    } else if i == 18 { Departure18();
    } else if i == 19 { Departure19();
    }
  }

  /** Every listed departure is a minute of the day, and the latest is
      18:00, minute 1080. */
  lemma DeparturesAreTimesOfDay()
    ensures forall i :: 0 <= i < |Departures| ==> TimeToMinutes(Departures[i]).Ok?
    ensures forall i :: 0 <= i < |Departures| ==> TimeToMinutes(Departures[i]).value <= 1080 < MinutesPerDay
    ensures TimeToMinutes(Departures[19]) == Ok(1080)
  {
    forall i | 0 <= i < |Departures|
      ensures TimeToMinutes(Departures[i]) == Ok(DepartureMinutes[i]) && DepartureMinutes[i] <= 1080
    {
      DepartureAt(i);
    }
    DepartureAt(19);
  }

  // ---------------------------------------------------------------------
  // The horizon

  /** Every flight's departure in minutes, or the error of the first
      unreadable one. */
  function ParseDepartures(schedule: seq<Flight>): (r: Result<seq<nat>>)
    ensures r.Ok? ==> |r.value| == |schedule|
    ensures r.Ok? ==> forall i :: 0 <= i < |schedule| ==> TimeToMinutes(schedule[i].departure) == Ok(r.value[i])
    ensures r.Err? ==> exists i :: (0 <= i < |schedule| && TimeToMinutes(schedule[i].departure) == Err(r.error)
      && forall j :: 0 <= j < i ==> TimeToMinutes(schedule[j].departure).Ok?)
    decreases |schedule|
  {
    if schedule == [] then Ok([])
    else match TimeToMinutes(schedule[0].departure)
      case Err(e) => Err(e)
      case Ok(m) =>
        var rest := schedule[1..];
        assert forall j :: 0 <= j < |rest| ==> rest[j] == schedule[j + 1];
        match ParseDepartures(rest)
        case Err(e) => Err(e)
        case Ok(ms) => Ok([m] + ms)
  }

  function MaxOf(xs: seq<nat>): (m: nat)
    requires xs != []
    ensures forall i :: 0 <= i < |xs| ==> xs[i] <= m
    ensures exists i :: 0 <= i < |xs| && xs[i] == m
    decreases |xs|
  {
    if |xs| == 1 then xs[0]
    else
      var m := MaxOf(xs[1..]);
      if xs[0] >= m then xs[0] else m
  }

  /** The run lasts until the latest departure plus 60 minutes. With no
      flights there is no maximum; an unreadable departure is an error. */
  function ScheduleHorizon(schedule: seq<Flight>): (r: Result<real>)
    ensures schedule == [] ==> r == Err(EmptySchedule)
    ensures r.Ok? <==> schedule != [] && ParseDepartures(schedule).Ok?
    ensures r.Ok? ==> forall i :: 0 <= i < |schedule| ==>
      (ParseDepartures(schedule).value[i] + 60) as real <= r.value
    ensures r.Ok? ==> exists i :: (0 <= i < |schedule| &&
      (ParseDepartures(schedule).value[i] + 60) as real == r.value)
  {
    if schedule == [] then Err(EmptySchedule)
    else match ParseDepartures(schedule)
      case Err(e) => Err(e)
      case Ok(deps) => Ok((MaxOf(deps) + 60) as real)
  }

  // ---------------------------------------------------------------------
  // generate_premium_passengers

  /** range() of a negative count is empty: the same clamp as the
      attendant count. */
  function SeatCount(seats: int): (n: nat)
    ensures seats > 0 ==> n == seats
    ensures seats <= 0 ==> n == 0
  {
    Capacity(seats)
  }

  /** The shape of the offset draws: one per premium seat of each flight,
      each in [30, 120] minutes. */
  predicate Drawn(schedule: seq<Flight>, offsets: seq<seq<real>>)
  {
    && |offsets| == |schedule|
    && (forall f :: 0 <= f < |offsets| ==> |offsets[f]| == SeatCount(schedule[f].seats))
    && (forall f, j :: 0 <= f < |offsets| && 0 <= j < |offsets[f]| ==> 30.0 <= offsets[f][j] <= 120.0)
  }

  /** All offset draws together. */
  function Draws(offsets: seq<seq<real>>): nat
    decreases |offsets|
  {
    if offsets == [] then 0 else |offsets[0]| + Draws(offsets[1..])
  }

  /** The arrival time `offset` minutes before `departure`, moved into the
      day by adding 24 hours when it falls before midnight. */
  function ArrivalBefore(departure: nat, offset: real): (a: real)
    ensures a == departure as real - offset || a == departure as real - offset + MinutesPerDay as real
    ensures departure as real - offset >= 0.0 ==> a == departure as real - offset
    ensures departure as real - offset < 0.0 ==> a == departure as real - offset + MinutesPerDay as real
    ensures departure < MinutesPerDay && 30.0 <= offset <= 120.0 ==> 0.0 <= a < MinutesPerDay as real
  {
    var a := departure as real - offset;
    if a < 0.0 then a + MinutesPerDay as real else a
  }

  /** The arrival times of one flight's premium passengers, in order. */
  function FlightTimes(departure: nat, offs: seq<real>): (r: seq<real>)
    ensures |r| == |offs|
    ensures forall j :: 0 <= j < |offs| ==> r[j] == ArrivalBefore(departure, offs[j])
  {
    seq(|offs|, j requires 0 <= j < |offs| => ArrivalBefore(departure, offs[j]))
  }

  /** The arrival times of all flights' premium passengers, flight by
      flight. */
  function AllTimes(deps: seq<nat>, offsets: seq<seq<real>>): (r: seq<real>)
    requires |deps| == |offsets|
    ensures |r| == Draws(offsets)
    decreases |deps|
  {
    if deps == [] then [] else FlightTimes(deps[0], offsets[0]) + AllTimes(deps[1..], offsets[1..])
  }

  /** The clock before the i-th wait: 0 at first, then the previous arrival. */
  function Before(times: seq<real>, now: real, i: nat): real
    requires i <= |times|
  {
    if i == 0 then now else times[i - 1]
  }

  /** The arrival times the generator spawns at, with the clock at `now`:
      each wait lasts until the next arrival time and must not be negative;
      a wait that ends at or after the horizon never ends, so nothing after
      it is spawned. */
  function Spawned(times: seq<real>, now: real, horizon: real): (r: Result<seq<real>>)
    ensures r.Ok? ==> r.value <= times
    decreases |times|
  {
    if times == [] then Ok([])
    else if times[0] < now then Err(NegativeDelay(times[0], now))
    else if horizon <= times[0] then Ok([])
    else match Spawned(times[1..], times[0], horizon)
      case Err(e) => Err(e)
      case Ok(rest) => Ok([times[0]] + rest)
  }

  /** Passengers are spawned at their arrival times, which they also log. */
  function AsSpawns(times: seq<real>): (r: seq<Spawn>)
    ensures |r| == |times| && forall k :: 0 <= k < |times| ==> r[k] == Spawn(times[k], times[k])
  {
    seq(|times|, k requires 0 <= k < |times| => Spawn(times[k], times[k]))
  }

  function Prepend(out: seq<real>, r: Result<seq<real>>): Result<seq<real>>
  {
    match r
    case Ok(rest) => Ok(out + rest)
    case Err(e) => Err(e)
  }

  function Lift(r: Result<seq<real>>): Result<seq<Spawn>>
  {
    match r
    case Ok(times) => Ok(AsSpawns(times))
    case Err(e) => Err(e)
  }

  /** The i-th wait is negative although every earlier arrival fell
      before the horizon. */
  ghost predicate FailsAt(times: seq<real>, now: real, horizon: real, i: nat)
    requires i < |times|
  {
    times[i] < Before(times, now, i) && forall j :: 0 <= j < i ==> times[j] < horizon
  }

  /** The generator fails exactly when some wait it reaches before the
      horizon would be negative: an arrival time below the clock, all
      earlier arrivals having fallen before the horizon. */
  lemma {:induction false} SpawnedFails(times: seq<real>, now: real, horizon: real)
    ensures Spawned(times, now, horizon).Err? <==> exists i :: 0 <= i < |times| && FailsAt(times, now, horizon, i)
    decreases |times|
  {
    if times == [] {
    } else if times[0] < now {
      assert FailsAt(times, now, horizon, 0);
    } else if horizon <= times[0] {
      forall i | 0 <= i < |times| ensures !FailsAt(times, now, horizon, i) {
        if i > 0 { assert !(times[0] < horizon); }
      }
    } else {
      var rest := times[1..];
      SpawnedFails(rest, times[0], horizon);
      if exists i :: 0 <= i < |times| && FailsAt(times, now, horizon, i) {
        var i :| 0 <= i < |times| && FailsAt(times, now, horizon, i);
        assert i > 0;
        forall j | 0 <= j < i - 1 ensures rest[j] < horizon { assert rest[j] == times[j + 1]; }
        assert FailsAt(rest, times[0], horizon, i - 1);
      }
      if exists i :: 0 <= i < |rest| && FailsAt(rest, times[0], horizon, i) {
        var i :| 0 <= i < |rest| && FailsAt(rest, times[0], horizon, i);
        forall j | 0 <= j < i + 1 ensures times[j] < horizon { if j > 0 { assert times[j] == rest[j - 1]; } }
        assert FailsAt(times, now, horizon, i + 1);
      }
    }
  }

  /** What the generator spawns is a prefix of the arrival times, in time
      order, from the starting clock on, and before the horizon. */
  lemma {:induction false} SpawnedInOrder(times: seq<real>, now: real, horizon: real)
    requires Spawned(times, now, horizon).Ok?
    ensures var out := Spawned(times, now, horizon).value;
      && (forall k :: 0 <= k < |out| ==> now <= out[k] < horizon)
      && (forall k, l :: 0 <= k <= l < |out| ==> out[k] <= out[l])
    decreases |times|
  {
    if times != [] && now <= times[0] && times[0] < horizon {
      SpawnedInOrder(times[1..], times[0], horizon);
    }
  }

  /** When every wait is non-negative and every arrival falls before the
      horizon, each flight spawns exactly one passenger per premium seat. */
  lemma {:induction false} SpawnedAll(times: seq<real>, now: real, horizon: real)
    requires forall k :: 0 <= k < |times| ==> Before(times, now, k) <= times[k] < horizon
    ensures Spawned(times, now, horizon) == Ok(times)
    decreases |times|
  {
    if times != [] {
      var rest := times[1..];
      forall k | 0 <= k < |rest| ensures Before(rest, times[0], k) <= rest[k] < horizon {
        assert rest[k] == times[k + 1];
        assert Before(times, now, k + 1) <= times[k + 1];
      }
      SpawnedAll(rest, times[0], horizon);
      assert times == [times[0]] + rest;
    }
  }

  /** One wait of the generator, with `out` spawned so far: a negative wait
      fails the run, a wait past the horizon ends it, and otherwise the
      passenger is spawned at the arrival time, which becomes the clock. */
  lemma WaitStep(rem: seq<real>, now: real, horizon: real, out: seq<real>)
    requires rem != []
    ensures rem[0] < now ==> Prepend(out, Spawned(rem, now, horizon)) == Err(NegativeDelay(rem[0], now))
    ensures now <= rem[0] && horizon <= rem[0] ==> Prepend(out, Spawned(rem, now, horizon)) == Ok(out)
    ensures now <= rem[0] < horizon ==>
      Prepend(out, Spawned(rem, now, horizon)) == Prepend(out + [rem[0]], Spawned(rem[1..], rem[0], horizon))
  {
    assert out + [] == out;
    if now <= rem[0] < horizon {
      match Spawned(rem[1..], rem[0], horizon) {
        case Ok(x) => assert out + ([rem[0]] + x) == (out + [rem[0]]) + x;
        case Err(_) =>
      }
    }
  }

  lemma RemainingTimes(departure: nat, offs: seq<real>, j: nat, later: seq<real>)
    requires j < |offs|
    ensures var rem := FlightTimes(departure, offs)[j..] + later;
      rem != [] && rem[0] == ArrivalBefore(departure, offs[j]) && rem[1..] == FlightTimes(departure, offs)[j + 1..] + later
  {
    var rem := FlightTimes(departure, offs)[j..] + later;
    assert rem[1..] == FlightTimes(departure, offs)[j + 1..] + later;
  }

  /** One seat of a flight, with `out` spawned so far and the clock at
      `now`: the seat's wait fails the run when negative, ends the run when
      it lasts until the horizon or past it, and otherwise spawns the
      passenger at its arrival time, which becomes the clock. */
  lemma SeatStep(departure: nat, offs: seq<real>, j: nat, later: seq<real>, now: real, horizon: real, out: seq<real>)
    requires j < |offs|
    ensures var a, rest := ArrivalBefore(departure, offs[j]), Prepend(out, Spawned(FlightTimes(departure, offs)[j..] + later, now, horizon));
      && (a < now ==> rest == Err(NegativeDelay(a, now)))
      && (now <= a && horizon <= a ==> rest == Ok(out))
      && (now <= a < horizon ==> rest == Prepend(out + [a], Spawned(FlightTimes(departure, offs)[j + 1..] + later, a, horizon)))
  {
    RemainingTimes(departure, offs, j, later);
    WaitStep(FlightTimes(departure, offs)[j..] + later, now, horizon, out);
  }

  lemma AsSpawnsSnoc(out: seq<real>, a: real)
    ensures AsSpawns(out + [a]) == AsSpawns(out) + [Spawn(a, a)]
  {
  }

  lemma AllTimesSplit(deps: seq<nat>, offsets: seq<seq<real>>, f: nat)
    requires |deps| == |offsets| && f < |deps|
    ensures AllTimes(deps[f..], offsets[f..]) == FlightTimes(deps[f], offsets[f]) + AllTimes(deps[f + 1..], offsets[f + 1..])
  {
    assert deps[f..][1..] == deps[f + 1..] && offsets[f..][1..] == offsets[f + 1..];
  }

  /** The inner loop of generate_premium_passengers: the seats of one
      flight, in order, with `spawns` spawned so far (arrival times `out`)
      and the clock at `now`. Either the run ends within this flight, and
      `done` holds what the generator hands back, or every seat is spawned
      and the run goes on with the arrival times `later` of the flights
      after this one. */
  method SpawnFlight(departure: nat, offs: seq<real>, seats: nat, horizon: real, now0: real,
                     spawns0: seq<Spawn>, ghost out0: seq<real>, ghost later: seq<real>)
    returns (done: Option<Result<seq<Spawn>>>, now: real, spawns: seq<Spawn>, ghost out: seq<real>)
    requires seats == |offs| && spawns0 == AsSpawns(out0)
    ensures var goal := Prepend(out0, Spawned(FlightTimes(departure, offs) + later, now0, horizon));
      && (done.Some? ==> done.value == Lift(goal))
      && (done.None? ==> spawns == AsSpawns(out) && goal == Prepend(out, Spawned(later, now, horizon)))
    ensures done.None? ==>
      out == out0 + FlightTimes(departure, offs) && now == Before(FlightTimes(departure, offs), now0, |offs|)
  {
    ghost var goal := Prepend(out0, Spawned(FlightTimes(departure, offs) + later, now0, horizon));
    now, spawns, out := now0, spawns0, out0;
    assert FlightTimes(departure, offs)[0..] == FlightTimes(departure, offs);
    var j := 0;
    while j < seats
      invariant 0 <= j <= |offs|
      invariant spawns == AsSpawns(out)
      invariant goal == Prepend(out, Spawned(FlightTimes(departure, offs)[j..] + later, now, horizon))
      invariant out == out0 + FlightTimes(departure, offs)[..j]
      invariant now == Before(FlightTimes(departure, offs), now0, j)
    {
      var a := ArrivalBefore(departure, offs[j]);
      SeatStep(departure, offs, j, later, now, horizon, out);
      if a < now {
        return Some(Err(NegativeDelay(a, now))), now, spawns, out;   // a negative wait is refused
      }
      if horizon <= a {
        return Some(Ok(spawns)), now, spawns, out;                   // this wait outlasts the run
      }
      now := a;
      AsSpawnsSnoc(out, a);
      spawns := spawns + [Spawn(a, a)];
      out := out + [a];
      assert FlightTimes(departure, offs)[..j + 1] == FlightTimes(departure, offs)[..j] + [a];
      j := j + 1;
    }
    assert FlightTimes(departure, offs)[j..] + later == later;
    assert FlightTimes(departure, offs)[..j] == FlightTimes(departure, offs);
    done := None;
  }

  /** generate_premium_passengers: for each flight, for each premium seat,
      compute the arrival time, wait until it, and spawn the passenger.
      `deps` holds the flights' departures in minutes, as read from the
      schedule. */
  method GeneratePremium(schedule: seq<Flight>, deps: seq<nat>, offsets: seq<seq<real>>, horizon: real)
    returns (r: Result<seq<Spawn>>)
    requires Drawn(schedule, offsets) && |deps| == |schedule|
    ensures r == Lift(Spawned(AllTimes(deps, offsets), 0.0, horizon))
  {
    ghost var goal := Spawned(AllTimes(deps, offsets), 0.0, horizon);
    ghost var out: seq<real> := [];
    var spawns: seq<Spawn> := [];
    var now := 0.0;
    var f := 0;
    assert deps[0..] == deps && offsets[0..] == offsets;
    assert Prepend(out, goal) == goal by {
      match goal { case Ok(x) => assert [] + x == x; case Err(_) => }
    }
    while f < |schedule|
      invariant 0 <= f <= |schedule|
      invariant spawns == AsSpawns(out)
      invariant goal == Prepend(out, Spawned(AllTimes(deps[f..], offsets[f..]), now, horizon))
    {
      var seats := SeatCount(schedule[f].seats);
      AllTimesSplit(deps, offsets, f);
      var done;
      done, now, spawns, out := SpawnFlight(deps[f], offsets[f], seats, horizon, now, spawns, out,
                                            AllTimes(deps[f + 1..], offsets[f + 1..]));
      if done.Some? {
        return done.value;
      }
      f := f + 1;
    }
    assert out + [] == out;
    return Ok(spawns);
  }

  // ---------------------------------------------------------------------
  // run_simulation

  /** The premium passengers a schedule spawns before its horizon. */
  function Premium(schedule: seq<Flight>, offsets: seq<seq<real>>): (r: Result<seq<Spawn>>)
    requires Drawn(schedule, offsets)
    ensures r.Ok? ==> ScheduleHorizon(schedule).Ok? && |r.value| <= Draws(offsets)
  {
    match ScheduleHorizon(schedule)
    case Err(e) => Err(e)
    case Ok(horizon) => Lift(Spawned(AllTimes(ParseDepartures(schedule).value, offsets), 0.0, horizon))
  }

  /** The spawns the generator lifts from a run over times that starts at 0
      are in time order, fall before the horizon, and carry their own start
      instant as their arrival stamp. */
  lemma LiftedInOrder(times: seq<real>, horizon: real)
    requires Lift(Spawned(times, 0.0, horizon)).Ok?
    ensures var spawns := Lift(Spawned(times, 0.0, horizon)).value;
      && Counter.Sorted(spawns)
      && forall k :: 0 <= k < |spawns| ==> spawns[k].at < horizon && spawns[k].stamp == spawns[k].at
  {
    SpawnedInOrder(times, 0.0, horizon);
  }

  /** The counter run over the premium spawns and the outcome it reports. */
  method Serve(spawns: seq<Spawn>, draws: seq<real>, horizon: real, numAttendants: int, flights: nat)
    returns (o: Outcome)
    requires Counter.Sorted(spawns) && |draws| == |spawns|
    requires forall k :: 0 <= k < |spawns| ==> spawns[k].at < horizon && spawns[k].stamp == spawns[k].at
    requires numAttendants > 0 ==> flights > 0
    ensures var f := Counter.Simulate(spawns, draws, Capacity(numAttendants), horizon, Counter.Initial);
      o == Outcome(f.attended, f.denied, Utilization(|f.attended|, flights, numAttendants))
    ensures |o.attended| + |o.denied| <= |spawns|
    ensures forall e :: e in o.attended ==> e.start == e.arrival <= e.end < horizon
    ensures numAttendants <= 0 ==> o.attended == [] && o.utilization == 0.0 && o.denied == Counter.Stamps(spawns)
  {
    var lounge := new Counter.Lounge(Capacity(numAttendants));
    lounge.Run(spawns, draws, horizon);
    Counter.RunOutcome(spawns, draws, Capacity(numAttendants), horizon);
    var fin := lounge.State();
    forall e | e in fin.attended ensures e.start == e.arrival <= e.end < horizon {
      var k :| 0 <= k < fin.next && k < |spawns| && k < |draws| && e == Served(spawns[k], draws[k]);
    }
    if numAttendants <= 0 {
      Counter.RunWithoutAttendants(spawns, draws, horizon);
      if |spawns| > 0 {
        assert spawns[|spawns| - 1].at < horizon;
      }
      assert spawns[..fin.next] == spawns;
    }
    o := Outcome(lounge.attended, lounge.denied, Utilization(|lounge.attended|, flights, numAttendants));
  }

  /** run_simulation of the flight-schedule model. */
  method RunSimulation(schedule: seq<Flight>, offsets: seq<seq<real>>, serviceDraws: seq<real>, numAttendants: int)
    returns (r: Result<Outcome>)
    requires Drawn(schedule, offsets)
    requires |serviceDraws| == Draws(offsets)  // one service draw per premium seat
    ensures r.Err? <==> Premium(schedule, offsets).Err?
    ensures schedule == [] ==> r == Err(EmptySchedule)
    ensures r.Ok? ==>
      var spawns, horizon := Premium(schedule, offsets).value, ScheduleHorizon(schedule).value;
      var f := Counter.Simulate(spawns, serviceDraws[..|spawns|], Capacity(numAttendants), horizon, Counter.Initial);
      r.value == Outcome(f.attended, f.denied, Utilization(|f.attended|, |schedule|, numAttendants))
    ensures r.Ok? ==> |r.value.attended| + |r.value.denied| <= |Premium(schedule, offsets).value|
    // the wait before each spawn ends at its arrival, so service starts at the arrival time
    ensures r.Ok? ==> forall e :: e in r.value.attended ==>
      e.start == e.arrival <= e.end < ScheduleHorizon(schedule).value
    ensures r.Ok? && numAttendants <= 0 ==>
      (r.value.attended == [] && r.value.utilization == 0.0 && r.value.denied == Counter.Stamps(Premium(schedule, offsets).value))
  {
    var h := ScheduleHorizon(schedule);
    if h.Err? {
      return Err(h.error);
    }
    var horizon := h.value;
    var deps := ParseDepartures(schedule).value;
    var g := GeneratePremium(schedule, deps, offsets, horizon);
    assert g == Premium(schedule, offsets);
    if g.Err? {
      return Err(g.error);
    }
    LiftedInOrder(AllTimes(deps, offsets), horizon);
    var o := Serve(g.value, serviceDraws[..|g.value|], horizon, numAttendants, |schedule|);
    r := Ok(o);
  }
}
