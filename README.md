# Lounge attendant simulation: a Dafny model

This project models the discrete-event core of the passenger-service simulation in `voo/main.py` and `voo/test.py`. In both files, passengers arrive at a counter with a fixed pool of attendants and no waiting line. An arriving passenger is admitted only if an attendant is free at that instant; otherwise they are denied at once. An admitted passenger holds the attendant for a service time, a normal draw clamped at zero. Each passenger is logged either as `(arrival, start, end)` among the attended or by arrival time among the denied. The run stops at a fixed horizon, and the attendants' utilization is computed from the attended count.

The model takes every random draw as an input sequence:

- the daily counts and intraday offsets (`main.py`);
- the seat counts and arrival offsets (`test.py`);
- one service draw per spawned passenger.

An explicit event-ordered scheduler takes the place of the coroutine engine. All times are exact `real`s.

Modules:

- `Records` (`records.dfy`): spawns, log entries, outcomes and errors; the service-time clamp; the attendant count of the pool.
- `Counter` (`counter.dfy`): the admission and service protocol. `NextEvent`, `Step` and `Simulate` are the pure reference scheduler, and `Inv` is an invariant that every step keeps. The class `Lounge` holds the mutable state (clock, busy attendants, the two logs) and runs the scheduler loop, proved to end in the state `Simulate` describes.
  - Tie rule: at the same instant, a release comes before an arrival, and releases come in admission order.
  - Horizon rule: nothing at or after the horizon is processed.
- `Daily` (`daily.dfy`): the per-day arrival generator of `main.py` and its `run_simulation`. The clock advances by each intraday offset, so the passenger's clock time is the running sum of offsets. The passenger logs `day * 24 + offset` instead.
- `Flights` (`flights.dfy`): the flight-schedule model of `test.py`.
  - Parsing `"H:MM"` departure times, with a format/parse round trip.
  - `generate_schedule`.
  - The horizon: the latest departure plus 60 minutes.
  - The premium-passenger generator, as written: it waits `arrival - now` before each spawn, and a negative wait is an error.
  - `run_simulation`.
- `InOrder` (`inorder.dfy`): the flight-schedule generator as evidently intended (see Findings), and the run built on it.

Places where the program's behaviour is easy to misread, and what the model does:

- The daily count truncates (`int()`); it does not round.
- A zero-day run fails instead of returning an empty result, because the engine refuses to run until time 0.
- A negative attendant count is not an error: no pool is built and everyone is denied.
- A negative seat count spawns nobody instead of raising.
- An empty schedule or an unreadable departure time is an error.
- Conservation of passengers is `attended + denied + in service at the horizon = passengers spawned before the horizon`. It is not `attended + denied = all arrivals`.
- The flight model divides utilization by `len(schedule) * 24 * attendants`, not by the horizon.
- Both files use the constant `AVG_SERVICE_TIME = 3` in the utilization formula, whatever the mean-service-time control says. In `test.py` the constant is labelled hours while the clock runs in minutes.
- Utilization is not clamped to 1.

## Model

| member | source | states |
|---|---|---|
| Records.ServiceTime | voo/main.py:32 | the service duration is `max(0, draw)`: never negative, never below the draw, and equal to the draw or 0 |
| Records.Served | voo/main.py:31-37 | an admitted passenger's entry carries its arrival stamp, starts at the admission instant and ends the clamped service time later |
| Records.Capacity | voo/main.py:49-51 | the pool has `num_attendants` servers when that is positive and none otherwise |
| Counter.FirstDue | voo/main.py:33-34 | the released passenger is the one whose service ends soonest, the earliest admitted among equals |
| Counter.Stamps | voo/main.py:39 | the denied log of a sequence of passengers holds, entry by entry, each passenger's arrival stamp |
| Counter.OnArrival | voo/main.py:27-41 | an arriving passenger moves the clock to its spawn instant and counts as arrived; it is admitted (its entry joins those in service) exactly when fewer than `capacity` attendants are busy, and otherwise its stamp is appended to the denied log, which covers the case of no attendants; the attended log is untouched |
| Counter.OnCompletion | voo/main.py:33-37 | a completing service moves the clock to its end, appends exactly that entry to the attended log, and frees one server: the entries in service lose exactly it and keep their admission order |
| Counter.NextEvent | voo/main.py:22-33 | the next event is the earliest completion, the first admitted on a tie of end times, if it is not after the next arrival (release first), else the next arrival, and the run stops when neither lies before the horizon |
| Counter.Step | voo/main.py:57 | a step exists exactly when a completion or arrival lies before the horizon, and every step uses up pending work, so the run ends |
| Counter.Simulate | voo/main.py:57 | the run never goes back on an arrival and never goes past the last spawn |
| Counter.ArrivalRule | voo/main.py:28-39 | an arrival happens at its spawn instant, every passenger in service then is still busy, and the passenger is admitted exactly when fewer than `capacity` are in service, otherwise denied at once without waiting |
| Counter.CompletionRule | voo/main.py:33-37 | a completion frees exactly the server of the soonest-ending passenger, logs exactly that entry to the attended, and the clock moves to its end |
| Counter.InitialInv | voo/main.py:46-47 | a fresh run (empty logs, clock 0, nobody in service) satisfies the invariant |
| Counter.AdmitKeepsInv | voo/main.py:28-37 | an admission keeps the capacity bound and conservation, and only appends |
| Counter.DenyKeepsInv | voo/main.py:38-41 | a denial appends the arrival stamp and keeps the invariant; with no attendants the denied log is the spawned stamps in order |
| Counter.CompletionKeepsInv | voo/main.py:33-37 | a completion keeps the invariant, including that the attended log is in completion order, and moves the clock forward only |
| Counter.ArrivalKeepsInv | voo/main.py:26-41 | an arrival, admitted or denied, keeps the invariant |
| Counter.StepKeepsInv | voo/main.py:26-41 | every scheduler step keeps the invariant, never moves the clock back, and only appends to the logs |
| Counter.SimulateKeepsInv | voo/main.py:26-57 | the state a run stops in keeps the invariant, has nothing pending before the horizon, and extends the logs it started from |
| Counter.InitialTracked | voo/main.py:46-47 | before the run the empty accounting names nobody, as nobody has arrived |
| Counter.ArrivalTracked | voo/main.py:26-41 | an arrival extends the accounting with the new passenger's index under the entry it adds, in service or denied, so each passenger process adds one record |
| Counter.CompletionTracked | voo/main.py:33-37 | a completion moves its passenger's index from the in-service part to the attended part, so the attended entry is logged once, by its own passenger |
| Counter.SimulateTracked | voo/main.py:26-57 | every state a run reaches has an accounting naming each arrived passenger exactly once |
| Counter.StoppedOutcome | voo/main.py:26-57 | in any state satisfying the invariant where nothing is pending before the horizon: exactly the passengers spawned before the horizon have arrived, whoever is in service ends at or after the horizon, attended entries ended before it in order of end time, and denied stamps are those of arrived passengers |
| Counter.RunOutcome | voo/main.py:26-57 | exactly the passengers spawned before the horizon arrive; at most `capacity` are in service; whoever is still in service ends at or after the horizon and is not logged; every attended entry ended before the horizon, and the attended log is in order of end time; and there are index sequences (`Accounted`) naming the passenger of each attended entry, each entry in service and each denied stamp, such that every arrived passenger is named exactly once and no other passenger is, each attended or in-service entry being `Served` of its own passenger's spawn and draw, and each denied time its own passenger's stamp, the denied passengers in arrival order |
| Counter.RunWithoutAttendants | voo/main.py:27-51 | with no attendants nobody is attended or in service, and the denied log is the stamps of the arrived passengers in arrival order |
| Counter.RunWithAmpleAttendants | voo/main.py:28-30 | with at least one attendant per spawned passenger nobody is denied |
| Counter.Lounge.constructor | voo/main.py:46-51 | a new counter has the given number of servers, clock 0, nobody in service and empty logs |
| Counter.Lounge.Arrive | voo/main.py:26-41 | the counter's new state is the arrival rule applied to the old one |
| Counter.Lounge.Complete | voo/main.py:33-37 | the counter's new state is the release rule applied to the old one |
| Counter.Lounge.Run | voo/main.py:57 | running the event loop until the horizon ends in the state `Simulate` gives for the old state |
| Daily.Truncate | voo/main.py:17 | `int()` truncates toward zero: below or at the value for non-negative values, above or at it for negative ones, within 1 |
| Daily.DailyCount | voo/main.py:17 | the daily count `max(0, int(draw))` is 0 exactly when the draw is below 1, and otherwise the integer part of the draw |
| Daily.DaySpawns | voo/main.py:18-23 | one day yields one spawn per offset, the i-th logging `day * 24 + offset i` |
| Daily.AllSpawns | voo/main.py:16-23 | all days together yield one spawn per offset drawn, day after day |
| Daily.Horizon | voo/main.py:57 | the run lasts `num_days * 24` hours, a horizon ahead of the starting clock exactly when there is at least one day |
| Daily.DaySpawnAt | voo/main.py:18-23 | the i-th passenger of a day starts at the day's starting clock plus the first i + 1 offsets and logs `day * 24 + offset` |
| Daily.SpawnAt | voo/main.py:16-23 | the i-th passenger of day d is spawn number `Count(days before d) + i`; their clock time is the sum of all earlier offsets plus their own, and their stamp is `d * 24 + u` |
| Daily.StampInDay | voo/main.py:19-23 | every stamp of day d lies in `[24d, 24d + 24)` |
| Daily.StampBeforeHorizon | voo/main.py:20-23 | every stamp a passenger of one of the `num_days` days logs is before the horizon `num_days * 24` |
| Daily.PassengersSpawned | voo/main.py:16-18 | the generator spawns exactly the sum of the daily counts |
| Daily.DaySorted | voo/main.py:21-22 | within a day the clock only advances, between the day's starting clock and that plus the day's offsets |
| Daily.SpawnsSorted | voo/main.py:16-23 | the spawns of all days are in clock order, between 0 and the sum of all offsets |
| Daily.SpawnDay | voo/main.py:18-23 | the per-passenger loop appends exactly the day's spawns and advances the clock by the day's offsets |
| Daily.GenerateArrivals | voo/main.py:13-23 | the generator's spawns are `AllSpawns` of the offsets, and their number is the sum of the daily counts |
| Records.Utilization | voo/main.py:65-66 | utilization times `days * 24 * num_attendants` is `served * 3`; it is 0 without attendants, never negative and not capped; the flight model passes `len(schedule)` as the days (voo/test.py:61) |
| Daily.RunSimulation | voo/main.py:44-68 | a zero-day run fails; otherwise the outcome is the counter run over the generated spawns until `num_days * 24`, attended + denied is at most the passengers generated, and with no attendants nobody is attended, utilization is 0 and exactly the passengers spawned before the horizon are denied, in order |
| Flights.ParseNat | voo/test.py:18 | a string is read as an integer exactly when it is a non-empty string of decimal digits |
| Flights.TimeToMinutes | voo/test.py:17-19 | a time without ':' fails, and every failure carries the offending text |
| Flights.TimeToMinutesSplit | voo/test.py:17-19 | a time reads as v exactly when it is `hours ':' minutes`, both parts non-empty decimal digits, and v is hours * 60 + minutes; so two or more colons, an empty part or a non-numeric part fail, and `"1:5"` and `"01:05"` read as 65 |
| Flights.ParseDecimal | voo/test.py:18 | reading the decimal digits of n gives back n |
| Flights.TimeRoundTrip | voo/test.py:17-19 | `time_to_minutes("H:MM") == H * 60 + MM`, and a time of day (H < 24, MM < 60) is below 1440 |
| Flights.GenerateSchedule | voo/test.py:7-14 | the schedule has exactly 20 flights, one per listed departure in order, each of carrier "CIA AEREA NOS ARES" with its drawn seat count in `[20, 99]` |
| Flights.DepartureAt | voo/test.py:8-19 | each listed departure reads as its minute of the day |
| Flights.DeparturesAreTimesOfDay | voo/test.py:8-9 | every listed departure is readable and at most minute 1080 (18:00), the latest |
| Flights.ParseDepartures | voo/test.py:57 | every departure is read in order, or the run fails with the error of the first departure that cannot be read, every earlier one being readable |
| Flights.MaxOf | voo/test.py:57 | the maximum is at least every element and is one of them |
| Flights.ScheduleHorizon | voo/test.py:57 | the horizon is the latest departure plus 60 minutes; an empty schedule or an unreadable departure has none |
| Flights.SeatCount | voo/test.py:26 | `range(premium_seats)` runs once per seat for a positive count and not at all otherwise |
| Flights.ArrivalBefore | voo/test.py:27-29 | the arrival is `departure - offset` when that is not negative and that plus 1440 when it is; for a departure in the day and an offset in [30, 120] it lies in `[0, 1440)` |
| Flights.FlightTimes | voo/test.py:26-29 | one arrival time per premium seat, in seat order |
| Flights.AllTimes | voo/test.py:23-29 | one arrival time per offset draw, flight by flight |
| Flights.Spawned | voo/test.py:26-32 | what the generator spawns is a prefix of the arrival times; a first arrival before the clock fails with a negative delay; a first arrival at or after the horizon spawns nothing |
| Flights.SpawnedFails | voo/test.py:31 | the generator fails exactly when some arrival lies before the previous one while every earlier arrival fell before the horizon |
| Flights.SpawnedInOrder | voo/test.py:30-32 | the spawned times are in time order, not before the starting clock and before the horizon |
| Flights.SpawnedAll | voo/test.py:26-32 | when no wait is negative and every arrival falls before the horizon, each flight spawns exactly one passenger per premium seat |
| Flights.WaitStep | voo/test.py:31-32 | one wait: a negative wait fails, a wait to the horizon or beyond ends the run, otherwise the spawn at the arrival time |
| Flights.SeatStep | voo/test.py:27-32 | one seat's wait, stated on its flight's arrival times |
| Flights.SpawnFlight | voo/test.py:26-32 | the per-seat loop ends the run within the flight with what the generator returns, or spawns every seat, its arrival times appended in seat order to those already spawned, and leaves the clock at the last seat's arrival (or where it was, for a flight with no seats) |
| Flights.GeneratePremium | voo/test.py:22-32 | the generator's result is the spawns, or the negative-delay error, that `Spawned` gives for the schedule's arrival times |
| Flights.Premium | voo/test.py:56-57 | a spawn list exists only when the horizon does, and it has no more entries than offset draws |
| Flights.LiftedInOrder | voo/test.py:30-32 | the spawned passengers are in time order, before the horizon, and log their own start instants |
| Flights.Serve | voo/test.py:34-61 | the outcome is the counter run over the spawns; attended + denied is at most the spawned; every attended entry starts at its arrival and ends before the horizon; with no attendants all spawned passengers are denied in order and utilization is 0 |
| Flights.RunSimulation | voo/test.py:49-63 | the run fails exactly when the generator or the horizon fails (an empty schedule with `EmptySchedule`); otherwise the outcome is the counter run over the generated spawns until the horizon, with the properties of `Serve` |
| InOrder.Scheduled | voo/test.py:27-32 | the intended spawns are in time order, before the horizon, stamped with their start instants, and as a multiset they are exactly the arrival times before the horizon |
| InOrder.TimesNotNegative | voo/test.py:27-29 | no wrapped arrival time is negative |
| InOrder.PremiumInOrder | voo/test.py:22-32 | the intended generator fails only when the horizon does, with the same error |
| InOrder.PremiumInOrderSpawnsAll | voo/test.py:26-32 | every premium passenger arriving before the horizon is spawned exactly once, at their arrival time, in time order |
| InOrder.SpawnedAscending | voo/test.py:31 | with arrival times in order, the generator as written never fails and spawns exactly the arrivals before the horizon |
| InOrder.SpawnsAgree | voo/test.py:22-32 | with arrival times in order, the generator as written and the intended one spawn the same passengers |
| InOrder.PremiumAgrees | voo/test.py:22-32 | the same, for a whole schedule |
| InOrder.SeatsOutOfOrder | voo/test.py:26-31 | the flight 0:40 with two seats drawing 30 then 35 minutes fails with a wait of -5 minutes (arrival 5, clock 10) |
| InOrder.SeatBeyondHorizon | voo/test.py:27-31 | the flight 0:40 with two seats drawing 50 then 30 minutes spawns nobody: the first seat wraps to minute 1430, past the horizon, the generator waits past the end of the run, and the second seat (minute 10) is lost; the intended generator spawns that passenger at 10 |
| InOrder.SeatsInOrder | voo/test.py:26-32 | on that input the intended generator spawns both passengers, at 5 and then at 10 |
| InOrder.RunInOrder | voo/test.py:49-63 | the run with the intended generator fails only when the horizon does; otherwise it is the counter run over the intended spawns, with the properties of `Serve` |

## Left out

- The Streamlit interface (sliders, button, output) is left out because it is presentation only.
- The pandas tables are left out; the model keeps the underlying lists as sequences.
- The numpy draws are inputs. The model does not reproduce how one random stream is shared between the generator's draws and the passengers' service draws: each spawned passenger has its own service draw, used only if they are admitted.
- SimPy's internals are replaced by the explicit scheduler. Among them are the event queue, the `request | timeout(0)` race and its ordering of events at equal times. The tie rule (release before arrival at the same instant, releases in admission order) is a choice of this model.
- Floating-point arithmetic is left out: times, sums and the utilization ratio are exact reals.
- The write-only `passenger_arrivals` list (voo/main.py:20-21, voo/test.py:30) is never read, so it is left out.
- The `avg_service_time` slider value never reaches the core, so it is left out; the constant 3 is used.
- Daily.RunSimulation: the day count is the length of the count-draw sequence, so a negative `num_days` (an empty range of days followed by a refused run) is not modelled separately.
- Flights.ParseNat: reads only ASCII decimal digits. The whitespace, sign, underscores and non-ASCII digits that Python's `int()` also accepts are treated as unreadable.
- Flights.GeneratePremium: receives the departures already read as minutes. The source reads them at voo/test.py:57, before the generator first runs, and an unreadable one stops the run there; `RunSimulation` passes exactly those values.
- Flights.RunSimulation and InOrder.RunInOrder: the service durations are the normal draws in the model's clock unit (minutes), as in the source; no conversion from the hours label is made.

## Findings

| source | as written | input that shows it | evidently intended | confidence | as-written member | corrected member |
|---|---|---|---|---|---|---|
| voo/test.py:26-31 | the generator waits `arrival_time - env.now` before each seat, but every seat's arrival is an independent draw, so a seat that arrives earlier than the one before asks for a negative delay, which the engine refuses with an exception that ends the run | flight "0:40" with 2 seats and offsets 30 then 35: arrivals at minute 10 then 5, delay -5 | every premium passenger whose arrival falls before the horizon arrives at that time, in time order | high (not executed) | InOrder.SeatsOutOfOrder | InOrder.PremiumInOrder |
| voo/test.py:27-31 | a seat whose wrapped arrival lies at or after the horizon makes the generator wait past the end of the run, so it stops without an error and no later seat or flight spawns anyone; for the listed schedule (horizon 1140) any seat of the first flight, 0:40, drawn more than 40 minutes before departure wraps to minute 1360 or later, so with 8 in 9 draws per seat this silent cut, not the exception, is what usually ends generation | flight "0:40" with 2 seats and offsets 50 then 30: arrivals at minute 1430 then 10, horizon 100, nobody spawned | the same: every premium passenger whose arrival falls before the horizon arrives at that time | high (not executed) | InOrder.SeatBeyondHorizon | InOrder.PremiumInOrder |

`Flights.RunSimulation` models `run_simulation` as written. `InOrder.RunInOrder` is the same run with the intended generator. `InOrder.PremiumAgrees` proves that the two generators agree whenever the draws happen to come in time order.
