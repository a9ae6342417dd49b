/** Values shared by both arrival models: what a generator spawns, what the
    counter logs, the clamp applied to service-time draws, and the errors a
    run can end with. Times are exact reals in the unit of the model's clock
    (hours for the per-day model, minutes for the flight-schedule model). */
module Records {

  datatype Option<+T> = None | Some(value: T)

  /** Why a run produces no result. */
  datatype Error =
    | HorizonNotAhead(horizon: real)       // the clock is asked to run until a time not after 0
    | EmptySchedule                        // the horizon is a maximum over no flights
    | BadTime(text: string)                // a departure that is not of the form H:MM
    | NegativeDelay(arrival: real, now: real)  // the generator asks to wait until a past instant

  datatype Result<+T> = Ok(value: T) | Err(error: Error)

  /** One passenger process started by a generator: the clock instant `at`
      at which it starts and the arrival time `stamp` it carries into its
      log entry. The per-day model lets the two differ. */
  datatype Spawn = Spawn(at: real, stamp: real)

  /** An attended passenger's log entry: arrival, start and end of service. */
  datatype Record = Record(arrival: real, start: real, end: real)

  /** What a run hands back: attended entries, denied arrival times, and the
      utilization ratio. */
  datatype Outcome = Outcome(attended: seq<Record>, denied: seq<real>, utilization: real)

  /** A service duration is a normal draw clamped below at zero. */
  function ServiceTime(draw: real): (d: real)
    ensures d >= 0.0 && d >= draw
    ensures d == draw || d == 0.0
  {
    if draw < 0.0 then 0.0 else draw
  }

  /** The log entry of a passenger spawned as `sp` who is admitted at once
      and served for the clamped duration of `draw`. */
  function Served(sp: Spawn, draw: real): (r: Record)
    ensures r.arrival == sp.stamp && r.start == sp.at
    ensures r.start <= r.end && r.end - r.start == ServiceTime(draw)
  {
    Record(sp.stamp, sp.at, sp.at + ServiceTime(draw))
  }

  /** The number of servers a pool has: the source builds a pool only for a
      positive attendant count, and none otherwise. */
  function Capacity(numAttendants: int): (c: nat)
    ensures numAttendants > 0 ==> c == numAttendants
    ensures numAttendants <= 0 ==> c == 0
  {
    if numAttendants > 0 then numAttendants else 0
  }

  /** AVG_SERVICE_TIME: the constant mean service time of the utilization
      formula. Both models define it as 3; the per-day model's clock runs in
      hours and the flight model's in minutes, while the source labels the
      constant hours in both. */
  const AvgServiceTime: real := 3.0

  /** Utilization as both models compute it: the attended count times the
      constant, over `days * 24` hours times the attendant count, and 0
      without attendants. The per-day model passes the number of days; the
      flight model passes the number of flights. It is not clamped to 1. */
  function Utilization(served: nat, days: nat, numAttendants: int): (u: real)
    requires numAttendants > 0 ==> days > 0
    ensures 0.0 <= u
    ensures numAttendants <= 0 ==> u == 0.0
    ensures numAttendants > 0 ==> u * (days * 24 * numAttendants) as real == served as real * AvgServiceTime
  {
    if numAttendants > 0 then (served as real * AvgServiceTime) / ((days * 24 * numAttendants) as real) else 0.0
  }
}
