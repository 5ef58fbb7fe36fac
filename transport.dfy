/** Routes, buses and seats: the seat-generation handler, the guard of bus
    creation, and the query the bus listing builds. Store identities are
    abstract keys; in both guards that parse a request's identity, a
    malformed one and an absent one lead to the same outcome. */
module Transport {
  import opened Common
  import Validators

  // ---------------------------------------------------------------------
  // Seat numbers
  // ---------------------------------------------------------------------

  function DigitChar(d: nat): (c: char)
    requires d < 10
    ensures Validators.IsDigit(c)
  {
    (('0' as int) + d) as char
  }

  function DigitValue(c: char): (d: nat)
    requires Validators.IsDigit(c)
    ensures d < 10
  {
    c as int - '0' as int
  }

  predicate AllDigits(s: string) {
    forall i :: 0 <= i < |s| ==> Validators.IsDigit(s[i])
  }

  /** The decimal text of n, without leading zeros. */
  function Decimal(n: nat): (s: string)
    ensures |s| >= 1 && AllDigits(s)
    ensures n < 10 <==> |s| == 1
    ensures 10 <= n < 100 ==> |s| == 2
    ensures n >= 1 ==> s[0] != '0'
  {
    if n < 10 then [DigitChar(n)] else Decimal(n / 10) + [DigitChar(n % 10)]
  }

  /** The number a string of decimal digits denotes; leading zeros add nothing. */
  function DecimalValue(s: string): nat
    requires AllDigits(s)
  {
    if s == [] then 0 else DecimalValue(s[..|s| - 1]) * 10 + DigitValue(s[|s| - 1])
  }

  /** Reading back the decimal text of n gives n. */
  lemma {:induction false} DecimalRoundTrip(n: nat)
    ensures DecimalValue(Decimal(n)) == n
  {
    if n >= 10 {
      var s := Decimal(n);
      assert s[..|s| - 1] == Decimal(n / 10);
      DecimalRoundTrip(n / 10);
    }
  }

  /** A leading zero does not change the value of a digit string. */
  lemma {:induction false} LeadingZeroIgnored(s: string)
    requires AllDigits(s)
    ensures AllDigits("0" + s) && DecimalValue("0" + s) == DecimalValue(s)
  {
    if s != [] {
      var t := "0" + s;
      assert t[..|t| - 1] == "0" + s[..|s| - 1];
      LeadingZeroIgnored(s[..|s| - 1]);
    }
  }

  /** Seat i's number: "A" followed by i written with at least two digits,
      zero-padded (A01, A09, A10, A100). */
  function SeatNumber(i: nat): (number: string)
    ensures |number| >= 3 && number[0] == 'A' && AllDigits(number[1..])
    ensures DecimalValue(number[1..]) == i
    ensures i < 100 ==> |number| == 3
    ensures i >= 10 ==> number[1..] == Decimal(i) && number[1] != '0'
  {
    var digits := if i < 10 then "0" + Decimal(i) else Decimal(i);
    DecimalRoundTrip(i);
    LeadingZeroIgnored(Decimal(i));
    assert ("A" + digits)[1..] == digits;
    "A" + digits
  }

  /** Different seats get different numbers. */
  lemma SeatNumbersDistinct()
    ensures forall i: nat, j: nat :: i != j ==> SeatNumber(i) != SeatNumber(j)
  {
    forall i: nat, j: nat | SeatNumber(i) == SeatNumber(j) ensures i == j {
      assert SeatNumber(i)[1..] == SeatNumber(j)[1..];
    }
  }

  // ---------------------------------------------------------------------
  // Seat generation
  // ---------------------------------------------------------------------

  datatype Seat = Seat(seatNumber: string, busId: string, isAvailable: bool, price: int, createdAt: Time)

  /** How many seats the loop over 1..capacity produces. */
  function SeatCount(capacity: int): nat {
    if capacity > 0 then capacity else 0
  }

  /** The seats generated for a bus: one per number 1..capacity, in order,
      each available at the route's price. */
  function SeatPlan(busId: string, capacity: int, price: int, now: Time): (plan: seq<Seat>)
    ensures capacity > 0 ==> |plan| == capacity
    ensures capacity <= 0 ==> plan == []
    ensures forall k :: 0 <= k < |plan| ==>
              && plan[k].seatNumber == SeatNumber(k + 1)
              && plan[k].busId == busId && plan[k].isAvailable && plan[k].price == price
              && plan[k].createdAt == now
    ensures forall a, b :: 0 <= a < b < |plan| ==> plan[a].seatNumber != plan[b].seatNumber
  {
    SeatNumbersDistinct();
    seq(SeatCount(capacity), k requires 0 <= k => Seat(SeatNumber(k + 1), busId, true, price, now))
  }

  /** The loop that builds the seat documents one number at a time. */
  method BuildSeats(busId: string, capacity: int, price: int, now: Time) returns (seats: seq<Seat>)
    ensures seats == SeatPlan(busId, capacity, price, now)
  {
    ghost var plan := SeatPlan(busId, capacity, price, now);
    seats := [];
    var i := 1;
    while i <= capacity
      invariant 1 <= i <= |plan| + 1
      invariant seats == plan[..i - 1]
    {
      seats := seats + [Seat(SeatNumber(i), busId, true, price, now)];
      i := i + 1;
    }
  }

  /** The seats of one bus, in store order. */
  function SeatsOf(seats: seq<Seat>, busId: string): (r: seq<Seat>)
    ensures forall k :: 0 <= k < |r| ==> r[k].busId == busId
    ensures r == [] <==> forall k :: 0 <= k < |seats| ==> seats[k].busId != busId
    ensures |r| <= |seats|
  {
    if seats == [] then []
    else
      var rest := SeatsOf(seats[1..], busId);
      assert forall k :: 1 <= k < |seats| ==> seats[k] == seats[1..][k - 1];
      (if seats[0].busId == busId then [seats[0]] else []) + rest
  }

  lemma {:induction false} SeatsOfAppend(a: seq<Seat>, b: seq<Seat>, busId: string)
    ensures SeatsOf(a + b, busId) == SeatsOf(a, busId) + SeatsOf(b, busId)
  {
    if a == [] {
      assert a + b == b;
    } else {
      assert (a + b)[0] == a[0] && (a + b)[1..] == a[1..] + b;
      SeatsOfAppend(a[1..], b, busId);
    }
  }

  lemma {:induction false} SeatsOfOwn(s: seq<Seat>, busId: string)
    requires forall k :: 0 <= k < |s| ==> s[k].busId == busId
    ensures SeatsOf(s, busId) == s
  {
    if s != [] {
      SeatsOfOwn(s[1..], busId);
    }
  }

  /** A batch of seats of a bus that had none is what the bus's listing
      holds after the batch is appended. */
  lemma BatchListedBack(seats: seq<Seat>, batch: seq<Seat>, busId: string)
    requires SeatsOf(seats, busId) == []
    requires forall k :: 0 <= k < |batch| ==> batch[k].busId == busId
    ensures SeatsOf(seats + batch, busId) == batch
  {
    SeatsOfAppend(seats, batch, busId);
    SeatsOfOwn(batch, busId);
  }

  /** The listing returned after creating seats holds at most this many. */
  const SeatListCap: int := 100

  // ---------------------------------------------------------------------
  // Routes, buses and the store
  // ---------------------------------------------------------------------

  datatype Route = Route(departure: string, destination: string, price: int)

  datatype BusCreate = BusCreate(routeId: string, capacity: int, departureTime: Time)

  datatype Bus = Bus(routeId: string, capacity: int, departureTime: Time, createdAt: Time)

  datatype BusResponse = BusResponse(id: string, bus: Bus)

  const InvalidRouteId: HttpError := HttpError(400, "Invalid route ID format")
  const InvalidBusId: HttpError := HttpError(400, "Invalid bus ID format")
  const SeatsAlreadyCreated: HttpError := HttpError(400, "Seats already created for this bus")
  const RouteNotFound: HttpError := HttpError(404, "Route not found")
  /** What an uncaught exception becomes: inserting an empty batch of
      documents raises in the store driver. */
  const InternalError: HttpError := HttpError(500, "Internal Server Error")

  /** The route, bus and seat collections. */
  class TransportStore {
    var routes: map<string, Route>
    var buses: map<string, Bus>
    var seats: seq<Seat>

    constructor ()
      ensures routes == map[] && buses == map[] && seats == []
    {
      routes, buses, seats := map[], map[], [];
    }

    /** Bus creation. The lookup of the route and the "not found" raised
        after it sit inside one catch-all handler, so a missing route is
        reported as a malformed route id. */
    method CreateBus(request: BusCreate, newId: string, now: Time) returns (r: Result<BusResponse>)
      requires newId !in buses
      modifies this`buses
      ensures routes == old(routes) && seats == old(seats)
      ensures request.routeId !in routes ==> r == Err(InvalidRouteId) && buses == old(buses)
      ensures request.routeId in routes ==>
                && buses == old(buses)[newId := Bus(request.routeId, request.capacity, request.departureTime, now)]
                && r == Ok(BusResponse(newId, buses[newId]))
    {
      if request.routeId !in routes {
        return Err(InvalidRouteId);
      }
      var bus := Bus(request.routeId, request.capacity, request.departureTime, now);
      buses := buses[newId := bus];
      r := Ok(BusResponse(newId, bus));
    }

    /** Seat generation for one bus: the bus must exist (a missing bus is
        reported as a malformed bus id), must have no seats yet, and its
        route must exist; then one seat per number 1..capacity is inserted
        at the route's price, and the bus's seats are listed back, at most
        100 of them. */
    method CreateBusSeats(busId: string, now: Time) returns (r: Result<seq<Seat>>)
      modifies this`seats
      ensures routes == old(routes) && buses == old(buses)
      ensures r.Err? ==> seats == old(seats)
      ensures busId !in buses ==> r == Err(InvalidBusId)
      ensures busId in buses && SeatsOf(old(seats), busId) != [] ==> r == Err(SeatsAlreadyCreated)
      ensures (busId in buses && SeatsOf(old(seats), busId) == [] && buses[busId].routeId !in routes) ==>
                r == Err(RouteNotFound)
      ensures (busId in buses && SeatsOf(old(seats), busId) == [] && buses[busId].routeId in routes &&
               buses[busId].capacity <= 0) ==> r == Err(InternalError)
      ensures r.Ok? ==>
                && busId in buses && buses[busId].routeId in routes && SeatsOf(old(seats), busId) == []
                && var plan := SeatPlan(busId, buses[busId].capacity, routes[buses[busId].routeId].price, now);
                && plan != []
                && seats == old(seats) + plan
                && r.value == plan[..Min(|plan|, SeatListCap)]
      ensures (busId in buses && SeatsOf(old(seats), busId) == [] && buses[busId].routeId in routes &&
               buses[busId].capacity > 0) ==> r.Ok?
    {
      if busId !in buses {
        return Err(InvalidBusId);
      }
      var bus := buses[busId];
      var existing := SeatsOf(seats, busId);
      if existing != [] {
        return Err(SeatsAlreadyCreated);
      }
      if bus.routeId !in routes {
        return Err(RouteNotFound);
      }
      var route := routes[bus.routeId];
      var toCreate := BuildSeats(busId, bus.capacity, route.price, now);
      if toCreate == [] {
        return Err(InternalError);
      }
      BatchListedBack(seats, toCreate, busId);
      seats := seats + toCreate;
      var created := SeatsOf(seats, busId);
      r := Ok(created[..Min(|created|, SeatListCap)]);
    }
  }

  // ---------------------------------------------------------------------
  // The bus listing query
  // ---------------------------------------------------------------------

  const MaxPageSize: int := 100
  const InvalidQuery: HttpError := HttpError(422, "Unprocessable Entity")

  /** The paging parameters of the listings, when the query omits them. */
  const DefaultSkip: int := 0
  const DefaultLimit: int := 10

  function OrDefault(v: Option<int>, fallback: int): int {
    if v.Some? then v.value else fallback
  }

  /** Midnight of the day holding t. */
  function StartOfDay(t: Time): (s: Time)
    ensures s <= t < s + MillisPerDay
    ensures s % MillisPerDay == 0
  {
    t - t % MillisPerDay
  }

  /** The last instant the day filter admits: 23:59:59 of the same day. */
  const EndOfDayOffset: int := 23 * MillisPerHour + 59 * MillisPerMinute + 59 * MillisPerSecond

  /** A date-time as the query carries it: its wall-clock reading (the
      calendar fields as written, counted in milliseconds from the epoch as
      if they were UTC) and the UTC offset written with it, if any. */
  datatype DateTime = DateTime(wallClock: Time, utcOffset: Option<int>)

  /** The instant a date-time denotes; one without an offset is read as UTC,
      as the store reads it. */
  function Instant(d: DateTime): Time {
    if d.utcOffset.Some? then d.wallClock - d.utcOffset.value else d.wallClock
  }

  datatype BusQuery = BusQuery(routeId: Option<string>, departureFrom: Option<Time>, departureTo: Option<Time>,
                               skip: nat, limit: nat)

  /** The filter the bus listing builds. Skip defaults to 0 and must be at
      least 0, limit defaults to 10 and must lie in 1..100; otherwise the
      request is refused with 422. A non-empty route id filters on the route.
      A date filters on departures from 00:00:00 to 23:59:59 of its calendar
      day as written, both ends included; the offset is dropped, so the
      window is that calendar day in UTC. */
  function BusQueryFor(routeId: Option<string>, date: Option<DateTime>, skip: Option<int>, limit: Option<int>)
    : (r: Result<BusQuery>)
    ensures r.Ok? <==>
              && (skip.None? || skip.value >= 0)
              && (limit.None? || 1 <= limit.value <= MaxPageSize)
    ensures r.Err? ==> r.error.status == 422
    ensures r.Ok? && skip.None? ==> r.value.skip == 0
    ensures r.Ok? && skip.Some? ==> r.value.skip == skip.value
    ensures r.Ok? && limit.None? ==> r.value.limit == 10
    ensures r.Ok? && limit.Some? ==> r.value.limit == limit.value
    ensures r.Ok? ==> (r.value.routeId.Some? <==> routeId.Some? && routeId.value != "")
    ensures r.Ok? && r.value.routeId.Some? ==> r.value.routeId == routeId
    ensures r.Ok? ==> (r.value.departureFrom.Some? <==> date.Some?) && (r.value.departureTo.Some? <==> date.Some?)
  {
    var s, l := OrDefault(skip, DefaultSkip), OrDefault(limit, DefaultLimit);
    if !(s >= 0 && 1 <= l <= MaxPageSize) then Err(InvalidQuery)
    else
      var route := if routeId.Some? && routeId.value != "" then routeId else None;
      var from := if date.Some? then Some(StartOfDay(date.value.wallClock)) else None;
      var to := if date.Some? then Some(StartOfDay(date.value.wallClock) + EndOfDayOffset) else None;
      Ok(BusQuery(route, from, to, s, l))
  }

  predicate Matches(bus: Bus, q: BusQuery) {
    && (q.routeId.None? || bus.routeId == q.routeId.value)
    && (q.departureFrom.None? || q.departureFrom.value <= bus.departureTime)
    && (q.departureTo.None? || bus.departureTime <= q.departureTo.value)
  }

  /** A bus passes the date filter exactly when it departs on the same day as
      the given date, no later than 23:59:59 of it; a departure in the last
      second of the day, after 23:59:59.000, is not listed. */
  lemma DayFilterIsSameDay(bus: Bus, date: DateTime, skip: Option<int>, limit: Option<int>)
    requires BusQueryFor(None, Some(date), skip, limit).Ok?
    ensures var q := BusQueryFor(None, Some(date), skip, limit).value;
            Matches(bus, q) <==>
              && bus.departureTime / MillisPerDay == date.wallClock / MillisPerDay
              && bus.departureTime % MillisPerDay <= EndOfDayOffset
  {
    var d := bus.departureTime;
    var day := date.wallClock / MillisPerDay;
    assert StartOfDay(date.wallClock) == day * MillisPerDay;
    var q := BusQueryFor(None, Some(date), skip, limit).value;
    assert q.departureFrom == Some(day * MillisPerDay);
    assert q.departureTo == Some(day * MillisPerDay + EndOfDayOffset);
    SameDayWindow(d, day);
  }

  /** d lies in [day * D, day * D + EndOfDayOffset] exactly when d falls on
      that day at or before 23:59:59. */
  lemma SameDayWindow(d: int, day: int)
    ensures (day * MillisPerDay <= d <= day * MillisPerDay + EndOfDayOffset) <==>
              (d / MillisPerDay == day && d % MillisPerDay <= EndOfDayOffset)
  {
    var q, m := d / MillisPerDay, d % MillisPerDay;
    assert d == q * MillisPerDay + m && 0 <= m < MillisPerDay;
    if q < day {
      assert q * MillisPerDay <= (day - 1) * MillisPerDay;
    } else if q > day {
      assert q * MillisPerDay >= (day + 1) * MillisPerDay;
    }
  }

  /** A date written with a positive offset whose wall clock is earlier in
      its day than the offset denotes an instant on the previous UTC day,
      yet the filter keeps the calendar day as written: for
      2024-05-01T03:00:00+07:00 the window is 1 May, not 30 April. */
  lemma OffsetDateKeepsWrittenDay(date: DateTime)
    requires date.utcOffset.Some? && date.wallClock % MillisPerDay < date.utcOffset.value <= MillisPerDay
    ensures Instant(date) / MillisPerDay == date.wallClock / MillisPerDay - 1
    ensures var q := BusQueryFor(None, Some(date), None, None).value;
            q.departureFrom == Some(StartOfDay(date.wallClock)) && Instant(date) < q.departureFrom.value
  {
    var day, m := date.wallClock / MillisPerDay, date.wallClock % MillisPerDay;
    assert date.wallClock == day * MillisPerDay + m;
    var t := Instant(date);
    assert (day - 1) * MillisPerDay <= t < day * MillisPerDay;
  }
}
