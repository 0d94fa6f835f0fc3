/**
 * Flights, schedules and the schedule search of FlightBooking/FlightBooking.py.
 *
 * A moment in time is a whole number of seconds on a naive (time-zone free)
 * clock; its calendar day is the number of whole days since the clock's
 * origin and its time of day the seconds since that day's midnight. Airports
 * and airlines are compared by identity, as the source's objects are.
 */
module FlightBooking {
  import opened Wrappers

  const SecondsPerDay := 86400
  const SecondsPerHour := 3600

  /** `datetime.date()`: the calendar day of moment t. */
  function DateOf(t: int): (day: int)
    ensures day * SecondsPerDay <= t < (day + 1) * SecondsPerDay
  {
    t / SecondsPerDay
  }

  /** `datetime.time()`: seconds since midnight of moment t. */
  function TimeOfDay(t: int): (secs: int)
    ensures 0 <= secs < SecondsPerDay
    ensures DateOf(t) * SecondsPerDay + secs == t
  {
    t % SecondsPerDay
  }

  datatype FlightStatus = OnTime | InactiveFlight | Cancelled | Arrived | Delay
  datatype UserType = Customer | Operator | Admin

  class Airline {
    const id: int
    const name: string
    const logoUrl: string

    constructor (id: int, name: string, logoUrl: string)
      ensures this.id == id && this.name == name && this.logoUrl == logoUrl
    {
      this.id := id;
      this.name := name;
      this.logoUrl := logoUrl;
    }
  }

  class Airport {
    const id: int
    const name: string
    const code: string
    const city: string
    const country: string
    const timezone: string

    constructor (id: int, name: string, code: string, city: string, country: string, timezone: string)
      ensures this.id == id && this.name == name && this.code == code
      ensures this.city == city && this.country == country && this.timezone == timezone
    {
      this.id := id;
      this.name := name;
      this.code := code;
      this.city := city;
      this.country := country;
      this.timezone := timezone;
    }
  }

  class FlightSchedule {
    const id: int
    const startTime: int
    const endTime: int
    const startAirport: Airport
    const endAirport: Airport

    constructor (id: int, startTime: int, endTime: int, startAirport: Airport, endAirport: Airport)
      ensures this.id == id && this.startTime == startTime && this.endTime == endTime
      ensures this.startAirport == startAirport && this.endAirport == endAirport
    {
      this.id := id;
      this.startTime := startTime;
      this.endTime := endTime;
      this.startAirport := startAirport;
      this.endAirport := endAirport;
    }

    /** Whole hours between departure and arrival, rounded down. */
    function GetDuration(): (hours: int)
      ensures hours * SecondsPerHour <= endTime - startTime < (hours + 1) * SecondsPerHour
    {
      (endTime - startTime) / SecondsPerHour
    }
  }

  /**
   * The search filter: the schedule departs on day `date` from `from` to `to`,
   * its departure time of day is no later than `arrivalTime` and its arrival
   * time of day is no earlier than `departureTime`.
   */
  predicate Fits(s: FlightSchedule, date: int, arrivalTime: int, departureTime: int, from: Airport, to: Airport)
  {
    DateOf(s.startTime) == date && s.startAirport == from && s.endAirport == to &&
    TimeOfDay(s.startTime) <= arrivalTime && TimeOfDay(s.endTime) >= departureTime
  }

  /** The schedules that pass the filter, in their original order. */
  function Matching(ss: seq<FlightSchedule>, date: int, arrivalTime: int, departureTime: int, from: Airport, to: Airport): (r: seq<FlightSchedule>)
    ensures |r| <= |ss|
    ensures forall i :: 0 <= i < |r| ==> r[i] in ss && Fits(r[i], date, arrivalTime, departureTime, from, to)
    ensures forall i :: 0 <= i < |ss| && Fits(ss[i], date, arrivalTime, departureTime, from, to) ==> ss[i] in r
  {
    if ss == [] then []
    else
      var last := ss[|ss| - 1];
      var front := ss[..|ss| - 1];
      assert forall i :: 0 <= i < |front| ==> front[i] == ss[i];
      Matching(front, date, arrivalTime, departureTime, from, to) +
        (if Fits(last, date, arrivalTime, departureTime, from, to) then [last] else [])
  }

  /** The schedule filter works schedule by schedule, so it keeps insertion order. */
  lemma {:induction false} MatchingAppend(a: seq<FlightSchedule>, b: seq<FlightSchedule>, date: int,
                                          arrivalTime: int, departureTime: int, from: Airport, to: Airport)
    ensures Matching(a + b, date, arrivalTime, departureTime, from, to) ==
      Matching(a, date, arrivalTime, departureTime, from, to) + Matching(b, date, arrivalTime, departureTime, from, to)
    decreases |b|
  {
    if b == [] {
      assert a + b == a;
    } else {
      var front := b[..|b| - 1];
      assert (a + b)[..|a + b| - 1] == a + front;
      assert (a + b)[|a + b| - 1] == b[|b| - 1];
      MatchingAppend(a, front, date, arrivalTime, departureTime, from, to);
    }
  }

  class Flight {
    const flightNo: string
    const airline: Airline
    var status: FlightStatus
    var schedules: seq<FlightSchedule>

    constructor (flightNo: string, airline: Airline, status: FlightStatus)
      ensures this.flightNo == flightNo && this.airline == airline && this.status == status
      ensures schedules == []
    {
      this.flightNo := flightNo;
      this.airline := airline;
      this.status := status;
      schedules := [];
    }

    method UpdateStatus(s: FlightStatus)
      modifies this
      ensures status == s && schedules == old(schedules)
    {
      status := s;
    }

    method AddSchedule(s: FlightSchedule)
      modifies this
      ensures schedules == old(schedules) + [s] && status == old(status)
    {
      schedules := schedules + [s];
    }

    /** The flight's schedules that pass the search filter, in insertion order. */
    method GetFlightSchedule(date: int, arrivalTime: int, departureTime: int, from: Airport, to: Airport)
      returns (found: seq<FlightSchedule>)
      ensures found == Matching(schedules, date, arrivalTime, departureTime, from, to)
    {
      found := [];
      for i := 0 to |schedules|
        invariant found == Matching(schedules[..i], date, arrivalTime, departureTime, from, to)
      {
        assert schedules[..i + 1][..i] == schedules[..i];
        var s := schedules[i];
        if Fits(s, date, arrivalTime, departureTime, from, to) {
          found := found + [s];
        }
      }
      assert schedules[..|schedules|] == schedules;
    }
  }

  /** The airline filter of `get_schedules`: no airline given admits every flight. */
  predicate Admits(airline: Airline?, f: Flight)
  {
    airline == null || f.airline == airline
  }

  /** The matches of the admitted flights, concatenated in flight order. */
  function AllMatching(flights: seq<Flight>, date: int, from: Airport, to: Airport,
                       arrivalTime: int, departureTime: int, airline: Airline?): seq<FlightSchedule>
    reads flights
  {
    if flights == [] then []
    else
      var last := flights[|flights| - 1];
      AllMatching(flights[..|flights| - 1], date, from, to, arrivalTime, departureTime, airline) +
        (if Admits(airline, last) then Matching(last.schedules, date, arrivalTime, departureTime, from, to) else [])
  }

  /**
   * A schedule is in the search result exactly when it belongs to an
   * admitted flight and passes the filter.
   */
  lemma {:induction false} AllMatchingMembers(flights: seq<Flight>, date: int, from: Airport, to: Airport,
                                              arrivalTime: int, departureTime: int, airline: Airline?, s: FlightSchedule)
    ensures s in AllMatching(flights, date, from, to, arrivalTime, departureTime, airline) <==>
      Fits(s, date, arrivalTime, departureTime, from, to) &&
      exists i :: 0 <= i < |flights| && Admits(airline, flights[i]) && s in flights[i].schedules
  {
    if flights != [] {
      var front := flights[..|flights| - 1];
      var last := flights[|flights| - 1];
      AllMatchingMembers(front, date, from, to, arrivalTime, departureTime, airline, s);
      var here := if Admits(airline, last) then Matching(last.schedules, date, arrivalTime, departureTime, from, to) else [];
      if s in here {
        assert Admits(airline, flights[|flights| - 1]);
      }
      if Fits(s, date, arrivalTime, departureTime, from, to) &&
         exists i :: 0 <= i < |flights| && Admits(airline, flights[i]) && s in flights[i].schedules {
        var i :| 0 <= i < |flights| && Admits(airline, flights[i]) && s in flights[i].schedules;
        if i < |front| {
          assert front[i] == flights[i];
        } else {
          var j :| 0 <= j < |last.schedules| && last.schedules[j] == s;
          assert s in here;
        }
      }
    }
  }

  /** The search result over one more flight extends the previous one. */
  lemma AllMatchingSnoc(flights: seq<Flight>, i: nat, date: int, from: Airport, to: Airport,
                        arrivalTime: int, departureTime: int, airline: Airline?)
    requires i < |flights|
    ensures AllMatching(flights[..i + 1], date, from, to, arrivalTime, departureTime, airline) ==
      AllMatching(flights[..i], date, from, to, arrivalTime, departureTime, airline) +
      (if Admits(airline, flights[i]) then Matching(flights[i].schedules, date, arrivalTime, departureTime, from, to) else [])
  {
    assert flights[..i + 1][..i] == flights[..i];
  }

  /**
   * Searching a list of flights that is split in two gives the first part's
   * matches followed by the second part's, so the result follows flight order.
   */
  lemma {:induction false} AllMatchingAppend(a: seq<Flight>, b: seq<Flight>, date: int, from: Airport, to: Airport,
                                             arrivalTime: int, departureTime: int, airline: Airline?)
    ensures AllMatching(a + b, date, from, to, arrivalTime, departureTime, airline) ==
      AllMatching(a, date, from, to, arrivalTime, departureTime, airline) +
      AllMatching(b, date, from, to, arrivalTime, departureTime, airline)
    decreases |b|
  {
    if b == [] {
      assert a + b == a;
    } else {
      var front := b[..|b| - 1];
      assert (a + b)[..|a + b| - 1] == a + front;
      assert (a + b)[|a + b| - 1] == b[|b| - 1];
      AllMatchingAppend(a, front, date, from, to, arrivalTime, departureTime, airline);
    }
  }

  class User {
    const id: int
    const username: string
    const password: string
    const userType: UserType
    var status: Option<string>

    /** The personal details passed in are not stored: a new user has none. */
    constructor (id: int, username: string, password: string, userType: UserType, personalDetails: map<string, string>)
      ensures this.id == id && this.username == username && this.password == password
      ensures this.userType == userType && status == None
    {
      this.id := id;
      this.username := username;
      this.password := password;
      this.userType := userType;
      status := None;
    }

    method Login(name: string, pass: string) returns (ok: bool)
      modifies this
      ensures ok <==> name == username && pass == password
      ensures status == if ok then Some("logged_in") else old(status)
    {
      if username == name && password == pass {
        status := Some("logged_in");
        return true;
      }
      return false;
    }
  }

  class FlightBookingSystem {
    var airlines: seq<Airline>
    var airports: seq<Airport>
    var flights: seq<Flight>
    var users: seq<User>

    constructor ()
      ensures airlines == [] && airports == [] && flights == [] && users == []
    {
      airlines := [];
      airports := [];
      flights := [];
      users := [];
    }

    method AddAirline(a: Airline)
      modifies this
      ensures airlines == old(airlines) + [a]
      ensures airports == old(airports) && flights == old(flights) && users == old(users)
    {
      airlines := airlines + [a];
    }

    method AddAirport(a: Airport)
      modifies this
      ensures airports == old(airports) + [a]
      ensures airlines == old(airlines) && flights == old(flights) && users == old(users)
    {
      airports := airports + [a];
    }

    method AddFlights(f: Flight)
      modifies this
      ensures flights == old(flights) + [f]
      ensures airlines == old(airlines) && airports == old(airports) && users == old(users)
    {
      flights := flights + [f];
    }

    method AddUser(u: User)
      modifies this
      ensures users == old(users) + [u]
      ensures airlines == old(airlines) && airports == old(airports) && flights == old(flights)
    {
      users := users + [u];
    }

    /**
     * The matching schedules of every flight, of the given airline when one
     * is given, concatenated in flight order.
     */
    method GetSchedules(date: int, from: Airport, to: Airport, arrivalTime: int, departureTime: int, airline: Airline?)
      returns (found: seq<FlightSchedule>)
      ensures found == AllMatching(flights, date, from, to, arrivalTime, departureTime, airline)
    {
      found := [];
      for i := 0 to |flights|
        invariant found == AllMatching(flights[..i], date, from, to, arrivalTime, departureTime, airline)
      {
        var current := flights[i].GetFlightSchedule(date, arrivalTime, departureTime, from, to);
        ghost var here := if Admits(airline, flights[i]) then current else [];
        AllMatchingSnoc(flights, i, date, from, to, arrivalTime, departureTime, airline);
        if current != [] && (airline == null || flights[i].airline == airline) {
          found := found + current;
        } else {
          assert found + here == found;
        }
      }
      assert flights[..|flights|] == flights;
    }
  }
}
