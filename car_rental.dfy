/**
 * Cars, locations and reservations of CarRental/car_rental.py. Location
 * fields can be cleared, so each is an `Option`; a cleared field is `None`.
 */
module CarRental {
  import opened Wrappers

  datatype UserType = Customer | Operator
  datatype CarType = Sedan | Xuv
  datatype Status = Vacant | Running | Booked | Inactive

  /** The five public fields of a location, as `get_location` reports them. */
  datatype LocationRecord = LocationRecord(
    pincode: Option<string>, latitude: Option<int>, longitude: Option<int>,
    city: Option<string>, address: Option<string>)

  class Location {
    const id: int
    var pincode: Option<string>
    var latitude: Option<int>
    var longitude: Option<int>
    var city: Option<string>
    var address: Option<string>

    constructor (id: int, pincode: string, latitude: int, longitude: int, city: string, address: string)
      ensures this.id == id
      ensures GetLocation() == LocationRecord(Some(pincode), Some(latitude), Some(longitude), Some(city), Some(address))
    {
      this.id := id;
      this.pincode := Some(pincode);
      this.latitude := Some(latitude);
      this.longitude := Some(longitude);
      this.city := Some(city);
      this.address := Some(address);
    }

    function GetLocation(): LocationRecord
      reads this
    {
      LocationRecord(pincode, latitude, longitude, city, address)
    }

    /** Overwrites all five fields; the id stays. */
    method UpdateLocation(pincode: string, latitude: int, longitude: int, city: string, address: string)
      modifies this
      ensures GetLocation() == LocationRecord(Some(pincode), Some(latitude), Some(longitude), Some(city), Some(address))
    {
      this.pincode := Some(pincode);
      this.latitude := Some(latitude);
      this.longitude := Some(longitude);
      this.city := Some(city);
      this.address := Some(address);
    }

    /** Clears all five fields; the id stays. */
    method DeleteLocation()
      modifies this
      ensures GetLocation() == LocationRecord(None, None, None, None, None)
    {
      pincode := None;
      latitude := None;
      longitude := None;
      city := None;
      address := None;
    }
  }

  class User {
    const id: int
    const name: string
    const userType: UserType
    const location: Location
    const licenseId: string

    constructor (id: int, name: string, userType: UserType, location: Location, licenseId: string)
      ensures this.id == id && this.name == name && this.userType == userType
      ensures this.location == location && this.licenseId == licenseId
    {
      this.id := id;
      this.name := name;
      this.userType := userType;
      this.location := location;
      this.licenseId := licenseId;
    }
  }

  class Car {
    const id: int
    var name: string
    var carType: CarType
    var status: Status
    var carLicense: string
    var location: Location
    const chassisNumber: string

    constructor (id: int, name: string, carType: CarType, status: Status, carLicense: string,
                 location: Location, chassisNumber: string)
      ensures this.id == id && this.name == name && this.carType == carType && this.status == status
      ensures this.carLicense == carLicense && this.location == location && this.chassisNumber == chassisNumber
    {
      this.id := id;
      this.name := name;
      this.carType := carType;
      this.status := status;
      this.carLicense := carLicense;
      this.location := location;
      this.chassisNumber := chassisNumber;
    }

    /** A vacant car becomes booked; a car in any other status keeps it. */
    method ReserveVehicle()
      modifies this
      ensures status == if old(status) == Vacant then Booked else old(status)
      ensures name == old(name) && carType == old(carType) && carLicense == old(carLicense)
      ensures location == old(location)
    {
      if status == Vacant {
        status := Booked;
      }
    }

    /** Overwrites the five editable fields; id and chassis number are constants. */
    method UpdateCarDetails(name: string, carType: CarType, status: Status, carLicense: string, location: Location)
      modifies this
      ensures this.name == name && this.carType == carType && this.status == status
      ensures this.carLicense == carLicense && this.location == location
    {
      this.name := name;
      this.carType := carType;
      this.status := status;
      this.carLicense := carLicense;
      this.location := location;
    }
  }

  /** A reservation; its price and duration are read back unchanged. */
  class Reserve {
    const id: int
    const user: User
    const car: Car
    const pickup: Location
    const drop: Location
    const rentalPrice: real
    const durationInHr: int

    constructor (id: int, user: User, car: Car, pickup: Location, drop: Location, rentalPrice: real, durationInHr: int)
      ensures this.id == id && this.user == user && this.car == car && this.pickup == pickup
      ensures this.drop == drop && this.rentalPrice == rentalPrice && this.durationInHr == durationInHr
    {
      this.id := id;
      this.user := user;
      this.car := car;
      this.pickup := pickup;
      this.drop := drop;
      this.rentalPrice := rentalPrice;
      this.durationInHr := durationInHr;
    }
  }

  /** The cars of type `t`, in list order. */
  function OfType(cars: seq<Car>, t: CarType): (r: seq<Car>)
    reads cars
    ensures |r| <= |cars|
    ensures forall i :: 0 <= i < |r| ==> r[i] in cars && r[i].carType == t
    ensures forall i :: 0 <= i < |cars| && cars[i].carType == t ==> cars[i] in r
  {
    if cars == [] then []
    else if cars[0].carType == t then [cars[0]] + OfType(cars[1..], t)
    else OfType(cars[1..], t)
  }

  /** The type search works car by car, so it keeps the list order. */
  lemma {:induction false} OfTypeAppend(a: seq<Car>, b: seq<Car>, t: CarType)
    ensures OfType(a + b, t) == OfType(a, t) + OfType(b, t)
  {
    if a != [] {
      assert (a + b)[1..] == a[1..] + b;
      OfTypeAppend(a[1..], b, t);
    } else {
      assert a + b == b;
    }
  }

  /** Every car is found by exactly one of the two type searches. */
  lemma {:induction false} TypesPartitionCars(cars: seq<Car>)
    ensures |OfType(cars, Sedan)| + |OfType(cars, Xuv)| == |cars|
  {
    if cars != [] {
      TypesPartitionCars(cars[1..]);
    }
  }

  class CarReservationSystem {
    var cars: seq<Car>
    var users: seq<User>
    var locations: seq<Location>
    var reservations: seq<Reserve>
    var locationCarMap: map<Location, seq<Car>>

    constructor ()
      ensures cars == [] && users == [] && locations == [] && reservations == []
      ensures locationCarMap == map[]
    {
      cars := [];
      users := [];
      locations := [];
      reservations := [];
      locationCarMap := map[];
    }

    /** The cars registered for `loc`, or none for a location never registered. */
    function GetCarByLocation(loc: Location): seq<Car>
      reads this
    {
      if loc in locationCarMap then locationCarMap[loc] else []
    }

    function GetCarByType(t: CarType): seq<Car>
      reads this, cars
    {
      OfType(cars, t)
    }

    /**
     * Reserves the car and records the reservation; the reservation is
     * recorded even when the car was not vacant.
     */
    method BookCar(res: Reserve)
      modifies this, res.car
      ensures reservations == old(reservations) + [res]
      ensures res.car.status == if old(res.car.status) == Vacant then Booked else old(res.car.status)
      ensures res.car.name == old(res.car.name) && res.car.carType == old(res.car.carType)
      ensures res.car.carLicense == old(res.car.carLicense) && res.car.location == old(res.car.location)
      ensures cars == old(cars) && users == old(users) && locations == old(locations)
      ensures locationCarMap == old(locationCarMap)
    {
      res.car.ReserveVehicle();
      reservations := reservations + [res];
    }
  }
}
