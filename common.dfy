/** Values shared by the navigation context and the screens. */
module Common {

  datatype Option<+T> = None | Some(value: T)

  datatype Result<+T, +E> = Success(value: T) | Failure(error: E)

  /** A point on the map. Latitude and longitude are fixed-point numbers in
      units of 1/10000 of a degree (40.7048 is 407048), so that the simulated
      driver movement is exact integer arithmetic. */
  datatype Location = Location(lat: int, lng: int, address: string)

  /** One ride tier. The price is kept in cents and is never computed with. */
  datatype RideOption = RideOption(id: string, name: string, priceCents: nat, time: nat, capacity: nat)

  /** What a field of a screen's parameter object can hold. `Undefined` is what
      destructuring a missing field yields. */
  datatype Value = Undefined | Text(text: string) | Ride(option: RideOption)

  /** The untyped parameter object a screen is given when it is navigated to. */
  type Params = map<string, Value>

  /** Reads one field of a parameter object, as `const { f } = params` does. */
  function Field(p: Params, key: string): Value
  {
    if key in p then p[key] else Undefined
  }
}
