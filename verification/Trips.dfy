/** A validated trip, as the loader hands it to training and to the statistics. */
module Trips {

  /** pickupTime is in nanoseconds since 2015-01-01 00:00:00 UTC. */
  datatype Trip = Trip(pickupTime: int, durationMin: real, tripDistance: real,
                       pickupLat: real, pickupLon: real, rateCodeID: int, passengerCount: int,
                       hourOfDay: int, dayOfWeek: int)

  /** Miles per hour, from a speed that covers the distance in the minutes. */
  lemma SpeedOf(distance: real, minutes: real, v: real)
    requires 0.0 < minutes && v * minutes == 60.0 * distance
    ensures distance / (minutes / 60.0) == v
  {
    var h := minutes / 60.0;
    assert v * h == distance;
    assert v * h / h == v;
  }
}
