/** A channel: a fixed base frequency gated by an inclusive distance window. */
module Channel {
  import opened Wrappers

  /** Angular window (degrees) and distance window (meters) of a channel. */
  datatype AngularBounds = AngularBounds(
    minAzimuth: real, maxAzimuth: real,
    minElevation: real, maxElevation: real,
    minRange: real, maxRange: real)

  /** `AngularBounds(min_azimuth, max_azimuth)` with the dataclass defaults for the other fields. */
  function DefaultBounds(minAzimuth: real, maxAzimuth: real): AngularBounds
  {
    AngularBounds(minAzimuth, maxAzimuth, -5.0, 5.0, 0.3, 4.0)
  }

  /** A channel; the overlay colour is omitted. */
  datatype Channel = Channel(name: string, bounds: AngularBounds, baseFrequency: real)

  /** `Channel.get_frequency`: the base frequency inside [min_range, max_range], `None` outside. */
  function GetFrequency(c: Channel, distance: real): (r: Option<real>)
    ensures r.Some? <==> c.bounds.minRange <= distance <= c.bounds.maxRange
    ensures r.Some? ==> r.value == c.baseFrequency
  {
    if !(c.bounds.minRange <= distance <= c.bounds.maxRange) then None
    else Some(c.baseFrequency)
  }

  /** The result depends neither on where in the window the distance lies nor on the angular
      fields of the bounds. */
  lemma GetFrequencyIndependent(c: Channel, c': Channel, d: real, d': real)
    requires c.baseFrequency == c'.baseFrequency
    requires c.bounds.minRange == c'.bounds.minRange && c.bounds.maxRange == c'.bounds.maxRange
    requires c.bounds.minRange <= d <= c.bounds.maxRange && c.bounds.minRange <= d' <= c.bounds.maxRange
    ensures GetFrequency(c, d) == GetFrequency(c', d') == Some(c.baseFrequency)
  {
  }

  /** With default bounds every distance in [0.3, 4.0] yields a frequency and every other none. */
  lemma DefaultWindow(name: string, minAzimuth: real, maxAzimuth: real, base: real, d: real)
    ensures GetFrequency(Channel(name, DefaultBounds(minAzimuth, maxAzimuth), base), d).Some? <==> 0.3 <= d <= 4.0
  {
  }
}
