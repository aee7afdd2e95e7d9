/**
 * Conversion of spherical angles (inclination theta from the +z axis, azimuth
 * phi, in radians) to right ascension and declination in degrees (`tp2rd`).
 */
module Sky {

  /**
   * Pi as the shortest decimal that rounds to the double `np.pi`; the double
   * itself is 3.141592653589793115997963...
   */
  const Pi: real := 3.141592653589793

  datatype RaDec = RaDec(ra: real, dec: real)

  datatype Angles = Angles(theta: real, phi: real)

  /**
   * `tp2rd`: `ra = phi * 180 / pi`, `dec = 90 - theta * 180 / pi`. Inclination
   * 0 is the north pole, inclinations in [0, pi] give declinations in
   * [-90, 90], and azimuths in [0, 2 pi) give right ascensions in [0, 360).
   */
  function TpToRd(theta: real, phi: real): (rd: RaDec)
    ensures 0.0 <= theta <= Pi ==> -90.0 <= rd.dec <= 90.0
    ensures 0.0 <= phi < 2.0 * Pi ==> 0.0 <= rd.ra < 360.0
    ensures theta == 0.0 ==> rd.dec == 90.0
    ensures theta == Pi / 2.0 ==> rd.dec == 0.0
  {
    RaDec(phi / Pi * 180.0, -1.0 * (theta / Pi * 180.0 - 90.0))
  }

  /** The inverse conversion, from degrees back to radians. */
  function RdToTp(rd: RaDec): (a: Angles)
  {
    Angles((90.0 - rd.dec) * Pi / 180.0, rd.ra * Pi / 180.0)
  }

  /** Converting to degrees and back recovers the angles, and the other way round. */
  lemma TpToRdRoundTrip(theta: real, phi: real, rd: RaDec)
    ensures RdToTp(TpToRd(theta, phi)) == Angles(theta, phi)
    ensures TpToRd(RdToTp(rd).theta, RdToTp(rd).phi) == rd
  {
  }

  /** Declination decreases strictly as the inclination grows. */
  lemma DecDecreasing(theta1: real, theta2: real, phi: real)
    requires theta1 < theta2
    ensures TpToRd(theta2, phi).dec < TpToRd(theta1, phi).dec
  {
  }
}
