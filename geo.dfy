/** Location fixes, the hash bundle and the platform constants shared by the screen and the service. */
module Geo {
  import opened Optional

  /** A location fix as the platform reports it. `provider` may be null; `time` is in milliseconds. */
  datatype Location = Location(provider: Option<string>, latitude: real, longitude: real, time: int, accuracy: real)

  /** The hash bundle (Info.java is not part of this model); only its final destination is read here. */
  datatype Info = Info(finalLocation: Location)

  /** LocationManager.GPS_PROVIDER and LocationManager.NETWORK_PROVIDER. */
  const GPS_PROVIDER: string := "gps"
  const NETWORK_PROVIDER: string := "network"

  /** The provider status codes of LocationProvider. */
  const OUT_OF_SERVICE: int := 0
  const TEMPORARILY_UNAVAILABLE: int := 1
  const AVAILABLE: int := 2
}
