/** `CLLocationCoordinate2D`: a latitude/longitude pair in degrees. */
module Geo {
  datatype Coordinate = Coordinate(latitude: real, longitude: real)
}
