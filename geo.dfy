/** Coordinates as the map page holds them. */
module Geo {

  /** A point `{ lat, lng }` picked on the map or returned by geocoding.
      No operation of the model does arithmetic on its fields. */
  datatype LatLng = LatLng(lat: real, lng: real)

  /** A two-element position array as it travels between the page, the routing
      service and the map library; which coordinate comes first depends on
      where it is. */
  type Position = (real, real)
}
