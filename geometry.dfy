/**
  The geometry library the zone and street lookups lean on (GeoJSON shape
  construction, prepared-polygon containment, the spatial tree query and the
  metric point-to-line distance after reprojection), reduced to the functions
  the lookups call. Nothing here is computed: each operation is a parameter.
*/
module Geometry {
  import opened Wrappers
  import opened PyValue

  /** A planar point; `x` is the longitude and `y` the latitude. */
  datatype Point = Point(x: real, y: real)

  /** A geometry built by `shape()` from a GeoJSON geometry mapping. */
  datatype Shape = Shape(geojson: Value)

  /** The geometry operations, as total functions:
      - `shape`: `shape(geojson)`; None when it raises;
      - `isEmpty`: `geom.is_empty`;
      - `contains`: `prep(geom).contains(point)`;
      - `query`: the positions, in `geoms`, of the candidates the spatial tree
        over `geoms` returns for a box of `radius` metres around the point;
      - `distanceM`: the distance in metres from the point to the geometry
        once both are reprojected; None when the reprojection raises. */
  datatype GeoLib = GeoLib(
    shape: Value -> Option<Shape>,
    isEmpty: Shape -> bool,
    contains: (Shape, Point) -> bool,
    query: (seq<Shape>, Point, real) -> seq<nat>,
    distanceM: (Shape, Point) -> Option<real>)
}
