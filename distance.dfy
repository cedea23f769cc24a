/**
 * Integer geometry of the map: points on the i32 grid, the Manhattan
 * distance between them, and the named map objects (locations, systems,
 * waypoints, ships, asteroids) that each sit at one point.
 */
module Distance {
  import opened Ints

  /** A point of the 2-D coordinate grid. */
  datatype Point = Point(x: i32, y: i32)

  /** Map objects: a symbol and the point where the object sits. */
  datatype Location = Location(symbol: string, point: Point)
  datatype System = System(symbol: string, point: Point)
  datatype Waypoint = Waypoint(symbol: string, point: Point)
  datatype Ship = Ship(symbol: string, point: Point)
  datatype Asteroid = Asteroid(symbol: string, point: Point)

  /** `Point::new`. */
  function NewPoint(x: i32, y: i32): (p: Point)
    ensures p.x == x && p.y == y
  {
    Point(x, y)
  }

  /** Mathematical absolute value (Rust's `i32::abs` where it does not overflow). */
  function Abs(v: int): (a: nat)
    ensures a == v || a == -v
  {
    if v < 0 then -v else v
  }

  function Min(a: int, b: int): (m: int) { if a <= b then a else b }
  function Max(a: int, b: int): (m: int) { if a <= b then b else a }

  /**
   * Every intermediate step of `manhattan_distance_to` fits an `i32`:
   * both subtractions, both `abs` calls (which overflow on `i32::MIN`) and
   * the final addition. Outside this condition the Rust code panics in a
   * debug build and wraps in a release build.
   */
  predicate NoOverflow(p: Point, q: Point)
  {
    && InI32(p.x - q.x) && InI32(p.y - q.y)
    && InI32(Abs(p.x - q.x)) && InI32(Abs(p.y - q.y))
    && InI32(Abs(p.x - q.x) + Abs(p.y - q.y))
  }

  /**
   * `Point::manhattan_distance_to`: the length of a shortest grid path,
   * i.e. the sum of the distances along each axis.
   */
  function ManhattanDistanceTo(p: Point, q: Point): (d: i32)
    requires NoOverflow(p, q)
    ensures d >= 0
    ensures d == (Max(p.x, q.x) - Min(p.x, q.x)) + (Max(p.y, q.y) - Min(p.y, q.y))
    ensures d == 0 <==> p == q
  {
    var dx: i32 := p.x - q.x;
    var dy: i32 := p.y - q.y;
    var ax: i32 := Abs(dx);
    var ay: i32 := Abs(dy);
    ax + ay
  }

  /** Coordinates below 2^29 in magnitude can never overflow the distance. */
  lemma BoundedCoordinatesNoOverflow(p: Point, q: Point)
    requires -0x2000_0000 < p.x < 0x2000_0000 && -0x2000_0000 < p.y < 0x2000_0000
    requires -0x2000_0000 < q.x < 0x2000_0000 && -0x2000_0000 < q.y < 0x2000_0000
    ensures NoOverflow(p, q)
  {
  }

  /** The distance is symmetric, and so is the no-overflow condition. */
  lemma ManhattanSymmetric(p: Point, q: Point)
    requires NoOverflow(p, q)
    ensures NoOverflow(q, p)
    ensures ManhattanDistanceTo(p, q) == ManhattanDistanceTo(q, p)
  {
  }

  /** A point is at distance 0 from itself, whatever its coordinates. */
  lemma ManhattanToSelf(p: Point)
    ensures NoOverflow(p, p)
    ensures ManhattanDistanceTo(p, p) == 0
  {
  }

  /** The triangle inequality: a detour through `q` is never shorter. */
  lemma ManhattanTriangle(p: Point, q: Point, r: Point)
    requires NoOverflow(p, q) && NoOverflow(q, r) && NoOverflow(p, r)
    ensures ManhattanDistanceTo(p, r) <= ManhattanDistanceTo(p, q) + ManhattanDistanceTo(q, r)
  {
  }

  /** Moving both points by the same offset leaves their distance unchanged. */
  lemma ManhattanTranslation(p: Point, q: Point, dx: int, dy: int)
    requires InI32(p.x + dx) && InI32(p.y + dy) && InI32(q.x + dx) && InI32(q.y + dy)
    requires NoOverflow(p, q)
    ensures NoOverflow(Point(p.x + dx, p.y + dy), Point(q.x + dx, q.y + dy))
    ensures ManhattanDistanceTo(Point(p.x + dx, p.y + dy), Point(q.x + dx, q.y + dy))
         == ManhattanDistanceTo(p, q)
  {
  }

  /** The unit-test example: from (0,0) to (3,4) is 7 grid steps. */
  lemma ManhattanExample()
    ensures NoOverflow(NewPoint(0, 0), NewPoint(3, 4))
    ensures ManhattanDistanceTo(NewPoint(0, 0), NewPoint(3, 4)) == 7
  {
  }

  /** `Location::new`. */
  function NewLocation(symbol: string, x: i32, y: i32): (l: Location)
    ensures l.symbol == symbol && l.point == NewPoint(x, y)
    ensures l.point.x == x && l.point.y == y
  {
    Location(symbol, NewPoint(x, y))
  }

  /** `System::new`. */
  function NewSystem(symbol: string, x: i32, y: i32): (s: System)
    ensures s.symbol == symbol && s.point == NewPoint(x, y)
    ensures s.point.x == x && s.point.y == y
  {
    System(symbol, NewPoint(x, y))
  }

  /** `Waypoint::new`. */
  function NewWaypoint(symbol: string, x: i32, y: i32): (w: Waypoint)
    ensures w.symbol == symbol && w.point == NewPoint(x, y)
    ensures w.point.x == x && w.point.y == y
  {
    Waypoint(symbol, NewPoint(x, y))
  }

  /** `Ship::new`. */
  function NewShip(symbol: string, x: i32, y: i32): (s: Ship)
    ensures s.symbol == symbol && s.point == NewPoint(x, y)
    ensures s.point.x == x && s.point.y == y
  {
    Ship(symbol, NewPoint(x, y))
  }

  /** `Asteroid::new`. */
  function NewAsteroid(symbol: string, x: i32, y: i32): (a: Asteroid)
    ensures a.symbol == symbol && a.point == NewPoint(x, y)
    ensures a.point.x == x && a.point.y == y
  {
    Asteroid(symbol, NewPoint(x, y))
  }
}
