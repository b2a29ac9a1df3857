/** Signs, retrograde motion and the position snapshot of one day
    (`get_zodiac`, `is_retrograde`, `get_positions_raw`, `get_positions`).
    The Swiss Ephemeris is replaced by an oracle `Ephemeris` that gives, for a
    day and a body, the sidereal ecliptic longitude in [0, 360) and the daily
    speed. */
module Sky {
  import opened Dicts

  datatype Body =
    | Sun | Moon | Mercury | Venus | Mars | Jupiter | Saturn | Uranus | Neptune
    | Pluto | Chiron | NorthNode | SouthNode

  /** The names the engine uses as dictionary keys and in every report. */
  function Name(b: Body): string {
    match b
    case Sun => "The Sun"
    case Moon => "The Moon"
    case Mercury => "Mercury"
    case Venus => "Venus"
    case Mars => "Mars"
    case Jupiter => "Jupiter"
    case Saturn => "Saturn"
    case Uranus => "Uranus"
    case Neptune => "Neptune"
    case Pluto => "Pluto"
    case Chiron => "Chiron"
    case NorthNode => "North Node"
    case SouthNode => "South Node"
  }

  /** The twelve bodies asked of the ephemeris, in the order of `planets`. */
  const Queried: seq<Body> :=
    [Sun, Moon, Mercury, Venus, Mars, Jupiter, Saturn, Uranus, Neptune, Pluto, Chiron, NorthNode]

  /** Snapshot order: the South Node is inserted right after the North Node. */
  const AllBodies: seq<Body> := Queried + [SouthNode]

  lemma AllBodiesDistinct()
    ensures Distinct(AllBodies)
  {
  }

  lemma AllBodiesComplete()
    ensures forall b: Body :: b in AllBodies
  {
    forall b: Body ensures b in AllBodies {
      match b
      case Sun => assert AllBodies[0] == b;
      case Moon => assert AllBodies[1] == b;
      case Mercury => assert AllBodies[2] == b;
      case Venus => assert AllBodies[3] == b;
      case Mars => assert AllBodies[4] == b;
      case Jupiter => assert AllBodies[5] == b;
      case Saturn => assert AllBodies[6] == b;
      case Uranus => assert AllBodies[7] == b;
      case Neptune => assert AllBodies[8] == b;
      case Pluto => assert AllBodies[9] == b;
      case Chiron => assert AllBodies[10] == b;
      case NorthNode => assert AllBodies[11] == b;
      case SouthNode => assert AllBodies[12] == b;
    }
  }

  /** An ecliptic longitude in degrees. */
  type Longitude = x: real | 0.0 <= x < 360.0

  datatype RawPosition = RawPosition(angle: Longitude, speed: real)

  /** The ephemeris: longitude and speed of a body on a day (days are integer
      offsets; the ephemeris is never asked about the South Node). */
  type Ephemeris = (int, Body) -> RawPosition

  /** Python's `x % 360` on a float: the floored remainder, always in [0, 360). */
  function Mod360(x: real): (r: Longitude)
    ensures ((x - r) / 360.0).Floor as real == (x - r) / 360.0
  {
    var k := (x / 360.0).Floor;
    x - 360.0 * (k as real)
  }

  const Zodiac: seq<string> :=
    ["Aries", "Taurus", "Gemini", "Cancer", "Leo", "Virgo",
     "Libra", "Scorpio", "Sagittarius", "Capricorn", "Aquarius", "Pisces"]

  /** `int(angle // 30)`: the 30-degree band holding the angle. */
  function SignIndex(angle: Longitude): (i: int)
    ensures 0 <= i < 12
    ensures 30.0 * (i as real) <= angle < 30.0 * (i as real) + 30.0
  {
    (angle / 30.0).Floor
  }

  /** `get_zodiac`. */
  function GetZodiac(angle: Longitude): string {
    Zodiac[SignIndex(angle)]
  }

  /** `is_retrograde`. */
  predicate IsRetrograde(speed: real) {
    speed < 0.0
  }

  /** A longitude names sign `k` exactly when it lies in the band
      [30k, 30k + 30): all angles of one band share a sign and no two bands do. */
  lemma ZodiacBand(angle: Longitude, k: int)
    requires 0 <= k < 12
    ensures GetZodiac(angle) == Zodiac[k] <==> 30.0 * (k as real) <= angle < 30.0 * (k as real) + 30.0
  {
    var i := SignIndex(angle);
    if i != k {
      ZodiacDistinct(i, k);
    }
  }

  lemma ZodiacDistinct(i: int, j: int)
    requires 0 <= i < 12 && 0 <= j < 12 && i != j
    ensures Zodiac[i] != Zodiac[j]
  {
    assert |Zodiac[i]| != |Zodiac[j]| || Zodiac[i][0] != Zodiac[j][0];
  }

  /** Speed zero (a station) is not retrograde; only a negative speed is. */
  lemma RetrogradeOnlyBackwards(speed: real)
    ensures IsRetrograde(speed) <==> speed < 0.0
    ensures !IsRetrograde(0.0)
  {
  }

  /** The South Node, derived from the North Node without a second query. */
  function SouthNodeOf(north: RawPosition): RawPosition {
    RawPosition(Mod360(north.angle + 180.0), north.speed)
  }

  /** The South Node lies exactly opposite the North Node, six signs on, and
      moves with it. */
  lemma SouthNodeOpposite(north: RawPosition)
    ensures SouthNodeOf(north).angle
         == if north.angle < 180.0 then north.angle + 180.0 else north.angle - 180.0
    ensures SignIndex(SouthNodeOf(north).angle) == (SignIndex(north.angle) + 6) % 12
    ensures IsRetrograde(SouthNodeOf(north).speed) == IsRetrograde(north.speed)
  {
    var x := north.angle + 180.0;
    var k := (x / 360.0).Floor;
    if north.angle < 180.0 {
      assert k == 0;
    } else {
      assert k == 1;
    }
  }

  /** Raw position of one body on one day, the South Node included. */
  function RawAt(eph: Ephemeris, day: int, b: Body): RawPosition {
    if b == SouthNode then SouthNodeOf(eph(day, NorthNode)) else eph(day, b)
  }

  datatype Position = Position(zodiac: string, retrograde: bool)

  function Classify(raw: RawPosition): Position {
    Position(GetZodiac(raw.angle), IsRetrograde(raw.speed))
  }

  /** Classified position of one body on one day. */
  function PositionAt(eph: Ephemeris, day: int, b: Body): Position {
    Classify(RawAt(eph, day, b))
  }

  /** The queried bodies are asked in order, each once; the North Node is the
      last of them and the South Node is never asked. */
  lemma QueriedStep(i: int)
    requires 0 <= i < |Queried|
    ensures Queried[i] !in Queried[..i] && Queried[i] != SouthNode
    ensures Queried[i] == NorthNode <==> i == |Queried| - 1
    ensures Queried[..i + 1] == Queried[..i] + [Queried[i]]
    ensures SouthNode !in Queried
  {
    AllBodiesDistinct();
    forall k | 0 <= k < |Queried| ensures Queried[k] != SouthNode {
      assert Queried[k] == AllBodies[k];
    }
  }

  /** `get_positions_raw`: the twelve queried bodies in order, each as the
      ephemeris gives it, with the South Node added right after the North
      Node. */
  method GetPositionsRaw(eph: Ephemeris, day: int) returns (positions: Dict<Body, RawPosition>)
    ensures positions.keys == AllBodies
    ensures forall b :: b in positions.vals && positions.vals[b] == RawAt(eph, day, b)
  {
    positions := Empty();
    for i := 0 to |Queried|
      invariant positions.keys == if i < |Queried| then Queried[..i] else AllBodies
      invariant forall b :: b in positions.vals ==> positions.vals[b] == RawAt(eph, day, b)
    {
      var name := Queried[i];
      QueriedStep(i);
      var position := eph(day, name);
      positions := Put(positions, name, position);
      if name == NorthNode {
        positions := Put(positions, SouthNode, SouthNodeOf(position));
      }
    }
    AllBodiesComplete();
  }

  /** `get_positions`: every body of the raw snapshot, in the raw snapshot's
      order, classified by sign and retrograde motion. */
  method GetPositions(eph: Ephemeris, day: int) returns (positions: Dict<Body, Position>)
    ensures positions.keys == AllBodies
    ensures forall b :: b in positions.vals && positions.vals[b] == PositionAt(eph, day, b)
  {
    var raw := GetPositionsRaw(eph, day);
    positions := Empty();
    for i := 0 to |raw.keys|
      invariant positions.keys == raw.keys[..i]
      invariant forall b :: b in positions.vals ==> positions.vals[b] == Classify(raw.vals[b])
    {
      var name := raw.keys[i];
      DistinctNext(raw.keys, i);
      positions := Put(positions, name, Classify(raw.vals[name]));
    }
    assert raw.keys[..|raw.keys|] == raw.keys;
  }

  /** Every queried body is classified from the ephemeris; the South Node is
      six signs from the North Node and shares its retrograde state. */
  lemma SnapshotSouthNode(eph: Ephemeris, day: int)
    ensures forall b :: b != SouthNode ==> PositionAt(eph, day, b) == Classify(eph(day, b))
    ensures PositionAt(eph, day, SouthNode).zodiac == Zodiac[(SignIndex(eph(day, NorthNode).angle) + 6) % 12]
    ensures PositionAt(eph, day, SouthNode).retrograde == PositionAt(eph, day, NorthNode).retrograde
  {
    SouthNodeOpposite(eph(day, NorthNode));
  }
}
