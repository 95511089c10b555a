/** Shared vocabulary of the match simulation: players, field geometry,
    the tuning constants and the fixed rosters. Coordinates are normalised
    to 0..100 on both axes; velocities are per movement tick. */
module Field {

  datatype Option<T> = None | Some(value: T)

  datatype Orientation = Landscape | Portrait

  /** The `type` of an entity: the humans (home, offense) or the robots (guest, defense). */
  datatype Team = Human | Robot

  /** A player id, `H${i + 1}` or `R${i + 1}`: a team letter and a number. Ids are only
      ever compared for equality, so the pair stands for the text (see `Naming`). */
  datatype PlayerId = PlayerId(side: Team, number: nat)

  /** A player on the field. The display identity (head, jersey number) is left out. */
  datatype Entity = Entity(id: PlayerId, team: Team, x: real, y: real, vx: real, vy: real)

  datatype Point = Point(x: real, y: real)

  // Timing
  const PeriodSeconds: nat := 20
  const TotalPeriods: nat := 4

  // Movement tuning
  const Drift: real := 0.04
  const WanderJitter: real := 0.08
  const IdleMax: real := 0.35
  const ChaseCarrier: real := 0.35
  const Support: real := 0.3

  // Separation between teammates
  const SeparationRadius: real := 6.0
  const SeparationStrength: real := 0.06

  /** Distance below which an opponent takes the ball. */
  const TagRadius: real := 5.0

  /** The playable rectangle is [FieldMin, FieldMax] on both axes. */
  const FieldMin: real := 10.0
  const FieldMax: real := 90.0

  /** The point a ball-carrying robot (and its supporters) steer toward on the attacking axis. */
  const RobotTarget: real := 95.0

  /** One of the eight ids on the field: H1..H4 or R1..R4. */
  predicate IsPlayer(id: PlayerId)
  {
    1 <= id.number <= 4
  }

  /** H1..H4 and R1..R4. */
  const HumanIds: seq<PlayerId> := [PlayerId(Human, 1), PlayerId(Human, 2), PlayerId(Human, 3), PlayerId(Human, 4)]
  const RobotIds: seq<PlayerId> := [PlayerId(Robot, 1), PlayerId(Robot, 2), PlayerId(Robot, 3), PlayerId(Robot, 4)]

  function Abs(v: real): (r: real)
    ensures r >= 0.0 && (r == v || r == -v)
  {
    if v < 0.0 then -v else v
  }

  function Min(a: real, b: real): real { if a <= b then a else b }
  function Max(a: real, b: real): real { if a >= b then a else b }

  /** `Math.max(-idleMax, Math.min(idleMax, v))`: a velocity component capped to the idle speed. */
  function ClampSpeed(v: real): (r: real)
    ensures -IdleMax <= r <= IdleMax
    ensures -IdleMax <= v <= IdleMax ==> r == v
  {
    Max(-IdleMax, Min(IdleMax, v))
  }

  /** `Math.min(90, Math.max(10, p))`: a coordinate pulled back into the playable rectangle. */
  function ClampPos(p: real): (r: real)
    ensures FieldMin <= r <= FieldMax
    ensures FieldMin <= p <= FieldMax ==> r == p
    ensures p < FieldMin ==> r == FieldMin
    ensures p > FieldMax ==> r == FieldMax
  {
    Min(FieldMax, Max(FieldMin, p))
  }

  /** Wall bounce: a velocity component is negated when the unclamped coordinate left the playable range. */
  function Reflect(v: real, p: real): (r: real)
    ensures Abs(r) == Abs(v)
    ensures FieldMin <= p <= FieldMax ==> r == v
  {
    if p < FieldMin || p > FieldMax then -v else v
  }

  /** `Math.hypot(dx, dy)`. It is exact when one component is zero; off the
      axes the Euclidean length is the input function `norm`. */
  function Length(dx: real, dy: real, norm: (real, real) -> real): (r: real)
    ensures dy == 0.0 ==> r == Abs(dx)
    ensures dx == 0.0 ==> r == Abs(dy)
  {
    if dy == 0.0 then Abs(dx) else if dx == 0.0 then Abs(dy) else norm(dx, dy)
  }

  /** `(dx / len) * speed, (dy / len) * speed` with `len = Math.hypot(dx, dy) || 1`:
      a zero-length direction falls back to length 1, so the velocity is zero. */
  function Steer(dx: real, dy: real, speed: real, norm: (real, real) -> real): (v: (real, real))
    ensures dx == 0.0 && dy == 0.0 ==> v == (0.0, 0.0)
    ensures dy == 0.0 && dx > 0.0 ==> v == (speed, 0.0)
    ensures dy == 0.0 && dx < 0.0 ==> v == (-speed, 0.0)
    ensures dx == 0.0 && dy > 0.0 ==> v == (0.0, speed)
    ensures dx == 0.0 && dy < 0.0 ==> v == (0.0, -speed)
  {
    var h := Length(dx, dy, norm);
    var len := if h == 0.0 then 1.0 else h;
    var qx := dx / len;
    var qy := dy / len;
    assert dx == 0.0 ==> qx * speed == 0.0;
    assert dy == 0.0 ==> qy * speed == 0.0;
    assert dy == 0.0 && dx != 0.0 ==> qx * speed == (if dx > 0.0 then speed else -speed) by {
      if dy == 0.0 && dx != 0.0 { UnitQuotient(dx); }
    }
    assert dx == 0.0 && dy != 0.0 ==> qy * speed == (if dy > 0.0 then speed else -speed) by {
      if dx == 0.0 && dy != 0.0 { UnitQuotient(dy); }
    }
    (qx * speed, qy * speed)
  }

  /** A non-zero component divided by its own magnitude is its sign. */
  lemma UnitQuotient(a: real)
    requires a != 0.0
    ensures a / Abs(a) == (if a > 0.0 then 1.0 else -1.0)
  {
    var b := Abs(a);
    assert b > 0.0;
    var q := a / b;
    var e := if a > 0.0 then 1.0 else -1.0;
    assert q * b == a;
    var d := q - e;
    assert d * b == 0.0;
    ProductSign(d, b);
    assert d == 0.0;
  }

  lemma ProductSign(x: real, b: real)
    requires b > 0.0
    ensures x > 0.0 ==> x * b > 0.0
    ensures x < 0.0 ==> x * b < 0.0
  {
  }

  /** The coordinate along which the teams attack: x in landscape, y in portrait. */
  function Axis(o: Orientation, x: real, y: real): real
  {
    if o == Portrait then y else x
  }

  /** The humans score at the low end of the attacking axis (touching the goal line counts).
      The two end zones are disjoint (the human one ends short of the robots' goal line), and
      for an entity inside the playable rectangle an end zone is its goal line. */
  predicate InHumanEndZone(o: Orientation, e: Entity)
    ensures InHumanEndZone(o, e) ==> Axis(o, e.x, e.y) < FieldMax
    ensures InPlay(e) ==> (InHumanEndZone(o, e) <==> Axis(o, e.x, e.y) == FieldMin)
  {
    Axis(o, e.x, e.y) <= FieldMin
  }

  /** The robots score at the high end of the attacking axis. */
  predicate InRobotEndZone(o: Orientation, e: Entity)
    ensures InRobotEndZone(o, e) ==> !InHumanEndZone(o, e)
    ensures InPlay(e) ==> (InRobotEndZone(o, e) <==> Axis(o, e.x, e.y) == FieldMax)
  {
    Axis(o, e.x, e.y) >= FieldMax
  }

  predicate InPlay(e: Entity)
  {
    FieldMin <= e.x <= FieldMax && FieldMin <= e.y <= FieldMax
  }

  predicate SpeedCapped(e: Entity)
  {
    -IdleMax <= e.vx <= IdleMax && -IdleMax <= e.vy <= IdleMax
  }

  /** A team list whose entities carry, in order, the given ids and the given team. */
  predicate Roster(es: seq<Entity>, t: Team, ids: seq<PlayerId>)
  {
    |es| == |ids| && forall i :: 0 <= i < |es| ==> es[i].id == ids[i] && es[i].team == t
  }

  predicate AllSpeedCapped(es: seq<Entity>)
  {
    forall i :: 0 <= i < |es| ==> SpeedCapped(es[i])
  }

  predicate AllInPlay(es: seq<Entity>)
  {
    forall i :: 0 <= i < |es| ==> InPlay(es[i])
  }

  /** `all.find(e => e.id === id)`: the first entity carrying the id; no id finds nothing. */
  function Find(all: seq<Entity>, id: Option<PlayerId>): (r: Option<Entity>)
    ensures r.Some? <==> id.Some? && exists k :: 0 <= k < |all| && all[k].id == id.value
    ensures r.Some? ==> r.value in all && r.value.id == id.value
  {
    if id.None? || |all| == 0 then None
    else if all[0].id == id.value then Some(all[0])
    else
      var r := Find(all[1..], id);
      assert forall k :: 1 <= k < |all| ==> all[k] == all[1..][k - 1];
      r
  }

  /** The lookup returns the first entity carrying the id, as `Array.prototype.find` does. */
  lemma {:induction false} FindReturnsFirst(all: seq<Entity>, id: Option<PlayerId>)
    ensures Find(all, id).Some? ==>
      exists k :: 0 <= k < |all| && Find(all, id).value == all[k] && forall j :: 0 <= j < k ==> all[j].id != id.value
  {
    if id.Some? && |all| > 0 && all[0].id != id.value && Find(all, id).Some? {
      var rest := all[1..];
      FindReturnsFirst(rest, id);
      var k :| 0 <= k < |rest| && Find(rest, id).value == rest[k] && forall j :: 0 <= j < k ==> rest[j].id != id.value;
      forall j | 0 <= j < k + 1
        ensures all[j].id != id.value
      {
        if j > 0 {
          assert all[j] == rest[j - 1];
        }
      }
      assert Find(all, id).value == all[k + 1];
    } else if Find(all, id).Some? {
      assert Find(all, id).value == all[0];
    }
  }
}
