/** The fixed kickoff formations and the random kickoff placement built on them.
    Every random quantity is a `Math.random()` sample in [0, 1) given as a parameter. */
module Formation {
  import opened Field

  /** Anchors of the humans (offense) for an orientation, H1..H4 in order. */
  function Offense(o: Orientation): (r: seq<Point>)
    ensures |r| == 4
    ensures forall i :: 0 <= i < |r| ==> Inside(r[i])
    // the humans attack toward the low end of the axis and line up on the far half
    ensures forall i :: 0 <= i < |r| ==> Axis(o, r[i].x, r[i].y) > 50.0
  {
    if o == Portrait then
      [Point(50.0, 82.0), Point(40.0, 74.0), Point(60.0, 74.0), Point(50.0, 66.0)]
    else
      [Point(82.0, 60.0), Point(74.0, 50.0), Point(74.0, 70.0), Point(66.0, 60.0)]
  }

  /** Anchors of the robots (defense) for an orientation, R1..R4 in order. */
  function Defense(o: Orientation): (r: seq<Point>)
    ensures |r| == 4
    ensures forall i :: 0 <= i < |r| ==> Inside(r[i])
    // the robots attack toward the high end of the axis and line up on the near half
    ensures forall i :: 0 <= i < |r| ==> Axis(o, r[i].x, r[i].y) < 50.0
  {
    if o == Portrait then
      [Point(22.0, 34.0), Point(50.0, 30.0), Point(78.0, 34.0), Point(50.0, 22.0)]
    else
      [Point(22.0, 40.0), Point(18.0, 60.0), Point(30.0, 48.0), Point(30.0, 72.0)]
  }

  /** Strictly inside the playable rectangle, so in neither end zone. */
  predicate Inside(p: Point)
  {
    FieldMin < p.x < FieldMax && FieldMin < p.y < FieldMax
  }

  /** `Math.random() * 0.4 - 0.2`. */
  function KickVelocity(u: real): (v: real)
    ensures 0.0 <= u < 1.0 ==> -0.2 <= v < 0.2
  {
    u * 0.4 - 0.2
  }

  /** `n` samples of `Math.random()`. */
  predicate UnitDraws(u: seq<real>, n: nat)
  {
    |u| == n && forall i :: 0 <= i < |u| ==> 0.0 <= u[i] < 1.0
  }

  /** A kickoff line-up: the ids and team in order, each entity on its anchor,
      each velocity component in [-0.2, 0.2). */
  predicate PlacedAt(es: seq<Entity>, anchors: seq<Point>, t: Team, ids: seq<PlayerId>)
  {
    && Roster(es, t, ids)
    && |anchors| == |es|
    && forall i :: 0 <= i < |es| ==>
         && es[i].x == anchors[i].x && es[i].y == anchors[i].y
         && -0.2 <= es[i].vx < 0.2 && -0.2 <= es[i].vy < 0.2
  }

  /** `anchors.map((p, i) => ({ id: ids[i], x: p.x, y: p.y, vx: .., vy: .. }))`:
      entity i takes the samples u[2i] (vx) and u[2i+1] (vy). */
  function Lineup(anchors: seq<Point>, t: Team, ids: seq<PlayerId>, u: seq<real>): (r: seq<Entity>)
    requires |ids| == |anchors| && |u| == 2 * |anchors|
    ensures UnitDraws(u, 2 * |anchors|) ==> PlacedAt(r, anchors, t, ids)
  {
    seq(|anchors|, i requires 0 <= i < |anchors| =>
      Entity(ids[i], t, anchors[i].x, anchors[i].y, KickVelocity(u[2 * i]), KickVelocity(u[2 * i + 1])))
  }

  /** Kickoff humans: samples 0..7 of a kickoff's draws. */
  function KickoffHumans(o: Orientation, u: seq<real>): (r: seq<Entity>)
    requires |u| == 16
    ensures UnitDraws(u, 16) ==> PlacedAt(r, Offense(o), Human, HumanIds)
  {
    assert UnitDraws(u, 16) ==> UnitDraws(u[..8], 8);
    Lineup(Offense(o), Human, HumanIds, u[..8])
  }

  /** Kickoff robots: samples 8..15 of a kickoff's draws. */
  function KickoffRobots(o: Orientation, u: seq<real>): (r: seq<Entity>)
    requires |u| == 16
    ensures UnitDraws(u, 16) ==> PlacedAt(r, Defense(o), Robot, RobotIds)
  {
    assert UnitDraws(u, 16) ==> UnitDraws(u[8..], 8);
    Lineup(Defense(o), Robot, RobotIds, u[8..])
  }

  /** A kickoff puts exactly H1..H4 and R1..R4 on the field, within the speed cap. */
  lemma KickoffTeams(o: Orientation, u: seq<real>)
    requires UnitDraws(u, 16)
    ensures Roster(KickoffHumans(o, u), Human, HumanIds) && AllSpeedCapped(KickoffHumans(o, u))
    ensures Roster(KickoffRobots(o, u), Robot, RobotIds) && AllSpeedCapped(KickoffRobots(o, u))
  {
  }

  /** The combined kickoff roster the holder is drawn from: H1..H4 then R1..R4. */
  function KickoffRoster(): seq<PlayerId>
  {
    HumanIds + RobotIds
  }

  /** `all[Math.floor(Math.random() * all.length)] || { id: "H1", type: "human" }`. */
  function KickoffHolder(u: real): (r: PlayerId)
    ensures IsPlayer(r)
  {
    var k := (u * 8.0).Floor;
    if 0 <= k < 8 then KickoffRoster()[k] else PlayerId(Human, 1)
  }

  /** The holder is drawn uniformly: entry k of the roster is chosen exactly when
      the sample lies in [k/8, (k+1)/8), so the fallback to H1 is never taken. */
  lemma KickoffHolderUniform(u: real, k: nat)
    requires 0.0 <= u < 1.0 && k < 8
    ensures KickoffHolder(u) == KickoffRoster()[k] <==> k as real / 8.0 <= u < (k + 1) as real / 8.0
  {
    var j := (u * 8.0).Floor;
    assert 0 <= j < 8;
    assert KickoffHolder(u) == KickoffRoster()[j];
    assert KickoffRoster()[j] == KickoffRoster()[k] <==> j == k;
  }
}
