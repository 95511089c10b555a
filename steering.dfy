/** One movement tick of the two teams: the separation force between teammates,
    the robots' role velocities and the per-entity integrate / clamp / bounce step.
    Every entity is stepped against the list as it was before the tick. */
module Steering {
  import opened Field

  type Vec = (real, real)

  /** The repulsion `other` exerts on `self`: nothing from `self` itself, nothing
      from an entity at distance 0 or at the separation radius or beyond. */
  function Push(self: Entity, other: Entity, norm: (real, real) -> real): Vec
  {
    if other.id == self.id then (0.0, 0.0)
    else
      var dx := self.x - other.x;
      var dy := self.y - other.y;
      var dist := Length(dx, dy, norm);
      if 0.0 < dist < SeparationRadius then
        var force := SeparationStrength * (SeparationRadius - dist) / SeparationRadius;
        (dx / dist * force, dy / dist * force)
      else (0.0, 0.0)
  }

  /** The separation force summed over the first `n` entities of the team list, in list order. */
  function Separation(self: Entity, team: seq<Entity>, norm: (real, real) -> real, n: nat): Vec
    requires n <= |team|
  {
    if n == 0 then (0.0, 0.0)
    else
      var s := Separation(self, team, norm, n - 1);
      var p := Push(self, team[n - 1], norm);
      (s.0 + p.0, s.1 + p.1)
  }

  /** No teammate other than `self` lies strictly between distance 0 and the separation radius. */
  predicate Isolated(self: Entity, team: seq<Entity>, norm: (real, real) -> real)
  {
    forall j :: 0 <= j < |team| && team[j].id != self.id ==>
      var d := Length(self.x - team[j].x, self.y - team[j].y, norm);
      !(0.0 < d < SeparationRadius)
  }

  /** An entity with no teammate within the separation radius feels no separation force. */
  lemma {:induction false} IsolatedFeelsNoSeparation(self: Entity, team: seq<Entity>, norm: (real, real) -> real, n: nat)
    requires n <= |team| && Isolated(self, team, norm)
    ensures Separation(self, team, norm, n) == (0.0, 0.0)
  {
    if n > 0 {
      IsolatedFeelsNoSeparation(self, team, norm, n - 1);
      assert Push(self, team[n - 1], norm) == (0.0, 0.0);
    }
  }

  /** The `for (const other of prev)` loop accumulating `sepX`, `sepY`. */
  method SeparationOf(self: Entity, team: seq<Entity>, norm: (real, real) -> real) returns (sepX: real, sepY: real)
    ensures sepX == Separation(self, team, norm, |team|).0
    ensures sepY == Separation(self, team, norm, |team|).1
  {
    sepX, sepY := 0.0, 0.0;
    for i := 0 to |team|
      invariant sepX == Separation(self, team, norm, i).0
      invariant sepY == Separation(self, team, norm, i).1
    {
      var other := team[i];
      if other.id == self.id {
        continue;
      }
      var dx := self.x - other.x;
      var dy := self.y - other.y;
      var dist := Length(dx, dy, norm);
      if 0.0 < dist < SeparationRadius {
        var force := SeparationStrength * (SeparationRadius - dist) / SeparationRadius;
        sepX := sepX + dx / dist * force;
        sepY := sepY + dy / dist * force;
        assert Push(self, other, norm).0 == dx / dist * force;
        assert Push(self, other, norm).1 == dy / dist * force;
      }
    }
  }

  /** The humans' constant per-tick drift toward their end zone (low x or low y). */
  function DriftOf(o: Orientation): (d: Vec)
    ensures Axis(o, d.0, d.1) == -Drift && Axis(o, d.1, d.0) == 0.0
  {
    if o == Portrait then (0.0, -Drift) else (-Drift, 0.0)
  }

  /** Where a ball-carrying robot and its supporters head: 95 on the attacking axis,
      their own coordinate on the other. */
  function RobotGoal(o: Orientation, r: Entity): Point
  {
    if o == Portrait then Point(r.x, RobotTarget) else Point(RobotTarget, r.y)
  }

  predicate CarriesBall(r: Entity, owner: Option<Entity>)
  {
    owner.Some? && owner.value.team == Robot && r.id == owner.value.id
  }

  /** The velocity a robot's role gives it before separation and the speed cap
      (the `if / else if` chain of the robots' `map` body). With nobody holding the
      ball a robot wanders: each component moves by at most 0.04 from the old one. */
  function RoleVelocity(r: Entity, owner: Option<Entity>, o: Orientation, norm: (real, real) -> real,
                        ju: real, jv: real): (v: Vec)
    ensures owner.None? && 0.0 <= ju < 1.0 && 0.0 <= jv < 1.0 ==>
      r.vx - WanderJitter / 2.0 <= v.0 < r.vx + WanderJitter / 2.0 &&
      r.vy - WanderJitter / 2.0 <= v.1 < r.vy + WanderJitter / 2.0
  {
    if CarriesBall(r, owner) then
      var g := RobotGoal(o, r);
      Steer(g.x - r.x, g.y - r.y, ChaseCarrier, norm)
    else if owner.Some? && owner.value.team == Robot then
      var g := RobotGoal(o, r);
      Steer(g.x - r.x, g.y - r.y, Support, norm)
    else if owner.Some? then
      Steer(owner.value.x - r.x, owner.value.y - r.y, ChaseCarrier, norm)
    else
      (r.vx + ju * WanderJitter - WanderJitter / 2.0, r.vy + jv * WanderJitter - WanderJitter / 2.0)
  }

  /** What each role asks of a robot: the carrier runs straight along the attacking
      axis at the carry speed, its teammates follow at the support speed, a human
      carrier is chased at the carry speed (straight at it when level on an axis, not
      at all when on top of it). No square root is involved: each run is along an axis. */
  lemma RoleVelocitySteering(r: Entity, owner: Option<Entity>, o: Orientation, norm: (real, real) -> real,
                             ju: real, jv: real)
    ensures var v := RoleVelocity(r, owner, o, norm, ju, jv);
      && (CarriesBall(r, owner) && Axis(o, r.x, r.y) < RobotTarget ==>
            Axis(o, v.0, v.1) == ChaseCarrier && Axis(o, v.1, v.0) == 0.0)
      && (owner.Some? && owner.value.team == Robot && !CarriesBall(r, owner) && Axis(o, r.x, r.y) < RobotTarget ==>
            Axis(o, v.0, v.1) == Support && Axis(o, v.1, v.0) == 0.0)
      && (owner.Some? && owner.value.team == Human && owner.value.x == r.x && owner.value.y == r.y ==>
            v == (0.0, 0.0))
      && (owner.Some? && owner.value.team == Human && owner.value.y == r.y && owner.value.x != r.x ==>
            v == (if owner.value.x > r.x then ChaseCarrier else -ChaseCarrier, 0.0))
      && (owner.Some? && owner.value.team == Human && owner.value.x == r.x && owner.value.y != r.y ==>
            v == (0.0, if owner.value.y > r.y then ChaseCarrier else -ChaseCarrier))
  {
  }

  /** One tick of a human: move by the old velocity plus drift, add the separation
      force to the velocity, cap it, bounce off the walls, clamp the position. */
  function HumanStep(h: Entity, team: seq<Entity>, o: Orientation, norm: (real, real) -> real): (r: Entity)
    ensures r.id == h.id && r.team == h.team
    ensures InPlay(r) && SpeedCapped(r)
  {
    var d := DriftOf(o);
    var sep := Separation(h, team, norm, |team|);
    var nx := h.x + (h.vx + d.0);
    var ny := h.y + (h.vy + d.1);
    var vx := ClampSpeed(h.vx + sep.0);
    var vy := ClampSpeed(h.vy + sep.1);
    Entity(h.id, h.team, ClampPos(nx), ClampPos(ny), Reflect(vx, nx), Reflect(vy, ny))
  }

  /** One tick of a robot: role velocity, plus separation, capped; then move by the
      new velocity, bounce off the walls and clamp the position. */
  function RobotStep(r: Entity, team: seq<Entity>, owner: Option<Entity>, o: Orientation,
                     norm: (real, real) -> real, ju: real, jv: real): (s: Entity)
    ensures s.id == r.id && s.team == r.team
    ensures InPlay(s) && SpeedCapped(s)
  {
    var role := RoleVelocity(r, owner, o, norm, ju, jv);
    var sep := Separation(r, team, norm, |team|);
    Glide(r, role.0 + sep.0, role.1 + sep.1)
  }

  /** The tail of a robot's tick once its velocity is summed: cap it, move by it,
      bounce off the walls and clamp the position. */
  function Glide(r: Entity, ux: real, uy: real): (s: Entity)
    ensures s.id == r.id && s.team == r.team
    ensures InPlay(s) && SpeedCapped(s)
  {
    var vx := ClampSpeed(ux);
    var vy := ClampSpeed(uy);
    var nx := r.x + vx;
    var ny := r.y + vy;
    Entity(r.id, r.team, ClampPos(nx), ClampPos(ny), Reflect(vx, nx), Reflect(vy, ny))
  }

  /** When the velocity stays within the cap, an isolated human moves exactly by its
      velocity plus drift as long as that keeps it inside the playable rectangle. */
  lemma FreeHumanMovesByVelocityAndDrift(h: Entity, team: seq<Entity>, o: Orientation, norm: (real, real) -> real)
    requires Isolated(h, team, norm) && SpeedCapped(h)
    requires InPlay(Entity(h.id, h.team, h.x + h.vx + DriftOf(o).0, h.y + h.vy + DriftOf(o).1, h.vx, h.vy))
    ensures HumanStep(h, team, o, norm) ==
      Entity(h.id, h.team, h.x + h.vx + DriftOf(o).0, h.y + h.vy + DriftOf(o).1, h.vx, h.vy)
  {
    IsolatedFeelsNoSeparation(h, team, norm, |team|);
  }

  /** An isolated human within the speed cap whose move crosses a wall ends on that wall
      with that velocity component reversed. */
  lemma IsolatedHumanBouncesOffWall(h: Entity, team: seq<Entity>, o: Orientation, norm: (real, real) -> real)
    requires Isolated(h, team, norm) && SpeedCapped(h)
    ensures var nx := h.x + (h.vx + DriftOf(o).0);
      var s := HumanStep(h, team, o, norm);
      && (nx < FieldMin ==> s.x == FieldMin && s.vx == -h.vx)
      && (nx > FieldMax ==> s.x == FieldMax && s.vx == -h.vx)
    ensures var ny := h.y + (h.vy + DriftOf(o).1);
      var s := HumanStep(h, team, o, norm);
      && (ny < FieldMin ==> s.y == FieldMin && s.vy == -h.vy)
      && (ny > FieldMax ==> s.y == FieldMax && s.vy == -h.vy)
  {
    IsolatedFeelsNoSeparation(h, team, norm, |team|);
  }

  /** The body of `prev.map(h => { let { x, y, vx, vy } = h; ... })` for one human. */
  method MoveHuman(h: Entity, team: seq<Entity>, o: Orientation, norm: (real, real) -> real) returns (next: Entity)
    ensures next == HumanStep(h, team, o, norm)
  {
    var x, y, vx, vy := h.x, h.y, h.vx, h.vy;
    var d := DriftOf(o);
    var sepX, sepY := SeparationOf(h, team, norm);
    x := x + (vx + d.0);
    y := y + (vy + d.1);
    vx := vx + sepX;
    vy := vy + sepY;
    vx := Max(-IdleMax, Min(IdleMax, vx));
    vy := Max(-IdleMax, Min(IdleMax, vy));
    if x < FieldMin || x > FieldMax {
      vx := -vx;
    }
    if y < FieldMin || y > FieldMax {
      vy := -vy;
    }
    x := Min(FieldMax, Max(FieldMin, x));
    y := Min(FieldMax, Max(FieldMin, y));
    next := Entity(h.id, h.team, x, y, vx, vy);
  }

  /** The body of `prev.map(r => { let { x, y, vx, vy } = r; ... })` for one robot. */
  method MoveRobot(r: Entity, team: seq<Entity>, owner: Option<Entity>, o: Orientation,
                   norm: (real, real) -> real, ju: real, jv: real) returns (next: Entity)
    ensures next == RobotStep(r, team, owner, o, norm, ju, jv)
  {
    var role := RoleVelocity(r, owner, o, norm, ju, jv);
    var vx, vy := role.0, role.1;
    var sepX, sepY := SeparationOf(r, team, norm);
    vx := vx + sepX;
    vy := vy + sepY;
    next := GlideStep(r, vx, vy);
  }

  /** Lines `vx = Math.max(...)` to `return { ...r, x, y, vx, vy }` of a robot's tick. */
  method GlideStep(r: Entity, vx0: real, vy0: real) returns (next: Entity)
    ensures next == Glide(r, vx0, vy0)
  {
    var x, y, vx, vy := r.x, r.y, vx0, vy0;
    vx := Max(-IdleMax, Min(IdleMax, vx));
    vy := Max(-IdleMax, Min(IdleMax, vy));
    x := x + vx;
    y := y + vy;
    if x < FieldMin || x > FieldMax {
      vx := -vx;
    }
    if y < FieldMin || y > FieldMax {
      vy := -vy;
    }
    x := Min(FieldMax, Max(FieldMin, x));
    y := Min(FieldMax, Max(FieldMin, y));
    next := Entity(r.id, r.team, x, y, vx, vy);
  }

  /** `next` is `prev` with every human stepped against `prev`. */
  predicate HumansStepped(next: seq<Entity>, prev: seq<Entity>, o: Orientation, norm: (real, real) -> real)
  {
    |next| == |prev| && forall i :: 0 <= i < |prev| ==> next[i] == HumanStep(prev[i], prev, o, norm)
  }

  /** `next` is `prev` with every robot stepped against `prev`, robot i on the samples 2i and 2i+1. */
  predicate RobotsStepped(next: seq<Entity>, prev: seq<Entity>, owner: Option<Entity>, o: Orientation,
                          norm: (real, real) -> real, jitter: seq<real>)
  {
    && |next| == |prev| && |jitter| == 2 * |prev|
    && forall i :: 0 <= i < |prev| ==>
         next[i] == RobotStep(prev[i], prev, owner, o, norm, jitter[2 * i], jitter[2 * i + 1])
  }

  /** The same ids and teams in the same order. */
  predicate SameIds(next: seq<Entity>, prev: seq<Entity>)
  {
    |next| == |prev| && forall i :: 0 <= i < |prev| ==> next[i].id == prev[i].id && next[i].team == prev[i].team
  }

  /** A stepped team keeps its ids and order, and every member ends inside the field
      within the speed cap. */
  lemma HumansSteppedStayInPlay(next: seq<Entity>, prev: seq<Entity>, o: Orientation, norm: (real, real) -> real)
    requires HumansStepped(next, prev, o, norm)
    ensures SameIds(next, prev) && AllInPlay(next) && AllSpeedCapped(next)
  {
  }

  lemma RobotsSteppedStayInPlay(next: seq<Entity>, prev: seq<Entity>, owner: Option<Entity>, o: Orientation,
                                norm: (real, real) -> real, jitter: seq<real>)
    requires RobotsStepped(next, prev, owner, o, norm, jitter)
    ensures SameIds(next, prev) && AllInPlay(next) && AllSpeedCapped(next)
  {
  }

  lemma SameIdsKeepRoster(next: seq<Entity>, prev: seq<Entity>, t: Team, ids: seq<PlayerId>)
    requires SameIds(next, prev) && Roster(prev, t, ids)
    ensures Roster(next, t, ids)
  {
  }

  /** `setHumans(prev => prev.map(...))`: every human stepped against the pre-tick list. */
  method MoveHumans(team: seq<Entity>, o: Orientation, norm: (real, real) -> real) returns (next: seq<Entity>)
    ensures HumansStepped(next, team, o, norm)
    ensures SameIds(next, team)
    ensures AllInPlay(next) && AllSpeedCapped(next)
  {
    next := [];
    for i := 0 to |team|
      invariant |next| == i
      invariant forall k :: 0 <= k < i ==> next[k] == HumanStep(team[k], team, o, norm)
    {
      var h := MoveHuman(team[i], team, o, norm);
      next := next + [h];
    }
    HumansSteppedStayInPlay(next, team, o, norm);
  }

  /** `setRobots(prev => prev.map(...))`; robot i takes the jitter samples
      jitter[2i] and jitter[2i+1] (used only when nobody holds the ball). */
  method MoveRobots(team: seq<Entity>, owner: Option<Entity>, o: Orientation, norm: (real, real) -> real,
                    jitter: seq<real>) returns (next: seq<Entity>)
    requires |jitter| == 2 * |team|
    ensures RobotsStepped(next, team, owner, o, norm, jitter)
    ensures SameIds(next, team)
    ensures AllInPlay(next) && AllSpeedCapped(next)
  {
    next := [];
    for i := 0 to |team|
      invariant |next| == i
      invariant forall k :: 0 <= k < i ==>
        next[k] == RobotStep(team[k], team, owner, o, norm, jitter[2 * k], jitter[2 * k + 1])
    {
      var r := MoveRobot(team[i], team, owner, o, norm, jitter[2 * i], jitter[2 * i + 1]);
      next := next + [r];
    }
    RobotsSteppedStayInPlay(next, team, owner, o, norm, jitter);
  }
}
