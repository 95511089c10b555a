/** The match session: every piece of state the simulation keeps between events,
    and the events that change it (kickoff, start, pass, scoring judgement and its
    delayed restart, field click, one-second clock step, end of period, the second
    period's start, and the 40 ms movement tick). Each timer or effect callback is
    one method; random samples and the Euclidean length are parameters. */
module Match {
  import opened Field
  import opened Formation
  import opened Steering
  import opened Possession

  datatype GameState = Idle | Playing | Huddle | Scored

  /** What the scoring judge makes of the holder's position. */
  datatype Ruling =
    | Touchdown(side: Team)  // the holder reached its own scoring end zone
    | WrongEndZone           // the holder stands in the other team's end zone: no points, but a restart
    | NoRuling               // the holder is outside both end zones

  /** The end-zone test of `tryShoot` for a holder. */
  function Rule(o: Orientation, holder: Entity): (r: Ruling)
    ensures r == Touchdown(Human) <==> holder.team == Human && InHumanEndZone(o, holder)
    ensures r == Touchdown(Robot) <==> holder.team == Robot && InRobotEndZone(o, holder)
    ensures r == NoRuling <==> !InHumanEndZone(o, holder) && !InRobotEndZone(o, holder)
  {
    var humanIn := InHumanEndZone(o, holder);
    var robotIn := InRobotEndZone(o, holder);
    if holder.team == Human && humanIn then Touchdown(Human)
    else if holder.team == Robot && robotIn then Touchdown(Robot)
    else if humanIn || robotIn then WrongEndZone
    else NoRuling
  }

  /** A holder strictly between the goal lines is never ruled on, and a holder that
      steps on its own goal line always scores. */
  lemma RuleOnGoalLines(o: Orientation, holder: Entity)
    ensures FieldMin < Axis(o, holder.x, holder.y) < FieldMax ==> Rule(o, holder) == NoRuling
    ensures Axis(o, holder.x, holder.y) == FieldMin ==>
      Rule(o, holder) == (if holder.team == Human then Touchdown(Human) else WrongEndZone)
    ensures Axis(o, holder.x, holder.y) == FieldMax ==>
      Rule(o, holder) == (if holder.team == Robot then Touchdown(Robot) else WrongEndZone)
  {
  }

  /** `humans.map(h => h.id === id ? { ...h, x, y } : h)`. */
  function Relocate(hs: seq<Entity>, id: PlayerId, x: real, y: real): (r: seq<Entity>)
    ensures |r| == |hs|
    ensures forall i :: 0 <= i < |hs| ==>
      && r[i].id == hs[i].id && r[i].team == hs[i].team && r[i].vx == hs[i].vx && r[i].vy == hs[i].vy
      && (hs[i].id == id ==> r[i].x == x && r[i].y == y)
      && (hs[i].id != id ==> r[i] == hs[i])
  {
    seq(|hs|, i requires 0 <= i < |hs| => if hs[i].id == id then hs[i].(x := x, y := y) else hs[i])
  }

  /** On the fixed roster, moving a human and then clicking its old spot restores the team. */
  lemma RelocateUndo(hs: seq<Entity>, k: nat, x: real, y: real)
    requires Roster(hs, Human, HumanIds) && k < |hs|
    ensures Relocate(Relocate(hs, hs[k].id, x, y), hs[k].id, hs[k].x, hs[k].y) == hs
  {
    var r := Relocate(Relocate(hs, hs[k].id, x, y), hs[k].id, hs[k].x, hs[k].y);
    forall i | 0 <= i < |hs|
      ensures r[i] == hs[i]
    {
      if i != k {
        assert hs[i].id == HumanIds[i] != HumanIds[k] == hs[k].id;
      }
    }
  }

  /** H1..H4 and R1..R4 in order, velocities within the cap, and a holder and a
      selection that name real players (the selection always a human). */
  ghost predicate TeamsOk(humans: seq<Entity>, robots: seq<Entity>, ballOwner: Option<PlayerId>,
                          selectedId: Option<PlayerId>)
  {
    && Roster(humans, Human, HumanIds) && Roster(robots, Robot, RobotIds)
    && AllSpeedCapped(humans) && AllSpeedCapped(robots)
    && (ballOwner.Some? ==> IsPlayer(ballOwner.value))
    && (selectedId.Some? ==> IsPlayer(selectedId.value) && selectedId.value.side == Human)
  }

  /** The body of the movement interval on the pre-tick lists and holder: both teams
      stepped, then the tag phase. Well-formed teams stay well formed, everybody ends
      inside the playable rectangle, and a changed holder is on the other team. */
  method MovementTick(humans: seq<Entity>, robots: seq<Entity>, ballOwner: Option<PlayerId>,
                      selectedId: Option<PlayerId>, o: Orientation, norm: (real, real) -> real,
                      jitter: seq<real>)
      returns (nextHumans: seq<Entity>, nextRobots: seq<Entity>, nextOwner: Option<PlayerId>)
    requires TeamsOk(humans, robots, ballOwner, selectedId) && |jitter| == 8
    ensures HumansStepped(nextHumans, humans, o, norm)
    ensures RobotsStepped(nextRobots, robots, Find(humans + robots, ballOwner), o, norm, jitter)
    ensures nextOwner == TagOutcome(humans, robots, ballOwner)
    ensures nextOwner != ballOwner ==> ballOwner.Some? && nextOwner.Some? && nextOwner.value.side != ballOwner.value.side
    ensures AllInPlay(nextHumans) && AllInPlay(nextRobots)
    ensures TeamsOk(nextHumans, nextRobots, nextOwner, selectedId)
  {
    var owner := Find(humans + robots, ballOwner);
    nextHumans := MoveHumans(humans, o, norm);
    nextRobots := MoveRobots(robots, owner, o, norm, jitter);
    nextOwner := TagPhase(humans, robots, ballOwner);
    TagNeverPassesToTeammate(humans, robots, ballOwner);
    SameIdsKeepRoster(nextHumans, humans, Human, HumanIds);
    SameIdsKeepRoster(nextRobots, robots, Robot, RobotIds);
  }

  class Session {
    var orientation: Orientation
    var humans: seq<Entity>
    var robots: seq<Entity>
    var ballOwner: Option<PlayerId>
    var selectedId: Option<PlayerId>
    var homeScore: nat
    var guestScore: nat
    /** The touchdowns each side has scored, which the scores count in sevens. */
    ghost var homeTouchdowns: nat
    ghost var guestTouchdowns: nat
    var period: nat
    var clock: nat
    var state: GameState
    var showPeriodBreak: bool
    var gameRunning: bool

    /** The session invariant: `Teams` and `Counters`. */
    ghost predicate Valid()
      reads this
    {
      Teams() && Counters()
    }

    /** See `TeamsOk`. */
    ghost predicate Teams()
      reads this`humans, this`robots, this`ballOwner, this`selectedId
    {
      TeamsOk(humans, robots, ballOwner, selectedId)
    }

    /** The period in 1..4, the clock in 0..20, scores made of touchdowns, and the
        break only after period 1. */
    ghost predicate Counters()
      reads this`period, this`clock, this`homeScore, this`guestScore, this`homeTouchdowns, this`guestTouchdowns,
        this`showPeriodBreak
    {
      && 1 <= period <= TotalPeriods && clock <= PeriodSeconds
      && homeScore == 7 * homeTouchdowns && guestScore == 7 * guestTouchdowns
      && (showPeriodBreak ==> period == 1)
    }

    /** The entity holding the ball, looked up as `humans.concat(robots).find(...)`. */
    function Holder(): (r: Option<Entity>)
      reads this`humans, this`robots, this`ballOwner
      ensures r.Some? ==> r.value in humans + robots && ballOwner == Some(r.value.id)
    {
      Find(humans + robots, ballOwner)
    }

    /** In a valid session the lookup finds somebody exactly when somebody holds the ball. */
    lemma HolderPresent()
      requires Valid()
      ensures Holder().Some? <==> ballOwner.Some?
    {
      if ballOwner.Some? {
        var id := ballOwner.value;
        var k := id.number - 1;
        if id.side == Human {
          assert (humans + robots)[k] == humans[k];
          assert humans[k].id == HumanIds[k] == id;
        } else {
          assert (humans + robots)[|humans| + k] == robots[k];
          assert robots[k].id == RobotIds[k] == id;
        }
      }
    }

    /** `ballPosition`: six units above the holder, or above the first human when nobody
        holds the ball. */
    function BallPosition(): (p: Point)
      reads this`humans, this`robots, this`ballOwner
      requires |humans| > 0
      ensures Holder().Some? ==> p == Point(Holder().value.x, Holder().value.y - 6.0)
      ensures Holder().None? ==> p == Point(humans[0].x, humans[0].y - 6.0)
    {
      var owner := if Holder().Some? then Holder().value else humans[0];
      Point(owner.x, owner.y - 6.0)
    }

    /** The ball is always drawn six units above a player on the field, and above the
        holder whenever somebody holds it. */
    lemma BallAbovePlayer()
      requires Valid()
      ensures exists e :: e in humans + robots && BallPosition() == Point(e.x, e.y - 6.0) &&
                          (ballOwner.Some? ==> e.id == ballOwner.value)
    {
      HolderPresent();
      if Holder().Some? {
        var e := Holder().value;
        assert e in humans + robots && BallPosition() == Point(e.x, e.y - 6.0);
      } else {
        var e := humans[0];
        assert e in humans + robots;
      }
    }

    /** The first render: both teams at the kickoff anchors with random velocities,
        nobody holding the ball or selected, period 1 with a full clock, idle. */
    constructor(o: Orientation, draws: seq<real>)
      requires UnitDraws(draws, 16)
      ensures Valid()
      ensures orientation == o
      ensures humans == KickoffHumans(o, draws) && robots == KickoffRobots(o, draws)
      ensures ballOwner == None && selectedId == None
      ensures homeScore == 0 && guestScore == 0
      ensures period == 1 && clock == PeriodSeconds && state == Idle
      ensures !showPeriodBreak && !gameRunning
    {
      orientation := o;
      humans := KickoffHumans(o, draws);
      robots := KickoffRobots(o, draws);
      KickoffTeams(o, draws);
      ballOwner := None;
      selectedId := None;
      homeScore, homeTouchdowns := 0, 0;
      guestScore, guestTouchdowns := 0, 0;
      period := 1;
      clock := PeriodSeconds;
      state := Idle;
      showPeriodBreak := false;
      gameRunning := false;
    }

    /** The reposition effect on an orientation change: both teams back on the new
        orientation's anchors. Possession, selection, scores and clock are kept. */
    method ChangeOrientation(o: Orientation, draws: seq<real>)
      requires Valid() && UnitDraws(draws, 16)
      modifies this`orientation, this`humans, this`robots
      ensures Valid()
      ensures orientation == o
      ensures humans == KickoffHumans(o, draws) && robots == KickoffRobots(o, draws)
    {
      KickoffTeams(o, draws);
      orientation, humans, robots := o, KickoffHumans(o, draws), KickoffRobots(o, draws);
    }

    /** `resetKickoffImmediate`: both teams back on the anchors, a holder drawn from
        the eight players, and the selection moved to it only when it is a human. */
    method ResetKickoff(draws: seq<real>, pick: real)
      requires Valid() && UnitDraws(draws, 16)
      modifies this`humans, this`robots, this`ballOwner, this`selectedId
      ensures Valid()
      ensures humans == KickoffHumans(orientation, draws) && robots == KickoffRobots(orientation, draws)
      ensures ballOwner == Some(KickoffHolder(pick))
      ensures KickoffHolder(pick).side == Human ==> selectedId == ballOwner
      ensures KickoffHolder(pick).side == Robot ==> selectedId == old(selectedId)
    {
      var nextHumans := KickoffHumans(orientation, draws);
      var nextRobots := KickoffRobots(orientation, draws);
      KickoffTeams(orientation, draws);
      var holder := KickoffHolder(pick);
      humans, robots, ballOwner := nextHumans, nextRobots, Some(holder);
      if holder.side == Human {
        selectedId := Some(holder);
      }
    }

    /** `startGame`: period 1, a full clock, playing, running, and a kickoff. Scores and
        the break overlay are left as they are. */
    method StartGame(draws: seq<real>, pick: real)
      requires Valid() && UnitDraws(draws, 16)
      modifies this`period, this`clock, this`state, this`gameRunning
      modifies this`humans, this`robots, this`ballOwner, this`selectedId
      ensures Valid()
      ensures period == 1 && clock == PeriodSeconds && state == Playing && gameRunning
      ensures humans == KickoffHumans(orientation, draws) && robots == KickoffRobots(orientation, draws)
      ensures ballOwner == Some(KickoffHolder(pick))
      ensures KickoffHolder(pick).side == Human ==> selectedId == ballOwner
      ensures KickoffHolder(pick).side == Robot ==> selectedId == old(selectedId)
    {
      period := 1;
      clock := PeriodSeconds;
      state := Playing;
      gameRunning := true;
      ResetKickoff(draws, pick);
    }

    /** `passToHuman(t)`, for a click on human `t`: while playing and with a human
        holding the ball, `t` becomes both the holder and the selection; otherwise
        nothing changes. */
    method PassToHuman(t: PlayerId)
      requires Valid() && t in HumanIds
      modifies this`ballOwner, this`selectedId
      ensures Valid()
      ensures state == Playing && old(Holder()).Some? && old(Holder()).value.team == Human ==>
        ballOwner == Some(t) && selectedId == Some(t)
      ensures !(state == Playing && old(Holder()).Some? && old(Holder()).value.team == Human) ==>
        ballOwner == old(ballOwner) && selectedId == old(selectedId)
    {
      if state != Playing {
        return;
      }
      var owner := Find(humans + robots, ballOwner);
      if !(owner.Some? && owner.value.team == Human) {
        return;
      }
      selectedId := Some(t);
      ballOwner := Some(t);
    }

    /** `tryShoot`: while playing and with a holder, a touchdown adds 7 to the scoring
        side and sets `scored`; `scheduled` reports that the delayed restart was set up,
        which happens whenever the holder is in either end zone, points or not. */
    method TryShoot() returns (scheduled: bool)
      requires Valid()
      modifies this`homeScore, this`guestScore, this`homeTouchdowns, this`guestTouchdowns, this`state
      ensures Valid()
      ensures old(state) != Playing || Holder().None? ==>
        !scheduled && homeScore == old(homeScore) && guestScore == old(guestScore) && state == old(state)
      ensures old(state) == Playing && Holder().Some? ==>
        var r := Rule(orientation, Holder().value);
        && scheduled == (r != NoRuling)
        && homeScore == old(homeScore) + (if r == Touchdown(Human) then 7 else 0)
        && guestScore == old(guestScore) + (if r == Touchdown(Robot) then 7 else 0)
        && state == (if r.Touchdown? then Scored else Playing)
    {
      if state != Playing {
        return false;
      }
      var owner := Find(humans + robots, ballOwner);
      if owner.None? {
        return false;
      }
      var holder := owner.value;
      var humanIn := InHumanEndZone(orientation, holder);
      var robotIn := InRobotEndZone(orientation, holder);
      if holder.team == Human && humanIn {
        homeScore, homeTouchdowns := homeScore + 7, homeTouchdowns + 1;
        state := Scored;
      } else if holder.team == Robot && robotIn {
        guestScore, guestTouchdowns := guestScore + 7, guestTouchdowns + 1;
        state := Scored;
      }
      scheduled := humanIn || robotIn;
    }

    /** The body of the restart timeout that `tryShoot` schedules: a kickoff, then play.
        Nothing checks the phase first, so it resumes play whatever happened meanwhile. */
    method ResumeAfterScore(draws: seq<real>, pick: real)
      requires Valid() && UnitDraws(draws, 16)
      modifies this`state, this`humans, this`robots, this`ballOwner, this`selectedId
      ensures Valid()
      ensures state == Playing
      ensures humans == KickoffHumans(orientation, draws) && robots == KickoffRobots(orientation, draws)
      ensures ballOwner == Some(KickoffHolder(pick))
      ensures KickoffHolder(pick).side == Human ==> selectedId == ballOwner
      ensures KickoffHolder(pick).side == Robot ==> selectedId == old(selectedId)
    {
      ResetKickoff(draws, pick);
      state := Playing;
    }

    /** `onFieldClick`: the selected human, and only it, jumps to the clicked point,
        unclamped and whatever the phase; with no selection nothing changes. */
    method OnFieldClick(x: real, y: real)
      requires Valid()
      modifies this`humans
      ensures Valid()
      ensures selectedId.None? ==> humans == old(humans)
      ensures selectedId.Some? ==> humans == Relocate(old(humans), selectedId.value, x, y)
    {
      if selectedId.None? {
        return;
      }
      humans := Relocate(humans, selectedId.value, x, y);
    }

    /** The one-second countdown: only while playing, floored at 0. */
    method ClockTick()
      requires Valid()
      modifies this`clock
      ensures Valid()
      ensures state == Playing ==> clock == if old(clock) > 0 then old(clock) - 1 else 0
      ensures state != Playing ==> clock == old(clock)
    {
      if state != Playing {
        return;
      }
      clock := if clock > 0 then clock - 1 else 0;
    }

    /** The end-of-period effect, which acts only while playing with the clock at 0:
        after period 1 a break (idle, overlay shown, period kept); after periods 2 and
        3 the next period with a kickoff and a full clock; after period 4 the end of
        the game (idle, no longer running). */
    method EndOfPeriod(draws: seq<real>, pick: real)
      requires Valid() && UnitDraws(draws, 16)
      modifies this`period, this`clock, this`state, this`showPeriodBreak, this`gameRunning
      modifies this`humans, this`robots, this`ballOwner, this`selectedId
      ensures Valid()
      ensures old(state) != Playing || old(clock) > 0 || old(period) == 1 || old(period) == TotalPeriods ==>
        humans == old(humans) && robots == old(robots) && ballOwner == old(ballOwner) && selectedId == old(selectedId)
      ensures old(state) != Playing || old(clock) > 0 ==>
        && period == old(period) && clock == old(clock) && state == old(state)
        && showPeriodBreak == old(showPeriodBreak) && gameRunning == old(gameRunning)
      ensures old(state) == Playing && old(clock) == 0 && old(period) == 1 ==>
        && period == 1 && clock == 0 && state == Idle && showPeriodBreak && gameRunning == old(gameRunning)
      ensures old(state) == Playing && old(clock) == 0 && 1 < old(period) < TotalPeriods ==>
        && period == old(period) + 1 && clock == PeriodSeconds && state == Playing
        && humans == KickoffHumans(orientation, draws) && robots == KickoffRobots(orientation, draws)
        && ballOwner == Some(KickoffHolder(pick))
        && (KickoffHolder(pick).side == Human ==> selectedId == ballOwner)
        && (KickoffHolder(pick).side == Robot ==> selectedId == old(selectedId))
        && showPeriodBreak == old(showPeriodBreak) && gameRunning == old(gameRunning)
      ensures old(state) == Playing && old(clock) == 0 && old(period) == TotalPeriods ==>
        && period == TotalPeriods && clock == 0 && state == Idle && !gameRunning
        && showPeriodBreak == old(showPeriodBreak)
    {
      if state != Playing || clock > 0 {
        return;
      }
      if period < TotalPeriods {
        if period == 1 {
          state := Idle;
          showPeriodBreak := true;
          return;
        }
        period := period + 1;
        ResetKickoff(draws, pick);
        clock := PeriodSeconds;
      } else {
        state := Idle;
        gameRunning := false;
      }
    }

    /** `startSecondPeriod`, the break overlay's button: the overlay closes, the next
        period starts with a kickoff and a full clock, and play resumes. */
    method StartSecondPeriod(draws: seq<real>, pick: real)
      requires Valid() && UnitDraws(draws, 16)
      requires showPeriodBreak
      modifies this`showPeriodBreak, this`period, this`clock, this`state
      modifies this`humans, this`robots, this`ballOwner, this`selectedId
      ensures Valid()
      ensures !showPeriodBreak && period == old(period) + 1 && period == 2
      ensures clock == PeriodSeconds && state == Playing
      ensures humans == KickoffHumans(orientation, draws) && robots == KickoffRobots(orientation, draws)
      ensures ballOwner == Some(KickoffHolder(pick))
      ensures KickoffHolder(pick).side == Human ==> selectedId == ballOwner
      ensures KickoffHolder(pick).side == Robot ==> selectedId == old(selectedId)
    {
      showPeriodBreak := false;
      period := period + 1;
      ResetKickoff(draws, pick);
      clock := PeriodSeconds;
      state := Playing;
    }

    /** One 40 ms movement tick, which runs only while playing: every human and robot
        is stepped against the pre-tick lists (the robots' roles follow the pre-tick
        holder; robot i takes the jitter samples 2i and 2i+1), then the pre-tick holder
        is checked against the pre-tick positions of the opposing team and the last
        opponent within the tag radius takes the ball. */
    method Tick(norm: (real, real) -> real, jitter: seq<real>)
      requires Valid() && |jitter| == 8
      modifies this`humans, this`robots, this`ballOwner
      ensures Valid()
      ensures state != Playing ==>
        humans == old(humans) && robots == old(robots) && ballOwner == old(ballOwner)
      ensures state == Playing ==>
        && HumansStepped(humans, old(humans), orientation, norm)
        && RobotsStepped(robots, old(robots), old(Holder()), orientation, norm, jitter)
        && ballOwner == TagOutcome(old(humans), old(robots), old(ballOwner))
        && AllInPlay(humans) && AllInPlay(robots)
    {
      if state != Playing {
        return;
      }
      var nextHumans, nextRobots, nextOwner :=
        MovementTick(humans, robots, ballOwner, selectedId, orientation, norm, jitter);
      humans, robots, ballOwner := nextHumans, nextRobots, nextOwner;
    }
  }
}
