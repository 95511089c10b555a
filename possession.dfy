/** Ball possession changing hands by tagging. In each movement tick, every entity of
    the team opposing the holder is checked, in list order, against the holder; the
    opponents and the holder are all taken at their positions from before the tick
    (the players' moves in the same tick play no part), and the last opponent within
    the tag radius takes the ball. */
module Possession {
  import opened Field

  /** `Math.hypot(e.x - holder.x, e.y - holder.y) < 5`, stated on the squared distance;
      level with the holder on an axis it is the plain distance along the other axis. */
  predicate Within(e: Entity, holder: Entity)
    ensures e.y == holder.y ==> (Within(e, holder) <==> Abs(e.x - holder.x) < TagRadius)
    ensures e.x == holder.x ==> (Within(e, holder) <==> Abs(e.y - holder.y) < TagRadius)
  {
    var dx := e.x - holder.x;
    var dy := e.y - holder.y;
    SquareBelow(dx);
    SquareBelow(dy);
    dx * dx + dy * dy < TagRadius * TagRadius
  }

  /** A square is below the squared radius exactly when the magnitude is below the radius. */
  lemma SquareBelow(a: real)
    ensures a * a < TagRadius * TagRadius <==> Abs(a) < TagRadius
  {
    var b := Abs(a);
    assert a * a == b * b;
    if b >= TagRadius {
      assert b * b >= TagRadius * b >= TagRadius * TagRadius;
    } else {
      assert b * b <= TagRadius * b < TagRadius * TagRadius;
    }
  }

  /** The index of the last entity of `opponents` within the tag radius, or -1 when there is none. */
  function LastTagIndex(opponents: seq<Entity>, holder: Entity): (k: int)
    ensures -1 <= k < |opponents|
    ensures k >= 0 ==> Within(opponents[k], holder)
    ensures forall j :: k < j < |opponents| ==> !Within(opponents[j], holder)
    decreases |opponents|
  {
    if |opponents| == 0 then -1
    else if Within(opponents[|opponents| - 1], holder) then |opponents| - 1
    else LastTagIndex(opponents[..|opponents| - 1], holder)
  }

  /** The id of the opponent that ends up with the ball after the scan, if any: always
      an opponent within the tag radius. */
  function Tagger(opponents: seq<Entity>, holder: Entity): (r: Option<PlayerId>)
    ensures r.Some? ==> exists k :: 0 <= k < |opponents| && opponents[k].id == r.value && Within(opponents[k], holder)
  {
    var k := LastTagIndex(opponents, holder);
    if k < 0 then None else Some(opponents[k].id)
  }

  /** Nobody within the radius: no tagger. Otherwise the tagger is an opponent within
      the radius, the last in list order. */
  lemma TaggerIsLastWithin(opponents: seq<Entity>, holder: Entity)
    ensures Tagger(opponents, holder).None? <==> forall j :: 0 <= j < |opponents| ==> !Within(opponents[j], holder)
    ensures Tagger(opponents, holder).Some? ==>
      exists k :: 0 <= k < |opponents| && Tagger(opponents, holder).value == opponents[k].id
        && Within(opponents[k], holder)
        && forall j :: k < j < |opponents| ==> !Within(opponents[j], holder)
  {
    var k := LastTagIndex(opponents, holder);
    if k >= 0 {
      assert Tagger(opponents, holder).value == opponents[k].id;
    }
  }

  /** `opponents.forEach(e => { if (dist < 5) setBallOwner(e.id); })`: the last write wins. */
  method TagScan(opponents: seq<Entity>, holder: Entity) returns (winner: Option<PlayerId>)
    ensures winner == Tagger(opponents, holder)
  {
    winner := None;
    for i := 0 to |opponents|
      invariant winner == Tagger(opponents[..i], holder)
    {
      var e := opponents[i];
      ghost var seen := opponents[..i + 1];
      assert seen[..i] == opponents[..i] && seen[i] == e;
      if Within(e, holder) {
        winner := Some(e.id);
        assert LastTagIndex(seen, holder) == i;
      } else {
        assert LastTagIndex(seen, holder) == LastTagIndex(opponents[..i], holder);
      }
    }
    assert opponents[..|opponents|] == opponents;
  }

  /** The tag phase of a tick, on the pre-tick lists and holder: the holder is looked up in
      `humans.concat(robots)`, only the opposing team is scanned, and a tag replaces the holder. */
  function TagOutcome(humans: seq<Entity>, robots: seq<Entity>, ballOwner: Option<PlayerId>): (r: Option<PlayerId>)
    // no holder, or nobody of the other team close enough: possession stays put
    ensures Find(humans + robots, ballOwner).None? ==> r == ballOwner
    ensures Find(humans + robots, ballOwner).Some? ==>
      var holder := Find(humans + robots, ballOwner).value;
      var opponents := if holder.team == Human then robots else humans;
      && (Tagger(opponents, holder).None? ==> r == ballOwner)
      && (Tagger(opponents, holder).Some? ==> r == Tagger(opponents, holder))
  {
    var owner := Find(humans + robots, ballOwner);
    if owner.None? then ballOwner
    else
      var opponents := if owner.value.team == Human then robots else humans;
      var t := Tagger(opponents, owner.value);
      if t.Some? then t else ballOwner
  }

  /** The tag phase of the tick body: with no holder nothing is scanned; otherwise the
      opposing team's scan decides, and the last write of `setBallOwner` wins. */
  method TagPhase(humans: seq<Entity>, robots: seq<Entity>, ballOwner: Option<PlayerId>) returns (next: Option<PlayerId>)
    ensures next == TagOutcome(humans, robots, ballOwner)
  {
    next := ballOwner;
    var owner := Find(humans + robots, ballOwner);
    if owner.Some? {
      var opponents := if owner.value.team == Human then robots else humans;
      var tagger := TagScan(opponents, owner.value);
      if tagger.Some? {
        next := tagger;
      }
    }
  }

  /** A tagger comes from the scanned roster. */
  lemma TaggerInRoster(opponents: seq<Entity>, t: Team, ids: seq<PlayerId>, holder: Entity)
    requires Roster(opponents, t, ids)
    ensures Tagger(opponents, holder).Some? ==> Tagger(opponents, holder).value in ids
  {
    var k := LastTagIndex(opponents, holder);
    if k >= 0 {
      assert opponents[k].id == ids[k];
    }
  }

  /** The holder found by id is on the roster of its own team. */
  lemma HolderOnOwnRoster(humans: seq<Entity>, robots: seq<Entity>, ballOwner: Option<PlayerId>)
    requires Roster(humans, Human, HumanIds) && Roster(robots, Robot, RobotIds)
    requires Find(humans + robots, ballOwner).Some?
    ensures IsPlayer(ballOwner.value) && ballOwner.value.side == Find(humans + robots, ballOwner).value.team
  {
    var holder := Find(humans + robots, ballOwner).value;
    var k :| 0 <= k < |humans + robots| && (humans + robots)[k] == holder;
    if k < |humans| {
      assert holder == humans[k];
    } else {
      assert holder == robots[k - |humans|];
    }
  }

  /** With the two fixed rosters on the field, the holder after tagging is still one of
      the eight ids, and possession never passes to a teammate: a changed holder is on
      the other team. */
  lemma TagNeverPassesToTeammate(humans: seq<Entity>, robots: seq<Entity>, ballOwner: Option<PlayerId>)
    requires Roster(humans, Human, HumanIds) && Roster(robots, Robot, RobotIds)
    requires ballOwner.Some? ==> IsPlayer(ballOwner.value)
    ensures var r := TagOutcome(humans, robots, ballOwner);
      && (r.Some? ==> IsPlayer(r.value))
      && (r != ballOwner ==> ballOwner.Some? && r.Some? && r.value.side != ballOwner.value.side)
  {
    var owner := Find(humans + robots, ballOwner);
    if owner.Some? {
      HolderOnOwnRoster(humans, robots, ballOwner);
      TaggerInRoster(robots, Robot, RobotIds, owner.value);
      TaggerInRoster(humans, Human, HumanIds, owner.value);
    }
  }

  /** Scenario: a tick in which the holder is untouched leaves possession unchanged. */
  lemma UntouchedHolderKeepsBall(humans: seq<Entity>, robots: seq<Entity>, ballOwner: Option<PlayerId>)
    requires Roster(humans, Human, HumanIds) && Roster(robots, Robot, RobotIds)
    requires Find(humans + robots, ballOwner).Some?
    requires var holder := Find(humans + robots, ballOwner).value;
      forall e :: e in humans + robots && e.team != holder.team ==> !Within(e, holder)
    ensures TagOutcome(humans, robots, ballOwner) == ballOwner
  {
    var holder := Find(humans + robots, ballOwner).value;
    var opponents := if holder.team == Human then robots else humans;
    forall j | 0 <= j < |opponents|
      ensures !Within(opponents[j], holder)
    {
      var e := opponents[j];
      if holder.team == Human {
        assert e == (humans + robots)[|humans| + j];
      } else {
        assert e == (humans + robots)[j];
      }
      assert e.team != holder.team;
    }
    TaggerIsLastWithin(opponents, holder);
  }
}
