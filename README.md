# Humans vs Robots: the match simulation

A model of the match logic inside the `App` component of a small browser football
game, in which four humans (the IT Titans, home) play four robots (the Glitch Squad,
guest). The model lifts the React state out of the component into one `Session` object:

- the two team lists;
- the ball holder and the selected human;
- both scores, the period, the clock, the game phase, the period-break overlay and the running flag.

Every timer callback, effect body and click handler of the component becomes one method
of `Session`. Coordinates are normalised to 0..100 on both axes, as in the game. The
playable rectangle is [10, 90] on both axes. The humans attack the low end of the
attacking axis, the robots the high end. The attacking axis is x in landscape and y in
portrait.

Modules:

- `Field`: entities, player ids, tuning constants, clamps, the bounce, and the id lookup. It also holds `Steer`, the zero-length-safe direction-times-speed used by the role velocities.
- `Formation`: the two orientation-dependent formations, the kickoff line-up built from random samples, and the uniform draw of the kickoff holder.
- `Steering`: one movement tick of each team:
  - the separation loop over teammates;
  - the robots' four roles (carrier, supporter, chaser, wanderer);
  - the per-entity integrate / clamp / bounce step.

  Each step is a method that works through local variables, proved equal to a step function. Each team's `map` is a loop method.
- `Possession`: the tag scan. Every entity of the team opposing the holder is checked in list order against the holder. The opponents and the holder are all taken at their positions from before the tick, so the moves of the same tick play no part. The last opponent strictly within distance 5 takes the ball.
- `Decimal`: `toString` of a non-negative integer and its inverse, shared by the next two modules.
- `Scoreboard`: the `mm:ss` clock text, with a round trip back to the clock.
- `Naming`: the text form `H1..H4`, `R1..R4` of the ids, shown injective.
- `Match`: the scoring judge, the field-click relocation, the whole movement tick, and the class `Session` with its invariant `Valid()`. `Valid()` requires:
  - the teams are exactly H1..H4 and R1..R4 in order;
  - velocities are within ±0.35;
  - the holder and the selection are real players, and the selection is a human;
  - the period is in 1..4 and the clock in 0..20;
  - each score is seven times a touchdown count;
  - the break overlay appears only in period 1.

Randomness is passed in as parameters:

- every `Math.random()` sample is a parameter in [0, 1);
- a kickoff takes 16 velocity samples and one holder sample;
- a robot's idle wander takes two samples per robot.

`Math.hypot` is exact when one component is zero. Off the axes the Euclidean length is an input function `norm`. The tag test is stated on the squared distance, `dx² + dy² < 25`.

## Model

| member | source | states |
|---|---|---|
| Field.ClampSpeed | src/App.tsx:1036-1038 | a velocity component ends within ±0.35 and is unchanged when already within it |
| Field.ClampPos | src/App.tsx:1042-1043 | a coordinate ends in [10, 90]; unchanged inside; pulled to 10 below and to 90 above |
| Field.Reflect | src/App.tsx:1040-1041 | the bounce keeps the magnitude of a velocity component and leaves it alone when the unclamped coordinate stayed in range |
| Field.Length | src/App.tsx:1020 | `Math.hypot` is the absolute value of the other component when one component is zero |
| Field.Steer | src/App.tsx:1055-1059 | zero length falls back to 1 and gives the zero velocity; along an axis the velocity is exactly ±speed on that axis and 0 on the other |
| Field.Find | src/App.tsx:1003 | the lookup finds something exactly when the id is present, and what it finds is in the list and carries the id |
| Field.FindReturnsFirst | src/App.tsx:1003 | what the lookup finds is the first entity of the list carrying the id, as `find` returns |
| Field.InHumanEndZone | src/App.tsx:742-743 | the humans' end zone is at or below 10 on the attacking axis, ends short of the robots' goal line, and for a player inside the field is exactly its goal line |
| Field.InRobotEndZone | src/App.tsx:744-745 | the robots' end zone is at or above 90 on the attacking axis, is disjoint from the humans' end zone, and for a player inside the field is exactly its goal line |
| Formation.Offense | src/App.tsx:91-107 | four human anchors per orientation, strictly inside the playable rectangle and on the far half of the attacking axis |
| Formation.Defense | src/App.tsx:109-124 | four robot anchors per orientation, strictly inside the playable rectangle and on the near half of the attacking axis |
| Formation.KickVelocity | src/App.tsx:961-962 | `u * 0.4 - 0.2` lies in [-0.2, 0.2) for a sample in [0, 1) |
| Formation.Lineup | src/App.tsx:955-974 | entity i of a line-up carries id i and the team, stands on anchor i, and has velocities in [-0.2, 0.2) |
| Formation.KickoffHumans | src/App.tsx:954-964 | the kickoff humans are H1..H4 on the offense anchors with velocities in [-0.2, 0.2) |
| Formation.KickoffRobots | src/App.tsx:965-974 | the kickoff robots are R1..R4 on the defense anchors with velocities in [-0.2, 0.2) |
| Formation.KickoffTeams | src/App.tsx:953-974 | a kickoff puts exactly the two fixed rosters on the field within the speed cap |
| Formation.KickoffHolder | src/App.tsx:975-988 | the drawn holder is always one of the eight players |
| Formation.KickoffHolderUniform | src/App.tsx:985-988 | entry k of H1..H4, R1..R4 is drawn exactly when the sample lies in [k/8, (k+1)/8), so the H1 fallback is never used |
| Steering.SeparationOf | src/App.tsx:1014-1028 | the accumulated `sepX`, `sepY` equal the separation force summed over the team list in order, skipping the entity itself and anything at distance 0 or 6 and beyond |
| Steering.IsolatedFeelsNoSeparation | src/App.tsx:1016-1028 | an entity with no teammate strictly between distance 0 and 6 feels no separation force |
| Steering.DriftOf | src/App.tsx:1010-1011 | the humans drift by -0.04 along the attacking axis and 0 across it |
| Steering.RoleVelocity | src/App.tsx:1051-1080 | the role chain of the robots' `map` body; with nobody holding the ball the wander moves each component by at most 0.04 from the old velocity |
| Steering.RoleVelocitySteering | src/App.tsx:1051-1075 | each role's exact velocity: carrier +0.35 and supporters +0.3 along the attacking axis; a human carrier is chased at 0.35 when level on an axis and not at all when on top of it |
| Steering.HumanStep | src/App.tsx:1008-1044 | a stepped human keeps its id and team, ends inside [10, 90] on both axes and within ±0.35 on both velocity components |
| Steering.RobotStep | src/App.tsx:1050-1110 | a stepped robot keeps its id and team, ends inside [10, 90] on both axes and within ±0.35 on both velocity components |
| Steering.FreeHumanMovesByVelocityAndDrift | src/App.tsx:1030-1043 | an isolated human within the speed cap whose move stays on the field moves exactly by velocity plus drift and keeps its velocity |
| Steering.MoveHuman | src/App.tsx:1008-1044 | the step-by-step update of `x, y, vx, vy` yields the human step |
| Steering.Glide | src/App.tsx:1101-1110 | after the capped move, bounce and clamp, a robot keeps its id and team, is inside [10, 90] on both axes and within ±0.35 |
| Steering.GlideStep | src/App.tsx:1101-1110 | the step-by-step cap, move, bounce and clamp of a robot's `x, y, vx, vy` yields the glide |
| Steering.MoveRobot | src/App.tsx:1050-1110 | the step-by-step update of `x, y, vx, vy` yields the robot step |
| Steering.IsolatedHumanBouncesOffWall | src/App.tsx:1030-1043 | an isolated human within the cap whose move crosses a wall ends on that wall with that velocity component reversed |
| Steering.HumansSteppedStayInPlay | src/App.tsx:1036-1044 | after a tick every human keeps its id and place in the list, is on the field and is within the speed cap |
| Steering.RobotsSteppedStayInPlay | src/App.tsx:1101-1110 | after a tick every robot keeps its id and place in the list, is on the field and is within the speed cap |
| Steering.MoveHumans | src/App.tsx:1006-1046 | the new human list is every human stepped against the pre-tick list, in order, all on the field within the cap |
| Steering.MoveRobots | src/App.tsx:1048-1112 | the new robot list is every robot stepped against the pre-tick list and holder, in order, all on the field within the cap |
| Possession.Within | src/App.tsx:1117-1120 | the tag test on the squared distance; level with the holder on one axis it is the plain distance on the other axis below 5, as `Math.hypot` gives |
| Possession.Tagger | src/App.tsx:1116-1123 | a tagger is always an opponent within the tag radius |
| Possession.LastTagIndex | src/App.tsx:1116-1123 | the index found is within the tag radius and nobody after it is |
| Possession.TaggerIsLastWithin | src/App.tsx:1114-1135 | there is no tagger exactly when no opponent is within the radius; otherwise the tagger is the last opponent within it |
| Possession.TagScan | src/App.tsx:1116-1123 | the `forEach` whose last `setBallOwner` wins yields the last opponent within the radius |
| Possession.TagOutcome | src/App.tsx:1114-1135 | no holder or no opponent within the radius keeps the holder; otherwise the last opponent within the radius holds the ball |
| Possession.TagPhase | src/App.tsx:1114-1135 | the tag phase of the tick body computes the tag outcome on the pre-tick lists and holder |
| Possession.TagNeverPassesToTeammate | src/App.tsx:1114-1135 | on the fixed rosters the holder after tagging is one of the eight players, and a changed holder is on the other team |
| Possession.UntouchedHolderKeepsBall | src/App.tsx:1114-1135 | a holder with no opponent within the radius keeps the ball |
| Scoreboard.ClockParts | src/App.tsx:508-513 | the minutes and seconds recombine to the clock, with seconds below 60 |
| Decimal.DecimalString | src/App.tsx:509 | `toString` of a number is a non-empty digit string, one digit below 10 and at most two below 100 |
| Decimal.DecimalRoundTrip | src/App.tsx:509 | reading a number's decimal text gives the number back |
| Scoreboard.PadStart | src/App.tsx:510 | `padStart` gives at least the width and keeps the text as its suffix |
| Scoreboard.ZeroPadding | src/App.tsx:513 | zero padding keeps the value and keeps a digit string a digit string |
| Scoreboard.MinutesText | src/App.tsx:508-510 | `padStart(1, "0")` never pads: the minutes text is the plain decimal text of `floor(clock / 60)` |
| Scoreboard.SecondsText | src/App.tsx:511-513 | the seconds text is always two characters |
| Scoreboard.ClockText | src/App.tsx:526-528 | the `mm:ss` text has at least four characters |
| Scoreboard.ClockTextFields | src/App.tsx:508-513 | the minutes text denotes `floor(clock / 60)`; the seconds text is two digits denoting `clock % 60` |
| Scoreboard.ClockTextRoundTrip | src/App.tsx:508-528 | reading the displayed `mm:ss` back gives the clock |
| Naming.Name | src/App.tsx:646 | an id's text starts with `H` exactly for a human and `R` exactly for a robot |
| Naming.NameInjective | src/App.tsx:975-984 | different players have different id texts, so comparing texts is comparing players |
| Match.Rule | src/App.tsx:740-756 | a touchdown for a side exactly when its own holder is in its end zone (goal line included); no ruling exactly when the holder is in neither end zone |
| Match.RuleOnGoalLines | src/App.tsx:741-745 | strictly between the goal lines nothing happens; on its own goal line a holder scores; on the other goal line there is a wrong-zone restart |
| Match.Relocate | src/App.tsx:773-775 | the human with the id takes the new position; every other human and every other field is unchanged |
| Match.RelocateUndo | src/App.tsx:773-775 | moving a human and clicking its old spot restores the team |
| Match.MovementTick | src/App.tsx:1001-1136 | both teams stepped against the pre-tick lists, then the tag outcome on the pre-tick holder; the rosters stay well formed, everybody ends on the field, and a changed holder is on the other team |
| Match.Session.Holder | src/App.tsx:738 | the found holder is in one of the team lists and carries the holder id |
| Match.Session.HolderPresent | src/App.tsx:738-739 | in a valid session the holder lookup finds somebody exactly when somebody holds the ball |
| Match.Session.BallPosition | src/App.tsx:708-712 | the ball sits 6 above the holder, or above the first human when nobody holds it |
| Match.Session.BallAbovePlayer | src/App.tsx:708-712 | in a valid session the ball is always drawn six above a player in the team lists, and above the holder whenever somebody holds the ball |
| Match.Session.constructor | src/App.tsx:640-675 | initial state: kickoff teams, no holder or selection, 0-0, period 1, clock 20, idle, no break, not running |
| Match.Session.ChangeOrientation | src/App.tsx:683-706 | both teams back on the new orientation's anchors; everything else kept |
| Match.Session.ResetKickoff | src/App.tsx:953-991 | kickoff teams, a holder drawn from the eight players, the selection moved only for a human holder |
| Match.Session.StartGame | src/App.tsx:714-720 | period 1, clock 20, playing, running, and a kickoff |
| Match.Session.PassToHuman | src/App.tsx:727-734 | holder and selection both become the target exactly when playing with a human holder; otherwise nothing changes |
| Match.Session.TryShoot | src/App.tsx:736-763 | +7 to exactly the right side and `scored` on a touchdown, no points otherwise; a restart is scheduled whenever the holder is in either end zone; nothing happens unless playing with a holder |
| Match.Session.ResumeAfterScore | src/App.tsx:757-761 | the restart callback performs a kickoff and resumes play |
| Match.Session.OnFieldClick | src/App.tsx:768-776 | with no selection nothing changes; otherwise only the selected human moves to the clicked point, unclamped |
| Match.Session.ClockTick | src/App.tsx:916-922 | while playing the clock loses one second, floored at 0; otherwise it is unchanged |
| Match.Session.EndOfPeriod | src/App.tsx:924-943 | at 0 while playing: a break after period 1, the next period with a kickoff and a full clock after 2 and 3, the end of the game after 4; otherwise nothing changes |
| Match.Session.StartSecondPeriod | src/App.tsx:945-951 | the break closes, period 2 starts with a kickoff and a full clock, and play resumes |
| Match.Session.Tick | src/App.tsx:999-1138 | while playing, both teams are stepped and the tag outcome replaces the holder, with everybody on the field; otherwise nothing changes; the session invariant is kept |

Every `Session` method also keeps `Valid()`. That carries three of the promised
invariants: the period stays in 1..4, the clock stays in 0..20 and the scores stay multiples of 7.

## Left out

- Rendering components, audio playback and the shout scheduler, `matchMedia` orientation detection, the field size hook, the headshot configuration UI and `src/main.tsx`. These are markup, browser I/O or DOM plumbing. Orientation is an input of `ChangeOrientation`.
- Real timer semantics. These are the 40 ms, 1 s and 1.2 s timers and the order in which React re-runs effects. Each callback is one method that the environment may call in any order. Such an order includes repeated restart scheduling while a holder stands in the wrong end zone. The restart timeout also runs the kickoff of the render that scheduled it, with that render's formations. If the orientation changes within the 1.2 s, the game places the teams on the old orientation's anchors, while `ResumeAfterScore` uses the current orientation.
- Match.Session.ResumeAfterScore: does not check the phase, as in the source. If a break or the end of the game came before the 1.2 s restart fired, the restart still sets `playing`.
- Floating point. Positions and velocities are real numbers. NaN, rounding and `Math.hypot` off the axes are not modelled; off the axes the length is the input function `norm`.
- `Math.random()`. Each sample is a parameter in [0, 1).
- Player ids are a (team, number) pair instead of the text `H1`..`R4`. `Naming.NameInjective` shows that comparing pairs is comparing texts.
- The head, jersey number and display number of an entity are cosmetic and left out.
- The `vx = 0, vy = 0` destructuring defaults are not modelled. Every entity the game builds has both velocities.
- Match.Session.PassToHuman: requires the target to be one of H1..H4. The only caller is the click handler of the rendered humans (`src/App.tsx:1177-1183`), which passes a human's own id.
- Match.Session.StartSecondPeriod: requires the break overlay to be shown. Its only caller is the button inside that overlay (`src/App.tsx:1212-1235`).
- The `huddle` phase exists in the type, but no code enters it, so no method produces it.
- A field click can move the selected human anywhere, including into an end zone or off the field, because it is unclamped. The models of the following tick and of `tryShoot` then act on that position. `Valid()` therefore bounds velocities but not positions.
