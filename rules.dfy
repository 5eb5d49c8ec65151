/** The win rules: a goal test on body centres and a game-state classification
    from the goals and the number of biscuits each puck carries. */
module Rules {
  import opened KlaskConstants
  import opened KlaskTypes
  import opened Attachment

  datatype GameState = Playing | P1Win | P2Win

  function LeftGoalCentre(ls: real): Vec {
    Vec(GoalOffsetX * ls, (BoardHeight / 2.0) * ls)
  }

  function RightGoalCentre(ls: real): Vec {
    Vec((BoardWidth - GoalOffsetX) * ls, (BoardHeight / 2.0) * ls)
  }

  function DistSq(a: Vec, b: Vec): (r: real)
    ensures r >= 0.0
  {
    (a.x - b.x) * (a.x - b.x) + (a.y - b.y) * (a.y - b.y)
  }

  /** `dist(p, c) <= r`, written without the square root. */
  predicate WithinRadius(p: Vec, c: Vec, r: real) {
    r >= 0.0 && DistSq(p, c) <= r * r
  }

  /** `[in left goal, in right goal]` for a body centred at `p`. */
  function IsInGoal(p: Vec, ls: real): (r: seq<bool>)
    ensures |r| == 2
    ensures ls >= 0.0 && p == LeftGoalCentre(ls) ==> r[0]
    ensures ls >= 0.0 && p == RightGoalCentre(ls) ==> r[1]
    ensures ls > 0.0 ==> !(r[0] && r[1])
  {
    NoPointInBothGoals(p, ls);
    assert ls >= 0.0 ==> GoalRadius * ls >= 0.0;
    [WithinRadius(p, LeftGoalCentre(ls), GoalRadius * ls),
     WithinRadius(p, RightGoalCentre(ls), GoalRadius * ls)]
  }

  /** A puck's captures: every fixture after the puck's own. */
  function NumBiscuitsOnPuck(b: Body): (r: int)
    ensures |b.fixtures| >= 1 ==> r == |Attached(b)|
  {
    |b.fixtures| - 1
  }

  /** Player 1 wins when puck 2 or the ball is in the right goal or puck 2
      carries two biscuits; player 2 symmetrically on the left goal and puck 1.
      Both may hold at once; play goes on only when neither does. */
  function DetermineGameState(bodies: map<string, Body>, ls: real): (r: seq<GameState>)
    requires Puck1 in bodies && Puck2 in bodies && Ball in bodies
    ensures P1Win in r <==>
      || WithinRadius(bodies[Puck2].position, RightGoalCentre(ls), GoalRadius * ls)
      || WithinRadius(bodies[Ball].position, RightGoalCentre(ls), GoalRadius * ls)
      || |bodies[Puck2].fixtures| >= 3
    ensures P2Win in r <==>
      || WithinRadius(bodies[Puck1].position, LeftGoalCentre(ls), GoalRadius * ls)
      || WithinRadius(bodies[Ball].position, LeftGoalCentre(ls), GoalRadius * ls)
      || |bodies[Puck1].fixtures| >= 3
    ensures r == [Playing] <==> P1Win !in r && P2Win !in r
    ensures Playing in r ==> r == [Playing]
    ensures |r| == 2 ==> r == [P1Win, P2Win]
    ensures 1 <= |r| <= 2
  {
    var p1 := if IsInGoal(bodies[Puck2].position, ls)[1] || IsInGoal(bodies[Ball].position, ls)[1]
                 || NumBiscuitsOnPuck(bodies[Puck2]) >= 2 then [P1Win] else [];
    var p2 := if IsInGoal(bodies[Puck1].position, ls)[0] || IsInGoal(bodies[Ball].position, ls)[0]
                 || NumBiscuitsOnPuck(bodies[Puck1]) >= 2 then [P2Win] else [];
    var states := p1 + p2;
    if |states| == 0 then [Playing] else states
  }

  lemma MulPos(a: real, b: real)
    requires a > 0.0 && b > 0.0
    ensures a * b > 0.0
  {
  }

  /** A square bounded by `r * r` has its root bounded by `r`. */
  lemma SquareBound(u: real, r: real)
    requires r >= 0.0 && u * u <= r * r
    ensures -r <= u <= r
  {
    if u > r {
      MulPos(u - r, u + r);
      assert false;
    }
    if u < -r {
      MulPos(r - u, -u - r);
      assert false;
    }
  }

  lemma SquareMonotone(d: real, r: real)
    requires 0.0 <= d <= r
    ensures d * d <= r * r
  {
    assert d * d <= d * r <= r * r;
  }

  /** The squared test is the `dist(p, c) <= r` of klask_simulator.py: for
      the distance `d` (the non-negative root of the squared distance),
      `d <= r`. */
  lemma WithinRadiusIsDistanceBound(p: Vec, c: Vec, r: real, d: real)
    requires d >= 0.0 && d * d == DistSq(p, c)
    ensures WithinRadius(p, c, r) <==> d <= r
  {
    if r >= 0.0 {
      if d * d <= r * r { SquareBound(d, r); }
      if d <= r { SquareMonotone(d, r); }
    }
  }

  /** Reflection across the board's vertical centre line x = W * ls / 2. */
  function Mirror(p: Vec, ls: real): Vec {
    Vec(BoardWidth * ls - p.x, p.y)
  }

  /** The goals mirror each other: a point is in the left goal exactly when its
      mirror image is in the right goal. */
  lemma GoalsMirror(p: Vec, ls: real)
    ensures IsInGoal(Mirror(p, ls), ls)[0] == IsInGoal(p, ls)[1]
    ensures IsInGoal(Mirror(p, ls), ls)[1] == IsInGoal(p, ls)[0]
  {
    assert Mirror(LeftGoalCentre(ls), ls) == RightGoalCentre(ls);
    assert DistSq(Mirror(p, ls), LeftGoalCentre(ls)) == DistSq(p, RightGoalCentre(ls));
    assert DistSq(Mirror(p, ls), RightGoalCentre(ls)) == DistSq(p, LeftGoalCentre(ls));
  }

  /** The goals are far apart: on a positive scale no point is within the
      goal radius of both goal centres. */
  lemma NoPointInBothGoals(p: Vec, ls: real)
    ensures ls > 0.0 ==>
      !(WithinRadius(p, LeftGoalCentre(ls), GoalRadius * ls) && WithinRadius(p, RightGoalCentre(ls), GoalRadius * ls))
  {
    var r := GoalRadius * ls;
    var l, rc := LeftGoalCentre(ls), RightGoalCentre(ls);
    if ls > 0.0 && WithinRadius(p, l, r) && WithinRadius(p, rc, r) {
      var dy := p.y - l.y;
      assert dy * dy >= 0.0;
      assert (p.x - l.x) * (p.x - l.x) <= r * r;
      assert (p.x - rc.x) * (p.x - rc.x) <= r * r;
      SquareBound(p.x - l.x, r);
      SquareBound(p.x - rc.x, r);
      assert false;
    }
  }

  /** A player whose puck carries two biscuits has lost, wherever the pieces
      are. */
  lemma TwoBiscuitsLose(bodies: map<string, Body>, ls: real)
    requires Puck1 in bodies && Puck2 in bodies && Ball in bodies
    ensures NumBiscuitsOnPuck(bodies[Puck1]) >= 2 ==> P2Win in DetermineGameState(bodies, ls)
    ensures NumBiscuitsOnPuck(bodies[Puck2]) >= 2 ==> P1Win in DetermineGameState(bodies, ls)
  {
  }

  /** With three biscuits, at most one puck carries two, so the biscuit rule
      never declares both players winners. */
  lemma BiscuitLossesExclusive(t: Table, ls: real)
    requires WorldValid(t, ls)
    ensures !(NumBiscuitsOnPuck(t.bodies[Puck1]) >= 2 && NumBiscuitsOnPuck(t.bodies[Puck2]) >= 2)
  {
    BiscuitCount(t, ls);
  }

  /** The ball alone decides nothing twice: on a positive scale the ball is in at
      most one goal, so if the ball scores and neither puck is in a goal or has
      two biscuits the result names exactly one winner. */
  lemma BallGoalOneWinner(bodies: map<string, Body>, ls: real)
    requires Puck1 in bodies && Puck2 in bodies && Ball in bodies && ls > 0.0
    requires IsInGoal(bodies[Ball].position, ls)[0] || IsInGoal(bodies[Ball].position, ls)[1]
    requires !IsInGoal(bodies[Puck1].position, ls)[0] && !IsInGoal(bodies[Puck2].position, ls)[1]
    requires NumBiscuitsOnPuck(bodies[Puck1]) < 2 && NumBiscuitsOnPuck(bodies[Puck2]) < 2
    ensures |DetermineGameState(bodies, ls)| == 1
    ensures DetermineGameState(bodies, ls) == (if IsInGoal(bodies[Ball].position, ls)[0] then [P2Win] else [P1Win])
  {
    NoPointInBothGoals(bodies[Ball].position, ls);
  }
}
