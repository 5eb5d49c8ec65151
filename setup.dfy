/** The starting layout built by `reset`: pucks on the board's thirds, the
    biscuits on the centre line, the ball in a corner. */
module Setup {
  import opened KlaskConstants
  import opened KlaskTypes
  import opened Attachment
  import opened Rules

  const TopRight: string := "top_right"
  const BottomRight: string := "bottom_right"
  const TopLeft: string := "top_left"
  const BottomLeft: string := "bottom_left"
  const RandomStart: string := "random"

  /** The named ball starts: each corner, inset by half the corner radius. */
  function BallStartPositions(ls: real): (r: map<string, Vec>)
    ensures r.Keys == {TopRight, BottomRight, TopLeft, BottomLeft} && RandomStart !in r
  {
    map[TopRight := Vec(BoardWidth * ls - CornerRadius * ls / 2.0, BoardHeight * ls - CornerRadius * ls / 2.0),
        BottomRight := Vec(BoardWidth * ls - CornerRadius * ls / 2.0, CornerRadius * ls / 2.0),
        TopLeft := Vec(CornerRadius * ls / 2.0, BoardHeight * ls - CornerRadius * ls / 2.0),
        BottomLeft := Vec(CornerRadius * ls / 2.0, CornerRadius * ls / 2.0)]
  }

  function Puck1Start(ls: real): Vec {
    Vec(BoardWidth * ls / 3.0, BoardHeight * ls / 2.0)
  }

  function Puck2Start(ls: real): Vec {
    Vec(2.0 * BoardWidth * ls / 3.0, BoardHeight * ls / 2.0)
  }

  function BiscuitStart(n: string, ls: real): Vec
    requires n in Biscuits
  {
    if n == Biscuit1 then Vec(BoardWidth * ls / 2.0, BoardHeight * ls / 2.0)
    else if n == Biscuit2 then Vec(BoardWidth * ls / 2.0, BoardHeight * ls / 2.0 + BiscuitStartOffsetY * ls)
    else Vec(BoardWidth * ls / 2.0, BoardHeight * ls / 2.0 - BiscuitStartOffsetY * ls)
  }

  /** The pieces after the two pucks have been created, before the ball. */
  function PuckBodies(ls: real): map<string, Body> {
    map[Puck1 := Body(Puck1Start(ls), [PuckFixture(Puck1, ls)]),
        Puck2 := Body(Puck2Start(ls), [PuckFixture(Puck2, ls)])]
  }

  /** The world right after `reset` with the ball at `ballStart`. */
  function InitialTable(ls: real, ballStart: Vec): (t: Table)
    ensures Ball in t.bodies && t.bodies[Ball].position == ballStart
    ensures t.magnetBodies == Biscuits && t.renderBodies == [Puck1, Puck2, Ball] + Biscuits
  {
    var bodies := PuckBodies(ls)[Ball := Body(ballStart, [BallFixture(ls)])]
                  [Biscuit1 := Body(BiscuitStart(Biscuit1, ls), [BiscuitFixture(Biscuit1, ls)])]
                  [Biscuit2 := Body(BiscuitStart(Biscuit2, ls), [BiscuitFixture(Biscuit2, ls)])]
                  [Biscuit3 := Body(BiscuitStart(Biscuit3, ls), [BiscuitFixture(Biscuit3, ls)])];
    Table(bodies, [Biscuit1, Biscuit2, Biscuit3], [Puck1, Puck2, Ball, Biscuit1, Biscuit2, Biscuit3])
  }

  /** Every reset world, wherever the ball starts, satisfies the world
      invariant: all three biscuits free, no captures. */
  lemma InitialTableValid(ls: real, ballStart: Vec)
    ensures WorldValid(InitialTable(ls, ballStart), ls)
  {
    var t := InitialTable(ls, ballStart);
    assert Attached(t.bodies[Puck1]) == [] && Attached(t.bodies[Puck2]) == [];
  }

  /** The start table is symmetric about the centre line. */
  lemma StartCornersMirror(ls: real)
    ensures Mirror(BallStartPositions(ls)[TopRight], ls) == BallStartPositions(ls)[TopLeft]
    ensures Mirror(BallStartPositions(ls)[BottomRight], ls) == BallStartPositions(ls)[BottomLeft]
  {
  }

  function Scale(p: Vec, ls: real): Vec {
    Vec(p.x * ls, p.y * ls)
  }

  lemma MulCompare(a: real, b: real, k: real)
    requires k > 0.0
    ensures a * k <= b * k <==> a <= b
  {
    if a <= b {
      assert b * k - a * k == (b - a) * k;
    } else {
      MulPos(a - b, k);
      assert a * k - b * k == (a - b) * k;
    }
  }

  /** Scaling the board by a positive factor keeps every goal verdict. */
  lemma ScaledWithin(p: Vec, c: Vec, r: real, ls: real)
    requires ls > 0.0
    ensures WithinRadius(Scale(p, ls), Scale(c, ls), r * ls) == WithinRadius(p, c, r)
  {
    var d := DistSq(p, c);
    var dx, dy := p.x - c.x, p.y - c.y;
    assert (p.x * ls - c.x * ls) * (p.x * ls - c.x * ls) == (dx * dx * ls) * ls;
    assert (p.y * ls - c.y * ls) * (p.y * ls - c.y * ls) == (dy * dy * ls) * ls;
    assert DistSq(Scale(p, ls), Scale(c, ls)) == (d * ls) * ls;
    assert (r * ls) * (r * ls) == (r * r * ls) * ls;
    MulCompare(d * ls, r * r * ls, ls);
    MulCompare(d, r * r, ls);
    MulCompare(0.0, r, ls);
  }

  /** The goal test at scale `ls` is the unscaled test on the unscaled point. */
  lemma ScaledGoal(p: Vec, ls: real)
    requires ls > 0.0
    ensures IsInGoal(Scale(p, ls), ls)[0] == WithinRadius(p, LeftGoalCentre(1.0), GoalRadius)
    ensures IsInGoal(Scale(p, ls), ls)[1] == WithinRadius(p, RightGoalCentre(1.0), GoalRadius)
  {
    assert LeftGoalCentre(ls) == Scale(LeftGoalCentre(1.0), ls);
    assert RightGoalCentre(ls) == Scale(RightGoalCentre(1.0), ls);
    ScaledWithin(p, LeftGoalCentre(1.0), GoalRadius, ls);
    ScaledWithin(p, RightGoalCentre(1.0), GoalRadius, ls);
  }

  /** No ball start lies in a goal. */
  lemma StartsOutsideGoals(ls: real, v: Vec)
    requires ls > 0.0 && v in BallStartPositions(ls).Values
    ensures !IsInGoal(v, ls)[0] && !IsInGoal(v, ls)[1]
  {
    var lo, hx, hy := CornerRadius / 2.0, BoardWidth - CornerRadius / 2.0, BoardHeight - CornerRadius / 2.0;
    var k :| k in BallStartPositions(ls) && BallStartPositions(ls)[k] == v;
    var u := if k == TopRight then Vec(hx, hy) else if k == BottomRight then Vec(hx, lo)
             else if k == TopLeft then Vec(lo, hy) else Vec(lo, lo);
    assert v == Scale(u, ls);
    ScaledGoal(u, ls);
  }

  /** Every ball start lies strictly inside the board. */
  lemma StartsOnBoard(ls: real, v: Vec)
    requires ls > 0.0 && v in BallStartPositions(ls).Values
    ensures 0.0 < v.x < BoardWidth * ls && 0.0 < v.y < BoardHeight * ls
  {
    var lo, hx, hy := CornerRadius / 2.0, BoardWidth - CornerRadius / 2.0, BoardHeight - CornerRadius / 2.0;
    var k :| k in BallStartPositions(ls) && BallStartPositions(ls)[k] == v;
    var u := if k == TopRight then Vec(hx, hy) else if k == BottomRight then Vec(hx, lo)
             else if k == TopLeft then Vec(lo, hy) else Vec(lo, lo);
    assert v == Scale(u, ls);
    MulCompare(0.0, u.x, ls);
    MulCompare(0.0, u.y, ls);
    MulCompare(u.x, BoardWidth, ls);
    MulCompare(u.y, BoardHeight, ls);
  }

  /** Right after `reset`, on any positive scale and from any named start, the
      game is in play. */
  lemma ResetStartsPlaying(ls: real, v: Vec)
    requires ls > 0.0 && v in BallStartPositions(ls).Values
    ensures DetermineGameState(InitialTable(ls, v).bodies, ls) == [Playing]
  {
    var t := InitialTable(ls, v);
    StartsOutsideGoals(ls, v);
    assert Puck1Start(ls) == Scale(Vec(BoardWidth / 3.0, BoardHeight / 2.0), ls);
    assert Puck2Start(ls) == Scale(Vec(2.0 * BoardWidth / 3.0, BoardHeight / 2.0), ls);
    ScaledGoal(Vec(BoardWidth / 3.0, BoardHeight / 2.0), ls);
    ScaledGoal(Vec(2.0 * BoardWidth / 3.0, BoardHeight / 2.0), ls);
  }

  /** The ball start for `name`: a named corner, or for "random" some one of
      the four corners; any other name is a lookup error. */
  method SelectBallStart(name: string, ls: real) returns (r: Result<Vec>)
    ensures name == RandomStart ==> r.Success? && r.value in BallStartPositions(ls).Values
    ensures name in BallStartPositions(ls) ==> r == Success(BallStartPositions(ls)[name])
    ensures name != RandomStart && name !in BallStartPositions(ls) ==> r == Failure(UnknownStart(name))
  {
    var positions := BallStartPositions(ls);
    assert positions[TopRight] in positions.Values;
    // random.choice over the four corner values
    var choice :| choice in positions.Values;
    positions := positions[RandomStart := choice];
    if name !in positions {
      return Failure(UnknownStart(name));
    }
    return Success(positions[name]);
  }

  lemma StartIsCorner(name: string, ls: real, v: Vec)
    requires name in BallStartPositions(ls) && v == BallStartPositions(ls)[name]
    ensures v in BallStartPositions(ls).Values
  {
  }
}
