/** Physical characteristics of the Klask board and pieces, in metres and RGB.
    Lengths are unscaled: the simulator multiplies them by its length scaler. */
module KlaskConstants {

  /** An RGB colour, as the `(r, g, b)` tuples of klask_constants.py. */
  datatype Color = Color(r: nat, g: nat, b: nat)

  // Puck
  const PuckRadius: real := 0.0075
  const PuckColor: Color := Color(0, 0, 0)

  // Biscuit
  const BiscuitRadius: real := 0.0045
  const BiscuitColor: Color := Color(166, 166, 166)

  // Ball
  const BallRadius: real := 0.007
  const BallColor: Color := Color(235, 174, 52)

  // Game board
  const BoardWidth: real := 0.3937
  const BoardHeight: real := 0.3048

  // Goals
  const GoalRadius: real := 0.01905
  const GoalOffsetX: real := 0.034925

  // Corners
  const CornerRadius: real := 0.047625

  // Biscuit start marks
  const BiscuitStartOffsetY: real := 0.08255
}
