/** Tuning constants of Flappy Bird Mini (window, physics, pipes, bird sprite). */
module Config {
  const Width := 800
  const Height := 600
  /** Downward acceleration in pixels per tick per tick. */
  const Gravity := 0.5
  /** Velocity a manual flap sets (negative is upward). */
  const JumpStrength := -10.0
  const BasePipeSpeed := 5
  const PipeGap := 170
  const PipeWidth := 80
  const FloorHeight := 100
  /** y-coordinate of the floor's top edge. */
  const FloorY := Height - FloorHeight

  /** The bird sprite is scaled to 50 x 40 pixels. */
  const BirdWidth := 50
  const BirdHeight := 40

  /** Pipes are spawned this far right, just past the window's right edge. */
  const SpawnX := Width + 100
  /** A pair is dropped once its right edge is at or left of this margin. */
  const CullMargin := -50
  /** Range of the random gap-top height drawn for every new pipe pair. */
  const MinPipeHeight := 150
  const MaxPipeHeight := 400

  /** Score added per running tick. */
  const ScoreStep := 0.01
  /** Score needed for each extra pixel per tick of scroll speed. */
  const ScorePerLevel := 20.0

  /** Height of a new pipe's gap top, as drawn by the spawner. */
  type PipeHeight = h: int | MinPipeHeight <= h <= MaxPipeHeight witness MinPipeHeight
}
