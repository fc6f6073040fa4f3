/** The game's configuration constants. Their values live in a configuration
    file that is not part of this model, so they are left abstract; only the
    signs the code depends on are fixed by their types. */
module Config {

  type Positive = n: int | n > 0 witness 1
  type PositiveReal = r: real | r > 0.0 witness 1.0

  /** Highest y that natural water fills. */
  const WATER_LEVEL: int
  /** Below this y the world is solid stone. */
  const WORLD_HEIGHT_MIN: int
  /** Horizontal scale of the height noise. */
  const NOISE_SCALE: real
  /** Side of a chunk in blocks. */
  const CHUNK_SIZE: Positive
  /** Length of one day-night cycle in seconds. */
  const CYCLE_DURATION: PositiveReal
}
