/** Notions that several parts of the simulator share. */
module Limits {
  const MIN_TX_FEE := 1000

  newtype byte = x: int | 0 <= x < 256
}
