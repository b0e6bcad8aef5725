/** Files written atomically (core/vibedpn/atomic.py): a temporary file, a rename, an fsync of the directory. */
module Writes {

  /** How a write goes: done, refused before the rename, or raised behind it, by the fsync of the directory. */
  datatype Fault = Fine | Early | Late
}
