/** The constants that several parts of the tool share (core/include/at_common.h, at_cmdProc.h). */
module Common {
  const FAILED: int := -1
  const ERROR: int := 0
  const MAX_SCRIPT_THREAD: nat := 10
}
