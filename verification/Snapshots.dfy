/** Snapshot numbers, shared by the commit protocol and garbage collection. */
module Snapshots {

  const INITIAL_GLOBAL_SNAPSHOT: nat := 444
}
