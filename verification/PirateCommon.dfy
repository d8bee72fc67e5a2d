/** The constants shared by the Paranoid Pirate queue and worker; clock readings are in milliseconds. */
module PirateCommon {
  const SECOND := 1000
  const LIVENESS: nat := 3
  const INTERVAL := 1 * SECOND
  const TTL := INTERVAL * LIVENESS
  /** In seconds, like the worker's timeout. */
  const FIRST_TIMEOUT: nat := 1
  const MAX_TIMEOUT: nat := 32
}
