/** What happens around one call to an API server; shared by the step machines and the controllers that drive them. */
module ApiCalls {
  /** Done: applied and acknowledged. Lost: applied, but the caller sees an error. Refused: an error without effect. */
  datatype Outcome = Done | Lost | Refused

  /** The outside world moves first, then the call ends this way. */
  datatype Turn<EnvStep> = Turn(before: seq<EnvStep>, outcome: Outcome)

  /** The finalizer list can be replaced by any other, except that a deleted object takes no new finalizers. */
  predicate AcceptsFinalizers(deleting: bool, stored: set<string>, patched: set<string>) {
    deleting ==> patched <= stored
  }
}
