/** The commit record's state and the table that changes it
    (`kp_commit_state_transition`). */
module CommitState {

  /** The eleven values a commit record's `state` field can hold. */
  datatype CommitState =
    | ALLOCATED
    | CREATED
    | CREATED_OK
    | INPROGRESS
    | INPROGRESS_OK
    | WAIT_TO_COMMIT
    | COMMITTED
    | WAIT_TO_ABORT
    | ABORTED
    | UNDEFINED
    | DEAD

  /** States no later transition may leave. */
  predicate Final(st: CommitState) {
    st == COMMITTED || st == ABORTED
  }

  /** The record can no longer commit. */
  predicate Dead(st: CommitState) {
    st == WAIT_TO_ABORT || st == ABORTED
  }

  /** The owner sleeps on the condition variable in these states. */
  predicate Waits(st: CommitState) {
    st == WAIT_TO_COMMIT || st == WAIT_TO_ABORT
  }

  /** The record was already told that its predecessor is final. */
  predicate Told(st: CommitState) {
    st == CREATED_OK || st == INPROGRESS_OK || Final(st)
  }

  /** The record still needs to be told that its predecessor is final. */
  predicate Untold(st: CommitState) {
    st == CREATED || st == INPROGRESS || Waits(st)
  }

  /** The new state for a locked transition; UNDEFINED makes the caller die. */
  function Transition(st: CommitState, prevIsFinalized: bool, success: bool): CommitState {
    if success then
      match st
      case CREATED => if prevIsFinalized then CREATED_OK else INPROGRESS
      case CREATED_OK => if prevIsFinalized then CREATED_OK else INPROGRESS_OK
      case INPROGRESS => if prevIsFinalized then INPROGRESS_OK else WAIT_TO_COMMIT
      case INPROGRESS_OK => if prevIsFinalized then INPROGRESS_OK else COMMITTED
      case WAIT_TO_COMMIT => if prevIsFinalized then COMMITTED else UNDEFINED
      case WAIT_TO_ABORT => if prevIsFinalized then ABORTED else WAIT_TO_ABORT
      case ABORTED => ABORTED
      case COMMITTED => if prevIsFinalized then COMMITTED else UNDEFINED
      case _ => UNDEFINED
    else
      match st
      case CREATED => if prevIsFinalized then ABORTED else WAIT_TO_ABORT
      case CREATED_OK => if prevIsFinalized then UNDEFINED else ABORTED
      case INPROGRESS => if prevIsFinalized then ABORTED else WAIT_TO_ABORT
      case INPROGRESS_OK => if prevIsFinalized then UNDEFINED else ABORTED
      case WAIT_TO_COMMIT => if prevIsFinalized then UNDEFINED else WAIT_TO_ABORT
      case WAIT_TO_ABORT => if prevIsFinalized then ABORTED else WAIT_TO_ABORT
      case ABORTED => if prevIsFinalized then UNDEFINED else ABORTED
      case COMMITTED => UNDEFINED
      case _ => UNDEFINED
  }

  /** How far a living record has come: appended, merging, merged. */
  function Stage(st: CommitState): nat {
    match st
    case INPROGRESS => 1
    case INPROGRESS_OK => 1
    case WAIT_TO_COMMIT => 2
    case COMMITTED => 2
    case _ => 0
  }

  predicate Live(st: CommitState) {
    Told(st) || Untold(st)
  }

  /** Failure kills and success never does; the predecessor tells and nobody untells; the
      owner's success goes on to the next stage and the predecessor's keeps it. Together
      these determine the new state. What is rejected: to fail a committed record, to tell
      a told one that it failed, to commit what is merged already. */
  lemma TransitionMeans(st: CommitState, prevIsFinalized: bool, success: bool)
    ensures var st' := Transition(st, prevIsFinalized, success);
      && (st' == UNDEFINED <==>
            || !Live(st)
            || (!success && (st == COMMITTED || (prevIsFinalized && (Told(st) || st == WAIT_TO_COMMIT))))
            || (success && !prevIsFinalized && !Dead(st) && Stage(st) == 2))
      && (st' != UNDEFINED ==>
            && Live(st') && (Dead(st') <==> !success || Dead(st))
            && (Told(st') <==> prevIsFinalized || Told(st))
            && (!Dead(st') ==> Stage(st') == Stage(st) + if prevIsFinalized then 0 else 1))
  {
  }

  lemma StateIsDetermined(st: CommitState, st': CommitState)
    requires Live(st) && Live(st') && (Dead(st) <==> Dead(st')) && (Told(st) <==> Told(st')) && Stage(st) == Stage(st')
    ensures st == st'
  {
  }
}
