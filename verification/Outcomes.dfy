/** Results of contract calls: a value, or the panic that reverted the call. */
module Outcomes {

  datatype Option<+T> = None | Some(value: T)

  /** Why a call panicked. */
  datatype Reason =
    | NotAuthorized | NotInitialized | AlreadyInitialized | Unauthorized | ContractPaused
    | AmountNotPositive | NotASpender | NegativeAmount | InsufficientBalance | Overflow
    | NoStakeFound | LockPeriodActive
    | BadgeExists | ForeignCallFailed
    | CourseNotFound | CourseNotActive | AlreadyEnrolled | CourseAlreadyCompleted | NoModules | NoPendingReward
    | QuestNotFound | NotQuestEmployer | QuestNotActive | NotABuildQuest | NotAnExploreQuest
    | SubmissionExists | SubmissionNotFound | SubmissionNotPending
    | AlreadyVoted | ProposalNotFound | VoteOverflow | VotingEnded | VotingActive | AlreadyExecuted | ProposalRejected

  datatype Outcome<+T> = Ok(value: T) | Panic(reason: Reason) {
    predicate IsFailure() {
      Panic?
    }

    function PropagateFailure<U>(): Outcome<U>
      requires Panic?
    {
      Panic(reason)
    }

    function Extract(): T
      requires Ok?
    {
      value
    }

    /** What the caller is told: success or the reason, without the value. */
    function Verdict(): Outcome<()> {
      if Ok? then Ok(()) else Panic(reason)
    }
  }

  /** The outcome of one check. */
  datatype Check = Pass | Fail(reason: Reason) {
    predicate IsFailure() {
      Fail?
    }

    function PropagateFailure<U>(): Outcome<U>
      requires Fail?
    {
      Panic(reason)
    }
  }

  function Need(condition: bool, reason: Reason): Check {
    if condition then Pass else Fail(reason)
  }

  /** The state left behind by a call: the new one, or, because a panic reverts, the one before. */
  function After<T>(r: Outcome<T>, before: T): T {
    if r.Ok? then r.value else before
  }
}
