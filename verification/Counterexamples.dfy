/** Runs of the deployed platform on which stronger claims one might expect do not hold. */
module Counterexamples {
  import opened Outcomes
  import opened Sums
  import opened Soroban
  import opened Platform
  import opened Histories
  import opened Graduation
  import opened Deployment
  import Solvency
  import RewardPool
  import BadgeNft
  import CourseRegistry
  import QuestEngine
  import QuestReviews
  import QuestEscrow
  import Payouts
  import Safety
  import Governance

  const ALICE: Account := Outside(0)
  const BOB: Account := Outside(1)
  const LEARNER: Account := Outside(2)
  const ADMIN: Account := Outside(3)
  const DONOR: Account := Outside(4)

  const FUNDS: Balances := map[ALICE := 100, BOB := 100, DONOR := 100_000_000]
  const POLL := Governance.Proposal(1, ADMIN, 0, 0, 0, 10, false)

  /** The contracts as created, with two employers and a donor in funds and one proposal open until 10. */
  const START: World := Constructed(0, FUNDS, map[1 := POLL])

  /** What the setup calls make of them. */
  const DEPLOYED: World := Deployed(0, FUNDS, map[1 := POLL], ADMIN)

  lemma Starts()
    ensures Fresh(START) && Run(START, Setup(ADMIN)) == DEPLOYED
  {
    hide Run;
    SetupDeploys(0, FUNDS, map[1 := POLL], ADMIN);
  }

  /** The run of setup and then some calls, state by state. */
  function Reach(calls: seq<Action>): World {
    Run(START, Setup(ADMIN) + calls)
  }

  lemma NextState(calls: seq<Action>, i: nat)
    requires i < |calls|
    ensures Reach(calls[..i + 1]) == Step(Reach(calls[..i]), calls[i])
    ensures Reach(calls[..0]) == DEPLOYED && calls[..|calls|] == calls
  {
    hide Step, Setup;
    var before, next := Setup(ADMIN) + calls[..i], Setup(ADMIN) + calls[..i + 1];
    assert next[..|next| - 1] == before && next[|next| - 1] == calls[i];
    assert Setup(ADMIN) + calls[..0] == Setup(ADMIN);
    Starts();
  }

  lemma {:induction false} NothingLogged(m: Meter, log: seq<Event>)
    requires forall ev :: ev in log ==> Weight(m, ev) == 0
    ensures Tally(m, log) == 0
    decreases |log|
  {
    if log == [] {
    } else {
      NothingLogged(m, log[..|log| - 1]);
    }
  }

  // ---------------------------------------------------------------- a refund after an approval

  const ALICE_CREATES := By(ALICE, ToEngine(QuestEngine.CreateBuildQuest(ALICE, 100, 0)))
  const BOB_CREATES := By(BOB, ToEngine(QuestEngine.CreateBuildQuest(BOB, 100, 0)))
  const LEARNER_SUBMITS := By(LEARNER, ToEngine(QuestEngine.SubmitProof(LEARNER, 1, 0)))
  const ALICE_APPROVES := By(ALICE, ToEngine(QuestEngine.ReviewSubmission(ALICE, LEARNER, 1, true)))
  const ALICE_REFUNDS := By(ALICE, ToEngine(QuestEngine.RefundQuest(ALICE, 1)))

  function QuestBy(employer: Address, active: bool): QuestEngine.Quest {
    QuestEngine.Quest(employer, 100, QuestEngine.Build, 0, active)
  }

  type Quests = map<u32, QuestEngine.Quest>

  /** A state of the run: what the engine stores and holds, and what was logged since the setup. */
  ghost predicate At(
    w: World, counter: u32, quests: Quests, status: Option<QuestEngine.SubmissionStatus>, held: nat, log: seq<Event>)
  {
    && w.engine.wiring == DEPLOYED.engine.wiring && !w.engine.paused && w.vault.stakes == map[]
    && w.engine.questCounter == counter && w.engine.quests == quests
    && ((LEARNER, 1) in w.engine.submissions <==> status.Some?)
    && (status.Some? ==> w.engine.submissions[(LEARNER, 1)].status == status.value)
    && BalanceOf(w.env, EngineId) == held
    && w.env.events == SetupLog(ADMIN) + log
  }

  const ONE: Quests := map[1 := QuestBy(ALICE, true)]
  const TWO: Quests := map[1 := QuestBy(ALICE, true), 2 := QuestBy(BOB, true)]
  const TWO_REFUNDED: Quests := map[1 := QuestBy(ALICE, false), 2 := QuestBy(BOB, true)]

  const CREATION: seq<Event> := [
    Transferred(ALICE, EngineId, 100), QuestCreated(ALICE, 1, 100), Transferred(BOB, EngineId, 100), QuestCreated(BOB, 2, 100)]
  const APPROVAL: seq<Event> := [
    Transferred(EngineId, PoolId, 15), Transferred(EngineId, LEARNER, 85), SubmissionReviewed(ALICE, LEARNER, 1, true)]
  const REFUND: seq<Event> := [Transferred(EngineId, ALICE, 100), QuestRefunded(ALICE, 1, 100)]

  lemma AliceCreates()
    ensures var w := Step(DEPLOYED, ALICE_CREATES);
      At(w, 1, ONE, None, 100, CREATION[..2]) && BalanceOf(w.env, BOB) == 100
  {
    hide Tally, Sum;
    assert DEPLOYED.env.events + [CREATION[0]] + [CREATION[1]] == SetupLog(ADMIN) + CREATION[..2];
  }

  lemma BobCreates(w: World)
    requires At(w, 1, ONE, None, 100, CREATION[..2]) && BalanceOf(w.env, BOB) == 100
    ensures At(Step(w, BOB_CREATES), 2, TWO, None, 200, CREATION)
  {
    hide Tally, Sum;
    assert SetupLog(ADMIN) + CREATION[..2] + [CREATION[2]] + [CREATION[3]] == SetupLog(ADMIN) + CREATION;
  }

  lemma LearnerSubmits(w: World, log: seq<Event>)
    requires At(w, 2, TWO, None, 200, log)
    ensures At(Step(w, LEARNER_SUBMITS), 2, TWO, Some(QuestEngine.Pending), 200, log + [ProofSubmitted(LEARNER, 1, 0)])
  {
    assert SetupLog(ADMIN) + log + [ProofSubmitted(LEARNER, 1, 0)] == SetupLog(ADMIN) + (log + [ProofSubmitted(LEARNER, 1, 0)]);
  }

  lemma LearnerIsPaid(w: World)
    requires w.engine.wiring == DEPLOYED.engine.wiring && w.vault.stakes == map[] && BalanceOf(w.env, EngineId) == 200
    ensures var r := QuestEngine.PayEffect(w.engine.wiring.value, w.vault, w.env, SILENT, 100, LEARNER, 1);
      r.Ok? && BalanceOf(r.value, EngineId) == 100 && r.value.events == w.env.events + [APPROVAL[0]] + [APPROVAL[1]]
  {
    var payout := Payouts.Payout(15, 85, 85, false);
    assert QuestEngine.Quote(VaultId, w.vault, SILENT, 100, LEARNER) == Ok(payout);
    hide QuestEngine.Quote;
  }

  lemma AliceApproves(w: World, log: seq<Event>)
    requires At(w, 2, TWO, Some(QuestEngine.Pending), 200, log)
    ensures At(Step(w, ALICE_APPROVES), 2, TWO, Some(QuestEngine.Approved), 100, log + APPROVAL)
  {
    hide Tally, Sum, QuestEngine.PayEffect;
    LearnerIsPaid(w);
    assert SetupLog(ADMIN) + log + [APPROVAL[0]] + [APPROVAL[1]] + [APPROVAL[2]] == SetupLog(ADMIN) + (log + APPROVAL);
  }

  lemma AliceRefunds(w: World, log: seq<Event>)
    requires At(w, 2, TWO, Some(QuestEngine.Approved), 100, log)
    ensures At(Step(w, ALICE_REFUNDS), 2, TWO_REFUNDED, Some(QuestEngine.Approved), 0, log + REFUND)
  {
    hide Tally, Sum;
    assert SetupLog(ADMIN) + log + [REFUND[0]] + [REFUND[1]] == SetupLog(ADMIN) + (log + REFUND);
  }

  lemma BobIsOwed(w: World)
    requires At(w, 2, TWO_REFUNDED, Some(QuestEngine.Approved), 0, CREATION + [ProofSubmitted(LEARNER, 1, 0)] + APPROVAL + REFUND)
    ensures Solvency.Owed(w) >= 100
  {
    hide Sum;
    NothingLogged(Settlements(2), w.env.events);
    hide Tally;
    var owed := QuestEscrow.Obligations(w.engine.quests, w.env.events);
    SumSplit(owed, 2);
    SumNonNegative(owed - {2});
  }

  /** Approving does not close a quest, so its employer may still take the refund: out of another quest's escrow. */
  lemma RefundAfterApproval()
    ensures var w := Reach([ALICE_CREATES, BOB_CREATES, LEARNER_SUBMITS, ALICE_APPROVES, ALICE_REFUNDS]);
      BalanceOf(w.env, EngineId) == 0 && Solvency.Owed(w) >= 100
  {
    hide Step, Reach, Solvency.Owed;
    var calls := [ALICE_CREATES, BOB_CREATES, LEARNER_SUBMITS, ALICE_APPROVES, ALICE_REFUNDS];
    NextState(calls, 0);
    NextState(calls, 1);
    NextState(calls, 2);
    NextState(calls, 3);
    NextState(calls, 4);
    AliceCreates();
    BobCreates(Reach(calls[..1]));
    var log := CREATION + [ProofSubmitted(LEARNER, 1, 0)];
    LearnerSubmits(Reach(calls[..2]), CREATION);
    AliceApproves(Reach(calls[..3]), log);
    AliceRefunds(Reach(calls[..4]), log + APPROVAL);
    BobIsOwed(Reach(calls[..5]));
  }

  // ---------------------------------------------------------------- a claim against an empty pool

  const ADMIN_CREATES := By(ADMIN, ToRegistry(CourseRegistry.CreateCourse(ADMIN, ADMIN, 1, 0)))
  const ADMIN_COMPLETES := By(ADMIN, ToRegistry(CourseRegistry.CompleteModule(ADMIN, LEARNER, 1)))
  const LEARNER_CLAIMS := By(LEARNER, ToRegistry(CourseRegistry.ClaimCompletionReward(LEARNER, 1)))

  lemma CourseCreated()
    ensures var w := Step(DEPLOYED, ADMIN_CREATES);
      w.registry == DEPLOYED.registry.(courseCount := 1, courses := map[1 := CourseRegistry.Course(ADMIN, 1, 0, true)])
      && w.badges == DEPLOYED.badges && w.pool == DEPLOYED.pool && BalanceOf(w.env, PoolId) == 0
      && w.governance == DEPLOYED.governance && w.env.now == 0
  {
  }

  lemma CourseFinished(w: World)
    requires w.registry == DEPLOYED.registry.(courseCount := 1, courses := map[1 := CourseRegistry.Course(ADMIN, 1, 0, true)])
    requires w.badges == DEPLOYED.badges && w.pool == DEPLOYED.pool && BalanceOf(w.env, PoolId) == 0
    ensures var w' := Step(w, ADMIN_COMPLETES);
      CourseRegistry.Finished(w'.registry, LEARNER, 1) && (LEARNER, 1) in w'.registry.pending
      && w'.registry.rewardPool == Some(PoolId) && w'.pool == w.pool && BalanceOf(w'.env, PoolId) == 0
  {
    hide Tally, Sum, RewardPool.DistributeRewardEffect;
  }

  lemma ClaimRefused(w: World)
    requires CourseRegistry.Finished(w.registry, LEARNER, 1) && (LEARNER, 1) in w.registry.pending
    requires w.registry.rewardPool == Some(PoolId) && BalanceOf(w.env, PoolId) == 0
    ensures RefusedClaim(w, LEARNER_CLAIMS, LEARNER, 1)
    ensures CourseRegistry.Finished(Step(w, LEARNER_CLAIMS).registry, LEARNER, 1)
  {
    hide Tally, Sum;
  }

  /** A learner who claims while the pool is empty loses the reward for good, although the call succeeds. */
  lemma ClaimAgainstEmptyPool(more: seq<Action>)
    ensures var w := Run(START, Setup(ADMIN) + [ADMIN_CREATES, ADMIN_COMPLETES, LEARNER_CLAIMS] + more);
      && CourseRegistry.Finished(w.registry, LEARNER, 1)
      && Tally(CoursePaid(LEARNER, 1), w.env.events) == 0
      && (LEARNER, 1) !in w.registry.pending
  {
    hide Step, RefusedClaim, Finishes, Fresh, Tally, Setup;
    var calls := [ADMIN_CREATES, ADMIN_COMPLETES, LEARNER_CLAIMS];
    NextState(calls, 0);
    NextState(calls, 1);
    NextState(calls, 2);
    Starts();
    var run := Setup(ADMIN) + calls;
    assert run[..|Setup(ADMIN)| + 2] == Setup(ADMIN) + calls[..2] && run[|Setup(ADMIN)| + 2] == LEARNER_CLAIMS;
    assert Run(START, run) == Reach(calls[..3]);
    hide Run;
    CourseCreated();
    CourseFinished(Reach(calls[..1]));
    ClaimRefused(Reach(calls[..2]));
    assert Strikes(RewardLost, Reach(calls[..2]), LEARNER_CLAIMS, LEARNER, 1);
    assert Struck(RewardLost, START, run, LEARNER, 1);
    LossesAreMishaps(START, run, LEARNER, 1);
    LostForGood(START, run, more, LEARNER, 1);
    StaysFinished(START, run, more, LEARNER, 1);
  }

  lemma StaysFinished(w: World, first: seq<Action>, second: seq<Action>, learner: Address, id: u32)
    requires Fresh(w) && CourseRegistry.Finished(Run(w, first).registry, learner, id)
    ensures CourseRegistry.Finished(Run(w, first + second).registry, learner, id)
  {
    hide Run, Fresh, Safety.Safe, Tally, QuestReviews.Onward, Governance.Onward;
    Safety.FreshSafe(w);
    Safety.RunSafe(w, first);
    RunLater(Run(w, first), second);
    RunSplit(w, first, second);
  }

  // ---------------------------------------------------------------- votes after the end

  /** Neither a proposal's end nor its execution stops a vote: both could be anything without changing its outcome. */
  lemma VotesNeverClose(
    s: Governance.Storage, badges: BadgeNft.Storage, auth: set<Address>, replies: Replies, voter: Address, p: u32, support: bool,
    endTime: u64, executed: bool)
    requires p in s.proposals
    ensures var s' := s.(proposals := s.proposals[p := s.proposals[p].(endTime := endTime, executed := executed)]);
      var r, r' := Governance.CastVoteEffect(s, badges, auth, replies, voter, p, support),
                   Governance.CastVoteEffect(s', badges, auth, replies, voter, p, support);
      && r.Verdict() == r'.Verdict()
      && (r.Ok? ==>
            && r'.value.proposals[p].votesFor == r.value.proposals[p].votesFor
            && r'.value.proposals[p].votesAgainst == r.value.proposals[p].votesAgainst)
  {
  }

  const BOB_COMPLETES := By(ADMIN, ToRegistry(CourseRegistry.CompleteModule(ADMIN, BOB, 1)))
  const LEARNER_FOR := By(LEARNER, ToGovernance(Governance.CastVote(LEARNER, 1, true)))
  const POLL_ENDS := Advance(11)
  const POLL_EXECUTED := By(BOB, ToGovernance(Governance.ExecuteProposal(1)))
  const BOB_AGAINST := By(BOB, ToGovernance(Governance.CastVote(BOB, 1, false)))

  /** A state of the poll: one badge each for LEARNER and BOB, and the proposal with those who voted on it. */
  ghost predicate Polling(w: World, now: u64, poll: Governance.Proposal, voters: set<Address>) {
    && w.env.now == now
    && |BadgeNft.Badges(w.badges, LEARNER)| == 1 == |BadgeNft.Badges(w.badges, BOB)|
    && w.governance == DEPLOYED.governance.(proposals := map[1 := poll], userVotes := Votes(voters))
  }

  function Votes(voters: set<Address>): set<(Address, u32)> {
    set v | v in voters :: (v, 1)
  }

  /** What a graduation needs: the course, its learner without progress and badge, and an empty pool. */
  ghost predicate MayGraduate(w: World, learner: Account) {
    && w.registry == DEPLOYED.registry.(
         courseCount := 1, courses := map[1 := CourseRegistry.Course(ADMIN, 1, 0, true)],
         progress := w.registry.progress, pending := w.registry.pending)
    && (learner, 1) !in w.registry.progress && BadgeNft.Badges(w.badges, learner) == []
    && w.badges.admin == Some(RegistryId) && BalanceOf(w.env, PoolId) == 0
    && w.governance == DEPLOYED.governance && w.env.now == 0
  }

  lemma Graduates(w: World, learner: Account, other: Account)
    requires MayGraduate(w, learner) && other != learner
    ensures var w' := Step(w, By(ADMIN, ToRegistry(CourseRegistry.CompleteModule(ADMIN, learner, 1))));
      && |BadgeNft.Badges(w'.badges, learner)| == 1 && BadgeNft.Badges(w'.badges, other) == BadgeNft.Badges(w.badges, other)
      && w'.governance == DEPLOYED.governance && w'.env.now == 0
      && (MayGraduate(w, other) ==> MayGraduate(w', other))
  {
    hide Tally, Sum, RewardPool.DistributeRewardEffect;
    var w' := Step(w, By(ADMIN, ToRegistry(CourseRegistry.CompleteModule(ADMIN, learner, 1))));
    assert !BadgeNft.HasBadge(w.badges, learner, 1);
    var e1 := Publish(w.env, ModuleCompleted(learner, 1, 1));
    Minted(w.badges, e1, learner);
    hide CourseRegistry.MintAttempt;
    assert BalanceOf(w'.env, PoolId) == 0;
  }

  lemma Minted(b: BadgeNft.Storage, e: Env, learner: Account)
    requires b.admin == Some(RegistryId) && BadgeNft.Badges(b, learner) == []
    ensures CourseRegistry.MintAttempt(Some(BadgeId), b, e, SILENT, learner, 1) ==
      Ok((b.(userBadges := b.userBadges[learner := [BadgeNft.Badge(1, e.now)]]), Publish(e, BadgeMinted(learner, 1, e.now))))
  {
    assert BadgeNft.Badges(b, learner) + [BadgeNft.Badge(1, e.now)] == [BadgeNft.Badge(1, e.now)];
  }

  lemma PollOpens(w: World)
    requires |BadgeNft.Badges(w.badges, LEARNER)| == 1 == |BadgeNft.Badges(w.badges, BOB)|
    requires w.governance == DEPLOYED.governance && w.env.now == 0
    ensures Polling(w, 0, POLL, {})
  {
    assert Votes({}) == {};
    assert DEPLOYED.governance.proposals == map[1 := POLL];
  }

  lemma BothGraduate(w: World)
    requires MayGraduate(w, LEARNER) && MayGraduate(w, BOB)
    ensures Polling(Step(Step(w, ADMIN_COMPLETES), BOB_COMPLETES), 0, POLL, {})
  {
    hide Step, MayGraduate, Polling;
    Graduates(w, LEARNER, BOB);
    Graduates(Step(w, ADMIN_COMPLETES), BOB, LEARNER);
    PollOpens(Step(Step(w, ADMIN_COMPLETES), BOB_COMPLETES));
  }

  lemma LearnerVotes(w: World)
    requires Polling(w, 0, POLL, {})
    ensures Polling(Step(w, LEARNER_FOR), 0, POLL.(votesFor := 1), {LEARNER})
  {
  }

  lemma PollEnds(w: World)
    requires Polling(w, 0, POLL.(votesFor := 1), {LEARNER})
    ensures Polling(Step(w, POLL_ENDS), 11, POLL.(votesFor := 1), {LEARNER})
  {
  }

  lemma PollExecuted(w: World)
    requires Polling(w, 11, POLL.(votesFor := 1), {LEARNER})
    ensures Polling(Step(w, POLL_EXECUTED), 11, POLL.(votesFor := 1, executed := true), {LEARNER})
  {
  }

  lemma BobVotesLate(w: World)
    requires Polling(w, 11, POLL.(votesFor := 1, executed := true), {LEARNER})
    ensures Polling(Step(w, BOB_AGAINST), 11, POLL.(votesFor := 1, votesAgainst := 1, executed := true), {LEARNER, BOB})
  {
    var w' := Step(w, BOB_AGAINST);
    assert w'.governance.userVotes == w.governance.userVotes + {(BOB, 1)};
    assert Votes({LEARNER, BOB}) == Votes({LEARNER}) + {(BOB, 1)};
  }

  /** A vote after the end and after the execution, which leaves an executed proposal without its majority. */
  lemma VoteAfterExecution()
    ensures var w := Reach([ADMIN_CREATES, ADMIN_COMPLETES, BOB_COMPLETES, LEARNER_FOR, POLL_ENDS, POLL_EXECUTED, BOB_AGAINST]);
      && 1 in w.governance.proposals && w.governance.proposals[1].executed && (BOB, 1) in w.governance.userVotes
      && w.env.now > w.governance.proposals[1].endTime
      && w.governance.proposals[1].votesFor <= w.governance.proposals[1].votesAgainst
  {
    hide Step, Reach;
    var calls := [ADMIN_CREATES, ADMIN_COMPLETES, BOB_COMPLETES, LEARNER_FOR, POLL_ENDS, POLL_EXECUTED, BOB_AGAINST];
    NextState(calls, 0);
    NextState(calls, 1);
    NextState(calls, 2);
    NextState(calls, 3);
    NextState(calls, 4);
    NextState(calls, 5);
    NextState(calls, 6);
    CourseCreated();
    BothGraduate(Reach(calls[..1]));
    LearnerVotes(Reach(calls[..3]));
    PollEnds(Reach(calls[..4]));
    PollExecuted(Reach(calls[..5]));
    BobVotesLate(Reach(calls[..6]));
    assert BOB in {LEARNER, BOB};
  }

  // ---------------------------------------------------------------- deactivated courses

  /** What follows the last module does not depend on the catalogue. */
  lemma FinishIgnoresCourses(
    s: CourseRegistry.Storage, courses: map<u32, CourseRegistry.Course>, badges: BadgeNft.Storage, pool: RewardPool.Storage,
    e: Env, replies: Replies, learner: Address, id: u32)
    ensures var r := CourseRegistry.FinishEffect(s, badges, pool, e, replies, learner, id);
      CourseRegistry.FinishEffect(s.(courses := courses), badges, pool, e, replies, learner, id) ==
        if r.Ok? then Ok((r.value.0.(courses := courses), r.value.1, r.value.2)) else r
  {
    hide CourseRegistry.MintAttempt, CourseRegistry.TryDistribute;
  }

  lemma AdvanceIgnoresStatus(
    s: CourseRegistry.Storage, courses: map<u32, CourseRegistry.Course>, badges: BadgeNft.Storage, pool: RewardPool.Storage,
    e: Env, replies: Replies, learner: Address, id: u32)
    requires id in s.courses && id in courses && courses[id].totalModules == s.courses[id].totalModules
    requires CourseRegistry.Progress(s, learner, id) < s.courses[id].totalModules
    ensures var r := CourseRegistry.AdvanceEffect(s, badges, pool, e, replies, learner, id);
      CourseRegistry.AdvanceEffect(s.(courses := courses), badges, pool, e, replies, learner, id) ==
        if r.Ok? then Ok((r.value.0.(courses := courses), r.value.1, r.value.2)) else r
  {
    hide CourseRegistry.FinishEffect, Publish;
    var n := CourseRegistry.Progress(s, learner, id) + 1;
    var advanced := s.(progress := s.progress[(learner, id) := n]);
    FinishIgnoresCourses(advanced, courses, badges, pool, Publish(e, ModuleCompleted(learner, id, n)), replies, learner, id);
  }

  /** Deactivating a course stops enrolment only: modules are completed, and rewards paid, as if it were active. */
  lemma StatusOnlyStopsEnrolment(
    s: CourseRegistry.Storage, badges: BadgeNft.Storage, pool: RewardPool.Storage, e: Env, auth: set<Address>, replies: Replies,
    verifier: Address, learner: Address, id: u32, active: bool)
    requires id in s.courses
    ensures var s' := s.(courses := s.courses[id := s.courses[id].(active := active)]);
      var r := CourseRegistry.CompleteModuleEffect(s, badges, pool, e, auth, replies, verifier, learner, id);
      var r' := CourseRegistry.CompleteModuleEffect(s', badges, pool, e, auth, replies, verifier, learner, id);
      && (!active ==> CourseRegistry.EnrollEffect(s', auth, learner, id).Panic?)
      && r.Verdict() == r'.Verdict()
      && (r.Ok? ==>
            && r'.value.1 == r.value.1 && r'.value.2 == r.value.2
            && r'.value.0.progress == r.value.0.progress && r'.value.0.pending == r.value.0.pending)
  {
    hide CourseRegistry.AdvanceEffect;
    var courses := s.courses[id := s.courses[id].(active := active)];
    if CourseRegistry.Progress(s, learner, id) < s.courses[id].totalModules {
      AdvanceIgnoresStatus(s, courses, badges, pool, e, replies, learner, id);
    }
  }

  const DONOR_FUNDS := By(DONOR, ToPool(RewardPool.FundPool(DONOR, 100_000_000)))
  const ADMIN_DEACTIVATES := By(ADMIN, ToRegistry(CourseRegistry.SetCourseStatus(ADMIN, 1, false)))

  lemma Funded()
    ensures var w := Step(DEPLOYED, DONOR_FUNDS);
      && BalanceOf(w.env, PoolId) == 100_000_000 && BalanceOf(w.env, LEARNER) == 0
      && w.registry == DEPLOYED.registry && w.badges == DEPLOYED.badges && w.pool == DEPLOYED.pool
  {
    hide Tally, Sum;
  }

  lemma CreatedInactive(w: World)
    requires w.registry == DEPLOYED.registry && w.badges == DEPLOYED.badges && w.pool == DEPLOYED.pool
    ensures var w' := Step(Step(w, ADMIN_CREATES), ADMIN_DEACTIVATES);
      && w'.registry == w.registry.(courseCount := 1, courses := map[1 := CourseRegistry.Course(ADMIN, 1, 0, false)])
      && w'.badges == w.badges && w'.pool == w.pool && w'.env.balances == w.env.balances
  {
    hide Tally, Sum;
    var w1 := Step(w, ADMIN_CREATES);
    assert w1.registry == w.registry.(courseCount := 1, courses := map[1 := CourseRegistry.Course(ADMIN, 1, 0, true)]);
  }

  lemma CompletedInactive(w: World)
    requires w.registry == DEPLOYED.registry.(courseCount := 1, courses := map[1 := CourseRegistry.Course(ADMIN, 1, 0, false)])
    requires w.badges == DEPLOYED.badges && w.pool == DEPLOYED.pool
    requires BalanceOf(w.env, PoolId) == 100_000_000 && BalanceOf(w.env, LEARNER) == 0
    ensures var w' := Step(w, ADMIN_COMPLETES);
      && 1 in w'.registry.courses && !w'.registry.courses[1].active && CourseRegistry.Finished(w'.registry, LEARNER, 1)
      && BadgeNft.HasBadge(w'.badges, LEARNER, 1) && BalanceOf(w'.env, LEARNER) == 100_000_000
  {
    hide Tally, Sum, TransferEffect;
    var e1 := Publish(w.env, ModuleCompleted(LEARNER, 1, 1));
    var e2 := Publish(e1, BadgeMinted(LEARNER, 1, w.env.now));
    Paying(e2);
    var badges := Step(w, ADMIN_COMPLETES).badges;
    assert BadgeNft.Badges(badges, LEARNER) == [BadgeNft.Badge(1, w.env.now)];
    assert BadgeNft.Badges(badges, LEARNER)[0].courseId == 1;
  }

  lemma Paying(e: Env)
    requires BalanceOf(e, PoolId) == 100_000_000 && BalanceOf(e, LEARNER) == 0
    ensures TransferEffect(e, PoolId, LEARNER, 100_000_000).Ok?
    ensures BalanceOf(TransferEffect(e, PoolId, LEARNER, 100_000_000).value, LEARNER) == 100_000_000
  {
  }

  /** A course set inactive is completed without enrolment: the badge is minted and the reward paid. */
  lemma InactiveCourseCompletes()
    ensures var w := Reach([DONOR_FUNDS, ADMIN_CREATES, ADMIN_DEACTIVATES, ADMIN_COMPLETES]);
      && 1 in w.registry.courses && !w.registry.courses[1].active && CourseRegistry.Finished(w.registry, LEARNER, 1)
      && BadgeNft.HasBadge(w.badges, LEARNER, 1) && BalanceOf(w.env, LEARNER) == 100_000_000
  {
    hide Step, Reach, BadgeNft.HasBadge, CourseRegistry.Finished;
    var calls := [DONOR_FUNDS, ADMIN_CREATES, ADMIN_DEACTIVATES, ADMIN_COMPLETES];
    NextState(calls, 0);
    NextState(calls, 1);
    NextState(calls, 2);
    NextState(calls, 3);
    Funded();
    CreatedInactive(Reach(calls[..1]));
    CompletedInactive(Reach(calls[..3]));
  }
}
