/** What leaves the reward pool, to whom, and why: an exact ledger over whole runs. */
module PoolLedger {
  import opened Outcomes
  import opened Soroban
  import opened Platform
  import opened Authority
  import opened Safety
  import RewardPool
  import StakeVault
  import BadgeNft
  import CourseRegistry
  import CourseRewards
  import QuestEngine
  import QuestReviews
  import Payouts
  import Governance

  /** What the pool sent to somebody beyond course rewards, explore rewards and sweeps. */
  ghost function Unexplained(whom: Whom, log: seq<Event>): int {
    Tally(PoolSent(whom), log)
    - 100_000_000 * Tally(CoursesPaid(whom), log) - Tally(ExplorePaid(whom), log) - Tally(Swept(whom), log)
  }

  /** Nothing unexplained happened between two logs. */
  ghost predicate Even(log: seq<Event>, log': seq<Event>) {
    forall whom :: Unexplained(whom, log') == Unexplained(whom, log)
  }

  /** A payment to one address was announced that another pool, not the platform's, agreed to make. */
  ghost predicate PaidElsewhere(log: seq<Event>, log': seq<Event>, to: Address, amount: int) {
    forall whom :: Unexplained(whom, log') == Unexplained(whom, log) - (if Covers(whom, to) then amount else 0)
  }

  lemma EvenTrans(log: seq<Event>, log1: seq<Event>, log2: seq<Event>)
    requires Even(log, log1) && Even(log1, log2)
    ensures Even(log, log2)
  {
    hide Unexplained;
  }

  /** How one event moves the ledger. */
  function Drift(whom: Whom, ev: Event): int {
    Weight(PoolSent(whom), ev)
    - 100_000_000 * Weight(CoursesPaid(whom), ev) - Weight(ExplorePaid(whom), ev) - Weight(Swept(whom), ev)
  }

  lemma Drifts(log: seq<Event>, ev: Event, whom: Whom)
    ensures Unexplained(whom, log + [ev]) == Unexplained(whom, log) + Drift(whom, ev)
  {
    AppendLogs(log, ev);
  }

  /** Events that say nothing about the pool's outflow. */
  predicate Neutral(ev: Event) {
    && !(ev.Transferred? && ev.from == PoolId)
    && !ev.CourseCompleted? && !ev.ExploreQuestVerified? && !ev.EmergencySweep?
  }

  lemma NeutralEven(log: seq<Event>, ev: Event)
    requires Neutral(ev)
    ensures Even(log, log + [ev])
  {
    forall whom ensures Unexplained(whom, log + [ev]) == Unexplained(whom, log) {
      Drifts(log, ev, whom);
      assert Drift(whom, ev) == 0;
    }
  }

  lemma PublishEven(e: Env, ev: Event)
    requires Neutral(ev) && !ev.Transferred?
    ensures Even(e.events, Publish(e, ev).events)
  {
    NeutralEven(e.events, ev);
  }

  lemma TransferEven(e: Env, from: Address, to: Address, amount: int)
    requires from != PoolId && TransferEffect(e, from, to, amount).Ok?
    ensures Even(e.events, TransferEffect(e, from, to, amount).value.events)
  {
    NeutralEven(e.events, Transferred(from, to, amount));
  }

  /** A payment by the pool announced by the event that explains it, possibly with the pool's own notice between. */
  lemma ExplainedEven(log: seq<Event>, to: Address, amount: nat, notice: seq<Event>, ev: Event)
    requires forall whom :: Drift(whom, ev) == -(if Covers(whom, to) then amount as int else 0)
    requires |notice| <= 1 && forall n :: n in notice ==> Neutral(n)
    ensures Even(log, log + [Transferred(PoolId, to, amount)] + notice + [ev])
  {
    var log1 := log + [Transferred(PoolId, to, amount)];
    var log2 := log1 + notice;
    if notice == [] {
      assert log2 == log1;
    } else {
      assert notice == [notice[0]];
      NeutralEven(log1, notice[0]);
    }
    hide Tally;
    forall whom ensures Unexplained(whom, log2 + [ev]) == Unexplained(whom, log) {
      Drifts(log, Transferred(PoolId, to, amount), whom);
      assert Unexplained(whom, log2) == Unexplained(whom, log1);
      Drifts(log2, ev, whom);
    }
  }

  // ---------------------------------------------------------------- the pool's own calls

  /** Only the registry and the engine may spend. */
  predicate TwoSpenders(s: RewardPool.Storage) {
    s.spenders <= {RegistryId, EngineId}
  }

  lemma PoolCallEven(s: RewardPool.Storage, e: Env, auth: Signers, c: RewardPool.Call)
    requires TwoSpenders(s) && RewardPool.Exec(s, e, auth, c).Ok?
    ensures Even(e.events, RewardPool.Exec(s, e, auth, c).value.1.events)
  {
    hide Even, TransferEffect;
    match c
    case Initialize(admin) => PublishEven(e, PoolInitialized(admin));
    case AddApprovedSpender(_, spender) => PublishEven(e, SpenderAdded(spender));
    case SetPause(_, _) => SameEven(e.events);
    case DistributeReward(_, _, _) => assert false;
    case FundPool(donor, amount) =>
      TransferEven(e, donor, PoolId, amount);
      var e1 := TransferEffect(e, donor, PoolId, amount).value;
      PublishEven(e1, PoolFunded(donor, amount));
      EvenTrans(e.events, e1.events, Publish(e1, PoolFunded(donor, amount)).events);
    case EmergencySweep(admin, wallet) => SweepEven(s, e, auth, admin, wallet);
  }

  lemma SameEven(log: seq<Event>)
    ensures Even(log, log)
  {
  }

  lemma SweepEven(s: RewardPool.Storage, e: Env, auth: set<Address>, admin: Address, wallet: Address)
    requires RewardPool.EmergencySweepEffect(s, e, auth, admin, wallet).Ok?
    ensures Even(e.events, RewardPool.EmergencySweepEffect(s, e, auth, admin, wallet).value.events)
  {
    var balance := BalanceOf(e, PoolId);
    var ev := Event.EmergencySweep(admin, wallet, balance);
    ExplainedEven(e.events, wallet, balance, [], ev);
    assert e.events + [Transferred(PoolId, wallet, balance)] + [] == e.events + [Transferred(PoolId, wallet, balance)];
  }

  // ---------------------------------------------------------------- the registry's calls

  lemma NothingElsewhere(log: seq<Event>, log': seq<Event>, to: Address)
    requires Even(log, log')
    ensures PaidElsewhere(log, log', to, 0)
  {
  }

  lemma ElsewhereTrans(log: seq<Event>, log1: seq<Event>, log2: seq<Event>, to: Address, amount: int)
    requires Even(log, log1) && PaidElsewhere(log1, log2, to, amount)
    ensures PaidElsewhere(log, log2, to, amount)
  {
    hide Unexplained;
  }

  /** An announcement alone, without a payment by the platform's pool. */
  lemma AnnouncedElsewhere(log: seq<Event>, to: Address, amount: int, ev: Event)
    requires forall whom :: Drift(whom, ev) == -(if Covers(whom, to) then amount else 0)
    ensures PaidElsewhere(log, log + [ev], to, amount)
  {
    hide Tally;
    forall whom ensures Unexplained(whom, log + [ev]) == Unexplained(whom, log) - (if Covers(whom, to) then amount else 0) {
      Drifts(log, ev, whom);
    }
  }

  /** The course reward, if it is a pool other than the platform's that pays it. */
  function ElsewhereReward(wired: Option<Address>, replies: Replies): int {
    if wired.Some? && wired.value != PoolId && replies.poolAccepts then 100_000_000 else 0
  }

  lemma RewardExplained(pool: RewardPool.Storage, e: Env, replies: Replies, learner: Address, id: u32, wired: Option<Address>)
    ensures PaidElsewhere(e.events, CourseRegistry.TryDistribute(wired, pool, e, replies, learner, id).1.events,
                          learner, ElsewhereReward(wired, replies))
  {
    hide Even, PaidElsewhere;
    var reward := CourseRegistry.BASE_REWARD;
    var ev := CourseCompleted(learner, id, reward);
    if wired.Some? && wired.value != PoolId && replies.poolAccepts {
      AnnouncedElsewhere(e.events, learner, reward, ev);
    } else {
      if CourseRegistry.TryDistribute(wired, pool, e, replies, learner, id).0 {
        ExplainedEven(e.events, learner, reward, [RewardDistributed(RegistryId, learner, reward)], ev);
      } else {
        SameEven(e.events);
      }
      NothingElsewhere(e.events, CourseRegistry.TryDistribute(wired, pool, e, replies, learner, id).1.events, learner);
    }
  }

  lemma MintEven(wired: Option<Address>, badges: BadgeNft.Storage, e: Env, replies: Replies, learner: Address, id: u32)
    requires CourseRegistry.MintAttempt(wired, badges, e, replies, learner, id).Ok?
    ensures Even(e.events, CourseRegistry.MintAttempt(wired, badges, e, replies, learner, id).value.1.events)
  {
    hide Even;
    SameEven(e.events);
    if wired == Some(BadgeId) {
      PublishEven(e, BadgeMinted(learner, id, e.now));
    }
  }

  lemma FinishExplained(
    s: CourseRegistry.Storage, badges: BadgeNft.Storage, pool: RewardPool.Storage, e: Env, replies: Replies,
    learner: Address, id: u32, s': CourseRegistry.Storage, badges': BadgeNft.Storage, e': Env)
    requires CourseRegistry.FinishEffect(s, badges, pool, e, replies, learner, id) == Ok((s', badges', e'))
    ensures PaidElsewhere(e.events, e'.events, learner, ElsewhereReward(s.rewardPool, replies))
  {
    hide Even, PaidElsewhere, CourseRegistry.MintAttempt, CourseRegistry.TryDistribute, ElsewhereReward;
    var e1 := CourseRegistry.MintAttempt(s.badgeNft, badges, e, replies, learner, id).value.1;
    MintEven(s.badgeNft, badges, e, replies, learner, id);
    RewardExplained(pool, e1, replies, learner, id, s.rewardPool);
    ElsewhereTrans(e.events, e1.events, e'.events, learner, ElsewhereReward(s.rewardPool, replies));
  }

  /** The address a registry call has rewarded by another pool, and with how much. */
  function RegistryElsewhere(s: CourseRegistry.Storage, replies: Replies, c: CourseRegistry.Call): (Address, int) {
    match c
    case CompleteModule(_, learner, id) =>
      var last := id in s.courses && CourseRegistry.Progress(s, learner, id) + 1 == s.courses[id].totalModules;
      (learner, if last then ElsewhereReward(s.rewardPool, replies) else 0)
    case ClaimCompletionReward(learner, _) => (learner, ElsewhereReward(s.rewardPool, replies))
    case _ => (RegistryId, 0)
  }

  lemma CompleteExplained(
    s: CourseRegistry.Storage, badges: BadgeNft.Storage, pool: RewardPool.Storage, e: Env, auth: set<Address>, replies: Replies,
    verifier: Address, learner: Address, id: u32, s': CourseRegistry.Storage, badges': BadgeNft.Storage, e': Env)
    requires CourseRegistry.CompleteModuleEffect(s, badges, pool, e, auth, replies, verifier, learner, id) == Ok((s', badges', e'))
    ensures PaidElsewhere(e.events, e'.events, learner,
                          RegistryElsewhere(s, replies, CourseRegistry.CompleteModule(verifier, learner, id)).1)
  {
    hide Even, PaidElsewhere, ElsewhereReward, CourseRegistry.CompleteModuleEffect, CourseRegistry.FinishEffect;
    CourseRewards.CompleteForm(s, badges, pool, e, auth, replies, verifier, learner, id, s', badges', e');
    var n := CourseRegistry.Progress(s, learner, id) + 1;
    var s1 := s.(progress := s.progress[(learner, id) := n]);
    var e1 := Publish(e, ModuleCompleted(learner, id, n));
    PublishEven(e, ModuleCompleted(learner, id, n));
    if n == s.courses[id].totalModules {
      FinishExplained(s1, badges, pool, e1, replies, learner, id, s', badges', e');
      ElsewhereTrans(e.events, e1.events, e'.events, learner, ElsewhereReward(s.rewardPool, replies));
    } else {
      NothingElsewhere(e.events, e'.events, learner);
    }
  }

  lemma ClericalEven(
    s: CourseRegistry.Storage, badges: BadgeNft.Storage, pool: RewardPool.Storage, e: Env, auth: set<Address>, replies: Replies,
    c: CourseRegistry.Call, s': CourseRegistry.Storage, badges': BadgeNft.Storage, e': Env)
    requires CourseRewards.Clerical(c)
    requires CourseRegistry.Exec(s, badges, pool, e, auth, replies, c) == Ok((s', badges', e'))
    ensures Even(e.events, e'.events)
  {
    hide Even;
    match c
    case Initialize(_) | SetRewardPoolAddress(_, _) | SetBadgeNftAddress(_, _) | Enroll(_, _) => SameEven(e.events);
    case CreateCourse(_, instructor, total, hash) => PublishEven(e, CourseCreated(s.courseCount + 1, instructor, total));
    case UpdateMetadata(id, hash) => PublishEven(e, MetadataUpdated(id, s.courses[id].instructor, hash));
    case SetCourseStatus(_, id, active) => PublishEven(e, CourseStatusChanged(id, active));
    case TransferOwnership(current, next, id) => PublishEven(e, OwnershipTransferred(id, current, next));
  }

  lemma RegistryCallExplained(
    s: CourseRegistry.Storage, badges: BadgeNft.Storage, pool: RewardPool.Storage, e: Env, auth: set<Address>, replies: Replies,
    c: CourseRegistry.Call, s': CourseRegistry.Storage, badges': BadgeNft.Storage, e': Env)
    requires CourseRegistry.Exec(s, badges, pool, e, auth, replies, c) == Ok((s', badges', e'))
    ensures var (to, amount) := RegistryElsewhere(s, replies, c); PaidElsewhere(e.events, e'.events, to, amount)
  {
    hide Even, PaidElsewhere, ElsewhereReward, CourseRegistry.CompleteModuleEffect, CourseRegistry.TryDistribute;
    match c
    case CompleteModule(verifier, learner, id) =>
      CompleteExplained(s, badges, pool, e, auth, replies, verifier, learner, id, s', badges', e');
    case ClaimCompletionReward(learner, id) => RewardExplained(pool, e, replies, learner, id, s.rewardPool);
    case _ =>
      ClericalEven(s, badges, pool, e, auth, replies, c, s', badges', e');
      NothingElsewhere(e.events, e'.events, RegistryId);
  }

  // ---------------------------------------------------------------- the engine's calls

  lemma SplitEven(rewardPool: Address, e: Env, p: Payouts.Payout, learner: Address, questId: u32)
    requires QuestEngine.SplitEffect(rewardPool, e, p, learner, questId).Ok?
    ensures Even(e.events, QuestEngine.SplitEffect(rewardPool, e, p, learner, questId).value.events)
  {
    hide Even, TransferEffect;
    var e1 := TransferEffect(e, EngineId, rewardPool, p.fee).value;
    var e2 := TransferEffect(e1, EngineId, learner, p.learnerAmount).value;
    TransferEven(e, EngineId, rewardPool, p.fee);
    TransferEven(e1, EngineId, learner, p.learnerAmount);
    EvenTrans(e.events, e1.events, e2.events);
    if p.boostCapped {
      var ev := PayoutComputed(learner, questId, p.fee, p.learnerAmount, p.boostActual, true);
      PublishEven(e2, ev);
      EvenTrans(e.events, e2.events, Publish(e2, ev).events);
    }
  }

  lemma ReviewEven(
    s: QuestEngine.Storage, vault: StakeVault.Storage, e: Env, auth: set<Address>, replies: Replies,
    employer: Address, learner: Address, questId: u32, approve: bool)
    requires QuestEngine.ReviewEffect(s, vault, e, auth, replies, employer, learner, questId, approve).Ok?
    ensures Even(e.events, QuestEngine.ReviewEffect(s, vault, e, auth, replies, employer, learner, questId, approve).value.1.events)
  {
    hide Even, QuestEngine.SplitEffect, QuestEngine.Quote;
    var ev := SubmissionReviewed(employer, learner, questId, approve);
    if approve {
      var w := s.wiring.value;
      var p := QuestEngine.Quote(w.stakeVault, vault, replies, s.quests[questId].rewardAmount, learner).value;
      var e1 := QuestEngine.SplitEffect(w.rewardPool, e, p, learner, questId).value;
      SplitEven(w.rewardPool, e, p, learner, questId);
      PublishEven(e1, ev);
      EvenTrans(e.events, e1.events, Publish(e1, ev).events);
    } else {
      PublishEven(e, ev);
    }
  }

  lemma {:induction false} ReviewEachEven(
    s: QuestEngine.Storage, vault: StakeVault.Storage, e: Env, auth: set<Address>, replies: Replies,
    employer: Address, questId: u32, learners: seq<Address>)
    requires QuestReviews.ReviewEachEffect(s, vault, e, auth, replies, employer, questId, learners).Ok?
    ensures Even(e.events, QuestReviews.ReviewEachEffect(s, vault, e, auth, replies, employer, questId, learners).value.1.events)
    decreases |learners|
  {
    hide Even, QuestEngine.ReviewEffect;
    if learners == [] {
      SameEven(e.events);
    } else {
      var (s1, e1) := QuestEngine.ReviewEffect(s, vault, e, auth, replies, employer, learners[0], questId, true).value;
      ReviewEven(s, vault, e, auth, replies, employer, learners[0], questId, true);
      ReviewEachEven(s1, vault, e1, auth, replies, employer, questId, learners[1..]);
      var e2 := QuestReviews.ReviewEachEffect(s1, vault, e1, auth, replies, employer, questId, learners[1..]).value.1;
      EvenTrans(e.events, e1.events, e2.events);
    }
  }

  lemma BatchEven(
    s: QuestEngine.Storage, vault: StakeVault.Storage, e: Env, auth: set<Address>, replies: Replies,
    employer: Address, questId: u32, learners: QuestEngine.Learners)
    requires QuestEngine.BatchEffect(s, vault, e, auth, replies, employer, questId, learners).Ok?
    ensures Even(e.events, QuestEngine.BatchEffect(s, vault, e, auth, replies, employer, questId, learners).value.1.events)
  {
    hide Even, QuestEngine.BatchEffect, QuestReviews.ReviewEachEffect;
    QuestReviews.BatchIsReviews(s, vault, e, auth, replies, employer, questId, learners);
    ReviewEachEven(s, vault, e, auth, replies, employer, questId, learners);
    var e1 := QuestReviews.ReviewEachEffect(s, vault, e, auth, replies, employer, questId, learners).value.1;
    var ev := BatchReviewed(employer, questId, |learners|);
    PublishEven(e1, ev);
    EvenTrans(e.events, e1.events, Publish(e1, ev).events);
  }

  lemma PaidInEven(e: Env, from: Address, to: Address, amount: int, ev: Event)
    requires from != PoolId && TransferEffect(e, from, to, amount).Ok?
    requires Neutral(ev) && !ev.Transferred?
    ensures Even(e.events, Publish(TransferEffect(e, from, to, amount).value, ev).events)
  {
    hide Even, TransferEffect;
    var e1 := TransferEffect(e, from, to, amount).value;
    TransferEven(e, from, to, amount);
    PublishEven(e1, ev);
    EvenTrans(e.events, e1.events, Publish(e1, ev).events);
  }

  /** The address an engine call has rewarded by another pool, and with how much. */
  function EngineElsewhere(s: QuestEngine.Storage, c: QuestEngine.Call): (Address, int) {
    if c.VerifyExploreQuest? && s.wiring.Some? && s.wiring.value.rewardPool != PoolId && c.questId in s.quests
    then (c.learner, s.quests[c.questId].rewardAmount) else (EngineId, 0)
  }

  lemma VerifyExplained(
    s: QuestEngine.Storage, pool: RewardPool.Storage, e: Env, auth: set<Address>, replies: Replies,
    admin: Address, learner: Address, questId: u32)
    requires QuestEngine.VerifyExploreEffect(s, pool, e, auth, replies, admin, learner, questId).Ok?
    ensures var (to, amount) := EngineElsewhere(s, QuestEngine.VerifyExploreQuest(admin, learner, questId));
      var e' := QuestEngine.VerifyExploreEffect(s, pool, e, auth, replies, admin, learner, questId).value;
      PaidElsewhere(e.events, e'.events, to, amount)
  {
    hide Even, PaidElsewhere;
    var reward := s.quests[questId].rewardAmount;
    var ev := ExploreQuestVerified(admin, learner, questId, reward);
    if s.wiring.value.rewardPool == PoolId {
      ExplainedEven(e.events, learner, reward, [RewardDistributed(EngineId, learner, reward)], ev);
      var e' := QuestEngine.VerifyExploreEffect(s, pool, e, auth, replies, admin, learner, questId).value;
      NothingElsewhere(e.events, e'.events, EngineId);
    } else {
      AnnouncedElsewhere(e.events, learner, reward, ev);
    }
  }

  lemma EngineCallEven(
    s: QuestEngine.Storage, vault: StakeVault.Storage, pool: RewardPool.Storage, e: Env,
    auth: Signers, replies: Replies, c: QuestEngine.Call)
    requires QuestEngine.Exec(s, vault, pool, e, auth, replies, c).Ok? && !c.VerifyExploreQuest?
    ensures Even(e.events, QuestEngine.Exec(s, vault, pool, e, auth, replies, c).value.1.events)
  {
    hide Even, TransferEffect, QuestEngine.ReviewEffect, QuestEngine.BatchEffect;
    match c
    case Initialize(_, _, _) | SetPause(_, _) => SameEven(e.events);
    case SetRewardPoolAddress(admin, a) => PublishEven(e, RewardPoolUpdated(admin, a));
    case SetStakeVaultAddress(admin, a) => PublishEven(e, StakeVaultUpdated(admin, a));
    case CreateBuildQuest(employer, reward, _) =>
      PaidInEven(e, employer, EngineId, reward, QuestCreated(employer, s.questCounter + 1, reward));
    case CreateExploreQuest(admin, reward, _) => PublishEven(e, QuestCreated(admin, s.questCounter + 1, reward));
    case SubmitProof(learner, questId, hash) => PublishEven(e, ProofSubmitted(learner, questId, hash));
    case ReviewSubmission(employer, learner, questId, approve) =>
      ReviewEven(s, vault, e, auth, replies, employer, learner, questId, approve);
    case BatchReviewSubmissions(employer, questId, learners) => BatchEven(s, vault, e, auth, replies, employer, questId, learners);
    case RefundQuest(employer, questId) =>
      var reward := s.quests[questId].rewardAmount;
      PaidInEven(e, EngineId, employer, reward, QuestRefunded(employer, questId, reward));
  }

  lemma EngineCallExplained(
    s: QuestEngine.Storage, vault: StakeVault.Storage, pool: RewardPool.Storage, e: Env,
    auth: Signers, replies: Replies, c: QuestEngine.Call)
    requires QuestEngine.Exec(s, vault, pool, e, auth, replies, c).Ok?
    ensures var (to, amount) := EngineElsewhere(s, c);
      PaidElsewhere(e.events, QuestEngine.Exec(s, vault, pool, e, auth, replies, c).value.1.events, to, amount)
  {
    hide Even, PaidElsewhere, QuestEngine.VerifyExploreEffect;
    if c.VerifyExploreQuest? {
      VerifyExplained(s, pool, e, auth, replies, c.admin, c.learner, c.questId);
    } else {
      hide QuestEngine.Exec;
      EngineCallEven(s, vault, pool, e, auth, replies, c);
      NothingElsewhere(e.events, QuestEngine.Exec(s, vault, pool, e, auth, replies, c).value.1.events, EngineId);
    }
  }

  // ---------------------------------------------------------------- whole runs

  /** What a step announces as paid to somebody that another pool pays. */
  function StepElsewhere(w: World, a: Action, whom: Whom): int {
    if a.Advance? || Platform.Exec(w, a.auth, a.replies, a.call).Panic? then 0 else
    var (to, amount) :=
      match a.call
      case ToRegistry(c) => RegistryElsewhere(w.registry, a.replies, c)
      case ToEngine(c) => EngineElsewhere(w.engine, c)
      case _ => (PoolId, 0);
    if Covers(whom, to) then amount else 0
  }

  function RunElsewhere(w: World, actions: seq<Action>, whom: Whom): int {
    if actions == [] then 0 else
      var most, last := actions[..|actions| - 1], actions[|actions| - 1];
      RunElsewhere(w, most, whom) + StepElsewhere(Run(w, most), last, whom)
  }

  lemma SpendersBefore(w: World, a: Action)
    requires TwoSpenders(Step(w, a).pool)
    ensures TwoSpenders(w.pool)
  {
    hide Step, AdminOf;
    StepAuthority(w, a);
  }

  lemma FrameEven(e: Env, e': Env, actors: set<Address>)
    requires Frame(e, e', actors) && PoolId !in actors && RegistryId !in actors && EngineId !in actors
    ensures Even(e.events, e'.events)
  {
    hide Tally;
    forall whom ensures Unexplained(whom, e'.events) == Unexplained(whom, e.events) {
      assert Owner(PoolSent(whom)) == PoolId == Owner(Swept(whom));
      assert Owner(CoursesPaid(whom)) == RegistryId && Owner(ExplorePaid(whom)) == EngineId;
    }
  }

  lemma OtherCallsEven(w: World, auth: Signers, replies: Replies, call: Call, w': World)
    requires Safe(w) && TwoSpenders(w.pool) && Platform.Exec(w, auth, replies, call) == Ok(w')
    requires !call.ToRegistry? && !call.ToEngine?
    ensures Even(w.env.events, w'.env.events)
  {
    hide Even, Safe, Frame;
    if call.ToPool? {
      PoolCallEven(w.pool, w.env, auth, call.pool);
    } else {
      hide Platform.Exec;
      ExecFrame(w, auth, replies, call, w');
      FrameEven(w.env, w'.env, Actors(auth, call));
    }
  }

  lemma RegistryStepExplained(w: World, auth: Signers, replies: Replies, c: CourseRegistry.Call, w': World)
    requires Platform.Exec(w, auth, replies, ToRegistry(c)) == Ok(w')
    ensures var (to, amount) := RegistryElsewhere(w.registry, replies, c);
      PaidElsewhere(w.env.events, w'.env.events, to, amount)
  {
    hide PaidElsewhere, RegistryElsewhere;
    RegistryCallExplained(w.registry, w.badges, w.pool, w.env, auth, replies, c, w'.registry, w'.badges, w'.env);
  }

  lemma StepExplained(w: World, a: Action, whom: Whom)
    requires Safe(w) && TwoSpenders(w.pool)
    ensures Unexplained(whom, Step(w, a).env.events) == Unexplained(whom, w.env.events) - StepElsewhere(w, a, whom)
  {
    hide Safe, TwoSpenders, Unexplained, RegistryElsewhere, EngineElsewhere;
    hide RewardPool.Exec, StakeVault.Exec, BadgeNft.Exec, CourseRegistry.Exec, QuestEngine.Exec, Governance.Exec, TokenEffect;
    if a.Invoke? && Platform.Exec(w, a.auth, a.replies, a.call).Ok? {
      var w' := Step(w, a);
      match a.call
      case ToRegistry(c) =>
        RegistryStepExplained(w, a.auth, a.replies, c, w');
      case ToEngine(c) => EngineCallExplained(w.engine, w.vault, w.pool, w.env, a.auth, a.replies, c);
      case _ => OtherCallsEven(w, a.auth, a.replies, a.call, w');
    }
  }

  lemma {:induction false} RunExplained(w: World, actions: seq<Action>, whom: Whom)
    requires Safe(w) && TwoSpenders(Run(w, actions).pool)
    ensures Unexplained(whom, Run(w, actions).env.events) ==
            Unexplained(whom, w.env.events) - RunElsewhere(w, actions, whom)
    decreases |actions|
  {
    hide Safe, Step, TwoSpenders, Unexplained, StepElsewhere;
    if actions == [] {
    } else {
      var n := |actions| - 1;
      var w1 := Run(w, actions[..n]);
      SpendersBefore(w1, actions[n]);
      RunExplained(w, actions[..n], whom);
      RunSafe(w, actions[..n]);
      StepExplained(w1, actions[n], whom);
    }
  }

  /**
   With no spender approved but the registry and the engine, and under any rewiring: what
   the pool has sent to anyone, and to each single address, plus what other pools were
   announced to have paid, is exactly 100_000_000 for each course completion plus the
   explore rewards plus what was swept.
   */
  lemma PoolOutflowAccounted(w: World, actions: seq<Action>, whom: Whom)
    requires Fresh(w) && TwoSpenders(Run(w, actions).pool)
    ensures var log := Run(w, actions).env.events;
      Tally(PoolSent(whom), log) + RunElsewhere(w, actions, whom) ==
        100_000_000 * Tally(CoursesPaid(whom), log) + Tally(ExplorePaid(whom), log) + Tally(Swept(whom), log)
  {
    FreshSafe(w);
    hide Run, TwoSpenders, Safe;
    RunExplained(w, actions, whom);
    assert Unexplained(whom, w.env.events) == 0;
  }

  /** No pool but the platform's is wired. */
  predicate OnePool(w: World) {
    && (w.registry.rewardPool.Some? ==> w.registry.rewardPool.value == PoolId)
    && (w.engine.wiring.Some? ==> w.engine.wiring.value.rewardPool == PoolId)
  }

  lemma NothingElsewhereWithOnePool(w: World, a: Action, whom: Whom)
    requires OnePool(w)
    ensures StepElsewhere(w, a, whom) == 0
  {
    hide Platform.Exec;
  }

  lemma {:induction false} RunsWithOnePool(w: World, actions: seq<Action>, whom: Whom)
    requires forall i :: 0 <= i < |actions| ==> OnePool(Run(w, actions[..i]))
    ensures RunElsewhere(w, actions, whom) == 0
    decreases |actions|
  {
    hide Run, OnePool, StepElsewhere;
    if actions == [] {
    } else {
      var n := |actions| - 1;
      forall i | 0 <= i < n ensures OnePool(Run(w, actions[..n][..i])) {
        assert actions[..n][..i] == actions[..i];
      }
      RunsWithOnePool(w, actions[..n], whom);
      NothingElsewhereWithOnePool(Run(w, actions[..n]), actions[n], whom);
    }
  }

  /** So where no other pool is ever wired, the platform's pool alone accounts for all of it. */
  lemma PoolOutflowExact(w: World, actions: seq<Action>, whom: Whom)
    requires Fresh(w) && TwoSpenders(Run(w, actions).pool)
    requires forall i :: 0 <= i < |actions| ==> OnePool(Run(w, actions[..i]))
    ensures var log := Run(w, actions).env.events;
      Tally(PoolSent(whom), log) ==
        100_000_000 * Tally(CoursesPaid(whom), log) + Tally(ExplorePaid(whom), log) + Tally(Swept(whom), log)
  {
    hide Run, Fresh, TwoSpenders, OnePool, Tally;
    PoolOutflowAccounted(w, actions, whom);
    RunsWithOnePool(w, actions, whom);
  }
}
