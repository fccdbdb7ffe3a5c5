/** The event log against storage and signatures: what is announced is true, and who must have signed for it. */
module Announcements {
  import opened Outcomes
  import opened Soroban
  import opened Platform
  import opened Safety
  import opened Authority
  import RewardPool
  import StakeVault
  import BadgeNft
  import CourseRegistry
  import CourseRewards
  import CourseCalls
  import QuestEngine
  import QuestReviews
  import QuestEscrow
  import QuestCalls
  import Payouts
  import Governance

  // ---------------------------------------------------------------- which call may announce what

  /** Announcements of new entries and of money paid out of the pool. */
  predicate Weighty(ev: Event) {
    ev.CourseCreated? || ev.QuestCreated? || ev.ExploreQuestVerified? || ev.EmergencySweep? || ev.CourseCompleted?
  }

  /** Whether a call made in a state may announce an event: only its own, with its own arguments. */
  predicate Permits(w: World, call: Call, ev: Event) {
    match ev
    case CourseCreated(id, instructor, total) =>
      && call.ToRegistry? && call.registry.CreateCourse?
      && call.registry.instructor == instructor && call.registry.totalModules == total && id == w.registry.courseCount + 1
    case QuestCreated(employer, id, reward) =>
      && call.ToEngine? && id == w.engine.questCounter + 1
      && (|| (call.engine.CreateBuildQuest? && call.engine.employer == employer && call.engine.rewardAmount == reward)
          || (call.engine.CreateExploreQuest? && call.engine.admin == employer && call.engine.rewardAmount == reward))
    case ExploreQuestVerified(admin, learner, q, amount) =>
      && call == ToEngine(QuestEngine.VerifyExploreQuest(admin, learner, q))
      && q in w.engine.quests && w.engine.quests[q].rewardAmount == amount
    case EmergencySweep(admin, wallet, swept) => call == ToPool(RewardPool.Call.EmergencySweep(admin, wallet))
    case CourseCompleted(learner, id, amount) =>
      && call.ToRegistry?
      && (|| (call.registry.CompleteModule? && call.registry.learner == learner && call.registry.id == id)
          || call.registry == CourseRegistry.ClaimCompletionReward(learner, id))
    case _ => true
  }

  /** One log continues another with events that a call may announce. */
  ghost predicate Adds(w: World, call: Call, log: seq<Event>, log': seq<Event>) {
    && |log| <= |log'| && log'[..|log|] == log
    && forall i :: |log| <= i < |log'| ==> Permits(w, call, log'[i])
  }

  /** One log continues another with nothing weighty. */
  ghost predicate Quiet(log: seq<Event>, log': seq<Event>) {
    && |log| <= |log'| && log'[..|log|] == log
    && forall i :: |log| <= i < |log'| ==> !Weighty(log'[i])
  }

  lemma QuietTrans(log: seq<Event>, log1: seq<Event>, log2: seq<Event>)
    requires Quiet(log, log1) && Quiet(log1, log2)
    ensures Quiet(log, log2)
  {
    assert log2[..|log|] == log2[..|log1|][..|log|];
    forall i | |log| <= i < |log2| ensures !Weighty(log2[i]) {
      if i < |log1| {
        assert log2[i] == log2[..|log1|][i] == log1[i];
      }
    }
  }

  lemma QuietAdds(w: World, call: Call, log: seq<Event>, log': seq<Event>)
    requires Quiet(log, log')
    ensures Adds(w, call, log, log')
  {
  }

  lemma AddedList(w: World, call: Call, log: seq<Event>, more: seq<Event>)
    requires forall i :: 0 <= i < |more| ==> Permits(w, call, more[i])
    ensures Adds(w, call, log, log + more)
  {
  }

  lemma QuietList(log: seq<Event>, more: seq<Event>)
    requires forall i :: 0 <= i < |more| ==> !Weighty(more[i])
    ensures Quiet(log, log + more)
  {
  }

  // ---------------------------------------------------------------- each contract's log

  lemma PoolAdds(w: World, auth: Signers, replies: Replies, c: RewardPool.Call)
    requires RewardPool.Exec(w.pool, w.env, auth, c).Ok?
    ensures Adds(w, ToPool(c), w.env.events, RewardPool.Exec(w.pool, w.env, auth, c).value.1.events)
  {
    var (s, e) := (w.pool, w.env);
    hide RewardPool.Exec, Moves;
    match c
    case Initialize(admin) => RewardPool.InitializeOutcome(s, e, auth, admin);
    case AddApprovedSpender(admin, spender) => RewardPool.AddSpenderOutcome(s, e, auth, admin, spender);
    case SetPause(admin, status) => RewardPool.SetPauseOutcome(s, e, auth, admin, status);
    case DistributeReward(caller, learner, amount) => RewardPool.DistributeOutcome(s, e, auth, caller, learner, amount);
    case FundPool(donor, amount) => RewardPool.FundExactly(s, e, auth, donor, amount);
    case EmergencySweep(admin, wallet) => RewardPool.SweepExactly(s, e, auth, admin, wallet);
  }

  lemma VaultAdds(w: World, auth: Signers, c: StakeVault.Call)
    requires StakeVault.Exec(w.vault, w.env, auth, c).Ok?
    ensures Quiet(w.env.events, StakeVault.Exec(w.vault, w.env, auth, c).value.1.events)
  {
  }

  lemma BadgesAdd(w: World, auth: Signers, c: BadgeNft.Call)
    requires BadgeNft.Exec(w.badges, w.env, auth, c).Ok?
    ensures Quiet(w.env.events, BadgeNft.Exec(w.badges, w.env, auth, c).value.1.events)
  {
  }

  lemma GovernanceAdds(w: World, auth: Signers, replies: Replies, c: Governance.Call)
    requires Governance.Exec(w.governance, w.badges, w.env, auth, replies, c).Ok?
    ensures Quiet(w.env.events, Governance.Exec(w.governance, w.badges, w.env, auth, replies, c).value.1.events)
  {
  }

  lemma TokenAdds(e: Env, auth: set<Address>, from: Address, to: Address, amount: int)
    requires TokenEffect(e, auth, from, to, amount).Ok?
    ensures Quiet(e.events, TokenEffect(e, auth, from, to, amount).value.events)
  {
  }

  lemma CompleteAdds(
    w: World, auth: Signers, replies: Replies, verifier: Address, learner: Address, id: u32,
    s': CourseRegistry.Storage, b': BadgeNft.Storage, e': Env)
    requires CourseRegistry.Exec(w.registry, w.badges, w.pool, w.env, auth, replies,
                                 CourseRegistry.CompleteModule(verifier, learner, id)) == Ok((s', b', e'))
    ensures Adds(w, ToRegistry(CourseRegistry.CompleteModule(verifier, learner, id)), w.env.events, e'.events)
  {
    var call := ToRegistry(CourseRegistry.CompleteModule(verifier, learner, id));
    hide CourseRegistry.Exec, Moves;
    CourseCalls.CompleteChanges(w.registry, w.badges, w.pool, w.env, auth, replies, verifier, learner, id, s', b', e');
    var more := e'.events[|w.env.events|..];
    assert e'.events == w.env.events + more;
    AddedList(w, call, w.env.events, more);
  }

  lemma RegistryAdds(
    w: World, auth: Signers, replies: Replies, c: CourseRegistry.Call,
    s': CourseRegistry.Storage, b': BadgeNft.Storage, e': Env)
    requires CourseRegistry.Exec(w.registry, w.badges, w.pool, w.env, auth, replies, c) == Ok((s', b', e'))
    ensures Adds(w, ToRegistry(c), w.env.events, e'.events)
  {
    var (s, b, pool, e) := (w.registry, w.badges, w.pool, w.env);
    hide CourseRegistry.Exec, Moves, CourseCalls.RewardReady;
    match c
    case Initialize(admin) => CourseCalls.InitializeOutcome(s, b, pool, e, auth, replies, admin);
    case SetRewardPoolAddress(admin, a) => CourseCalls.WiringOutcome(s, b, pool, e, auth, replies, admin, a);
    case SetBadgeNftAddress(admin, a) => CourseCalls.WiringOutcome(s, b, pool, e, auth, replies, admin, a);
    case CreateCourse(admin, instructor, total, hash) =>
      CourseCalls.CreateCourseOutcome(s, b, pool, e, auth, replies, admin, instructor, total, hash);
    case UpdateMetadata(id, hash) => CourseCalls.UpdateMetadataOutcome(s, b, pool, e, auth, replies, id, hash);
    case SetCourseStatus(admin, id, active) => CourseCalls.SetStatusOutcome(s, b, pool, e, auth, replies, admin, id, active);
    case TransferOwnership(current, next, id) =>
      CourseCalls.TransferOwnershipOutcome(s, b, pool, e, auth, replies, current, next, id);
    case Enroll(learner, id) => CourseCalls.EnrollOutcome(s, b, pool, e, auth, replies, learner, id);
    case CompleteModule(verifier, learner, id) => CompleteAdds(w, auth, replies, verifier, learner, id, s', b', e');
    case ClaimCompletionReward(learner, id) => CourseCalls.ClaimOutcome(s, b, pool, e, auth, replies, learner, id);
  }

  lemma SplitQuiet(rewardPool: Address, e: Env, p: Payouts.Payout, learner: Address, q: u32, e': Env)
    requires QuestEngine.SplitEffect(rewardPool, e, p, learner, q) == Ok(e')
    ensures Quiet(e.events, e'.events)
  {
    hide QuestEngine.SplitEffect, QuestCalls.Splits;
    QuestCalls.SplitChanges(rewardPool, e, p, learner, q, e');
  }

  lemma ReviewQuiet(
    s: QuestEngine.Storage, vault: StakeVault.Storage, e: Env, auth: set<Address>, replies: Replies,
    employer: Address, learner: Address, q: u32, approve: bool)
    requires QuestEngine.ReviewEffect(s, vault, e, auth, replies, employer, learner, q, approve).Ok?
    ensures Quiet(e.events, QuestEngine.ReviewEffect(s, vault, e, auth, replies, employer, learner, q, approve).value.1.events)
  {
    hide QuestEngine.SplitEffect, QuestEngine.Quote;
    if approve {
      var w := s.wiring.value;
      var p := QuestEngine.Quote(w.stakeVault, vault, replies, s.quests[q].rewardAmount, learner).value;
      var e1 := QuestEngine.SplitEffect(w.rewardPool, e, p, learner, q).value;
      SplitQuiet(w.rewardPool, e, p, learner, q, e1);
    }
  }

  lemma {:induction false} ReviewEachQuiet(
    s: QuestEngine.Storage, vault: StakeVault.Storage, e: Env, auth: set<Address>, replies: Replies,
    employer: Address, q: u32, learners: seq<Address>)
    requires QuestReviews.ReviewEachEffect(s, vault, e, auth, replies, employer, q, learners).Ok?
    ensures Quiet(e.events, QuestReviews.ReviewEachEffect(s, vault, e, auth, replies, employer, q, learners).value.1.events)
    decreases |learners|
  {
    hide QuestEngine.ReviewEffect;
    if learners == [] {
    } else {
      hide Quiet;
      var (s1, e1) := QuestEngine.ReviewEffect(s, vault, e, auth, replies, employer, learners[0], q, true).value;
      ReviewQuiet(s, vault, e, auth, replies, employer, learners[0], q, true);
      ReviewEachQuiet(s1, vault, e1, auth, replies, employer, q, learners[1..]);
      var e2 := QuestReviews.ReviewEachEffect(s1, vault, e1, auth, replies, employer, q, learners[1..]).value.1;
      QuietTrans(e.events, e1.events, e2.events);
    }
  }

  lemma BatchQuiet(
    s: QuestEngine.Storage, vault: StakeVault.Storage, e: Env, auth: set<Address>, replies: Replies,
    employer: Address, q: u32, learners: QuestEngine.Learners)
    requires QuestEngine.BatchEffect(s, vault, e, auth, replies, employer, q, learners).Ok?
    ensures Quiet(e.events, QuestEngine.BatchEffect(s, vault, e, auth, replies, employer, q, learners).value.1.events)
  {
    hide QuestEngine.BatchEffect, QuestReviews.ReviewEachEffect;
    QuestReviews.BatchIsReviews(s, vault, e, auth, replies, employer, q, learners);
    ReviewEachQuiet(s, vault, e, auth, replies, employer, q, learners);
    var e1 := QuestReviews.ReviewEachEffect(s, vault, e, auth, replies, employer, q, learners).value.1;
    QuietList(e1.events, [BatchReviewed(employer, q, |learners|)]);
    QuietTrans(e.events, e1.events, e1.events + [BatchReviewed(employer, q, |learners|)]);
  }

  lemma EngineAdds(w: World, auth: Signers, replies: Replies, c: QuestEngine.Call, s': QuestEngine.Storage, e': Env)
    requires QuestEngine.Exec(w.engine, w.vault, w.pool, w.env, auth, replies, c) == Ok((s', e'))
    ensures Adds(w, ToEngine(c), w.env.events, e'.events)
  {
    var (s, v, pool, e) := (w.engine, w.vault, w.pool, w.env);
    match c
    case ReviewSubmission(employer, learner, q, approve) =>
      hide QuestEngine.ReviewEffect;
      ReviewQuiet(s, v, e, auth, replies, employer, learner, q, approve);
    case BatchReviewSubmissions(employer, q, learners) =>
      hide QuestEngine.BatchEffect;
      BatchQuiet(s, v, e, auth, replies, employer, q, learners);
    case _ =>
      hide QuestEngine.Exec;
      PlainEngineAdds(w, auth, replies, c, s', e');
  }

  lemma PlainEngineAdds(w: World, auth: Signers, replies: Replies, c: QuestEngine.Call, s': QuestEngine.Storage, e': Env)
    requires QuestEngine.Exec(w.engine, w.vault, w.pool, w.env, auth, replies, c) == Ok((s', e'))
    requires !c.ReviewSubmission? && !c.BatchReviewSubmissions?
    ensures Adds(w, ToEngine(c), w.env.events, e'.events)
  {
    var (s, v, pool, e) := (w.engine, w.vault, w.pool, w.env);
    hide QuestEngine.Exec, Moves, QuestCalls.RewardReady;
    match c
    case Initialize(admin, p, sv) => QuestCalls.InitializeOutcome(s, v, pool, e, auth, replies, admin, p, sv);
    case SetPause(admin, status) => QuestCalls.SetPauseOutcome(s, v, pool, e, auth, replies, admin, status);
    case SetRewardPoolAddress(admin, a) => QuestCalls.WiringOutcome(s, v, pool, e, auth, replies, admin, a);
    case SetStakeVaultAddress(admin, a) => QuestCalls.WiringOutcome(s, v, pool, e, auth, replies, admin, a);
    case CreateBuildQuest(employer, reward, hash) =>
      QuestCalls.CreateBuildOutcome(s, v, pool, e, auth, replies, employer, reward, hash);
    case CreateExploreQuest(admin, reward, hash) =>
      QuestCalls.CreateExploreOutcome(s, v, pool, e, auth, replies, admin, reward, hash);
    case SubmitProof(learner, q, hash) => QuestCalls.SubmitOutcome(s, v, pool, e, auth, replies, learner, q, hash);
    case RefundQuest(employer, q) => QuestCalls.RefundOutcome(s, v, pool, e, auth, replies, employer, q);
    case VerifyExploreQuest(admin, learner, q) =>
      QuestCalls.VerifyExploreOutcome(s, v, pool, e, auth, replies, admin, learner, q);
  }

  lemma RegistryStepAdds(w: World, auth: Signers, replies: Replies, c: CourseRegistry.Call, w': World)
    requires Platform.Exec(w, auth, replies, ToRegistry(c)) == Ok(w')
    ensures Adds(w, ToRegistry(c), w.env.events, w'.env.events)
  {
    hide Adds;
    RegistryAdds(w, auth, replies, c, w'.registry, w'.badges, w'.env);
  }

  lemma EngineStepAdds(w: World, auth: Signers, replies: Replies, c: QuestEngine.Call, w': World)
    requires Platform.Exec(w, auth, replies, ToEngine(c)) == Ok(w')
    ensures Adds(w, ToEngine(c), w.env.events, w'.env.events)
  {
    hide Adds;
    EngineAdds(w, auth, replies, c, w'.engine, w'.env);
  }

  /** Every transaction only adds to the log, and nothing weighty but its own announcements. */
  lemma ExecAdds(w: World, auth: Signers, replies: Replies, call: Call, w': World)
    requires Platform.Exec(w, auth, replies, call) == Ok(w')
    ensures Adds(w, call, w.env.events, w'.env.events)
  {
    hide Adds, Quiet, TokenEffect, RewardPool.Exec, StakeVault.Exec, BadgeNft.Exec, CourseRegistry.Exec;
    hide QuestEngine.Exec, Governance.Exec;
    match call
    case ToToken(from, to, amount) =>
      TokenAdds(w.env, auth, from, to, amount);
      QuietAdds(w, call, w.env.events, w'.env.events);
    case ToPool(c) => PoolAdds(w, auth, replies, c);
    case ToVault(c) =>
      VaultAdds(w, auth, c);
      QuietAdds(w, call, w.env.events, w'.env.events);
    case ToBadges(c) =>
      BadgesAdd(w, auth, c);
      QuietAdds(w, call, w.env.events, w'.env.events);
    case ToRegistry(c) => RegistryStepAdds(w, auth, replies, c, w');
    case ToEngine(c) => EngineStepAdds(w, auth, replies, c, w');
    case ToGovernance(c) =>
      GovernanceAdds(w, auth, replies, c);
      QuietAdds(w, call, w.env.events, w'.env.events);
  }

  // ---------------------------------------------------------------- courses and quests are as announced

  /**
   Every course was announced exactly once, under its id and with its length; and nothing
   else was announced as one.
   */
  ghost predicate CoursesAnnounced(s: CourseRegistry.Storage, log: seq<Event>) {
    && (forall i :: 0 <= i < |log| && log[i].CourseCreated? ==>
          log[i].courseId in s.courses && s.courses[log[i].courseId].totalModules == log[i].totalModules)
    && (forall c: u32 :: c in s.courses ==> exists i :: 0 <= i < |log| && log[i].CourseCreated? && log[i].courseId == c)
    && (forall i, j :: 0 <= i < j < |log| && log[i].CourseCreated? && log[j].CourseCreated? ==> log[i].courseId != log[j].courseId)
  }

  /** Likewise every quest, with its employer and reward. */
  ghost predicate QuestsAnnounced(s: QuestEngine.Storage, log: seq<Event>) {
    && (forall i :: 0 <= i < |log| && log[i].QuestCreated? ==>
          && log[i].questId in s.quests && s.quests[log[i].questId].employer == log[i].employer
          && s.quests[log[i].questId].rewardAmount == log[i].rewardAmount)
    && (forall q: u32 :: q in s.quests ==> exists i :: 0 <= i < |log| && log[i].QuestCreated? && log[i].questId == q)
    && (forall i, j :: 0 <= i < j < |log| && log[i].QuestCreated? && log[j].QuestCreated? ==> log[i].questId != log[j].questId)
  }

  /** No new announcement, no new course. */
  lemma CoursesStay(s: CourseRegistry.Storage, s': CourseRegistry.Storage, log: seq<Event>, log': seq<Event>)
    requires CoursesAnnounced(s, log) && s'.courses.Keys == s.courses.Keys
    requires forall c: u32 :: c in s.courses ==> s'.courses[c].totalModules == s.courses[c].totalModules
    requires |log| <= |log'| && log'[..|log|] == log
    requires forall i :: |log| <= i < |log'| ==> !log'[i].CourseCreated?
    ensures CoursesAnnounced(s', log')
  {
    forall i | 0 <= i < |log'| && log'[i].CourseCreated? ensures i < |log| && log'[i] == log[i] {
      assert i < |log| ==> log'[..|log|][i] == log'[i];
    }
    forall c: u32 | c in s'.courses ensures exists i :: 0 <= i < |log'| && log'[i].CourseCreated? && log'[i].courseId == c {
      var i :| 0 <= i < |log| && log[i].CourseCreated? && log[i].courseId == c;
      assert log'[..|log|][i] == log'[i];
    }
  }

  lemma CourseAdded(s: CourseRegistry.Storage, s': CourseRegistry.Storage, log: seq<Event>, ev: Event)
    requires CoursesAnnounced(s, log) && ev.CourseCreated? && ev.courseId !in s.courses
    requires s'.courses.Keys == s.courses.Keys + {ev.courseId} && s'.courses[ev.courseId].totalModules == ev.totalModules
    requires forall c: u32 :: c in s.courses ==> s'.courses[c].totalModules == s.courses[c].totalModules
    ensures CoursesAnnounced(s', log + [ev])
  {
    var log' := log + [ev];
    forall c: u32 | c in s'.courses ensures exists i :: 0 <= i < |log'| && log'[i].CourseCreated? && log'[i].courseId == c {
      if c == ev.courseId {
        assert log'[|log|] == ev;
      } else {
        var i :| 0 <= i < |log| && log[i].CourseCreated? && log[i].courseId == c;
        assert log'[i] == log[i];
      }
    }
  }

  lemma QuestsStay(s: QuestEngine.Storage, s': QuestEngine.Storage, log: seq<Event>, log': seq<Event>)
    requires QuestsAnnounced(s, log) && s'.quests.Keys == s.quests.Keys
    requires forall q: u32 :: q in s.quests ==>
      s'.quests[q].employer == s.quests[q].employer && s'.quests[q].rewardAmount == s.quests[q].rewardAmount
    requires |log| <= |log'| && log'[..|log|] == log
    requires forall i :: |log| <= i < |log'| ==> !log'[i].QuestCreated?
    ensures QuestsAnnounced(s', log')
  {
    forall i | 0 <= i < |log'| && log'[i].QuestCreated? ensures i < |log| && log'[i] == log[i] {
      assert i < |log| ==> log'[..|log|][i] == log'[i];
    }
    forall q: u32 | q in s'.quests ensures exists i :: 0 <= i < |log'| && log'[i].QuestCreated? && log'[i].questId == q {
      var i :| 0 <= i < |log| && log[i].QuestCreated? && log[i].questId == q;
      assert log'[..|log|][i] == log'[i];
    }
  }

  lemma QuestAdded(s: QuestEngine.Storage, s': QuestEngine.Storage, log: seq<Event>, quiet: seq<Event>, ev: Event)
    requires QuestsAnnounced(s, log) && ev.QuestCreated? && s.questCounter < U32_MAX && ev.questId == s.questCounter + 1
    requires ev.questId !in s.quests && (forall i :: 0 <= i < |quiet| ==> !quiet[i].QuestCreated?)
    requires ev.questId in s'.quests && s'.quests == s.quests[ev.questId := s'.quests[ev.questId]]
    requires s'.quests[ev.questId].employer == ev.employer && s'.quests[ev.questId].rewardAmount == ev.rewardAmount
    ensures QuestsAnnounced(s', log + quiet + [ev])
  {
    QuestsStay(s, s, log, log + quiet);
    var log1, log' := log + quiet, log + quiet + [ev];
    forall q: u32 | q in s'.quests ensures exists i :: 0 <= i < |log'| && log'[i].QuestCreated? && log'[i].questId == q {
      if q == ev.questId {
        assert log'[|log1|] == ev;
      } else {
        var i :| 0 <= i < |log1| && log1[i].QuestCreated? && log1[i].questId == q;
        assert log'[i] == log1[i];
      }
    }
  }

  lemma RegistryAnnounces(w: World, auth: Signers, replies: Replies, c: CourseRegistry.Call, w': World)
    requires CoursesAnnounced(w.registry, w.env.events) && CourseRewards.WellFormed(w.registry)
    requires Platform.Exec(w, auth, replies, ToRegistry(c)) == Ok(w')
    ensures CoursesAnnounced(w'.registry, w'.env.events)
  {
    hide CoursesAnnounced;
    if c.CreateCourse? {
      hide CourseRegistry.CreateCourseEffect;
      CourseCalls.CreateCourseOutcome(w.registry, w.badges, w.pool, w.env, auth, replies,
                                      c.admin, c.instructor, c.totalModules, c.metadataHash);
      var ev := CourseCreated(w.registry.courseCount + 1, c.instructor, c.totalModules);
      CourseAdded(w.registry, w'.registry, w.env.events, ev);
    } else {
      RegistryStepAdds(w, auth, replies, c, w');
      CatalogueStays(w, auth, replies, c, w');
      hide Platform.Exec;
      CoursesStay(w.registry, w'.registry, w.env.events, w'.env.events);
    }
  }

  lemma CatalogueStays(w: World, auth: Signers, replies: Replies, c: CourseRegistry.Call, w': World)
    requires Platform.Exec(w, auth, replies, ToRegistry(c)) == Ok(w') && !c.CreateCourse?
    ensures w'.registry.courses.Keys == w.registry.courses.Keys
    ensures forall k: u32 :: k in w.registry.courses ==>
      w'.registry.courses[k].totalModules == w.registry.courses[k].totalModules
  {
    hide CourseRegistry.MintAttempt, CourseRegistry.TryDistribute, CourseRegistry.FinishEffect, Publish;
    if c.CompleteModule? {
      CompletedStays(w, auth, replies, c, w');
    }
  }

  lemma CompletedStays(w: World, auth: Signers, replies: Replies, c: CourseRegistry.Call, w': World)
    requires Platform.Exec(w, auth, replies, ToRegistry(c)) == Ok(w') && c.CompleteModule?
    ensures w'.registry.courses == w.registry.courses
  {
    hide CourseCalls.Graduation;
    CourseCalls.CompleteChanges(w.registry, w.badges, w.pool, w.env, auth, replies, c.verifier, c.learner, c.id,
                                w'.registry, w'.badges, w'.env);
  }

  lemma EngineAnnounces(w: World, auth: Signers, replies: Replies, c: QuestEngine.Call, w': World)
    requires QuestsAnnounced(w.engine, w.env.events) && QuestEscrow.WellFormed(w.engine)
    requires Platform.Exec(w, auth, replies, ToEngine(c)) == Ok(w')
    ensures QuestsAnnounced(w'.engine, w'.env.events)
  {
    var (s, log, id) := (w.engine, w.env.events, w.engine.questCounter + 1);
    hide QuestsAnnounced, QuestEngine.CreateBuildEffect, QuestEngine.CreateExploreEffect;
    if c.CreateBuildQuest? {
      QuestCalls.CreateBuildOutcome(s, w.vault, w.pool, w.env, auth, replies, c.employer, c.rewardAmount, c.metadataHash);
      var (sent, ev) := (Transferred(c.employer, EngineId, c.rewardAmount), QuestCreated(c.employer, id, c.rewardAmount));
      assert log + [sent] + [ev] == log + [sent, ev];
      QuestAdded(s, w'.engine, log, [sent], ev);
    } else if c.CreateExploreQuest? {
      QuestCalls.CreateExploreOutcome(s, w.vault, w.pool, w.env, auth, replies, c.admin, c.rewardAmount, c.metadataHash);
      assert log + [] == log;
      QuestAdded(s, w'.engine, log, [], QuestCreated(c.admin, id, c.rewardAmount));
    } else {
      EngineStepAdds(w, auth, replies, c, w');
      QuestsKept(w, auth, replies, c, w');
      hide Platform.Exec;
      QuestsStay(s, w'.engine, log, w'.env.events);
    }
  }

  lemma QuestsKept(w: World, auth: Signers, replies: Replies, c: QuestEngine.Call, w': World)
    requires Platform.Exec(w, auth, replies, ToEngine(c)) == Ok(w') && !c.CreateBuildQuest? && !c.CreateExploreQuest?
    ensures w'.engine.quests.Keys == w.engine.quests.Keys
    ensures forall q: u32 :: q in w.engine.quests ==>
      && w'.engine.quests[q].employer == w.engine.quests[q].employer
      && w'.engine.quests[q].rewardAmount == w.engine.quests[q].rewardAmount
  {
    hide QuestEngine.ApproveAllEffect, QuestEngine.PayEffect, TransferEffect, Publish, RewardPool.DistributeRewardEffect;
  }

  ghost predicate Announced(w: World) {
    CoursesAnnounced(w.registry, w.env.events) && QuestsAnnounced(w.engine, w.env.events)
  }

  /** A call to another contract creates nothing here and announces nothing of the kind. */
  lemma OthersAnnounce(w: World, auth: Signers, replies: Replies, call: Call, w': World)
    requires Announced(w) && Platform.Exec(w, auth, replies, call) == Ok(w')
    ensures !call.ToRegistry? ==> CoursesAnnounced(w'.registry, w'.env.events)
    ensures !call.ToEngine? ==> QuestsAnnounced(w'.engine, w'.env.events)
  {
    hide Platform.Exec, CoursesAnnounced, QuestsAnnounced;
    ExecAdds(w, auth, replies, call, w');
    Untouched(w, auth, replies, call, w');
    if !call.ToRegistry? {
      CoursesStay(w.registry, w'.registry, w.env.events, w'.env.events);
    }
    if !call.ToEngine? {
      QuestsStay(w.engine, w'.engine, w.env.events, w'.env.events);
    }
  }

  lemma StepAnnounces(w: World, a: Action)
    requires Safe(w) && Announced(w)
    ensures Announced(Step(w, a))
  {
    hide CoursesAnnounced, QuestsAnnounced, Platform.Exec, CourseRewards.PaidOnce, QuestEscrow.Recorded, QuestEscrow.Books;
    hide StakeVault.Inv, Governance.Final;
    if a.Invoke? && Platform.Exec(w, a.auth, a.replies, a.call).Ok? {
      OthersAnnounce(w, a.auth, a.replies, a.call, Step(w, a));
      if a.call.ToRegistry? {
        RegistryAnnounces(w, a.auth, a.replies, a.call.registry, Step(w, a));
      }
      if a.call.ToEngine? {
        EngineAnnounces(w, a.auth, a.replies, a.call.engine, Step(w, a));
      }
    }
  }

  /**
   Over every run each stored course has been announced exactly once, with exactly the
   length it has, and each quest with exactly its employer and reward; and whatever was
   announced is stored.
   */
  lemma {:induction false} StoredAsAnnounced(w: World, actions: seq<Action>)
    requires Fresh(w)
    ensures Announced(Run(w, actions))
    decreases |actions|
  {
    if actions == [] {
    } else {
      hide Fresh, Safe, Step, Announced;
      var n := |actions| - 1;
      StoredAsAnnounced(w, actions[..n]);
      FreshSafe(w);
      RunSafe(w, actions[..n]);
      StepAnnounces(Run(w, actions[..n]), actions[n]);
    }
  }

  // ---------------------------------------------------------------- payments are signed for

  /** The meters of money the pool pays out. */
  predicate PaysOut(m: Meter) {
    m.ExplorePaid? || m.Swept? || m.CoursePaid?
  }

  /**
   Who can move them: the engine's admin the explore rewards, the pool's admin the sweeps,
   the registry's admin or the learner a course reward.
   */
  predicate Entitled(m: Meter, w: World, a: Action) {
    match m
    case ExplorePaid(_) => SignedBy(a, AdminOf(EnginePool, w))
    case Swept(_) => SignedBy(a, w.pool.admin)
    case CoursePaid(learner, _) => SignedBy(a, w.registry.admin) || SignedBy(a, Some(learner))
    case _ => false
  }

  lemma {:induction false} WeightlessTail(m: Meter, log: seq<Event>, log': seq<Event>)
    requires |log| <= |log'| && log'[..|log|] == log
    requires forall i :: |log| <= i < |log'| ==> Weight(m, log'[i]) == 0
    ensures Tally(m, log') == Tally(m, log)
    decreases |log'|
  {
    if |log'| == |log| {
      assert log' == log;
    } else {
      var most := log'[..|log'| - 1];
      assert most[..|log|] == log;
      WeightlessTail(m, log, most);
    }
  }

  lemma PermittedIsEntitled(m: Meter, w: World, auth: Signers, replies: Replies, call: Call, ev: Event)
    requires Platform.Exec(w, auth, replies, call).Ok? && PaysOut(m) && Permits(w, call, ev)
    ensures Weight(m, ev) == 0 || Entitled(m, w, Invoke(auth, replies, call))
  {
    hide QuestEngine.Exec, CourseRegistry.Exec, RewardPool.Exec;
    if Weight(m, ev) != 0 {
      match m
      case ExplorePaid(_) =>
        QuestCalls.VerifyExploreOutcome(w.engine, w.vault, w.pool, w.env, auth, replies, ev.admin, ev.learner, ev.questId);
      case Swept(_) => RewardPool.SweepExactly(w.pool, w.env, auth, ev.admin, ev.recoveryWallet);
      case CoursePaid(learner, id) =>
        if call.registry.CompleteModule? {
          CourseCalls.CompleteSucceeds(w.registry, w.badges, w.pool, w.env, auth, replies, call.registry.verifier, learner, id);
        } else {
          CourseCalls.ClaimOutcome(w.registry, w.badges, w.pool, w.env, auth, replies, learner, id);
        }
    }
  }

  lemma StepEntitled(m: Meter, w: World, a: Action)
    requires PaysOut(m) && Tally(m, Step(w, a).env.events) != Tally(m, w.env.events)
    ensures Entitled(m, w, a)
  {
    hide Platform.Exec, Tally, Entitled, Permits, Weight;
    if a.Invoke? && Platform.Exec(w, a.auth, a.replies, a.call).Ok? {
      var w' := Step(w, a);
      ExecAdds(w, a.auth, a.replies, a.call, w');
      if !Entitled(m, w, a) {
        forall i | |w.env.events| <= i < |w'.env.events| ensures Weight(m, w'.env.events[i]) == 0 {
          PermittedIsEntitled(m, w, a.auth, a.replies, a.call, w'.env.events[i]);
        }
        WeightlessTail(m, w.env.events, w'.env.events);
      }
    }
  }

  /** What a log says a meter has moved after some actions. */
  ghost function Moved(m: Meter, w: World, actions: seq<Action>): int {
    Tally(m, Run(w, actions).env.events)
  }

  lemma LastStepEntitled(m: Meter, w: World, actions: seq<Action>)
    requires actions != [] && PaysOut(m)
    requires Moved(m, w, actions) != Moved(m, w, actions[..|actions| - 1])
    ensures Entitled(m, Run(w, actions[..|actions| - 1]), actions[|actions| - 1])
  {
    hide Step, Tally, Entitled;
    StepEntitled(m, Run(w, actions[..|actions| - 1]), actions[|actions| - 1]);
  }

  /** Where a payment meter differs after a run, some step moved it, signed by somebody entitled to. */
  lemma {:induction false} PaymentsAreSigned(m: Meter, w: World, actions: seq<Action>) returns (i: nat)
    requires PaysOut(m) && Moved(m, w, actions) != Moved(m, w, [])
    ensures i < |actions| && Entitled(m, Run(w, actions[..i]), actions[i])
    ensures Moved(m, w, actions[..i + 1]) != Moved(m, w, actions[..i])
    decreases |actions|
  {
    hide Run, Moved, Entitled;
    if actions == [] {
      assert false;
    } else {
      var n := |actions| - 1;
      assert actions[..n + 1] == actions;
      if Moved(m, w, actions[..n]) != Moved(m, w, []) {
        i := PaymentsAreSigned(m, w, actions[..n]);
        assert actions[..n][..i] == actions[..i] && actions[..n][..i + 1] == actions[..i + 1];
      } else {
        i := n;
        LastStepEntitled(m, w, actions);
      }
    }
  }
}
