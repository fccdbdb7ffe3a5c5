/** Theorems about whole runs that need no assumption on wiring, and the order between earlier and later states. */
module Histories {
  import opened Outcomes
  import opened Sums
  import opened Soroban
  import opened Platform
  import opened Safety
  import RewardPool
  import StakeVault
  import BadgeNft
  import CourseRegistry
  import CourseRewards
  import QuestEngine
  import QuestReviews
  import QuestEscrow
  import Governance

  /** What is true of any state and any later one of the same run. */
  ghost predicate Later(w: World, w': World) {
    && w.env.now <= w'.env.now
    && Sum(w'.env.balances) == Sum(w.env.balances)
    && (forall a :: Opening(w'.env, a) == Opening(w.env, a))
    && (forall m: Meter :: !m.ExplorePaid? ==> Tally(m, w.env.events) <= Tally(m, w'.env.events))
    && CourseRewards.Onward(w.registry, w'.registry)
    && QuestReviews.Onward(w.engine, w'.engine)
    && Governance.Onward(w.governance, w'.governance)
  }

  lemma EngineOnward(w: World, auth: Signers, replies: Replies, c: QuestEngine.Call, w': World)
    requires Safe(w) && Platform.Exec(w, auth, replies, ToEngine(c)) == Ok(w')
    ensures QuestReviews.Onward(w.engine, w'.engine)
  {
    hide QuestReviews.Onward, QuestEngine.Exec, QuestEscrow.Recorded, QuestEscrow.Books, Governance.Final, StakeVault.Inv;
    QuestReviews.ExecOnward(w.engine, w.vault, w.pool, w.env, auth, replies, c);
  }

  lemma EngineLater(w: World, auth: Signers, replies: Replies, call: Call, w': World)
    requires Safe(w) && Platform.Exec(w, auth, replies, call) == Ok(w')
    ensures QuestReviews.Onward(w.engine, w'.engine)
  {
    hide Safe, Platform.Exec;
    if call.ToEngine? {
      EngineOnward(w, auth, replies, call.engine, w');
    } else {
      Untouched(w, auth, replies, call, w');
    }
  }

  lemma GovernanceLater(w: World, auth: Signers, replies: Replies, call: Call, w': World)
    requires Platform.Exec(w, auth, replies, call) == Ok(w')
    ensures Governance.Onward(w.governance, w'.governance)
  {
    if call.ToGovernance? {
      hide Governance.Exec, Governance.Onward;
      Governance.ExecOnward(w.governance, w.badges, w.env, auth, replies, call.governance);
    } else {
      hide Platform.Exec;
      Untouched(w, auth, replies, call, w');
    }
  }

  lemma StepLater(w: World, a: Action)
    requires Safe(w)
    ensures Later(w, Step(w, a))
  {
    hide Safe, Platform.Exec, Tally, Governance.Onward, QuestReviews.Onward, CourseRewards.Onward;
    match a
    case Advance(to) => SameLater(w, Step(w, a));
    case Invoke(auth, replies, call) =>
      var r := Platform.Exec(w, auth, replies, call);
      if r.Ok? {
        ExecFrame(w, auth, replies, call, r.value);
        RewardsStep(w, auth, replies, call, r.value);
        EngineLater(w, auth, replies, call, r.value);
        GovernanceLater(w, auth, replies, call, r.value);
      } else {
        SameLater(w, w);
      }
  }

  lemma SameLater(w: World, w': World)
    requires w' == w.(env := w.env.(now := w'.env.now)) && w.env.now <= w'.env.now
    ensures Later(w, w')
  {
  }

  lemma LaterTrans(w: World, w1: World, w2: World)
    requires Later(w, w1) && Later(w1, w2)
    ensures Later(w, w2)
  {
    hide Tally, Sum, Opening;
  }

  /** Every state of a run is safe and later than the first. */
  lemma {:induction false} RunLater(w: World, actions: seq<Action>)
    requires Safe(w)
    ensures Safe(Run(w, actions)) && Later(w, Run(w, actions))
    decreases |actions|
  {
    hide Safe, Step, Later;
    if actions == [] {
      SameLater(w, w);
    } else {
      var n := |actions| - 1;
      var w1 := Run(w, actions[..n]);
      RunLater(w, actions[..n]);
      StepSafe(w1, actions[n]);
      StepLater(w1, actions[n]);
      LaterTrans(w, w1, Step(w1, actions[n]));
    }
  }

  /** A run may be cut anywhere. */
  lemma {:induction false} RunSplit(w: World, first: seq<Action>, second: seq<Action>)
    ensures Run(w, first + second) == Run(Run(w, first), second)
    decreases |second|
  {
    hide Step;
    if second == [] {
      assert first + second == first;
    } else {
      var n := |second| - 1;
      assert (first + second)[..|first| + n] == first + second[..n];
      RunSplit(w, first, second[..n]);
    }
  }

  lemma OverTime(w: World, first: seq<Action>, second: seq<Action>)
    requires Fresh(w)
    ensures Safe(Run(w, first)) && Safe(Run(w, first + second))
    ensures Later(Run(w, first), Run(w, first + second))
  {
    hide Fresh, Run, Safe, Later;
    FreshSafe(w);
    RunSafe(w, first);
    RunLater(Run(w, first), second);
    RunSplit(w, first, second);
  }

  // ---------------------------------------------------------------- the ledger

  /** Supply is conserved, and every balance is what its owner started with plus what it received minus what it sent. */
  lemma LedgerOfRun(w: World, actions: seq<Action>)
    requires Fresh(w)
    ensures var w' := Run(w, actions);
      && Sum(w'.env.balances) == Sum(w.env.balances)
      && forall a :: BalanceOf(w'.env, a) ==
           BalanceOf(w.env, a) + Tally(Received(a), w'.env.events) - Tally(Sent(a), w'.env.events)
  {
    hide Safe, Run, CourseRewards.Onward, QuestReviews.Onward, Governance.Onward, Sum;
    FreshSafe(w);
    RunLater(w, actions);
    forall a ensures Opening(w.env, a) == BalanceOf(w.env, a) {
    }
  }

  // ---------------------------------------------------------------- the stake vault

  /** Whatever else happens, the vault covers every stake, and after the lock an unstake only needs its owner's signature. */
  lemma VaultAlwaysPays(w: World, actions: seq<Action>, auth: set<Address>, user: Address)
    requires Fresh(w)
    ensures var w' := Run(w, actions);
      && Sum(StakeVault.Amounts(w'.vault.stakes)) <= BalanceOf(w'.env, VaultId)
      && (StakeVault.UnstakeEffect(w'.vault, w'.env, auth, user).Ok? <==>
            && user in auth && user in w'.vault.stakes
            && w'.vault.stakes[user].lockTimestamp + 604800 <= w'.env.now)
  {
    FreshSafe(w);
    RunLater(w, actions);
    hide Later, Run, CourseRewards.Inv, QuestEscrow.Inv, Governance.Final;
    var w' := Run(w, actions);
    StakeVault.UnstakeExactly(w'.vault, w'.env, auth, user);
  }

  /** An unstake pays the stakes since the previous one, each at least a week old, and nobody else's. */
  lemma UnstakeReturnsDeposits(w: World, actions: seq<Action>, auth: Signers, user: Address)
    requires Fresh(w)
    requires StakeVault.UnstakeEffect(Run(w, actions).vault, Run(w, actions).env, auth, user).Ok?
    ensures var w' := Run(w, actions);
      var (s', e') := StakeVault.UnstakeEffect(w'.vault, w'.env, auth, user).value;
      var open := OpenDeposits(w'.env.events, user);
      && open != []
      && BalanceOf(e', user) == BalanceOf(w'.env, user) + StakeVault.Total(open)
      && BalanceOf(e', VaultId) == BalanceOf(w'.env, VaultId) - StakeVault.Total(open)
      && (forall i :: 0 <= i < |open| ==> w'.env.now - open[i].time >= 604800)
      && user !in s'.stakes && OpenDeposits(e'.events, user) == []
  {
    FreshSafe(w);
    RunLater(w, actions);
    hide Later, Run, CourseRewards.Inv, QuestEscrow.Inv, Governance.Final;
    var w' := Run(w, actions);
    StakeVault.UnstakePays(w'.vault, w'.env, auth, user);
  }

  /** The footprint the pool reports is the number of its approved spenders. */
  lemma FootprintOfRun(w: World, actions: seq<Action>)
    requires Fresh(w)
    ensures Run(w, actions).pool.spenderCount == |Run(w, actions).pool.spenders|
  {
    FreshSafe(w);
    RunSafe(w, actions);
  }

  // ---------------------------------------------------------------- course rewards

  /** The rewards one step loses for a learner and course. */
  function StepLost(w: World, a: Action, learner: Address, id: u32): nat {
    if a.Invoke? && a.call.ToRegistry? && Platform.Exec(w, a.auth, a.replies, a.call).Ok?
    then CourseRewards.Lost(w.registry, w.pool, w.env, a.replies, a.call.registry, learner, id)
    else 0
  }

  /** Over a run: completions without a pool, and claims the pool refused. */
  function RunLost(w: World, actions: seq<Action>, learner: Address, id: u32): nat {
    if actions == [] then 0 else
      var most, last := actions[..|actions| - 1], actions[|actions| - 1];
      RunLost(w, most, learner, id) + StepLost(Run(w, most), last, learner, id)
  }

  lemma RegistryLost(w: World, auth: Signers, replies: Replies, c: CourseRegistry.Call, w': World, learner: Address, id: u32)
    requires Safe(w) && Platform.Exec(w, auth, replies, ToRegistry(c)) == Ok(w')
    ensures CourseRewards.Gap(w'.registry, w'.env.events, learner, id) ==
            CourseRewards.Gap(w.registry, w.env.events, learner, id)
            + CourseRewards.Lost(w.registry, w.pool, w.env, replies, c, learner, id)
  {
    hide Frame, CourseRewards.Inv, CourseRewards.Onward, CourseRewards.Gap, CourseRewards.Lost;
    hide QuestEscrow.Inv, StakeVault.Inv, Governance.Final;
    CourseRewards.ExecKeeps(w.registry, w.badges, w.pool, w.env, auth, replies, c, w'.registry, w'.badges, w'.env);
  }

  lemma ForeignLost(w: World, auth: Signers, replies: Replies, call: Call, w': World, learner: Address, id: u32)
    requires Safe(w) && Platform.Exec(w, auth, replies, call) == Ok(w') && !call.ToRegistry?
    ensures CourseRewards.Gap(w'.registry, w'.env.events, learner, id) == CourseRewards.Gap(w.registry, w.env.events, learner, id)
  {
    ExecFrame(w, auth, replies, call, w');
    Untouched(w, auth, replies, call, w');
    hide Platform.Exec, Frame, CourseRewards.Inv, CourseRewards.Gap, QuestEscrow.Inv, StakeVault.Inv, Governance.Final;
    CourseRewards.OthersKeep(w.registry, w.env, w'.env, Actors(auth, call));
  }

  lemma StepAccounts(w: World, a: Action, learner: Address, id: u32)
    requires Safe(w)
    ensures var w' := Step(w, a);
      CourseRewards.Gap(w'.registry, w'.env.events, learner, id) ==
      CourseRewards.Gap(w.registry, w.env.events, learner, id) + StepLost(w, a, learner, id)
  {
    hide Safe, Platform.Exec, CourseRewards.Gap, CourseRewards.Lost;
    if a.Invoke? {
      var r := Platform.Exec(w, a.auth, a.replies, a.call);
      if r.Ok? {
        if a.call.ToRegistry? {
          RegistryLost(w, a.auth, a.replies, a.call.registry, r.value, learner, id);
        } else {
          ForeignLost(w, a.auth, a.replies, a.call, r.value, learner, id);
        }
      }
    }
  }

  lemma {:induction false} RunAccounts(w: World, actions: seq<Action>, learner: Address, id: u32)
    requires Safe(w)
    ensures var w' := Run(w, actions);
      CourseRewards.Gap(w'.registry, w'.env.events, learner, id) ==
      CourseRewards.Gap(w.registry, w.env.events, learner, id) + RunLost(w, actions, learner, id)
    decreases |actions|
  {
    hide Safe, Step, CourseRewards.Gap, StepLost;
    if actions == [] {
    } else {
      var n := |actions| - 1;
      RunAccounts(w, actions[..n], learner, id);
      RunSafe(w, actions[..n]);
      StepAccounts(Run(w, actions[..n]), actions[n], learner, id);
    }
  }

  /**
   Over every run, a finished course has been paid once, or its reward is pending, or
   it was lost by a completion without a pool or by a claim the pool refused: exactly
   one of the three. Before the last module it is none of them.
   */
  lemma PaidPendingOrLost(w: World, actions: seq<Action>, learner: Address, id: u32)
    requires Fresh(w)
    ensures var w' := Run(w, actions);
      Tally(CoursePaid(learner, id), w'.env.events)
      + (if (learner, id) in w'.registry.pending then 1 else 0)
      + RunLost(w, actions, learner, id)
      == (if CourseRegistry.Finished(w'.registry, learner, id) then 1 else 0)
  {
    FreshSafe(w);
    RunAccounts(w, actions, learner, id);
  }

  /** A reward once lost is never paid: whatever follows, the learner and course see neither payment nor record. */
  lemma LostForGood(w: World, first: seq<Action>, second: seq<Action>, learner: Address, id: u32)
    requires Fresh(w) && RunLost(w, first, learner, id) > 0
    ensures var w' := Run(w, first + second);
      Tally(CoursePaid(learner, id), w'.env.events) == 0 && (learner, id) !in w'.registry.pending
  {
    FreshSafe(w);
    PaidPendingOrLost(w, first, learner, id);
    RunSplit(w, first, second);
    var w1 := Run(w, first);
    RunSafe(w, first);
    RunAccounts(w1, second, learner, id);
    RunSafe(w1, second);
    assert 0 <= CourseRewards.Gap(Run(w1, second).registry, Run(w1, second).env.events, learner, id);
  }

  /** A course keeps its positive length; progress in it never goes back and never passes it. */
  lemma ProgressNeverResets(w: World, first: seq<Action>, second: seq<Action>, learner: Address, id: u32)
    requires Fresh(w) && id in Run(w, first).registry.courses
    ensures var s1, s2 := Run(w, first).registry, Run(w, first + second).registry;
      && id in s2.courses
      && 0 < s1.courses[id].totalModules == s2.courses[id].totalModules
      && CourseRegistry.Progress(s1, learner, id) <= CourseRegistry.Progress(s2, learner, id) <= s2.courses[id].totalModules
  {
    OverTime(w, first, second);
    hide Fresh, Run, QuestReviews.Onward, Governance.Onward;
    hide QuestEscrow.Inv, StakeVault.Inv, Governance.Final, CourseRewards.PaidOnce;
  }

  // ---------------------------------------------------------------- quests

  /** A decided submission never changes again, and a quest keeps its employer, type and reward. */
  lemma DecisionsStand(w: World, first: seq<Action>, second: seq<Action>, learner: Address, questId: u32)
    requires Fresh(w) && (learner, questId) in Run(w, first).engine.submissions
    ensures var s1, s2 := Run(w, first).engine, Run(w, first + second).engine;
      var key := (learner, questId);
      && key in s2.submissions && questId in s1.quests && questId in s2.quests
      && (s1.submissions[key].status.Pending? || s2.submissions[key] == s1.submissions[key])
      && s2.submissions[key].proofHash == s1.submissions[key].proofHash
      && s2.quests[questId].employer == s1.quests[questId].employer
      && s2.quests[questId].rewardAmount == s1.quests[questId].rewardAmount
      && s2.quests[questId].questType == s1.quests[questId].questType
  {
    OverTime(w, first, second);
    hide Fresh, Run, CourseRewards.Onward, Governance.Onward, StakeVault.Inv, Governance.Final, CourseRewards.Inv;
    hide QuestEscrow.Recorded, QuestEscrow.Books;
  }

  /** Once refunded, a quest takes neither a submission nor a second refund, ever. */
  lemma RefundIsFinal(
    w: World, first: seq<Action>, second: seq<Action>, auth: set<Address>, employer: Address, questId: u32,
    learner: Address, hash: Hash)
    requires Fresh(w)
    requires questId in Run(w, first).engine.quests && !Run(w, first).engine.quests[questId].active
    ensures var w2 := Run(w, first + second);
      && QuestEngine.RefundEffect(w2.engine, w2.env, auth, employer, questId).Panic?
      && QuestEngine.SubmitProofEffect(w2.engine, w2.env, auth, learner, questId, hash).Panic?
  {
    hide Fresh, Safe, Run, CourseRewards.Onward, Governance.Onward, QuestReviews.Onward;
    OverTime(w, first, second);
    var w2 := Run(w, first + second);
    InactiveRefuses(Run(w, first).engine, w2.engine, w2.env, auth, employer, questId, learner, hash);
  }

  lemma InactiveRefuses(
    s1: QuestEngine.Storage, s2: QuestEngine.Storage, e: Env, auth: set<Address>, employer: Address, questId: u32,
    learner: Address, hash: Hash)
    requires QuestReviews.Onward(s1, s2) && questId in s1.quests && !s1.quests[questId].active
    ensures QuestEngine.RefundEffect(s2, e, auth, employer, questId).Panic?
    ensures QuestEngine.SubmitProofEffect(s2, e, auth, learner, questId, hash).Panic?
  {
  }

  /** Quest and course ids are exactly 1 up to their counters. */
  lemma IdsAreDense(w: World, actions: seq<Action>)
    requires Fresh(w)
    ensures var w' := Run(w, actions);
      && (forall q: u32 :: q in w'.engine.quests <==> 1 <= q <= w'.engine.questCounter)
      && (forall c: u32 :: c in w'.registry.courses <==> 1 <= c <= w'.registry.courseCount)
  {
    FreshSafe(w);
    RunSafe(w, actions);
    hide Run, StakeVault.Inv, Governance.Final, QuestEscrow.Recorded, QuestEscrow.Books, CourseRewards.PaidOnce;
  }

  /** Each submission is reviewed at most once by any mix of single and batch reviews, and its status says how. */
  lemma ReviewedOnce(w: World, actions: seq<Action>, learner: Address, questId: u32)
    requires Fresh(w)
    ensures var w' := Run(w, actions);
      var submitted := (learner, questId) in w'.engine.submissions;
      var reviews, approvals := Tally(Reviews(learner, questId), w'.env.events), Tally(Approvals(learner, questId), w'.env.events);
      && approvals <= reviews <= 1
      && (submitted ==>
            && 1 <= questId <= w'.engine.questCounter
            && questId in w'.engine.quests && w'.engine.quests[questId].questType.Build?
            && w'.engine.submissions[(learner, questId)].status ==
                 if reviews == 0 then QuestEngine.Pending
                 else if approvals == 1 then QuestEngine.Approved
                 else QuestEngine.Rejected)
      && (!submitted ==> reviews == 0)
  {
    FreshSafe(w);
    RunSafe(w, actions);
    hide Run, CourseRewards.Inv, StakeVault.Inv, Governance.Final, Tally, QuestEscrow.Books;
    var w' := Run(w, actions);
    assert Tally(Reviews(learner, questId), w'.env.events) == QuestEscrow.Reviewed(w'.engine, learner, questId);
    assert Tally(Approvals(learner, questId), w'.env.events) == QuestEscrow.WasApproved(w'.engine, learner, questId);
  }

  // ---------------------------------------------------------------- governance

  /** A proposal is executed or cancelled at most once altogether, and is locked exactly from then on. */
  lemma ClosedOnce(w: World, actions: seq<Action>, p: u32)
    requires Fresh(w)
    ensures var w' := Run(w, actions);
      Tally(Executions(p), w'.env.events) + Tally(Cancellations(p), w'.env.events)
      == (if p in w'.governance.proposals && w'.governance.proposals[p].executed then 1 else 0)
  {
    FreshSafe(w);
    RunSafe(w, actions);
    hide Run, CourseRewards.Inv, StakeVault.Inv, QuestEscrow.Inv, Tally;
    assert Governance.Closings(p, Run(w, actions).env.events) >= 0;
  }

  /** A locked proposal stays locked, votes or not: it can never be executed or cancelled again. */
  lemma LockedForever(
    w: World, first: seq<Action>, second: seq<Action>, auth: set<Address>, caller: Address, p: u32)
    requires Fresh(w)
    requires p in Run(w, first).governance.proposals && Run(w, first).governance.proposals[p].executed
    ensures var w2 := Run(w, first + second);
      && p in w2.governance.proposals && w2.governance.proposals[p].executed
      && Governance.ExecuteEffect(w2.governance, w2.env, p).Panic?
      && Governance.CancelEffect(w2.governance, w2.env, auth, caller, p).Panic?
  {
    hide Fresh, Safe, Run, CourseRewards.Onward, QuestReviews.Onward;
    OverTime(w, first, second);
  }

  /** The state just before a proposal's execution. */
  ghost predicate Ripe(w: World, p: u32) {
    && p in w.governance.proposals
    && w.env.now > w.governance.proposals[p].endTime
    && w.governance.proposals[p].votesFor > w.governance.proposals[p].votesAgainst
    && !w.governance.proposals[p].executed
  }

  lemma StepRipe(w: World, a: Action, p: u32)
    requires Safe(w) && Tally(Executions(p), Step(w, a).env.events) > Tally(Executions(p), w.env.events)
    ensures Ripe(w, p)
  {
    hide Safe, Tally, TokenEffect, RewardPool.Exec, StakeVault.Exec, BadgeNft.Exec;
    hide CourseRegistry.Exec, QuestEngine.Exec, Governance.Exec;
    var auth, replies, call := a.auth, a.replies, a.call;
    var w' := Platform.Exec(w, auth, replies, call).value;
    ExecFrame(w, auth, replies, call, w');
    if call.ToGovernance? {
      Governance.ExecutionJustified(w.governance, w.badges, w.env, auth, replies, call.governance, p);
    } else {
      assert false;
    }
  }

  /** Every executed proposal was executed after its end with strictly more votes for than against. */
  lemma {:induction false} ExecutedWasRipe(w: World, actions: seq<Action>, p: u32) returns (i: nat)
    requires Fresh(w) && Tally(Executions(p), Run(w, actions).env.events) > 0
    ensures i < |actions| && Ripe(Run(w, actions[..i]), p)
    ensures Tally(Executions(p), Run(w, actions[..i]).env.events) == 0
    ensures Tally(Executions(p), Run(w, actions[..i + 1]).env.events) == 1
    decreases |actions|
  {
    hide Step, Ripe;
    var n := |actions| - 1;
    FreshSafe(w);
    if Tally(Executions(p), Run(w, actions[..n]).env.events) > 0 {
      i := ExecutedWasRipe(w, actions[..n], p);
      assert actions[..n][..i] == actions[..i] && actions[..n][..i + 1] == actions[..i + 1];
    } else {
      i := n;
      RunSafe(w, actions[..n]);
      StepRipe(Run(w, actions[..n]), actions[n], p);
      ClosedOnce(w, actions, p);
      assert actions[..n + 1] == actions;
    }
  }

  /** The state just before a proposal's cancellation. */
  ghost predicate StillOpen(w: World, p: u32) {
    && p in w.governance.proposals
    && w.env.now < w.governance.proposals[p].endTime
    && !w.governance.proposals[p].executed
  }

  lemma StepStillOpen(w: World, a: Action, p: u32)
    requires Safe(w) && Tally(Cancellations(p), Step(w, a).env.events) > Tally(Cancellations(p), w.env.events)
    ensures StillOpen(w, p)
  {
    hide Safe, Tally, TokenEffect, RewardPool.Exec, StakeVault.Exec, BadgeNft.Exec;
    hide CourseRegistry.Exec, QuestEngine.Exec, Governance.Exec;
    var auth, replies, call := a.auth, a.replies, a.call;
    var w' := Platform.Exec(w, auth, replies, call).value;
    ExecFrame(w, auth, replies, call, w');
    if call.ToGovernance? {
      Governance.CancellationJustified(w.governance, w.badges, w.env, auth, replies, call.governance, p);
    } else {
      assert false;
    }
  }

  /** Every cancelled proposal was cancelled before its end. */
  lemma {:induction false} CancelledWasOpen(w: World, actions: seq<Action>, p: u32) returns (i: nat)
    requires Fresh(w) && Tally(Cancellations(p), Run(w, actions).env.events) > 0
    ensures i < |actions| && StillOpen(Run(w, actions[..i]), p)
    ensures Tally(Cancellations(p), Run(w, actions[..i]).env.events) == 0
    ensures Tally(Cancellations(p), Run(w, actions[..i + 1]).env.events) == 1
    decreases |actions|
  {
    hide Step, StillOpen;
    var n := |actions| - 1;
    FreshSafe(w);
    if Tally(Cancellations(p), Run(w, actions[..n]).env.events) > 0 {
      i := CancelledWasOpen(w, actions[..n], p);
      assert actions[..n][..i] == actions[..i] && actions[..n][..i + 1] == actions[..i + 1];
    } else {
      i := n;
      RunSafe(w, actions[..n]);
      StepStillOpen(Run(w, actions[..n]), actions[n], p);
      ClosedOnce(w, actions, p);
      assert actions[..n + 1] == actions;
    }
  }
}
