/** Rewards and badges over whole runs: when a finished course ends without them, and when not. */
module Graduation {
  import opened Outcomes
  import opened Soroban
  import opened Platform
  import opened Safety
  import opened Authority
  import opened Histories
  import RewardPool
  import StakeVault
  import BadgeNft
  import CourseRegistry
  import CourseRewards
  import CourseBadges
  import QuestEscrow
  import Governance

  /** The platform's badge contract has no admin but the registry. */
  predicate OwnAdmin(w: World) {
    CourseBadges.OwnAdmin(w.badges)
  }

  // ---------------------------------------------------------------- mishaps

  /** The two ways in which a finished course stays without what it earned. */
  datatype Mishap = RewardLost | BadgeMissed

  /** Whether a distribution by the registry would fail now. */
  predicate PoolRefuses(w: World, replies: Replies) {
    match w.registry.rewardPool
    case None => true
    case Some(pool) =>
      if pool == PoolId then !RewardPool.CanDistribute(w.pool, w.env, RegistryId, 100_000_000) else !replies.poolAccepts
  }

  /** A claim of a pending reward made while the distribution fails. */
  predicate RefusedClaim(w: World, a: Action, learner: Address, id: u32) {
    && a.Invoke? && a.call == ToRegistry(CourseRegistry.ClaimCompletionReward(learner, id))
    && learner in a.auth && (learner, id) in w.registry.pending
    && PoolRefuses(w, a.replies)
  }

  /** A transaction that finishes a course. */
  predicate Finishes(w: World, a: Action, learner: Address, id: u32) {
    && a.Invoke? && a.call.ToRegistry? && a.call.registry.CompleteModule?
    && a.call.registry.learner == learner && a.call.registry.id == id
    && id in w.registry.courses
    && CourseRegistry.Progress(w.registry, learner, id) + 1 == w.registry.courses[id].totalModules
    && Platform.Exec(w, a.auth, a.replies, a.call).Ok?
  }

  predicate Strikes(m: Mishap, w: World, a: Action, learner: Address, id: u32) {
    match m
    case RewardLost => RefusedClaim(w, a, learner, id) || (Finishes(w, a, learner, id) && w.registry.rewardPool.None?)
    case BadgeMissed => Finishes(w, a, learner, id) && w.registry.badgeNft != Some(BadgeId)
  }

  /** Whether a mishap struck a learner and course at some step of a run. */
  ghost predicate Struck(m: Mishap, w: World, actions: seq<Action>, learner: Address, id: u32) {
    exists i :: 0 <= i < |actions| && Strikes(m, Run(w, actions[..i]), actions[i], learner, id)
  }

  lemma StruckEarlierOrLast(m: Mishap, w: World, actions: seq<Action>, learner: Address, id: u32)
    requires actions != []
    ensures var most, last := actions[..|actions| - 1], actions[|actions| - 1];
      Struck(m, w, actions, learner, id) <==> Struck(m, w, most, learner, id) || Strikes(m, Run(w, most), last, learner, id)
  {
    hide Run, Strikes;
    var n := |actions| - 1;
    var most := actions[..n];
    if Struck(m, w, most, learner, id) {
      var i :| 0 <= i < n && Strikes(m, Run(w, most[..i]), most[i], learner, id);
      assert most[..i] == actions[..i];
      assert Strikes(m, Run(w, actions[..i]), actions[i], learner, id);
    }
    if Struck(m, w, actions, learner, id) {
      var i :| 0 <= i <= n && Strikes(m, Run(w, actions[..i]), actions[i], learner, id);
      if i < n {
        assert most[..i] == actions[..i];
        assert Strikes(m, Run(w, most[..i]), most[i], learner, id);
      }
    }
  }

  // ---------------------------------------------------------------- paid or pending

  lemma RefusalIsPanic(w: World, replies: Replies, learner: Address)
    ensures PoolRefuses(w, replies) <==>
      CourseRegistry.DistributeAttempt(w.registry.rewardPool, w.pool, w.env, replies, learner).Panic?
  {
  }

  lemma LossIsMishap(w: World, a: Action, learner: Address, id: u32)
    ensures StepLost(w, a, learner, id) == if Strikes(RewardLost, w, a, learner, id) then 1 else 0
  {
    if a.Invoke? && a.call.ToRegistry? {
      RefusalIsPanic(w, a.replies, learner);
      hide PoolRefuses, CourseRegistry.DistributeAttempt, CourseRegistry.CompleteModuleEffect;
    }
  }

  lemma {:induction false} LossesAreMishaps(w: World, actions: seq<Action>, learner: Address, id: u32)
    ensures RunLost(w, actions, learner, id) > 0 <==> Struck(RewardLost, w, actions, learner, id)
    decreases |actions|
  {
    if actions == [] {
    } else {
      hide Step, StepLost, Strikes;
      var n := |actions| - 1;
      LossesAreMishaps(w, actions[..n], learner, id);
      hide Struck;
      LossIsMishap(Run(w, actions[..n]), actions[n], learner, id);
      StruckEarlierOrLast(RewardLost, w, actions, learner, id);
    }
  }

  /**
   Over every run, a finished course is paid exactly once or still pending if and only
   if it was not finished while no pool was wired and the learner never claimed while
   the distribution failed.
   */
  lemma PaidOrPendingExactly(w: World, actions: seq<Action>, learner: Address, id: u32)
    requires Fresh(w) && CourseRegistry.Finished(Run(w, actions).registry, learner, id)
    ensures var w' := Run(w, actions);
      Tally(CoursePaid(learner, id), w'.env.events) == 1 || (learner, id) in w'.registry.pending <==>
      !Struck(RewardLost, w, actions, learner, id)
  {
    hide Run, Struck, Fresh, Tally, CourseRegistry.Finished;
    PaidPendingOrLost(w, actions, learner, id);
    LossesAreMishaps(w, actions, learner, id);
  }

  /** Where every course was finished with a pool wired, only a claim at the wrong moment can lose its reward. */
  lemma PaidOrPendingOncePooled(w: World, actions: seq<Action>, learner: Address, id: u32)
    requires Fresh(w) && CourseRegistry.Finished(Run(w, actions).registry, learner, id)
    requires forall i :: 0 <= i < |actions| && Finishes(Run(w, actions[..i]), actions[i], learner, id) ==>
      Run(w, actions[..i]).registry.rewardPool.Some?
    ensures var w' := Run(w, actions);
      Tally(CoursePaid(learner, id), w'.env.events) == 1 || (learner, id) in w'.registry.pending <==>
      !exists i :: 0 <= i < |actions| && RefusedClaim(Run(w, actions[..i]), actions[i], learner, id)
  {
    PaidOrPendingExactly(w, actions, learner, id);
    hide Run, Fresh, Tally, CourseRegistry.Finished, Finishes, RefusedClaim;
    if i :| 0 <= i < |actions| && RefusedClaim(Run(w, actions[..i]), actions[i], learner, id) {
      assert Strikes(RewardLost, Run(w, actions[..i]), actions[i], learner, id);
    }
  }

  /**
   In every state reached, and however often the pool was rewired, paused or swept, a
   claim by the learner of a pending reward with the platform's pool wired pays exactly
   100_000_000 if the pool is unpaused, initialised, lists the registry and holds that
   much, and otherwise loses the reward.
   */
  lemma ClaimInRun(w: World, actions: seq<Action>, auth: Signers, replies: Replies, learner: Address, id: u32)
    requires Fresh(w) && Run(w, actions).registry.rewardPool == Some(PoolId)
    requires learner in auth && (learner, id) in Run(w, actions).registry.pending
    ensures var w' := Run(w, actions);
      var r := CourseRegistry.ClaimEffect(w'.registry, w'.pool, w'.env, auth, replies, learner, id);
      && r.Ok? && (learner, id) !in r.value.0.pending
      && (if RewardPool.CanDistribute(w'.pool, w'.env, RegistryId, 100_000_000) then
            && BalanceOf(r.value.1, learner) == BalanceOf(w'.env, learner) + 100_000_000
            && Tally(CoursePaid(learner, id), r.value.1.events) == 1
          else
            r.value.1 == w'.env && Tally(CoursePaid(learner, id), w'.env.events) == 0)
  {
    FreshSafe(w);
    RunSafe(w, actions);
    hide Run, StakeVault.Inv, Governance.Final, QuestEscrow.Inv, CourseRewards.WellFormed, CourseRegistry.ClaimEffect, Tally;
    var w' := Run(w, actions);
    CourseRewards.ClaimExactly(w'.registry, w'.pool, w'.env, auth, replies, learner, id);
    assert 0 <= CourseRewards.Gap(w'.registry, w'.env.events, learner, id);
  }

  // ---------------------------------------------------------------- badges

  ghost predicate Earned(w: World) {
    CourseBadges.Earned(w.registry, w.badges)
  }

  lemma RegistryEarns(w: World, auth: Signers, replies: Replies, c: CourseRegistry.Call, w': World)
    requires Safe(w) && Earned(w) && Platform.Exec(w, auth, replies, ToRegistry(c)) == Ok(w')
    ensures CourseBadges.Kept(w.registry, w.badges, w'.registry, w'.badges, c)
  {
    hide CourseBadges.Earned, CourseBadges.Kept, CourseBadges.Grows, CourseRewards.PaidOnce;
    hide QuestEscrow.Inv, StakeVault.Inv, Governance.Final;
    CourseBadges.ExecKeeps(w.registry, w.badges, w.pool, w.env, auth, replies, c, w'.registry, w'.badges, w'.env);
  }

  /** Steps other than registry calls reach neither badges nor progress. */
  lemma OthersEarn(w: World, auth: Signers, replies: Replies, call: Call, w': World)
    requires Platform.Exec(w, auth, replies, call) == Ok(w') && !call.ToRegistry? && OwnAdmin(w')
    ensures w'.registry == w.registry && w'.badges.userBadges == w.badges.userBadges
  {
    if call.ToBadges? {
      hide BadgeNft.Exec;
      CourseBadges.DirectCallsKeep(w.badges, w.env, auth, call.badges);
    } else {
      Untouched(w, auth, replies, call, w');
    }
  }

  lemma StepEarns(w: World, a: Action, learner: Address, id: u32)
    requires Safe(w) && Earned(w) && OwnAdmin(Step(w, a))
    ensures Earned(Step(w, a))
    ensures CourseBadges.Missing(Step(w, a).registry, Step(w, a).badges, learner, id) <==>
      CourseBadges.Missing(w.registry, w.badges, learner, id) || Strikes(BadgeMissed, w, a, learner, id)
  {
    hide Safe, CourseBadges.OwnAdmin, CourseBadges.Earned, Platform.Exec;
    if a.Invoke? && Platform.Exec(w, a.auth, a.replies, a.call).Ok? {
      var w' := Step(w, a);
      if a.call.ToRegistry? {
        RegistryEarns(w, a.auth, a.replies, a.call.registry, w');
      } else {
        OthersEarn(w, a.auth, a.replies, a.call, w');
        SameVectors(w, w', learner, id);
      }
    } else {
      SameVectors(w, Step(w, a), learner, id);
    }
  }

  lemma SameVectors(w: World, w': World, learner: Address, id: u32)
    requires w'.registry == w.registry && w'.badges.userBadges == w.badges.userBadges
    ensures Earned(w) ==> Earned(w')
    ensures CourseBadges.Missing(w'.registry, w'.badges, learner, id) <==> CourseBadges.Missing(w.registry, w.badges, learner, id)
  {
    assert forall l :: BadgeNft.Badges(w'.badges, l) == BadgeNft.Badges(w.badges, l);
  }

  lemma AdminWasOwn(w: World, a: Action)
    requires OwnAdmin(Step(w, a))
    ensures OwnAdmin(w)
  {
    BadgeAdminStays(w, a);
  }

  lemma {:induction false} RunEarns(w: World, actions: seq<Action>, learner: Address, id: u32)
    requires Fresh(w) && OwnAdmin(Run(w, actions))
    ensures Safe(Run(w, actions)) && Earned(Run(w, actions))
    ensures var w' := Run(w, actions);
      CourseBadges.Missing(w'.registry, w'.badges, learner, id) <==> Struck(BadgeMissed, w, actions, learner, id)
    decreases |actions|
  {
    if actions == [] {
      FreshSafe(w);
    } else {
      hide Fresh, Safe, Step, Earned, OwnAdmin, Strikes, Struck, CourseBadges.Missing;
      var n := |actions| - 1;
      var w1 := Run(w, actions[..n]);
      AdminWasOwn(w1, actions[n]);
      RunEarns(w, actions[..n], learner, id);
      StepSafe(w1, actions[n]);
      StepEarns(w1, actions[n], learner, id);
      StruckEarlierOrLast(BadgeMissed, w, actions, learner, id);
    }
  }

  /**
   In every state of every run in which the badge contract has no other admin than the
   registry, a learner holds a badge exactly for each course finished while the
   registry minted there; so a finished course lacks one if and only if the platform's
   badge contract was not wired when it was finished.
   */
  lemma BadgeIffFinished(w: World, actions: seq<Action>, learner: Address, id: u32)
    requires Fresh(w) && OwnAdmin(Run(w, actions))
    ensures var w' := Run(w, actions);
      BadgeNft.HasBadge(w'.badges, learner, id) <==>
      CourseRegistry.Finished(w'.registry, learner, id) && !Struck(BadgeMissed, w, actions, learner, id)
  {
    RunEarns(w, actions, learner, id);
    hide Fresh, Safe, Run, Struck, OwnAdmin, BadgeNft.HasBadge, CourseRegistry.Finished;
  }

  /** In those states vectors never repeat a course, and badges never outnumber the finished courses, nor those all courses. */
  lemma CountIsFinished(w: World, actions: seq<Action>, learner: Address)
    requires Fresh(w) && OwnAdmin(Run(w, actions))
    ensures var w' := Run(w, actions);
      var count, finished := |BadgeNft.Badges(w'.badges, learner)|, |CourseBadges.FinishedCourses(w'.registry, learner)|;
      && BadgeNft.Distinct(BadgeNft.Badges(w'.badges, learner))
      && count <= finished <= w'.registry.courseCount
      && (count == finished <==> forall c: u32 :: !Struck(BadgeMissed, w, actions, learner, c))
  {
    hide Fresh, Run, OwnAdmin, Struck, StakeVault.Inv, QuestEscrow.Inv, Governance.Final, CourseRewards.PaidOnce;
    var w' := Run(w, actions);
    RunEarns(w, actions, learner, 0);
    forall c: u32
      ensures CourseBadges.Missing(w'.registry, w'.badges, learner, c) <==> Struck(BadgeMissed, w, actions, learner, c)
    {
      RunEarns(w, actions, learner, c);
    }
    hide CourseBadges.Missing;
    CourseBadges.CountIsFinished(w'.registry, w'.badges, learner);
  }

  /** Wherever the badge contract is wired, no mint can fail: `complete_module` succeeds exactly when its own checks do. */
  lemma CompletionNeverBlocked(
    w: World, actions: seq<Action>, auth: set<Address>, replies: Replies, verifier: Address, learner: Address, id: u32)
    requires Fresh(w) && CourseBadges.Wired(Run(w, actions).registry, Run(w, actions).badges)
    ensures var w' := Run(w, actions);
      CourseRegistry.CompleteModuleEffect(w'.registry, w'.badges, w'.pool, w'.env, auth, replies, verifier, learner, id).Ok? <==>
        && verifier in auth && w'.registry.admin == Some(verifier)
        && id in w'.registry.courses
        && CourseRegistry.Progress(w'.registry, learner, id) < w'.registry.courses[id].totalModules
  {
    RunEarns(w, actions, learner, id);
    hide Run, Safe, Fresh, Struck, CourseBadges.Earned, CourseBadges.Wired, CourseRegistry.CompleteModuleEffect;
    var w' := Run(w, actions);
    CourseBadges.CompleteExactly(w'.registry, w'.badges, w'.pool, w'.env, auth, replies, verifier, learner, id);
  }

  lemma StepGrows(w: World, a: Action)
    requires Safe(w) && Earned(w) && OwnAdmin(Step(w, a))
    ensures CourseBadges.Grows(w.badges, Step(w, a).badges)
  {
    hide Safe, CourseBadges.OwnAdmin, CourseBadges.Earned, Platform.Exec;
    if a.Invoke? && Platform.Exec(w, a.auth, a.replies, a.call).Ok? {
      if a.call.ToRegistry? {
        RegistryGrows(w, a.auth, a.replies, a.call.registry, Step(w, a));
      } else {
        OthersEarn(w, a.auth, a.replies, a.call, Step(w, a));
      }
    }
  }

  lemma RegistryGrows(w: World, auth: Signers, replies: Replies, c: CourseRegistry.Call, w': World)
    requires Safe(w) && Earned(w) && Platform.Exec(w, auth, replies, ToRegistry(c)) == Ok(w')
    ensures CourseBadges.Grows(w.badges, w'.badges)
  {
    hide CourseBadges.Earned, CourseBadges.Kept, CourseBadges.Grows, CourseRewards.PaidOnce;
    hide QuestEscrow.Inv, StakeVault.Inv, Governance.Final;
    CourseBadges.ExecKeeps(w.registry, w.badges, w.pool, w.env, auth, replies, c, w'.registry, w'.badges, w'.env);
  }

  /** No run takes a badge away: every earlier vector is a prefix of the later one. */
  lemma {:induction false} BadgesNeverRevoked(w: World, first: seq<Action>, second: seq<Action>, learner: Address)
    requires Fresh(w) && OwnAdmin(Run(w, first + second))
    ensures BadgeNft.Badges(Run(w, first).badges, learner) <= BadgeNft.Badges(Run(w, first + second).badges, learner)
    decreases |second|
  {
    if second == [] {
      assert first + second == first;
    } else {
      hide Fresh, Safe, Step, Earned, OwnAdmin, Struck, BadgeNft.Badges;
      var n := |second| - 1;
      var most := first + second[..n];
      assert (first + second)[..|first| + n] == most && (first + second)[|first| + n] == second[n];
      AdminWasOwn(Run(w, most), second[n]);
      BadgesNeverRevoked(w, first, second[..n], learner);
      RunEarns(w, most, learner, 0);
      StepGrows(Run(w, most), second[n]);
    }
  }
}
