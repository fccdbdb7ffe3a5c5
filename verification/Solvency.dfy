/** The escrow over whole runs: when it covers its obligations, and what batches do in reachable states. */
module Solvency {
  import opened Sums
  import opened Soroban
  import opened Platform
  import opened Safety
  import opened Histories
  import opened Payouts
  import StakeVault
  import CourseRewards
  import QuestEngine
  import QuestReviews
  import QuestEscrow
  import Governance

  /** The rewards the engine owes for Build quests nobody has been paid or refunded for. */
  ghost function Owed(w: World): int {
    Sum(QuestEscrow.Obligations(w.engine.quests, w.env.events))
  }

  /** What settlements beyond a quest's own lock have cost. */
  ghost function Overspent(w: World): int {
    Sum(QuestEscrow.Overdrawn(w.engine.quests, w.env.events))
  }

  /** Where every Build quest was settled at most once and no Explore quest refunded, every unsettled reward is covered. */
  lemma EscrowSolvent(w: World, actions: seq<Action>)
    requires Fresh(w)
    requires QuestEscrow.SettledOnce(Run(w, actions).engine, Run(w, actions).env.events)
    ensures Owed(Run(w, actions)) <= BalanceOf(Run(w, actions).env, EngineId)
  {
    FreshSafe(w);
    RunLater(w, actions);
    hide Run, CourseRewards.Inv, CourseRewards.Onward, QuestReviews.Onward, Governance.Onward, StakeVault.Inv;
    hide Governance.Final, QuestEscrow.Inv, QuestEscrow.SettledOnce;
    assert Opening(Run(w, actions).env, EngineId) == Opening(w.env, EngineId) == BalanceOf(w.env, EngineId);
    QuestEscrow.SettledOnceSolvent(Run(w, actions).engine, Run(w, actions).env);
  }

  /** So then is each single one. */
  lemma EachRewardCovered(w: World, actions: seq<Action>, q: u32)
    requires Fresh(w)
    requires QuestEscrow.SettledOnce(Run(w, actions).engine, Run(w, actions).env.events)
    requires q in Run(w, actions).engine.quests && QuestEscrow.LockUnspent(Run(w, actions).engine, Run(w, actions).env.events, q)
    ensures 0 <= Run(w, actions).engine.quests[q].rewardAmount <= BalanceOf(Run(w, actions).env, EngineId)
  {
    EscrowSolvent(w, actions);
    FreshSafe(w);
    RunSafe(w, actions);
    hide Run, Fresh, Tally, CourseRewards.Inv, StakeVault.Inv, Governance.Final;
    OneOfMany(Run(w, actions).engine, Run(w, actions).env, q);
  }

  lemma OneOfMany(s: QuestEngine.Storage, e: Env, q: u32)
    requires QuestEscrow.WellFormed(s) && q in s.quests && QuestEscrow.LockUnspent(s, e.events, q)
    ensures 0 <= s.quests[q].rewardAmount <= Sum(QuestEscrow.Obligations(s.quests, e.events))
  {
    hide Tally, Sum;
    var owed: map<u32, int> := QuestEscrow.Obligations(s.quests, e.events);
    assert owed[q] == s.quests[q].rewardAmount;
    SumSplit(owed, q);
    var others: map<u32, int> := owed - {q};
    forall k | k in others ensures 0 <= others[k] {
      assert others[k] == owed[k];
    }
    SumNonNegative(others);
    assert Sum(owed) == owed[q] + Sum(others);
  }

  /** A quest not settled yet can be refunded, never failing for funds. */
  lemma RefundNeverShort(w: World, actions: seq<Action>, auth: set<Address>, employer: Address, q: u32)
    requires Fresh(w)
    requires QuestEscrow.SettledOnce(Run(w, actions).engine, Run(w, actions).env.events)
    requires q in Run(w, actions).engine.quests && QuestEscrow.LockUnspent(Run(w, actions).engine, Run(w, actions).env.events, q)
    ensures var w' := Run(w, actions);
      QuestEngine.RefundEffect(w'.engine, w'.env, auth, employer, q).Ok? <==>
        employer in auth && w'.engine.quests[q].employer == employer && w'.engine.quests[q].active
  {
    hide Run, Fresh, Tally, CourseRewards.Inv, StakeVault.Inv, Governance.Final, QuestEscrow.Recorded, QuestEscrow.Books;
    hide QuestEscrow.LockUnspent, QuestEscrow.SettledOnce;
    EachRewardCovered(w, actions, q);
    FreshSafe(w);
    RunSafe(w, actions);
    RefundFits(Run(w, actions).engine, Run(w, actions).env, auth, employer, q);
  }

  lemma RefundFits(s: QuestEngine.Storage, e: Env, auth: set<Address>, employer: Address, q: u32)
    requires QuestEscrow.WellFormed(s) && q in s.quests && 0 <= s.quests[q].rewardAmount <= BalanceOf(e, EngineId)
    ensures QuestEngine.RefundEffect(s, e, auth, employer, q).Ok? <==>
      employer in auth && s.quests[q].employer == employer && s.quests[q].active
  {
  }

  /** Nor does its first approval, for any vault that answers and any multiplier that does not overflow. */
  lemma ApprovalNeverShort(
    w: World, actions: seq<Action>, auth: set<Address>, replies: Replies, employer: Address, learner: Address, q: u32)
    requires Fresh(w)
    requires QuestEscrow.SettledOnce(Run(w, actions).engine, Run(w, actions).env.events)
    requires q in Run(w, actions).engine.quests && QuestEscrow.LockUnspent(Run(w, actions).engine, Run(w, actions).env.events, q)
    ensures var w' := Run(w, actions);
      var s := w'.engine;
      QuestEngine.ReviewEffect(s, w'.vault, w'.env, auth, replies, employer, learner, q, true).Ok? <==>
        && !s.paused && employer in auth && s.quests[q].employer == employer
        && (learner, q) in s.submissions && s.submissions[(learner, q)].status.Pending?
        && s.wiring.Some?
        && QuestEngine.Quote(s.wiring.value.stakeVault, w'.vault, replies, s.quests[q].rewardAmount, learner).Ok?
  {
    EachRewardCovered(w, actions, q);
    hide Run, Fresh, Tally, QuestEscrow.LockUnspent, QuestEscrow.SettledOnce;
    ApprovalFits(Run(w, actions).engine, Run(w, actions).vault, Run(w, actions).env, auth, replies, employer, learner, q);
  }

  lemma ApprovalFits(
    s: QuestEngine.Storage, vault: StakeVault.Storage, e: Env, auth: set<Address>, replies: Replies,
    employer: Address, learner: Address, q: u32)
    requires q in s.quests && 0 <= s.quests[q].rewardAmount <= BalanceOf(e, EngineId)
    ensures QuestEngine.ReviewEffect(s, vault, e, auth, replies, employer, learner, q, true).Ok? <==>
      && !s.paused && employer in auth && s.quests[q].employer == employer
      && (learner, q) in s.submissions && s.submissions[(learner, q)].status.Pending?
      && s.wiring.Some?
      && QuestEngine.Quote(s.wiring.value.stakeVault, vault, replies, s.quests[q].rewardAmount, learner).Ok?
  {
    hide QuestEngine.SplitEffect;
    if s.wiring.Some? {
      var reward := s.quests[q].rewardAmount;
      var quote := QuestEngine.Quote(s.wiring.value.stakeVault, vault, replies, reward, learner);
      if quote.Ok? {
        PayoutNeverExceeds(reward, QuestEngine.MultiplierOf(s.wiring.value.stakeVault, vault, replies, learner).value);
        QuestReviews.SplitFits(s.wiring.value.rewardPool, e, quote.value, learner, q);
      }
    }
  }

  // ---------------------------------------------------------------- the exact balance

  /** What the payments of one step leave of their rewards. */
  function StepSaved(w: World, a: Action): int {
    if a.Invoke? && a.call.ToEngine? && Platform.Exec(w, a.auth, a.replies, a.call).Ok?
    then QuestEscrow.CallSaving(w.engine, w.vault, a.replies, a.call.engine)
    else 0
  }

  /** Over a run: for every approval, the reward less fee and learner amount. */
  function RunSaved(w: World, actions: seq<Action>): int {
    if actions == [] then 0 else
      var most, last := actions[..|actions| - 1], actions[|actions| - 1];
      RunSaved(w, most) + StepSaved(Run(w, most), last)
  }

  lemma StepSaves(w: World, a: Action)
    requires Safe(w)
    ensures QuestEscrow.Saved(Step(w, a).engine, Step(w, a).env.events) ==
            QuestEscrow.Saved(w.engine, w.env.events) + StepSaved(w, a)
  {
    hide Safe, Platform.Exec, QuestEscrow.Saved, QuestEscrow.CallSaving;
    if a.Invoke? && Platform.Exec(w, a.auth, a.replies, a.call).Ok? {
      EscrowStep(w, a.auth, a.replies, a.call, Step(w, a));
    }
  }

  lemma {:induction false} SavedOverRun(w: World, actions: seq<Action>)
    requires Safe(w)
    ensures QuestEscrow.Saved(Run(w, actions).engine, Run(w, actions).env.events) ==
            QuestEscrow.Saved(w.engine, w.env.events) + RunSaved(w, actions)
    decreases |actions|
  {
    hide Safe, Step, StepSaved, QuestEscrow.Saved;
    if actions == [] {
    } else {
      var n := |actions| - 1;
      SavedOverRun(w, actions[..n]);
      RunSafe(w, actions[..n]);
      StepSaves(Run(w, actions[..n]), actions[n]);
    }
  }

  lemma FreshBooks(w: World)
    requires Fresh(w)
    ensures Safe(w) && QuestEscrow.Saved(w.engine, w.env.events) == 0
    ensures Opening(w.env, EngineId) == BalanceOf(w.env, EngineId)
  {
    FreshSafe(w);
  }

  /**
   Over every run, for any vaults wired along it, the engine's balance is known to the
   last token: what it held at first, what it was given, what its payments saved, plus
   every unsettled reward, minus what settlements overspent. So the escrow covers what
   it owes exactly when the first three cover the last.
   */
  lemma EscrowExactly(w: World, actions: seq<Action>)
    requires Fresh(w)
    ensures var w' := Run(w, actions);
      var given := BalanceOf(w.env, EngineId) + QuestEscrow.Donations(w'.engine, w'.env);
      && 0 <= given && 0 <= RunSaved(w, actions)
      && BalanceOf(w'.env, EngineId) == given + RunSaved(w, actions) + Owed(w') - Overspent(w')
      && (Owed(w') <= BalanceOf(w'.env, EngineId) <==> Overspent(w') <= given + RunSaved(w, actions))
  {
    FreshBooks(w);
    SavedOverRun(w, actions);
    RunLater(w, actions);
    hide *;
    EscrowAtState(w, Run(w, actions));
  }

  lemma EscrowAtState(w: World, w': World)
    requires Safe(w') && Later(w, w') && Opening(w.env, EngineId) == BalanceOf(w.env, EngineId)
    ensures var given := BalanceOf(w.env, EngineId) + QuestEscrow.Donations(w'.engine, w'.env);
      var saved := QuestEscrow.Saved(w'.engine, w'.env.events);
      && 0 <= given && 0 <= saved
      && BalanceOf(w'.env, EngineId) == given + saved + Owed(w') - Overspent(w')
  {
    hide CourseRewards.Inv, CourseRewards.Onward, QuestReviews.Onward, Governance.Onward, StakeVault.Inv;
    hide Governance.Final, QuestEscrow.Inv, QuestEscrow.Donations, QuestEscrow.Saved, Sum, Tally;
    QuestEscrow.EscrowBalance(w'.engine, w'.env);
  }

  /** Nothing is saved while the platform's own vault is wired, whatever calls are rejected on the way. */
  lemma {:induction false} OwnVaultSavesNothing(w: World, actions: seq<Action>)
    requires Safe(w)
    requires forall i :: 0 <= i <= |actions| ==> QuestEscrow.OwnVault(Run(w, actions[..i]).engine)
    ensures RunSaved(w, actions) == 0
    decreases |actions|
  {
    hide Safe, Step, Run, StepSaved, QuestEscrow.OwnVault;
    if actions == [] {
    } else {
      var n := |actions| - 1;
      forall i | 0 <= i <= n ensures QuestEscrow.OwnVault(Run(w, actions[..n][..i]).engine) {
        assert actions[..n][..i] == actions[..i];
      }
      OwnVaultSavesNothing(w, actions[..n]);
      RunSafe(w, actions[..n]);
      StepSavesNothing(Run(w, actions[..n]), actions[n]);
    }
  }

  lemma StepSavesNothing(w: World, a: Action)
    requires Safe(w) && QuestEscrow.OwnVault(w.engine)
    ensures StepSaved(w, a) == 0
  {
    hide CourseRewards.Inv, StakeVault.Inv, Governance.Final, QuestEscrow.Recorded, QuestEscrow.Books;
    hide QuestEngine.Exec, QuestEscrow.CallSaving, QuestEscrow.OwnVault;
    if a.Invoke? && a.call.ToEngine? && Platform.Exec(w, a.auth, a.replies, a.call).Ok? {
      QuestEscrow.CallSavesNothing(w.engine, w.vault, w.pool, w.env, a.auth, a.replies, a.call.engine);
    }
  }

  /**
   In every reachable state with the platform's vault and pool wired, a batch of n for
   any existing quest succeeds exactly when the engine is unpaused, the employer signs
   and owns the quest, the learners are distinct and pending, the fee fits the amount
   type, and the escrow holds n rewards; it then moves n rewards out, n fees of them to
   the pool.
   */
  lemma BatchInRun(
    w: World, actions: seq<Action>, auth: Signers, replies: Replies,
    employer: Address, questId: u32, learners: QuestEngine.Learners)
    requires Fresh(w)
    requires var s := Run(w, actions).engine;
      && s.wiring.Some? && s.wiring.value.stakeVault == VaultId && s.wiring.value.rewardPool == PoolId
      && questId in s.quests
    ensures var w' := Run(w, actions);
      var r := QuestEngine.BatchEffect(w'.engine, w'.vault, w'.env, auth, replies, employer, questId, learners);
      var n, reward := |learners|, w'.engine.quests[questId].rewardAmount;
      && (r.Ok? <==>
            && !w'.engine.paused && employer in auth && w'.engine.quests[questId].employer == employer
            && QuestReviews.AllPending(w'.engine, questId, learners) && QuestReviews.PairwiseDistinct(learners)
            && (n > 0 ==> FitsI128(reward * 1500))
            && n * reward <= BalanceOf(w'.env, EngineId))
      && (r.Ok? ==>
            && BalanceOf(r.value.1, EngineId) == BalanceOf(w'.env, EngineId) - n * reward
            && BalanceOf(r.value.1, PoolId) == BalanceOf(w'.env, PoolId) + n * (reward * 1500 / 10_000))
  {
    FreshSafe(w);
    RunSafe(w, actions);
    hide Run, CourseRewards.Inv, StakeVault.Inv, Governance.Final, QuestEscrow.Recorded, QuestEscrow.Books;
    BatchAtState(Run(w, actions).engine, Run(w, actions).vault, Run(w, actions).env, auth, replies, employer, questId, learners);
  }

  lemma BatchAtState(
    s: QuestEngine.Storage, vault: StakeVault.Storage, e: Env, auth: Signers, replies: Replies,
    employer: Address, questId: u32, learners: QuestEngine.Learners)
    requires QuestEscrow.WellFormed(s)
    requires s.wiring.Some? && s.wiring.value.stakeVault == VaultId && s.wiring.value.rewardPool == PoolId
    requires questId in s.quests
    ensures var r := QuestEngine.BatchEffect(s, vault, e, auth, replies, employer, questId, learners);
      var n, reward := |learners|, s.quests[questId].rewardAmount;
      && (r.Ok? <==>
            && !s.paused && employer in auth && s.quests[questId].employer == employer
            && QuestReviews.AllPending(s, questId, learners) && QuestReviews.PairwiseDistinct(learners)
            && (n > 0 ==> FitsI128(reward * 1500))
            && n * reward <= BalanceOf(e, EngineId))
      && (r.Ok? ==>
            && BalanceOf(r.value.1, EngineId) == BalanceOf(e, EngineId) - n * reward
            && BalanceOf(r.value.1, PoolId) == BalanceOf(e, PoolId) + n * (reward * 1500 / 10_000))
  {
    if s.quests[questId].rewardAmount >= 0 {
      hide QuestEngine.BatchEffect;
      QuestReviews.BatchExactly(s, vault, e, auth, replies, employer, questId, learners);
      if QuestReviews.AllPending(s, questId, learners) {
        assert PoolId !in learners;
      }
    } else {
      ExploreHasNoBatch(s, vault, e, auth, replies, employer, questId, learners);
    }
  }

  /** An Explore quest has no submissions, so only the empty batch goes through. */
  lemma ExploreHasNoBatch(
    s: QuestEngine.Storage, vault: StakeVault.Storage, e: Env, auth: Signers, replies: Replies,
    employer: Address, questId: u32, learners: QuestEngine.Learners)
    requires QuestEscrow.WellFormed(s) && s.wiring.Some?
    requires questId in s.quests && s.quests[questId].questType.Explore?
    ensures QuestReviews.AllPending(s, questId, learners) ==> learners == []
    ensures var r := QuestEngine.BatchEffect(s, vault, e, auth, replies, employer, questId, learners);
      && (r.Ok? <==> !s.paused && employer in auth && s.quests[questId].employer == employer && learners == [])
      && (r.Ok? ==> r.value.1.balances == e.balances)
  {
    if learners != [] {
      assert (learners[0], questId) !in s.submissions;
    }
  }
}
