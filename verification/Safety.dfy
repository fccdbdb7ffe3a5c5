/** What every step of the whole platform keeps, whoever signs and however the contracts are wired. */
module Safety {
  import opened Outcomes
  import opened Soroban
  import opened Platform
  import RewardPool
  import StakeVault
  import BadgeNft
  import CourseRegistry
  import CourseRewards
  import QuestEngine
  import QuestEscrow
  import Governance

  /** The parties a transaction can make act: its signers and the contract it calls, with the contracts that one calls. */
  function Actors(auth: set<Address>, call: Call): set<Address> {
    match call
    case ToToken(_, _, _) => auth
    case ToPool(_) => auth + {PoolId}
    case ToVault(_) => auth + {VaultId}
    case ToBadges(_) => {BadgeId}
    case ToRegistry(_) => CourseRewards.ACTORS
    case ToEngine(_) => auth + {EngineId, PoolId}
    case ToGovernance(_) => {GovernanceId}
  }

  ghost predicate Safe(w: World) {
    && RewardPool.CountsSpenders(w.pool)
    && StakeVault.Inv(w.vault, w.env)
    && CourseRewards.Inv(w.registry, w.env.events)
    && QuestEscrow.Inv(w.engine, w.env.events)
    && Governance.Final(w.governance, w.env.events)
  }

  lemma FreshSafe(w: World)
    requires Fresh(w)
    ensures Safe(w)
  {
  }

  // ---------------------------------------------------------------- frames

  /** Anybody can send what they hold, and only they; nothing else changes. */
  lemma TokenOutcome(w: World, auth: Signers, replies: Replies, from: Address, to: Address, amount: i128)
    ensures var r := Platform.Exec(w, auth, replies, ToToken(from, to, amount));
      && (r.Ok? <==> from in auth && 0 <= amount <= BalanceOf(w.env, from))
      && (r.Ok? ==>
            && r.value == w.(env := r.value.env) && Moves(w.env, r.value.env, from, to, amount)
            && r.value.env.events == w.env.events + [Transferred(from, to, amount)])
  {
    TransferOutcome(w.env, from, to, amount);
  }

  lemma TokenFrame(e: Env, auth: set<Address>, from: Address, to: Address, amount: int, e': Env)
    requires TokenEffect(e, auth, from, to, amount) == Ok(e')
    ensures Frame(e, e', auth)
  {
    Transfers(e, from, to, amount, auth);
  }

  /** Every transaction conserves the supply, keeps the balance sheet, and moves only its actors' meters. */
  lemma ExecFrame(w: World, auth: Signers, replies: Replies, call: Call, w': World)
    requires Safe(w) && Platform.Exec(w, auth, replies, call) == Ok(w')
    ensures Frame(w.env, w'.env, Actors(auth, call))
  {
    hide Frame, Safe;
    match call
    case ToToken(from, to, amount) => TokenFrame(w.env, auth, from, to, amount, w'.env);
    case ToPool(c) => RewardPool.ExecFrame(w.pool, w.env, auth, c);
    case ToVault(c) => StakeVault.ExecFrame(w.vault, w.env, auth, c);
    case ToBadges(c) => BadgeNft.ExecFrame(w.badges, w.env, auth, c, {BadgeId});
    case ToRegistry(c) => RegistryStep(w, auth, replies, c, w');
    case ToEngine(c) => EngineStep(w, auth, replies, c, w');
    case ToGovernance(c) => Governance.ExecFrame(w.governance, w.badges, w.env, auth, replies, c, {GovernanceId});
  }

  lemma RegistryStep(w: World, auth: Signers, replies: Replies, c: CourseRegistry.Call, w': World)
    requires Safe(w) && Platform.Exec(w, auth, replies, ToRegistry(c)) == Ok(w')
    ensures Frame(w.env, w'.env, CourseRewards.ACTORS)
    ensures CourseRewards.Inv(w'.registry, w'.env.events) && CourseRewards.Onward(w.registry, w'.registry)
  {
    hide Frame, CourseRewards.Inv, CourseRewards.Onward, QuestEscrow.Inv, StakeVault.Inv, Governance.Final;
    CourseRewards.ExecKeeps(w.registry, w.badges, w.pool, w.env, auth, replies, c, w'.registry, w'.badges, w'.env);
  }

  lemma EngineStep(w: World, auth: Signers, replies: Replies, c: QuestEngine.Call, w': World)
    requires Safe(w) && Platform.Exec(w, auth, replies, ToEngine(c)) == Ok(w')
    ensures Frame(w.env, w'.env, auth + {EngineId, PoolId})
    ensures QuestEscrow.Inv(w'.engine, w'.env.events)
    ensures QuestEscrow.Saved(w'.engine, w'.env.events) ==
      QuestEscrow.Saved(w.engine, w.env.events) + QuestEscrow.CallSaving(w.engine, w.vault, replies, c)
  {
    hide Frame, CourseRewards.Inv, QuestEscrow.Inv, StakeVault.Inv, Governance.Final, QuestEscrow.Saved, QuestEscrow.CallSaving;
    QuestEscrow.ExecKeeps(w.engine, w.vault, w.pool, w.env, auth, replies, c, w'.engine, w'.env);
  }

  /** Only the contract called, and the badges minted by the registry, can change storage. */
  lemma Untouched(w: World, auth: Signers, replies: Replies, call: Call, w': World)
    requires Platform.Exec(w, auth, replies, call) == Ok(w')
    ensures !call.ToPool? ==> w'.pool == w.pool
    ensures !call.ToVault? ==> w'.vault == w.vault
    ensures !call.ToBadges? && !call.ToRegistry? ==> w'.badges == w.badges
    ensures !call.ToRegistry? ==> w'.registry == w.registry
    ensures !call.ToEngine? ==> w'.engine == w.engine
    ensures !call.ToGovernance? ==> w'.governance == w.governance
  {
    hide TokenEffect, RewardPool.Exec, StakeVault.Exec, BadgeNft.Exec, CourseRegistry.Exec, QuestEngine.Exec, Governance.Exec;
  }

  // ---------------------------------------------------------------- each contract's share of the invariant

  lemma VaultStep(w: World, auth: Signers, replies: Replies, call: Call, w': World)
    requires Safe(w) && Platform.Exec(w, auth, replies, call) == Ok(w')
    ensures StakeVault.Inv(w'.vault, w'.env)
  {
    ExecFrame(w, auth, replies, call, w');
    hide Frame, CourseRewards.Inv, QuestEscrow.Inv, StakeVault.Inv, Governance.Final;
    if call.ToVault? {
      StakeVault.ExecKeeps(w.vault, w.env, auth, call.vault);
    } else {
      Untouched(w, auth, replies, call, w');
      hide Platform.Exec;
      StakeVault.OthersKeep(w.vault, w.env, w'.env, Actors(auth, call));
    }
  }

  lemma RewardsStep(w: World, auth: Signers, replies: Replies, call: Call, w': World)
    requires Safe(w) && Platform.Exec(w, auth, replies, call) == Ok(w')
    ensures CourseRewards.Inv(w'.registry, w'.env.events) && CourseRewards.Onward(w.registry, w'.registry)
  {
    ExecFrame(w, auth, replies, call, w');
    hide Frame, CourseRewards.Inv, QuestEscrow.Inv, StakeVault.Inv, Governance.Final;
    if call.ToRegistry? {
      RegistryStep(w, auth, replies, call.registry, w');
    } else {
      Untouched(w, auth, replies, call, w');
      hide Platform.Exec;
      CourseRewards.OthersKeep(w.registry, w.env, w'.env, Actors(auth, call));
    }
  }

  lemma EscrowStep(w: World, auth: Signers, replies: Replies, call: Call, w': World)
    requires Safe(w) && Platform.Exec(w, auth, replies, call) == Ok(w')
    ensures QuestEscrow.Inv(w'.engine, w'.env.events)
    ensures QuestEscrow.Saved(w'.engine, w'.env.events) == QuestEscrow.Saved(w.engine, w.env.events) +
      (if call.ToEngine? then QuestEscrow.CallSaving(w.engine, w.vault, replies, call.engine) else 0)
  {
    ExecFrame(w, auth, replies, call, w');
    hide CourseRewards.Inv, QuestEscrow.Inv, StakeVault.Inv, Governance.Final, Tally, QuestEscrow.Saved, QuestEscrow.CallSaving;
    if call.ToEngine? {
      EngineStep(w, auth, replies, call.engine, w');
    } else {
      Untouched(w, auth, replies, call, w');
      hide Platform.Exec, Frame;
      QuestEscrow.OthersKeep(w.engine, w.env, w'.env, Actors(auth, call));
    }
  }

  lemma FinalStep(w: World, auth: Signers, replies: Replies, call: Call, w': World)
    requires Safe(w) && Platform.Exec(w, auth, replies, call) == Ok(w')
    ensures Governance.Final(w'.governance, w'.env.events)
  {
    ExecFrame(w, auth, replies, call, w');
    hide CourseRewards.Inv, QuestEscrow.Inv, StakeVault.Inv, Tally;
    if call.ToGovernance? {
      Governance.FinalKept(w.governance, w.badges, w.env, auth, replies, call.governance);
    } else {
      Untouched(w, auth, replies, call, w');
      hide Platform.Exec, Frame, Governance.Final;
      Governance.OthersKeep(w.governance, w.env, w'.env, Actors(auth, call));
    }
  }

  lemma SpendersStep(w: World, auth: Signers, replies: Replies, call: Call, w': World)
    requires Safe(w) && Platform.Exec(w, auth, replies, call) == Ok(w')
    ensures RewardPool.CountsSpenders(w'.pool)
  {
    hide CourseRewards.Inv, QuestEscrow.Inv, StakeVault.Inv, Governance.Final;
    if call.ToPool? {
      RewardPool.FootprintKept(w.pool, w.env, auth, call.pool);
    }
  }

  /** Time passing changes no balance and no log. */
  lemma AdvanceSafe(w: World, to: u64)
    requires Safe(w)
    ensures Safe(Step(w, Advance(to)))
  {
    var w' := Step(w, Advance(to));
    hide CourseRewards.Inv, QuestEscrow.Inv, Governance.Final;
    StakeVault.IdleKeeps(w.vault, w.vault, w.env, w'.env);
  }

  lemma StepSafe(w: World, a: Action)
    requires Safe(w)
    ensures Safe(Step(w, a))
  {
    match a
    case Advance(to) => AdvanceSafe(w, to);
    case Invoke(auth, replies, call) =>
      hide CourseRewards.Inv, CourseRewards.Onward, QuestEscrow.Inv, StakeVault.Inv;
      hide Governance.Final, RewardPool.CountsSpenders, Platform.Exec;
      var r := Platform.Exec(w, auth, replies, call);
      if r.Ok? {
        VaultStep(w, auth, replies, call, r.value);
        RewardsStep(w, auth, replies, call, r.value);
        EscrowStep(w, auth, replies, call, r.value);
        FinalStep(w, auth, replies, call, r.value);
        SpendersStep(w, auth, replies, call, r.value);
      }
  }

  /** Every reachable state is safe. */
  lemma {:induction false} RunSafe(w: World, actions: seq<Action>)
    requires Safe(w)
    ensures Safe(Run(w, actions))
    decreases |actions|
  {
    hide Safe, Step;
    if actions == [] {
    } else {
      var n := |actions| - 1;
      RunSafe(w, actions[..n]);
      StepSafe(Run(w, actions[..n]), actions[n]);
    }
  }
}
