/** Who can change the settings of the contracts: admins are for good, and every change carries the admin's signature. */
module Authority {
  import opened Outcomes
  import opened Soroban
  import opened Platform
  import opened Safety
  import RewardPool
  import StakeVault
  import BadgeNft
  import CourseRegistry
  import QuestEngine
  import Governance

  // ---------------------------------------------------------------- single calls

  /** The pool's admin is set once, by the admin; the switch and the allowlist need that signature. */
  lemma PoolCall(s: RewardPool.Storage, e: Env, auth: set<Address>, c: RewardPool.Call)
    requires RewardPool.Exec(s, e, auth, c).Ok?
    ensures var s' := RewardPool.Exec(s, e, auth, c).value.0;
      && (s.admin.Some? ==> s'.admin == s.admin)
      && (s'.admin != s.admin ==> s'.admin.value in auth)
      && s.spenders <= s'.spenders
      && (s'.paused != s.paused || s'.spenders != s.spenders ==> s.admin.Some? && s.admin.value in auth)
  {
    hide TransferEffect, Publish;
  }

  lemma VaultCall(s: StakeVault.Storage, e: Env, auth: set<Address>, c: StakeVault.Call)
    requires StakeVault.Exec(s, e, auth, c).Ok?
    ensures var s' := StakeVault.Exec(s, e, auth, c).value.0;
      && (s.admin.Some? ==> s'.admin == s.admin)
      && (s'.admin != s.admin ==> s'.admin.value in auth)
  {
    hide TransferEffect, Publish;
  }

  /** The badge contract's admin is set once too, though anybody may set it: `initialize` asks for no signature. */
  lemma BadgesCall(s: BadgeNft.Storage, e: Env, auth: set<Address>, c: BadgeNft.Call)
    requires BadgeNft.Exec(s, e, auth, c).Ok?
    ensures s.admin.Some? ==> BadgeNft.Exec(s, e, auth, c).value.0.admin == s.admin
  {
  }

  lemma RegistryCall(
    s: CourseRegistry.Storage, badges: BadgeNft.Storage, pool: RewardPool.Storage, e: Env, auth: set<Address>, replies: Replies,
    c: CourseRegistry.Call)
    requires CourseRegistry.Exec(s, badges, pool, e, auth, replies, c).Ok?
    ensures var (s', badges', _) := CourseRegistry.Exec(s, badges, pool, e, auth, replies, c).value;
      && badges'.admin == badges.admin
      && (s.admin.Some? ==> s'.admin == s.admin)
      && (s'.admin != s.admin ==> s'.admin.value in auth)
      && (s'.rewardPool != s.rewardPool || s'.badgeNft != s.badgeNft || s'.courseCount != s.courseCount ==>
            s.admin.Some? && s.admin.value in auth)
  {
    hide CourseRegistry.TryDistribute, Publish;
  }

  lemma EngineCall(
    s: QuestEngine.Storage, vault: StakeVault.Storage, pool: RewardPool.Storage, e: Env,
    auth: set<Address>, replies: Replies, c: QuestEngine.Call)
    requires QuestEngine.Exec(s, vault, pool, e, auth, replies, c).Ok?
    ensures var s' := QuestEngine.Exec(s, vault, pool, e, auth, replies, c).value.0;
      && (s.wiring.Some? ==> s'.wiring.Some? && s'.wiring.value.admin == s.wiring.value.admin)
      && (s.wiring.None? && s'.wiring.Some? ==> s'.wiring.value.admin in auth)
      && (s'.paused != s.paused || (s.wiring.Some? && s'.wiring != s.wiring) ==>
            s.wiring.Some? && s.wiring.value.admin in auth)
  {
    hide QuestEngine.ApproveAllEffect, TransferEffect, QuestEngine.PayEffect, Publish, RewardPool.DistributeRewardEffect;
  }

  /** Governance is wired once and for all. */
  lemma GovernanceCall(
    s: Governance.Storage, badges: BadgeNft.Storage, e: Env, auth: set<Address>, replies: Replies, c: Governance.Call)
    requires Governance.Exec(s, badges, e, auth, replies, c).Ok?
    ensures var s' := Governance.Exec(s, badges, e, auth, replies, c).value.0;
      && (s.wiring.Some? ==> s'.wiring == s.wiring)
      && (s'.wiring != s.wiring ==> s'.wiring.value.admin in auth)
  {
    hide Governance.VoteWeight, Publish;
  }

  // ---------------------------------------------------------------- whole runs

  /** The settings of the platform, each with the admin who may change it. */
  datatype Setting = PoolPause | PoolSpenders | RegistryPool | RegistryBadges | EnginePause | EnginePool | EngineVault

  function AdminOf(g: Setting, w: World): Option<Address> {
    match g
    case PoolPause | PoolSpenders => w.pool.admin
    case RegistryPool | RegistryBadges => w.registry.admin
    case EnginePause | EnginePool | EngineVault => if w.engine.wiring.Some? then Some(w.engine.wiring.value.admin) else None
  }

  predicate SameSetting(g: Setting, w: World, w': World) {
    match g
    case PoolPause => w'.pool.paused == w.pool.paused
    case PoolSpenders => w'.pool.spenders == w.pool.spenders
    case RegistryPool => w'.registry.rewardPool == w.registry.rewardPool
    case RegistryBadges => w'.registry.badgeNft == w.registry.badgeNft
    case EnginePause => w'.engine.paused == w.engine.paused
    case EnginePool =>
      w'.engine.wiring.Some? == w.engine.wiring.Some?
      && (w.engine.wiring.Some? ==> w'.engine.wiring.value.rewardPool == w.engine.wiring.value.rewardPool)
    case EngineVault =>
      w'.engine.wiring.Some? == w.engine.wiring.Some?
      && (w.engine.wiring.Some? ==> w'.engine.wiring.value.stakeVault == w.engine.wiring.value.stakeVault)
  }

  /** Admins once set, and governance once wired, stay. */
  ghost predicate AdminsStay(w: World, w': World) {
    && (forall g: Setting :: AdminOf(g, w).Some? ==> AdminOf(g, w') == AdminOf(g, w))
    && (w.vault.admin.Some? ==> w'.vault.admin == w.vault.admin)
    && (w.badges.admin.Some? ==> w'.badges.admin == w.badges.admin)
    && (w.governance.wiring.Some? ==> w'.governance.wiring == w.governance.wiring)
    && w.pool.spenders <= w'.pool.spenders
  }

  predicate SignedBy(a: Action, admin: Option<Address>) {
    a.Invoke? && admin.Some? && admin.value in a.auth
  }

  lemma ExecAuthority(w: World, auth: Signers, replies: Replies, call: Call, w': World)
    requires Platform.Exec(w, auth, replies, call) == Ok(w')
    ensures AdminsStay(w, w')
    ensures forall g: Setting :: AdminOf(g, w).Some? && !SameSetting(g, w, w') ==> AdminOf(g, w).value in auth
  {
    Untouched(w, auth, replies, call, w');
    hide TokenEffect, RewardPool.Exec, StakeVault.Exec, BadgeNft.Exec, QuestEngine.Exec, Governance.Exec;
    match call
    case ToToken(_, _, _) =>
    case ToPool(c) => PoolCall(w.pool, w.env, auth, c);
    case ToVault(c) => VaultCall(w.vault, w.env, auth, c);
    case ToBadges(c) => BadgesCall(w.badges, w.env, auth, c);
    case ToRegistry(c) => RegistryCall(w.registry, w.badges, w.pool, w.env, auth, replies, c);
    case ToEngine(c) => EngineCall(w.engine, w.vault, w.pool, w.env, auth, replies, c);
    case ToGovernance(c) => GovernanceCall(w.governance, w.badges, w.env, auth, replies, c);
  }

  lemma StepAuthority(w: World, a: Action)
    ensures AdminsStay(w, Step(w, a))
    ensures forall g: Setting :: AdminOf(g, w).Some? && !SameSetting(g, w, Step(w, a)) ==> SignedBy(a, AdminOf(g, w))
  {
    hide Platform.Exec;
    if a.Invoke? && Platform.Exec(w, a.auth, a.replies, a.call).Ok? {
      hide AdminsStay, SameSetting, AdminOf;
      ExecAuthority(w, a.auth, a.replies, a.call, Step(w, a));
    }
  }

  lemma BadgeAdminStays(w: World, a: Action)
    ensures w.badges.admin.Some? ==> Step(w, a).badges.admin == w.badges.admin
  {
    hide Step, AdminOf;
    StepAuthority(w, a);
  }

  /** Over every run each admin stays, governance stays wired as it was, and no spender is ever removed. */
  lemma {:induction false} AdminsForGood(w: World, actions: seq<Action>)
    ensures AdminsStay(w, Run(w, actions))
    decreases |actions|
  {
    hide Step, AdminOf;
    if actions == [] {
    } else {
      var n := |actions| - 1;
      AdminsForGood(w, actions[..n]);
      StepAuthority(Run(w, actions[..n]), actions[n]);
    }
  }

  lemma SettingTrans(g: Setting, w: World, w1: World, w2: World)
    requires SameSetting(g, w, w1) && SameSetting(g, w1, w2)
    ensures SameSetting(g, w, w2)
  {
  }

  /** A setting that differs after a run was changed in a step that its admin, the same all along, signed. */
  lemma {:induction false} ChangesAreSigned(g: Setting, w: World, actions: seq<Action>) returns (i: nat)
    requires AdminOf(g, w).Some? && !SameSetting(g, w, Run(w, actions))
    ensures i < |actions| && SignedBy(actions[i], AdminOf(g, w))
    ensures !SameSetting(g, Run(w, actions[..i]), Run(w, actions[..i + 1]))
    decreases |actions|
  {
    if actions == [] {
      assert false;
    } else {
      hide Step, AdminOf, SameSetting, SignedBy;
      var n := |actions| - 1;
      if !SameSetting(g, w, Run(w, actions[..n])) {
        i := ChangesAreSigned(g, w, actions[..n]);
        assert actions[..n][..i] == actions[..i] && actions[..n][..i + 1] == actions[..i + 1];
      } else {
        i := n;
        LastStepSigned(g, w, actions);
      }
    }
  }

  lemma LastStepSigned(g: Setting, w: World, actions: seq<Action>)
    requires actions != [] && AdminOf(g, w).Some? && !SameSetting(g, w, Run(w, actions))
    requires SameSetting(g, w, Run(w, actions[..|actions| - 1]))
    ensures SignedBy(actions[|actions| - 1], AdminOf(g, w))
    ensures !SameSetting(g, Run(w, actions[..|actions| - 1]), Run(w, actions))
    ensures actions[..|actions|] == actions
  {
    hide Step, AdminOf, SameSetting, SignedBy;
    var n := |actions| - 1;
    var w1 := Run(w, actions[..n]);
    AdminsForGood(w, actions[..n]);
    StepAuthority(w1, actions[n]);
    if SameSetting(g, w1, Run(w, actions)) {
      SettingTrans(g, w, w1, Run(w, actions));
    }
  }
}
