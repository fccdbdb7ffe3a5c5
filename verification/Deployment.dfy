/** Deploying the platform: the setup calls, the state they leave, and what stays true of it for good. */
module Deployment {
  import opened Outcomes
  import opened Soroban
  import opened Platform
  import opened Authority
  import opened Histories
  import opened Graduation
  import opened Voting
  import RewardPool
  import StakeVault
  import BadgeNft
  import CourseRegistry
  import QuestEngine
  import Governance

  type Balances = map<Address, nat>
  type Proposals = map<u32, Governance.Proposal>

  /** An account outside the platform. */
  type Account = a: Address | a.Outside? witness Outside(0)

  const SILENT := Replies(map[], false, false, None)

  /** A transaction signed by one account, with no foreign contract involved. */
  function By(signer: Account, call: Call): Action {
    Invoke({signer}, SILENT, call)
  }

  /** The setup transactions of a deployment, in order. */
  function Setup(admin: Account): seq<Action> {
    [ By(admin, ToPool(RewardPool.Initialize(admin))),
      By(admin, ToBadges(BadgeNft.Initialize(RegistryId))),
      By(admin, ToVault(StakeVault.Initialize(admin))),
      By(admin, ToEngine(QuestEngine.Initialize(admin, PoolId, VaultId))),
      By(admin, ToGovernance(Governance.Initialize(admin, BadgeId))),
      By(admin, ToRegistry(CourseRegistry.Initialize(admin))),
      By(admin, ToPool(RewardPool.AddApprovedSpender(admin, RegistryId))),
      By(admin, ToRegistry(CourseRegistry.SetRewardPoolAddress(admin, PoolId))),
      By(admin, ToRegistry(CourseRegistry.SetBadgeNftAddress(admin, BadgeId))),
      By(admin, ToPool(RewardPool.AddApprovedSpender(admin, EngineId))) ]
  }

  function SetupLog(admin: Account): seq<Event> {
    [PoolInitialized(admin), StakeVaultInitialized(admin), SpenderAdded(RegistryId), SpenderAdded(EngineId)]
  }

  /** The platform as deployed: nothing done yet, everything initialised and pointing at each other. */
  function Deployed(now: u64, balances: Balances, proposals: Proposals, admin: Account): World {
    World(
      Env(now, balances, SetupLog(admin)),
      RewardPool.Storage(Some(admin), {RegistryId, EngineId}, 2, false),
      StakeVault.Storage(Some(admin), map[]),
      BadgeNft.Storage(Some(RegistryId), map[]),
      CourseRegistry.Storage(Some(admin), Some(BadgeId), Some(PoolId), 0, map[], map[], {}),
      QuestEngine.Storage(Some(QuestEngine.Wiring(admin, PoolId, VaultId)), false, 0, map[], map[]),
      Governance.Storage(Some(Governance.Wiring(admin, BadgeId)), proposals, {}))
  }

  lemma PoolInitialised(w: World, admin: Account)
    requires w.pool.admin.None?
    ensures Step(w, Setup(admin)[0]) ==
      w.(pool := w.pool.(admin := Some(admin)), env := Publish(w.env, PoolInitialized(admin)))
  {
  }

  lemma BadgesInitialised(w: World, admin: Account)
    requires w.badges.admin.None?
    ensures Step(w, Setup(admin)[1]) == w.(badges := w.badges.(admin := Some(RegistryId)))
  {
  }

  lemma VaultInitialised(w: World, admin: Account)
    requires w.vault.admin.None?
    ensures Step(w, Setup(admin)[2]) ==
      w.(vault := w.vault.(admin := Some(admin)), env := Publish(w.env, StakeVaultInitialized(admin)))
  {
  }

  lemma EngineInitialised(w: World, admin: Account)
    requires w.engine.wiring.None? && w.engine.questCounter == 0
    ensures Step(w, Setup(admin)[3]) ==
      w.(engine := w.engine.(wiring := Some(QuestEngine.Wiring(admin, PoolId, VaultId))))
  {
  }

  lemma GovernanceInitialised(w: World, admin: Account)
    requires w.governance.wiring.None?
    ensures Step(w, Setup(admin)[4]) == w.(governance := w.governance.(wiring := Some(Governance.Wiring(admin, BadgeId))))
  {
  }

  lemma RegistryInitialised(w: World, admin: Account)
    requires w.registry.admin.None?
    ensures Step(w, Setup(admin)[5]) == w.(registry := w.registry.(admin := Some(admin)))
  {
  }

  lemma SpenderApproved(w: World, admin: Account, k: nat, spender: Address)
    requires (k == 6 && spender == RegistryId) || (k == 9 && spender == EngineId)
    requires w.pool.admin == Some(admin) && spender !in w.pool.spenders && w.pool.spenderCount < U32_MAX
    ensures Step(w, Setup(admin)[k]) ==
      w.(pool := w.pool.(spenders := w.pool.spenders + {spender}, spenderCount := w.pool.spenderCount + 1),
         env := Publish(w.env, SpenderAdded(spender)))
  {
  }

  lemma RegistryWired(w: World, admin: Account)
    requires w.registry.admin == Some(admin)
    ensures Step(w, Setup(admin)[7]) == w.(registry := w.registry.(rewardPool := Some(PoolId)))
    ensures Step(w, Setup(admin)[8]) == w.(registry := w.registry.(badgeNft := Some(BadgeId)))
  {
  }

  lemma TwoSteps(w: World, actions: seq<Action>)
    requires |actions| == 2
    ensures Run(w, actions) == Step(Step(w, actions[0]), actions[1])
  {
    hide Step;
    assert actions[..1][..0] == [];
    assert Run(w, actions[..1]) == Step(Run(w, []), actions[0]);
  }

  lemma PoolAndBadges(w: World, admin: Account)
    requires w.pool.admin.None? && w.badges.admin.None?
    ensures Run(w, Setup(admin)[0..2]) == w.(
      pool := w.pool.(admin := Some(admin)), badges := w.badges.(admin := Some(RegistryId)),
      env := Publish(w.env, PoolInitialized(admin)))
  {
    assert |Setup(admin)| == 10;
    hide Run, Step, Setup;
    var first := Setup(admin)[0];
    TwoSteps(w, Setup(admin)[0..2]);
    PoolInitialised(w, admin);
    BadgesInitialised(Step(w, first), admin);
  }

  lemma VaultAndEngine(w: World, admin: Account)
    requires w.vault.admin.None? && w.engine.wiring.None? && w.engine.questCounter == 0
    ensures Run(w, Setup(admin)[2..4]) == w.(
      vault := w.vault.(admin := Some(admin)),
      engine := w.engine.(wiring := Some(QuestEngine.Wiring(admin, PoolId, VaultId))),
      env := Publish(w.env, StakeVaultInitialized(admin)))
  {
    assert |Setup(admin)| == 10;
    hide Run, Step, Setup;
    var first := Setup(admin)[2];
    TwoSteps(w, Setup(admin)[2..4]);
    VaultInitialised(w, admin);
    EngineInitialised(Step(w, first), admin);
  }

  lemma GovernanceAndRegistry(w: World, admin: Account)
    requires w.governance.wiring.None? && w.registry.admin.None?
    ensures Run(w, Setup(admin)[4..6]) == w.(
      governance := w.governance.(wiring := Some(Governance.Wiring(admin, BadgeId))),
      registry := w.registry.(admin := Some(admin)))
  {
    assert |Setup(admin)| == 10;
    hide Run, Step, Setup;
    var first := Setup(admin)[4];
    TwoSteps(w, Setup(admin)[4..6]);
    GovernanceInitialised(w, admin);
    RegistryInitialised(Step(w, first), admin);
  }

  lemma RegistryPaid(w: World, admin: Account)
    requires w.registry.admin == Some(admin) && w.pool == RewardPool.Storage(Some(admin), {}, 0, false)
    ensures Run(w, Setup(admin)[6..8]) == w.(
      registry := w.registry.(rewardPool := Some(PoolId)),
      pool := RewardPool.Storage(Some(admin), {RegistryId}, 1, false),
      env := Publish(w.env, SpenderAdded(RegistryId)))
  {
    assert |Setup(admin)| == 10;
    hide Run, Step, Setup;
    var first := Setup(admin)[6];
    TwoSteps(w, Setup(admin)[6..8]);
    SpenderApproved(w, admin, 6, RegistryId);
    RegistryWired(Step(w, first), admin);
  }

  lemma BadgesAndEngine(w: World, admin: Account)
    requires w.registry.admin == Some(admin) && w.pool == RewardPool.Storage(Some(admin), {RegistryId}, 1, false)
    ensures Run(w, Setup(admin)[8..10]) == w.(
      registry := w.registry.(badgeNft := Some(BadgeId)),
      pool := RewardPool.Storage(Some(admin), {RegistryId, EngineId}, 2, false),
      env := Publish(w.env, SpenderAdded(EngineId)))
  {
    assert |Setup(admin)| == 10;
    hide Run, Step, Setup;
    var first := Setup(admin)[8];
    TwoSteps(w, Setup(admin)[8..10]);
    RegistryWired(w, admin);
    SpenderApproved(Step(w, first), admin, 9, EngineId);
  }

  /** The setup calls take the contracts as created to the deployed platform. */
  lemma SetupDeploys(now: u64, balances: Balances, proposals: Proposals, admin: Account)
    ensures Run(Constructed(now, balances, proposals), Setup(admin)) == Deployed(now, balances, proposals, admin)
    ensures Wired(Deployed(now, balances, proposals, admin))
  {
    hide Run;
    var w, setup := Constructed(now, balances, proposals), Setup(admin);
    PoolAndBadges(w, admin);
    Joins(w, setup, 2);
    VaultAndEngine(Run(w, setup[..2]), admin);
    Joins(w, setup, 4);
    GovernanceAndRegistry(Run(w, setup[..4]), admin);
    Joins(w, setup, 6);
    RegistryPaid(Run(w, setup[..6]), admin);
    Joins(w, setup, 8);
    BadgesAndEngine(Run(w, setup[..8]), admin);
    assert setup[..10] == setup && setup[0..2] == setup[..2];
    assert Run(w, setup).env.events == SetupLog(admin);
  }

  lemma Joins(w: World, actions: seq<Action>, i: nat)
    requires i + 2 <= |actions|
    ensures Run(w, actions[..i + 2]) == Run(Run(w, actions[..i]), actions[i..i + 2])
  {
    RunSplit(w, actions[..i], actions[i..i + 2]);
    assert actions[..i] + actions[i..i + 2] == actions[..i + 2];
  }

  /** The same for the contracts themselves. */
  method Deploy(now: u64, balances: Balances, proposals: Proposals, admin: Account) returns (chain: Chain)
    ensures chain.Valid() && fresh(chain)
    ensures chain.Snapshot() == Deployed(now, balances, proposals, admin) && Wired(chain.Snapshot())
  {
    chain := new Chain(now, balances, proposals);
    SetupDeploys(now, balances, proposals, admin);
    chain.SubmitAll(Setup(admin));
  }

  /** Proposals as seeded: no votes, not locked. */
  ghost predicate Seeded(proposals: Proposals) {
    forall p :: p in proposals ==>
      proposals[p].votesFor == 0 && proposals[p].votesAgainst == 0 && !proposals[p].executed
  }

  lemma ConstructedIsFresh(now: u64, balances: Balances, proposals: Proposals)
    requires Seeded(proposals)
    ensures Fresh(Constructed(now, balances, proposals))
  {
  }

  /** Whatever is done to the deployed platform, its badges belong to the registry and governance weighs by them. */
  lemma DeployedForGood(now: u64, balances: Balances, proposals: Proposals, admin: Account, actions: seq<Action>)
    ensures var w' := Run(Constructed(now, balances, proposals), Setup(admin) + actions);
      && w'.badges.admin == Some(RegistryId) && OwnAdmin(w')
      && w'.governance.wiring == Some(Governance.Wiring(admin, BadgeId)) && OwnBadges(w')
      && w'.pool.admin == w'.registry.admin == Some(admin)
  {
    var w, d := Constructed(now, balances, proposals), Deployed(now, balances, proposals, admin);
    SetupDeploys(now, balances, proposals, admin);
    RunSplit(w, Setup(admin), actions);
    hide Run;
    AdminsForGood(d, actions);
    assert AdminOf(PoolPause, d) == Some(admin) == AdminOf(RegistryPool, d);
  }

  /**
   On the deployed platform, for every continuation and every proposal seeded: the votes
   of a proposal never exceed the badges held, no badge is ever taken away, and a badge
   is held exactly for each course finished while the registry's wiring to the badge
   contract stood.
   */
  lemma DeployedKeepsFaith(
    now: u64, balances: Balances, proposals: Proposals, admin: Account, actions: seq<Action>,
    p: u32, learner: Address, id: u32)
    requires Seeded(proposals)
    ensures var start, all := Constructed(now, balances, proposals), Setup(admin) + actions;
      var w' := Run(start, all);
      && (p in w'.governance.proposals ==>
            w'.governance.proposals[p].votesFor + w'.governance.proposals[p].votesAgainst <= TotalHeld(w'.badges))
      && (BadgeNft.HasBadge(w'.badges, learner, id) <==>
            CourseRegistry.Finished(w'.registry, learner, id) && !Struck(BadgeMissed, start, all, learner, id))
  {
    hide Run, Fresh, Struck, OwnAdmin, OwnBadges, TotalHeld, BadgeNft.HasBadge, CourseRegistry.Finished;
    var start, all := Constructed(now, balances, proposals), Setup(admin) + actions;
    ConstructedIsFresh(now, balances, proposals);
    DeployedForGood(now, balances, proposals, admin, actions);
    BadgeIffFinished(start, all, learner, id);
    if p in Run(start, all).governance.proposals {
      TallyBoundedByHoldings(start, all, p);
    }
  }
}
