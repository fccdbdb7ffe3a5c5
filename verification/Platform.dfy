/** The six contracts wired to one ledger: single steps and whole runs. */
module Platform {
  import opened Outcomes
  import opened Soroban
  import RewardPool
  import StakeVault
  import BadgeNft
  import CourseRegistry
  import QuestEngine
  import Governance

  datatype World = World(
    env: Env,
    pool: RewardPool.Storage,
    vault: StakeVault.Storage,
    badges: BadgeNft.Storage,
    registry: CourseRegistry.Storage,
    engine: QuestEngine.Storage,
    governance: Governance.Storage)

  datatype Call =
    | ToToken(from: Address, to: Address, amount: i128)
    | ToPool(pool: RewardPool.Call)
    | ToVault(vault: StakeVault.Call)
    | ToBadges(badges: BadgeNft.Call)
    | ToRegistry(registry: CourseRegistry.Call)
    | ToEngine(engine: QuestEngine.Call)
    | ToGovernance(governance: Governance.Call)

  /** A signed transaction, or the ledger closing at a later time. */
  datatype Action = Invoke(auth: Signers, replies: Replies, call: Call) | Advance(to: u64)

  function TokenEffect(e: Env, auth: set<Address>, from: Address, to: Address, amount: int): Outcome<Env> {
    if from !in auth then Panic(NotAuthorized) else
    TransferEffect(e, from, to, amount)
  }

  function Exec(w: World, auth: set<Address>, replies: Replies, call: Call): Outcome<World> {
    match call
    case ToToken(from, to, amount) =>
      var e' :- TokenEffect(w.env, auth, from, to, amount);
      Ok(w.(env := e'))
    case ToPool(c) =>
      var (s', e') :- RewardPool.Exec(w.pool, w.env, auth, c);
      Ok(w.(pool := s', env := e'))
    case ToVault(c) =>
      var (s', e') :- StakeVault.Exec(w.vault, w.env, auth, c);
      Ok(w.(vault := s', env := e'))
    case ToBadges(c) =>
      var (s', e') :- BadgeNft.Exec(w.badges, w.env, auth, c);
      Ok(w.(badges := s', env := e'))
    case ToRegistry(c) =>
      var (s', b', e') :- CourseRegistry.Exec(w.registry, w.badges, w.pool, w.env, auth, replies, c);
      Ok(w.(registry := s', badges := b', env := e'))
    case ToEngine(c) =>
      var (s', e') :- QuestEngine.Exec(w.engine, w.vault, w.pool, w.env, auth, replies, c);
      Ok(w.(engine := s', env := e'))
    case ToGovernance(c) =>
      var (s', e') :- Governance.Exec(w.governance, w.badges, w.env, auth, replies, c);
      Ok(w.(governance := s', env := e'))
  }

  function Step(w: World, a: Action): World {
    match a
    case Invoke(auth, replies, call) => After(Exec(w, auth, replies, call), w)
    case Advance(to) => w.(env := w.env.(now := if to >= w.env.now then to else w.env.now))
  }

  function Run(w: World, actions: seq<Action>): World {
    if actions == [] then w else Step(Run(w, actions[..|actions| - 1]), actions[|actions| - 1])
  }

  /** The six contracts as created: nothing initialised, nothing wired. */
  function Constructed(now: u64, balances: map<Address, nat>, proposals: map<u32, Governance.Proposal>): World {
    World(
      Env(now, balances, []),
      RewardPool.Storage(None, {}, 0, false),
      StakeVault.Storage(None, map[]),
      BadgeNft.Storage(None, map[]),
      CourseRegistry.Storage(None, None, None, 0, map[], map[], {}),
      QuestEngine.Storage(None, false, 0, map[], map[]),
      Governance.Storage(None, proposals, {}))
  }

  /** Nothing has happened yet; initialisation and wiring may or may not have taken place. */
  ghost predicate Fresh(w: World) {
    && w.env.events == []
    && RewardPool.CountsSpenders(w.pool)
    && w.vault.stakes == map[]
    && w.badges.userBadges == map[]
    && w.registry.courseCount == 0 && w.registry.courses == map[] && w.registry.progress == map[] && w.registry.pending == {}
    && w.engine.questCounter == 0 && w.engine.quests == map[] && w.engine.submissions == map[]
    && w.governance.userVotes == {}
    && (forall p :: p in w.governance.proposals ==>
          var q := w.governance.proposals[p]; q.votesFor == 0 && q.votesAgainst == 0 && !q.executed)
  }

  /** The deployment of the integration tests: everything initialised and pointing at each other. */
  ghost predicate Wired(w: World) {
    && w.pool.admin.Some? && w.pool.spenders == {RegistryId, EngineId}
    && w.vault.admin.Some?
    && w.badges.admin == Some(RegistryId)
    && w.registry.admin.Some? && w.registry.badgeNft == Some(BadgeId) && w.registry.rewardPool == Some(PoolId)
    && w.engine.wiring.Some? && w.engine.wiring.value.rewardPool == PoolId && w.engine.wiring.value.stakeVault == VaultId
    && w.governance.wiring.Some? && w.governance.wiring.value.badgeNft == BadgeId
  }

  class Chain {
    const host: Host
    const pool: RewardPool.Contract
    const vault: StakeVault.Contract
    const badges: BadgeNft.Contract
    const registry: CourseRegistry.Contract
    const engine: QuestEngine.Contract
    const governance: Governance.Contract

    ghost predicate Valid() {
      && pool.host == host && vault.host == host && badges.host == host
      && registry.host == host && registry.Valid() && registry.badges == badges && registry.pool == pool
      && engine.host == host && engine.Valid() && engine.vault == vault && engine.pool == pool
      && governance.host == host && governance.Valid() && governance.badges == badges
    }

    constructor (now: u64, balances: map<Address, nat>, proposals: map<u32, Governance.Proposal>)
      ensures Valid()
      ensures fresh(host) && fresh(pool) && fresh(vault) && fresh(badges) && fresh(registry) && fresh(engine) && fresh(governance)
      ensures Snapshot() == Constructed(now, balances, proposals)
    {
      var h := new Host(now, balances);
      var p := new RewardPool.Contract(h);
      var v := new StakeVault.Contract(h);
      var b := new BadgeNft.Contract(h);
      var r := new CourseRegistry.Contract(h, b, p);
      var q := new QuestEngine.Contract(h, v, p);
      var g := new Governance.Contract(h, b, proposals);
      host, pool, vault, badges, registry, engine, governance := h, p, v, b, r, q, g;
    }

    function Snapshot(): World
      reads host, pool, vault, badges, registry, engine, governance
    {
      World(host.View(), pool.State(), vault.State(), badges.State(), registry.State(), engine.State(), governance.State())
    }

    method CallToken(auth: Signers, from: Address, to: Address, amount: i128) returns (r: Outcome<()>)
      modifies host
      ensures r == TokenEffect(old(host.View()), auth, from, to, amount).Verdict()
      ensures host.View() == After(TokenEffect(old(host.View()), auth, from, to, amount), old(host.View()))
    {
      if from !in auth {
        return Panic(NotAuthorized);
      }
      r := host.Transfer(from, to, amount);
    }

    method CallPool(auth: Signers, c: RewardPool.Call) returns (r: Outcome<()>)
      requires Valid()
      modifies host, pool
      ensures r == RewardPool.Exec(old(pool.State()), old(host.View()), auth, c).Verdict()
      ensures (pool.State(), host.View()) ==
        After(RewardPool.Exec(old(pool.State()), old(host.View()), auth, c), old((pool.State(), host.View())))
    {
      match c
      case Initialize(admin) => r := pool.Initialize(auth, admin);
      case AddApprovedSpender(admin, spender) => r := pool.AddApprovedSpender(auth, admin, spender);
      case SetPause(admin, status) => r := pool.SetPause(auth, admin, status);
      case DistributeReward(caller, learner, amount) => r := pool.DistributeReward(auth, caller, learner, amount);
      case FundPool(donor, amount) => r := pool.FundPool(auth, donor, amount);
      case EmergencySweep(admin, wallet) => r := pool.EmergencySweep(auth, admin, wallet);
    }

    method CallVault(auth: Signers, c: StakeVault.Call) returns (r: Outcome<()>)
      requires Valid()
      modifies host, vault
      ensures r == StakeVault.Exec(old(vault.State()), old(host.View()), auth, c).Verdict()
      ensures (vault.State(), host.View()) ==
        After(StakeVault.Exec(old(vault.State()), old(host.View()), auth, c), old((vault.State(), host.View())))
    {
      match c
      case Initialize(admin) => r := vault.Initialize(auth, admin);
      case Stake(user, amount) => r := vault.Stake(auth, user, amount);
      case Unstake(user) => r := vault.Unstake(auth, user);
    }

    method CallBadges(auth: Signers, c: BadgeNft.Call) returns (r: Outcome<()>)
      requires Valid()
      modifies host, badges
      ensures r == BadgeNft.Exec(old(badges.State()), old(host.View()), auth, c).Verdict()
      ensures (badges.State(), host.View()) ==
        After(BadgeNft.Exec(old(badges.State()), old(host.View()), auth, c), old((badges.State(), host.View())))
    {
      match c
      case Initialize(admin) => r := badges.Initialize(admin);
      case MintBadge(caller, learner, id) => r := badges.MintBadge(auth, caller, learner, id);
      case RevokeBadge(admin, learner, id) => r := badges.RevokeBadge(auth, admin, learner, id);
    }

    method CallRegistry(auth: Signers, replies: Replies, c: CourseRegistry.Call) returns (r: Outcome<()>)
      requires Valid()
      modifies host, registry, badges
      ensures r == CourseRegistry.Exec(old(registry.State()), old(badges.State()), pool.State(), old(host.View()),
                                       auth, replies, c).Verdict()
      ensures (registry.State(), badges.State(), host.View()) ==
        After(CourseRegistry.Exec(old(registry.State()), old(badges.State()), pool.State(), old(host.View()), auth, replies, c),
              old((registry.State(), badges.State(), host.View())))
    {
      match c
      case Initialize(admin) => r := registry.Initialize(auth, admin);
      case SetRewardPoolAddress(admin, a) => r := registry.SetRewardPoolAddress(auth, admin, a);
      case SetBadgeNftAddress(admin, a) => r := registry.SetBadgeNftAddress(auth, admin, a);
      case CreateCourse(admin, instructor, total, hash) =>
        var id := registry.CreateCourse(auth, admin, instructor, total, hash);
        r := id.Verdict();
      case UpdateMetadata(id, hash) => r := registry.UpdateMetadata(auth, id, hash);
      case SetCourseStatus(admin, id, active) => r := registry.SetCourseStatus(auth, admin, id, active);
      case TransferOwnership(current, next, id) => r := registry.TransferOwnership(auth, current, next, id);
      case Enroll(learner, id) => r := registry.Enroll(auth, learner, id);
      case CompleteModule(verifier, learner, id) => r := registry.CompleteModule(auth, replies, verifier, learner, id);
      case ClaimCompletionReward(learner, id) => r := registry.ClaimCompletionReward(auth, replies, learner, id);
    }

    method CallEngine(auth: Signers, replies: Replies, c: QuestEngine.Call) returns (r: Outcome<()>)
      requires Valid()
      modifies host, engine
      ensures r == QuestEngine.Exec(old(engine.State()), vault.State(), pool.State(), old(host.View()), auth, replies, c).Verdict()
      ensures (engine.State(), host.View()) ==
        After(QuestEngine.Exec(old(engine.State()), vault.State(), pool.State(), old(host.View()), auth, replies, c),
              old((engine.State(), host.View())))
    {
      match c
      case Initialize(admin, rewardPool, stakeVault) => r := engine.Initialize(auth, admin, rewardPool, stakeVault);
      case SetPause(admin, status) => r := engine.SetPause(auth, admin, status);
      case SetRewardPoolAddress(admin, a) => r := engine.SetRewardPoolAddress(auth, admin, a);
      case SetStakeVaultAddress(admin, a) => r := engine.SetStakeVaultAddress(auth, admin, a);
      case CreateBuildQuest(employer, reward, hash) =>
        var id := engine.CreateBuildQuest(auth, employer, reward, hash);
        r := id.Verdict();
      case CreateExploreQuest(admin, reward, hash) =>
        var id := engine.CreateExploreQuest(auth, admin, reward, hash);
        r := id.Verdict();
      case SubmitProof(learner, id, hash) => r := engine.SubmitProof(auth, learner, id, hash);
      case ReviewSubmission(employer, learner, id, approve) =>
        r := engine.ReviewSubmission(auth, replies, employer, learner, id, approve);
      case BatchReviewSubmissions(employer, id, learners) =>
        r := engine.BatchReviewSubmissions(auth, replies, employer, id, learners);
      case RefundQuest(employer, id) => r := engine.RefundQuest(auth, employer, id);
      case VerifyExploreQuest(admin, learner, id) => r := engine.VerifyExploreQuest(auth, replies, admin, learner, id);
    }

    method CallGovernance(auth: Signers, replies: Replies, c: Governance.Call) returns (r: Outcome<()>)
      requires Valid()
      modifies host, governance
      ensures r == Governance.Exec(old(governance.State()), badges.State(), old(host.View()), auth, replies, c).Verdict()
      ensures (governance.State(), host.View()) ==
        After(Governance.Exec(old(governance.State()), badges.State(), old(host.View()), auth, replies, c),
              old((governance.State(), host.View())))
    {
      match c
      case Initialize(admin, badgeNft) => r := governance.Initialize(auth, admin, badgeNft);
      case CastVote(voter, id, support) => r := governance.CastVote(auth, replies, voter, id, support);
      case CancelProposal(caller, id) => r := governance.CancelProposal(auth, caller, id);
      case ExecuteProposal(id) => r := governance.ExecuteProposal(id);
    }

    method Call(auth: Signers, replies: Replies, call: Call) returns (r: Outcome<()>)
      requires Valid()
      modifies host, pool, vault, badges, registry, engine, governance
      ensures r == Exec(old(Snapshot()), auth, replies, call).Verdict()
      ensures Snapshot() == After(Exec(old(Snapshot()), auth, replies, call), old(Snapshot()))
    {
      hide TokenEffect, RewardPool.Exec, StakeVault.Exec, BadgeNft.Exec, CourseRegistry.Exec, QuestEngine.Exec, Governance.Exec;
      match call
      case ToToken(from, to, amount) => r := CallToken(auth, from, to, amount);
      case ToPool(c) => r := CallPool(auth, c);
      case ToVault(c) => r := CallVault(auth, c);
      case ToBadges(c) => r := CallBadges(auth, c);
      case ToRegistry(c) => r := CallRegistry(auth, replies, c);
      case ToEngine(c) => r := CallEngine(auth, replies, c);
      case ToGovernance(c) => r := CallGovernance(auth, replies, c);
    }

    /** The contracts take exactly the steps of the state machine. */
    method Submit(a: Action)
      requires Valid()
      modifies host, pool, vault, badges, registry, engine, governance
      ensures Snapshot() == Step(old(Snapshot()), a)
    {
      match a
      case Advance(to) => host.Advance(to);
      case Invoke(auth, replies, call) => var _ := Call(auth, replies, call);
    }

    /** A whole run of the contracts is the run of the state machine. */
    method SubmitAll(actions: seq<Action>)
      requires Valid()
      modifies host, pool, vault, badges, registry, engine, governance
      ensures Snapshot() == Run(old(Snapshot()), actions)
    {
      for i := 0 to |actions|
        invariant Snapshot() == Run(old(Snapshot()), actions[..i])
      {
        assert actions[..i + 1][..i] == actions[..i];
        Submit(actions[i]);
      }
      assert actions[..|actions|] == actions;
    }
  }
}
