/** Build quests (escrowed by an employer) and Explore quests (paid by the reward pool). */
module QuestEngine {
  import opened Outcomes
  import opened Soroban
  import opened Payouts
  import RewardPool
  import StakeVault

  datatype QuestType = Build | Explore

  datatype Quest = Quest(employer: Address, rewardAmount: i128, questType: QuestType, metadataHash: Hash, active: bool)

  datatype SubmissionStatus = Pending | Approved | Rejected

  datatype Submission = Submission(proofHash: Hash, status: SubmissionStatus)

  /** `initialize` writes all three and the token at once. */
  datatype Wiring = Wiring(admin: Address, rewardPool: Address, stakeVault: Address)

  datatype Storage = Storage(
    wiring: Option<Wiring>,
    paused: bool,
    questCounter: u32,
    quests: map<u32, Quest>,
    submissions: map<(Address, u32), Submission>)

  /** A vector of addresses; its length is a u32. */
  type Learners = s: seq<Address> | |s| <= U32_MAX

  datatype Call =
    | Initialize(admin: Address, rewardPool: Address, stakeVault: Address)
    | SetPause(admin: Address, status: bool)
    | SetRewardPoolAddress(admin: Address, newAddress: Address)
    | SetStakeVaultAddress(admin: Address, newAddress: Address)
    | CreateBuildQuest(employer: Address, rewardAmount: i128, metadataHash: Hash)
    | CreateExploreQuest(admin: Address, rewardAmount: i128, metadataHash: Hash)
    | SubmitProof(learner: Address, questId: u32, proofHash: Hash)
    | ReviewSubmission(employer: Address, learner: Address, questId: u32, approve: bool)
    | BatchReviewSubmissions(employer: Address, questId: u32, learners: Learners)
    | RefundQuest(employer: Address, questId: u32)
    | VerifyExploreQuest(admin: Address, learner: Address, questId: u32)

  function InitializeEffect(s: Storage, auth: set<Address>, admin: Address, rewardPool: Address, stakeVault: Address)
    : Outcome<Storage>
  {
    if s.wiring.Some? then Panic(AlreadyInitialized) else
    :- Need(admin in auth, NotAuthorized);
    Ok(s.(wiring := Some(Wiring(admin, rewardPool, stakeVault)), questCounter := 0))
  }

  function NeedAdmin(s: Storage, auth: set<Address>, admin: Address): Check {
    if s.wiring.None? then Fail(NotInitialized)
    else if admin != s.wiring.value.admin then Fail(Unauthorized)
    else Need(admin in auth, NotAuthorized)
  }

  function SetPauseEffect(s: Storage, auth: set<Address>, admin: Address, status: bool): Outcome<Storage> {
    var check := NeedAdmin(s, auth, admin);
    :- check;
    Ok(s.(paused := status))
  }

  function SetRewardPoolEffect(s: Storage, e: Env, auth: set<Address>, admin: Address, newAddress: Address)
    : (r: Outcome<(Storage, Env)>)
  {
    var check := NeedAdmin(s, auth, admin);
    :- check;
    Ok((s.(wiring := Some(s.wiring.value.(rewardPool := newAddress))), Publish(e, RewardPoolUpdated(admin, newAddress))))
  }

  function SetStakeVaultEffect(s: Storage, e: Env, auth: set<Address>, admin: Address, newAddress: Address)
    : (r: Outcome<(Storage, Env)>)
  {
    var check := NeedAdmin(s, auth, admin);
    :- check;
    Ok((s.(wiring := Some(s.wiring.value.(stakeVault := newAddress))), Publish(e, StakeVaultUpdated(admin, newAddress))))
  }

  function CreateBuildEffect(s: Storage, e: Env, auth: set<Address>, employer: Address, reward: i128, hash: Hash)
    : (r: Outcome<(Storage, Env)>)
  {
    if employer !in auth then Panic(NotAuthorized) else
    :- Need(s.wiring.Some?, NotInitialized);
    var e1 :- TransferEffect(e, employer, EngineId, reward);
    :- Need(s.questCounter < U32_MAX, Overflow);
    var id := s.questCounter + 1;
    Ok((s.(questCounter := id, quests := s.quests[id := Quest(employer, reward, Build, hash, true)]),
        Publish(e1, QuestCreated(employer, id, reward))))
  }

  function CreateExploreEffect(s: Storage, e: Env, auth: set<Address>, admin: Address, reward: i128, hash: Hash)
    : (r: Outcome<(Storage, Env)>)
  {
    if admin !in auth then Panic(NotAuthorized) else
    :- Need(s.wiring.Some?, NotInitialized);
    :- Need(admin == s.wiring.value.admin, Unauthorized);
    :- Need(s.questCounter < U32_MAX, Overflow);
    var id := s.questCounter + 1;
    Ok((s.(questCounter := id, quests := s.quests[id := Quest(admin, reward, Explore, hash, true)]),
        Publish(e, QuestCreated(admin, id, reward))))
  }

  function SubmitProofEffect(s: Storage, e: Env, auth: set<Address>, learner: Address, questId: u32, hash: Hash)
    : (r: Outcome<(Storage, Env)>)
  {
    if learner !in auth then Panic(NotAuthorized) else
    :- Need(questId in s.quests, QuestNotFound);
    :- Need(s.quests[questId].active, QuestNotActive);
    :- Need(s.quests[questId].questType.Build?, NotABuildQuest);
    :- Need((learner, questId) !in s.submissions, SubmissionExists);
    Ok((s.(submissions := s.submissions[(learner, questId) := Submission(hash, Pending)]),
        Publish(e, ProofSubmitted(learner, questId, hash))))
  }

  /** The multiplier the wired vault answers: the platform's own vault, or whatever a foreign one replies. */
  function MultiplierOf(stakeVault: Address, vault: StakeVault.Storage, replies: Replies, learner: Address): Outcome<u32> {
    if stakeVault == VaultId then Ok(StakeVault.Multiplier(vault, learner))
    else if learner in replies.multipliers then Ok(replies.multipliers[learner])
    else Panic(ForeignCallFailed)
  }

  /** The split of one reward, from the multiplier the wired vault answers. */
  function Quote(stakeVault: Address, vault: StakeVault.Storage, replies: Replies, reward: i128, learner: Address)
    : Outcome<Payout>
  {
    var multiplier :- MultiplierOf(stakeVault, vault, replies, learner);
    ComputeLearnerPayout(reward, multiplier)
  }

  function SplitEffect(rewardPool: Address, e: Env, p: Payout, learner: Address, questId: u32): Outcome<Env> {
    var e1 :- TransferEffect(e, EngineId, rewardPool, p.fee);
    var e2 :- TransferEffect(e1, EngineId, learner, p.learnerAmount);
    Ok(if p.boostCapped then Publish(e2, PayoutComputed(learner, questId, p.fee, p.learnerAmount, p.boostActual, true)) else e2)
  }

  /** Splits a reward between the pool and the learner. */
  function PayEffect(w: Wiring, vault: StakeVault.Storage, e: Env, replies: Replies, reward: i128, learner: Address, questId: u32)
    : Outcome<Env>
  {
    var p :- Quote(w.stakeVault, vault, replies, reward, learner);
    SplitEffect(w.rewardPool, e, p, learner, questId)
  }

  function Judge(s: Storage, learner: Address, questId: u32, status: SubmissionStatus): Storage
    requires (learner, questId) in s.submissions
  {
    s.(submissions := s.submissions[(learner, questId) := s.submissions[(learner, questId)].(status := status)])
  }

  /** The decision itself: an approval pays before it is recorded. */
  function DecideEffect(
    s: Storage, vault: StakeVault.Storage, e: Env, replies: Replies, learner: Address, questId: u32, approve: bool)
    : Outcome<(Storage, Env)>
    requires questId in s.quests && (learner, questId) in s.submissions
  {
    var quest := s.quests[questId];
    if approve then
      :- Need(s.wiring.Some?, NotInitialized);
      var e1 :- PayEffect(s.wiring.value, vault, e, replies, quest.rewardAmount, learner, questId);
      Ok((Judge(s, learner, questId, Approved), Publish(e1, SubmissionReviewed(quest.employer, learner, questId, true))))
    else
      Ok((Judge(s, learner, questId, Rejected), Publish(e, SubmissionReviewed(quest.employer, learner, questId, false))))
  }

  function ReviewEffect(
    s: Storage, vault: StakeVault.Storage, e: Env, auth: set<Address>, replies: Replies,
    employer: Address, learner: Address, questId: u32, approve: bool): (r: Outcome<(Storage, Env)>)
  {
    if s.paused then Panic(ContractPaused) else
    :- Need(employer in auth, NotAuthorized);
    :- Need(questId in s.quests, QuestNotFound);
    :- Need(s.quests[questId].employer == employer, NotQuestEmployer);
    :- Need((learner, questId) in s.submissions, SubmissionNotFound);
    :- Need(s.submissions[(learner, questId)].status.Pending?, SubmissionNotPending);
    DecideEffect(s, vault, e, replies, learner, questId, approve)
  }

  /** The batch's loop over the remaining learners. */
  function ApproveAllEffect(
    s: Storage, w: Wiring, vault: StakeVault.Storage, e: Env, replies: Replies,
    quest: Quest, questId: u32, learners: seq<Address>): (r: Outcome<(Storage, Env)>)
    ensures r.Ok? ==> r.value.0 == s.(submissions := r.value.0.submissions)
    decreases |learners|
  {
    if learners == [] then Ok((s, e)) else
      var learner := learners[0];
      :- Need((learner, questId) in s.submissions, SubmissionNotFound);
      :- Need(s.submissions[(learner, questId)].status.Pending?, SubmissionNotPending);
      var e1 :- PayEffect(w, vault, e, replies, quest.rewardAmount, learner, questId);
      ApproveAllEffect(Judge(s, learner, questId, Approved), w, vault,
                       Publish(e1, SubmissionReviewed(quest.employer, learner, questId, true)),
                       replies, quest, questId, learners[1..])
  }

  function BatchEffect(
    s: Storage, vault: StakeVault.Storage, e: Env, auth: set<Address>, replies: Replies,
    employer: Address, questId: u32, learners: Learners): (r: Outcome<(Storage, Env)>)
  {
    if s.paused then Panic(ContractPaused) else
    :- Need(employer in auth, NotAuthorized);
    :- Need(questId in s.quests, QuestNotFound);
    :- Need(s.quests[questId].employer == employer, NotQuestEmployer);
    :- Need(s.wiring.Some?, NotInitialized);
    var (s', e') :- ApproveAllEffect(s, s.wiring.value, vault, e, replies, s.quests[questId], questId, learners);
    Ok((s', Publish(e', BatchReviewed(employer, questId, |learners|))))
  }

  function RefundEffect(s: Storage, e: Env, auth: set<Address>, employer: Address, questId: u32): (r: Outcome<(Storage, Env)>)
  {
    if employer !in auth then Panic(NotAuthorized) else
    :- Need(questId in s.quests, QuestNotFound);
    var quest := s.quests[questId];
    :- Need(quest.employer == employer, Unauthorized);
    :- Need(quest.active, QuestNotActive);
    :- Need(s.wiring.Some?, NotInitialized);
    var e1 :- TransferEffect(e, EngineId, employer, quest.rewardAmount);
    Ok((s.(quests := s.quests[questId := quest.(active := false)]),
        Publish(e1, QuestRefunded(employer, questId, quest.rewardAmount))))
  }

  function VerifyExploreEffect(
    s: Storage, pool: RewardPool.Storage, e: Env, auth: set<Address>, replies: Replies,
    admin: Address, learner: Address, questId: u32): (r: Outcome<Env>)
  {
    if admin !in auth then Panic(NotAuthorized) else
    :- Need(s.wiring.Some?, NotInitialized);
    :- Need(admin == s.wiring.value.admin, Unauthorized);
    :- Need(questId in s.quests, QuestNotFound);
    var quest := s.quests[questId];
    :- Need(quest.questType.Explore?, NotAnExploreQuest);
    var e1 :- (
      if s.wiring.value.rewardPool == PoolId then
        RewardPool.DistributeRewardEffect(pool, e, {EngineId}, EngineId, learner, quest.rewardAmount)
      else if replies.poolAccepts then Ok(e)
      else Panic(ForeignCallFailed));
    Ok(Publish(e1, ExploreQuestVerified(admin, learner, questId, quest.rewardAmount)))
  }

  function Exec(
    s: Storage, vault: StakeVault.Storage, pool: RewardPool.Storage, e: Env,
    auth: set<Address>, replies: Replies, c: Call): (r: Outcome<(Storage, Env)>)
  {
    match c
    case Initialize(admin, rewardPool, stakeVault) =>
      var s' :- InitializeEffect(s, auth, admin, rewardPool, stakeVault); Ok((s', e))
    case SetPause(admin, status) => var s' :- SetPauseEffect(s, auth, admin, status); Ok((s', e))
    case SetRewardPoolAddress(admin, newAddress) => SetRewardPoolEffect(s, e, auth, admin, newAddress)
    case SetStakeVaultAddress(admin, newAddress) => SetStakeVaultEffect(s, e, auth, admin, newAddress)
    case CreateBuildQuest(employer, reward, hash) => CreateBuildEffect(s, e, auth, employer, reward, hash)
    case CreateExploreQuest(admin, reward, hash) => CreateExploreEffect(s, e, auth, admin, reward, hash)
    case SubmitProof(learner, questId, hash) => SubmitProofEffect(s, e, auth, learner, questId, hash)
    case ReviewSubmission(employer, learner, questId, approve) =>
      ReviewEffect(s, vault, e, auth, replies, employer, learner, questId, approve)
    case BatchReviewSubmissions(employer, questId, learners) =>
      BatchEffect(s, vault, e, auth, replies, employer, questId, learners)
    case RefundQuest(employer, questId) => RefundEffect(s, e, auth, employer, questId)
    case VerifyExploreQuest(admin, learner, questId) =>
      var e' :- VerifyExploreEffect(s, pool, e, auth, replies, admin, learner, questId); Ok((s, e'))
  }

  class Contract {
    const host: Host
    const vault: StakeVault.Contract
    const pool: RewardPool.Contract
    var wiring: Option<Wiring>
    var paused: bool
    var questCounter: u32
    var quests: map<u32, Quest>
    var submissions: map<(Address, u32), Submission>

    /** All contracts live on one host. */
    ghost predicate Valid() {
      vault.host == host && pool.host == host
    }

    constructor (host: Host, vault: StakeVault.Contract, pool: RewardPool.Contract)
      requires vault.host == host && pool.host == host
      ensures Valid() && this.host == host && this.vault == vault && this.pool == pool
      ensures State() == Storage(None, false, 0, map[], map[])
    {
      this.host, this.vault, this.pool := host, vault, pool;
      wiring, paused, questCounter, quests, submissions := None, false, 0, map[], map[];
    }

    function State(): Storage
      reads this
    {
      Storage(wiring, paused, questCounter, quests, submissions)
    }

    method Initialize(auth: set<Address>, admin: Address, rewardPool: Address, stakeVault: Address) returns (r: Outcome<()>)
      modifies this`wiring, this`questCounter
      ensures r == InitializeEffect(old(State()), auth, admin, rewardPool, stakeVault).Verdict()
      ensures State() == After(InitializeEffect(old(State()), auth, admin, rewardPool, stakeVault), old(State()))
    {
      if wiring.Some? {
        return Panic(AlreadyInitialized);
      }
      if admin !in auth {
        return Panic(NotAuthorized);
      }
      wiring := Some(Wiring(admin, rewardPool, stakeVault));
      questCounter := 0;
      r := Ok(());
    }

    method SetPause(auth: set<Address>, admin: Address, status: bool) returns (r: Outcome<()>)
      modifies this`paused
      ensures r == SetPauseEffect(old(State()), auth, admin, status).Verdict()
      ensures State() == After(SetPauseEffect(old(State()), auth, admin, status), old(State()))
    {
      if wiring.None? {
        return Panic(NotInitialized);
      }
      if admin != wiring.value.admin {
        return Panic(Unauthorized);
      }
      if admin !in auth {
        return Panic(NotAuthorized);
      }
      paused := status;
      r := Ok(());
    }

    method SetRewardPoolAddress(auth: set<Address>, admin: Address, newAddress: Address) returns (r: Outcome<()>)
      modifies this`wiring, host`events
      ensures r == SetRewardPoolEffect(old(State()), old(host.View()), auth, admin, newAddress).Verdict()
      ensures (State(), host.View()) ==
        After(SetRewardPoolEffect(old(State()), old(host.View()), auth, admin, newAddress), old((State(), host.View())))
    {
      if wiring.None? {
        return Panic(NotInitialized);
      }
      if admin != wiring.value.admin {
        return Panic(Unauthorized);
      }
      if admin !in auth {
        return Panic(NotAuthorized);
      }
      wiring := Some(wiring.value.(rewardPool := newAddress));
      host.Emit(RewardPoolUpdated(admin, newAddress));
      r := Ok(());
    }

    method SetStakeVaultAddress(auth: set<Address>, admin: Address, newAddress: Address) returns (r: Outcome<()>)
      modifies this`wiring, host`events
      ensures r == SetStakeVaultEffect(old(State()), old(host.View()), auth, admin, newAddress).Verdict()
      ensures (State(), host.View()) ==
        After(SetStakeVaultEffect(old(State()), old(host.View()), auth, admin, newAddress), old((State(), host.View())))
    {
      if wiring.None? {
        return Panic(NotInitialized);
      }
      if admin != wiring.value.admin {
        return Panic(Unauthorized);
      }
      if admin !in auth {
        return Panic(NotAuthorized);
      }
      wiring := Some(wiring.value.(stakeVault := newAddress));
      host.Emit(StakeVaultUpdated(admin, newAddress));
      r := Ok(());
    }

    method CreateBuildQuest(auth: set<Address>, employer: Address, reward: i128, hash: Hash) returns (r: Outcome<u32>)
      modifies this`questCounter, this`quests, host`balances, host`events
      ensures r.Verdict() == CreateBuildEffect(old(State()), old(host.View()), auth, employer, reward, hash).Verdict()
      ensures r.Ok? ==> r.value == questCounter
      ensures (State(), host.View()) ==
        After(CreateBuildEffect(old(State()), old(host.View()), auth, employer, reward, hash), old((State(), host.View())))
    {
      if employer !in auth {
        return Panic(NotAuthorized);
      }
      if wiring.None? {
        return Panic(NotInitialized);
      }
      var frame := host.View();
      var paid := host.Transfer(employer, EngineId, reward);
      if paid.Panic? {
        return Panic(paid.reason);
      }
      if questCounter == U32_MAX {
        host.Revert(frame);
        return Panic(Overflow);
      }
      var questId := questCounter + 1;
      questCounter := questId;
      quests := quests[questId := Quest(employer, reward, Build, hash, true)];
      host.Emit(QuestCreated(employer, questId, reward));
      r := Ok(questId);
    }

    method CreateExploreQuest(auth: set<Address>, admin: Address, reward: i128, hash: Hash) returns (r: Outcome<u32>)
      modifies this`questCounter, this`quests, host`events
      ensures r.Verdict() == CreateExploreEffect(old(State()), old(host.View()), auth, admin, reward, hash).Verdict()
      ensures r.Ok? ==> r.value == questCounter
      ensures (State(), host.View()) ==
        After(CreateExploreEffect(old(State()), old(host.View()), auth, admin, reward, hash), old((State(), host.View())))
    {
      if admin !in auth {
        return Panic(NotAuthorized);
      }
      if wiring.None? {
        return Panic(NotInitialized);
      }
      if admin != wiring.value.admin {
        return Panic(Unauthorized);
      }
      if questCounter == U32_MAX {
        return Panic(Overflow);
      }
      var questId := questCounter + 1;
      questCounter := questId;
      quests := quests[questId := Quest(admin, reward, Explore, hash, true)];
      host.Emit(QuestCreated(admin, questId, reward));
      r := Ok(questId);
    }

    method SubmitProof(auth: set<Address>, learner: Address, questId: u32, hash: Hash) returns (r: Outcome<()>)
      modifies this`submissions, host`events
      ensures r == SubmitProofEffect(old(State()), old(host.View()), auth, learner, questId, hash).Verdict()
      ensures (State(), host.View()) ==
        After(SubmitProofEffect(old(State()), old(host.View()), auth, learner, questId, hash), old((State(), host.View())))
    {
      if learner !in auth {
        return Panic(NotAuthorized);
      }
      if questId !in quests {
        return Panic(QuestNotFound);
      }
      var quest := quests[questId];
      if !quest.active {
        return Panic(QuestNotActive);
      }
      if !quest.questType.Build? {
        return Panic(NotABuildQuest);
      }
      var key := (learner, questId);
      if key in submissions {
        return Panic(SubmissionExists);
      }
      submissions := submissions[key := Submission(hash, Pending)];
      host.Emit(ProofSubmitted(learner, questId, hash));
      r := Ok(());
    }

    /** Asks the wired vault for the multiplier and pays out of escrow; a partial payment is left to the caller to revert. */
    method Pay(w: Wiring, replies: Replies, reward: i128, learner: Address, questId: u32) returns (r: Outcome<()>)
      requires Valid()
      modifies host`balances, host`events
      ensures r == PayEffect(w, vault.State(), old(host.View()), replies, reward, learner, questId).Verdict()
      ensures r.Ok? ==> host.View() == PayEffect(w, vault.State(), old(host.View()), replies, reward, learner, questId).value
    {
      var multiplier: u32;
      if w.stakeVault == VaultId {
        multiplier := vault.GetMultiplier(learner);
      } else if learner in replies.multipliers {
        multiplier := replies.multipliers[learner];
      } else {
        return Panic(ForeignCallFailed);
      }
      var payout := ComputeLearnerPayout(reward, multiplier);
      if payout.Panic? {
        return Panic(payout.reason);
      }
      var p := payout.value;
      r := host.Transfer(EngineId, w.rewardPool, p.fee);
      if r.Panic? {
        return;
      }
      r := host.Transfer(EngineId, learner, p.learnerAmount);
      if r.Panic? {
        return;
      }
      if p.boostCapped {
        host.Emit(PayoutComputed(learner, questId, p.fee, p.learnerAmount, p.boostActual, p.boostCapped));
      }
    }

    method Decide(replies: Replies, learner: Address, questId: u32, approve: bool) returns (r: Outcome<()>)
      requires Valid()
      requires questId in quests && (learner, questId) in submissions
      modifies this`submissions, host`balances, host`events
      ensures r == DecideEffect(old(State()), vault.State(), old(host.View()), replies, learner, questId, approve).Verdict()
      ensures (State(), host.View()) ==
        After(DecideEffect(old(State()), vault.State(), old(host.View()), replies, learner, questId, approve),
              old((State(), host.View())))
    {
      var quest := quests[questId];
      var submission := submissions[(learner, questId)];
      if approve {
        if wiring.None? {
          return Panic(NotInitialized);
        }
        var frame := host.View();
        r := Pay(wiring.value, replies, quest.rewardAmount, learner, questId);
        if r.Panic? {
          host.Revert(frame);
          return;
        }
        submission := submission.(status := Approved);
      } else {
        submission := submission.(status := Rejected);
      }
      submissions := submissions[(learner, questId) := submission];
      host.Emit(SubmissionReviewed(quest.employer, learner, questId, approve));
      r := Ok(());
    }

    method ReviewSubmission(
      auth: set<Address>, replies: Replies, employer: Address, learner: Address, questId: u32, approve: bool)
      returns (r: Outcome<()>)
      requires Valid()
      modifies this`submissions, host`balances, host`events
      ensures r == ReviewEffect(old(State()), vault.State(), old(host.View()), auth, replies,
                                employer, learner, questId, approve).Verdict()
      ensures (State(), host.View()) ==
        After(ReviewEffect(old(State()), vault.State(), old(host.View()), auth, replies, employer, learner, questId, approve),
              old((State(), host.View())))
    {
      if paused {
        return Panic(ContractPaused);
      }
      if employer !in auth {
        return Panic(NotAuthorized);
      }
      if questId !in quests {
        return Panic(QuestNotFound);
      }
      if quests[questId].employer != employer {
        return Panic(NotQuestEmployer);
      }
      if (learner, questId) !in submissions {
        return Panic(SubmissionNotFound);
      }
      if !submissions[(learner, questId)].status.Pending? {
        return Panic(SubmissionNotPending);
      }
      r := Decide(replies, learner, questId, approve);
    }

    method BatchReviewSubmissions(
      auth: set<Address>, replies: Replies, employer: Address, questId: u32, learners: Learners)
      returns (r: Outcome<()>)
      requires Valid()
      modifies this`submissions, host`balances, host`events
      ensures r == BatchEffect(old(State()), vault.State(), old(host.View()), auth, replies, employer, questId, learners).Verdict()
      ensures (State(), host.View()) ==
        After(BatchEffect(old(State()), vault.State(), old(host.View()), auth, replies, employer, questId, learners),
              old((State(), host.View())))
    {
      if paused {
        return Panic(ContractPaused);
      }
      if employer !in auth {
        return Panic(NotAuthorized);
      }
      if questId !in quests {
        return Panic(QuestNotFound);
      }
      var quest := quests[questId];
      if quest.employer != employer {
        return Panic(NotQuestEmployer);
      }
      if wiring.None? {
        return Panic(NotInitialized);
      }
      var w := wiring.value;
      var frame, before := host.View(), submissions;
      ghost var whole := ApproveAllEffect(State(), w, vault.State(), frame, replies, quest, questId, learners);
      var approvedCount: u32 := 0;
      while approvedCount < |learners|
        invariant 0 <= approvedCount <= |learners|
        invariant State() == old(State()).(submissions := submissions)
        invariant host.now == frame.now
        invariant whole ==
          ApproveAllEffect(State(), w, vault.State(), host.View(), replies, quest, questId, learners[approvedCount..])
      {
        var learner := learners[approvedCount];
        var key := (learner, questId);
        if key !in submissions {
          submissions := before;
          host.Revert(frame);
          return Panic(SubmissionNotFound);
        }
        var submission := submissions[key];
        if !submission.status.Pending? {
          submissions := before;
          host.Revert(frame);
          return Panic(SubmissionNotPending);
        }
        r := Pay(w, replies, quest.rewardAmount, learner, questId);
        if r.Panic? {
          submissions := before;
          host.Revert(frame);
          return;
        }
        submissions := submissions[key := submission.(status := Approved)];
        host.Emit(SubmissionReviewed(employer, learner, questId, true));
        assert learners[approvedCount..][1..] == learners[approvedCount + 1..];
        approvedCount := approvedCount + 1;
      }
      host.Emit(BatchReviewed(employer, questId, approvedCount));
      r := Ok(());
    }

    method RefundQuest(auth: set<Address>, employer: Address, questId: u32) returns (r: Outcome<()>)
      modifies this`quests, host`balances, host`events
      ensures r == RefundEffect(old(State()), old(host.View()), auth, employer, questId).Verdict()
      ensures (State(), host.View()) ==
        After(RefundEffect(old(State()), old(host.View()), auth, employer, questId), old((State(), host.View())))
    {
      if employer !in auth {
        return Panic(NotAuthorized);
      }
      if questId !in quests {
        return Panic(QuestNotFound);
      }
      var quest := quests[questId];
      if quest.employer != employer {
        return Panic(Unauthorized);
      }
      if !quest.active {
        return Panic(QuestNotActive);
      }
      var before := quests;
      quests := quests[questId := quest.(active := false)];
      if wiring.None? {
        quests := before;
        return Panic(NotInitialized);
      }
      r := host.Transfer(EngineId, employer, quest.rewardAmount);
      if r.Panic? {
        quests := before;
        return;
      }
      host.Emit(QuestRefunded(employer, questId, quest.rewardAmount));
    }

    method VerifyExploreQuest(auth: set<Address>, replies: Replies, admin: Address, learner: Address, questId: u32)
      returns (r: Outcome<()>)
      requires Valid()
      modifies host`balances, host`events
      ensures r == VerifyExploreEffect(State(), pool.State(), old(host.View()), auth, replies, admin, learner, questId).Verdict()
      ensures host.View() ==
        After(VerifyExploreEffect(State(), pool.State(), old(host.View()), auth, replies, admin, learner, questId),
              old(host.View()))
    {
      if admin !in auth {
        return Panic(NotAuthorized);
      }
      if wiring.None? {
        return Panic(NotInitialized);
      }
      if admin != wiring.value.admin {
        return Panic(Unauthorized);
      }
      if questId !in quests {
        return Panic(QuestNotFound);
      }
      var quest := quests[questId];
      if !quest.questType.Explore? {
        return Panic(NotAnExploreQuest);
      }
      if wiring.value.rewardPool == PoolId {
        r := pool.DistributeReward({EngineId}, EngineId, learner, quest.rewardAmount);
      } else {
        r := if replies.poolAccepts then Ok(()) else Panic(ForeignCallFailed);
      }
      if r.Ok? {
        host.Emit(ExploreQuestVerified(admin, learner, questId, quest.rewardAmount));
      }
    }
  }
}
