/** Each engine call on its own: exactly when it succeeds and everything it changes, for any vault and any pool. */
module QuestCalls {
  import opened Outcomes
  import opened Soroban
  import opened Payouts
  import opened QuestEngine
  import opened QuestReviews
  import QuestEscrow
  import RewardPool
  import StakeVault

  // ---------------------------------------------------------------- settings

  lemma InitializeOutcome(
    s: Storage, vault: StakeVault.Storage, pool: RewardPool.Storage, e: Env, auth: set<Address>, replies: Replies,
    admin: Address, rewardPool: Address, stakeVault: Address)
    ensures var r := Exec(s, vault, pool, e, auth, replies, Initialize(admin, rewardPool, stakeVault));
      && (r.Ok? <==> s.wiring.None? && admin in auth)
      && (r.Ok? ==> r.value == (s.(wiring := Some(Wiring(admin, rewardPool, stakeVault)), questCounter := 0), e))
  {
  }

  predicate SignedByAdmin(s: Storage, auth: set<Address>, admin: Address) {
    s.wiring.Some? && s.wiring.value.admin == admin && admin in auth
  }

  /** The switch takes the given position, for the admin alone. */
  lemma SetPauseOutcome(
    s: Storage, vault: StakeVault.Storage, pool: RewardPool.Storage, e: Env, auth: set<Address>, replies: Replies,
    admin: Address, status: bool)
    ensures var r := Exec(s, vault, pool, e, auth, replies, SetPause(admin, status));
      && (r.Ok? <==> SignedByAdmin(s, auth, admin))
      && (r.Ok? ==> r.value == (s.(paused := status), e))
  {
  }

  /** Wiring is the admin's right, and takes the address given. */
  lemma WiringOutcome(
    s: Storage, vault: StakeVault.Storage, pool: RewardPool.Storage, e: Env, auth: set<Address>, replies: Replies,
    admin: Address, address: Address)
    ensures var rp := Exec(s, vault, pool, e, auth, replies, SetRewardPoolAddress(admin, address));
      var rv := Exec(s, vault, pool, e, auth, replies, SetStakeVaultAddress(admin, address));
      && (rp.Ok? <==> SignedByAdmin(s, auth, admin))
      && (rv.Ok? <==> SignedByAdmin(s, auth, admin))
      && (rp.Ok? ==>
            && rp.value.0 == s.(wiring := Some(s.wiring.value.(rewardPool := address)))
            && Logs(e, rp.value.1, [RewardPoolUpdated(admin, address)]))
      && (rv.Ok? ==>
            && rv.value.0 == s.(wiring := Some(s.wiring.value.(stakeVault := address)))
            && Logs(e, rv.value.1, [StakeVaultUpdated(admin, address)]))
  {
  }

  // ---------------------------------------------------------------- quests

  function WithQuest(s: Storage, quest: Quest): Storage
    requires s.questCounter < U32_MAX
  {
    s.(questCounter := s.questCounter + 1, quests := s.quests[s.questCounter + 1 := quest])
  }

  /** Anybody can create a Build quest by locking a non-negative reward they hold, all of it and from them alone. */
  lemma CreateBuildOutcome(
    s: Storage, vault: StakeVault.Storage, pool: RewardPool.Storage, e: Env, auth: set<Address>, replies: Replies,
    employer: Address, reward: i128, hash: Hash)
    ensures var r := Exec(s, vault, pool, e, auth, replies, CreateBuildQuest(employer, reward, hash));
      && (r.Ok? <==> employer in auth && s.wiring.Some? && 0 <= reward <= BalanceOf(e, employer) && s.questCounter < U32_MAX)
      && (r.Ok? ==>
            && r.value.0 == WithQuest(s, Quest(employer, reward, Build, hash, true))
            && Moves(e, r.value.1, employer, EngineId, reward)
            && r.value.1.events ==
                 e.events + [Transferred(employer, EngineId, reward), QuestCreated(employer, s.questCounter + 1, reward)])
  {
    TransferOutcome(e, employer, EngineId, reward);
  }

  /** An Explore quest is the admin's to create, with exactly the reward given and no money moved. */
  lemma CreateExploreOutcome(
    s: Storage, vault: StakeVault.Storage, pool: RewardPool.Storage, e: Env, auth: set<Address>, replies: Replies,
    admin: Address, reward: i128, hash: Hash)
    ensures var r := Exec(s, vault, pool, e, auth, replies, CreateExploreQuest(admin, reward, hash));
      && (r.Ok? <==> SignedByAdmin(s, auth, admin) && s.questCounter < U32_MAX)
      && (r.Ok? ==>
            && r.value.0 == WithQuest(s, Quest(admin, reward, Explore, hash, true))
            && Logs(e, r.value.1, [QuestCreated(admin, s.questCounter + 1, reward)]))
  {
  }

  /** Every learner can hand in once for every active Build quest. */
  lemma SubmitOutcome(
    s: Storage, vault: StakeVault.Storage, pool: RewardPool.Storage, e: Env, auth: set<Address>, replies: Replies,
    learner: Address, q: u32, hash: Hash)
    ensures var r := Exec(s, vault, pool, e, auth, replies, SubmitProof(learner, q, hash));
      && (r.Ok? <==>
            && learner in auth && q in s.quests && s.quests[q].active && s.quests[q].questType.Build?
            && (learner, q) !in s.submissions)
      && (r.Ok? ==>
            && r.value.0 == s.(submissions := s.submissions[(learner, q) := Submission(hash, Pending)])
            && Logs(e, r.value.1, [ProofSubmitted(learner, q, hash)]))
  {
  }

  /** A refund is the employer's right while the quest is active and the engine holds its reward, all of which it returns. */
  lemma RefundOutcome(
    s: Storage, vault: StakeVault.Storage, pool: RewardPool.Storage, e: Env, auth: set<Address>, replies: Replies,
    employer: Address, q: u32)
    ensures var r := Exec(s, vault, pool, e, auth, replies, RefundQuest(employer, q));
      && (r.Ok? <==>
            && employer in auth && q in s.quests && s.quests[q].employer == employer && s.quests[q].active
            && s.wiring.Some? && 0 <= s.quests[q].rewardAmount <= BalanceOf(e, EngineId))
      && (r.Ok? ==>
            var reward := s.quests[q].rewardAmount;
            && r.value.0 == s.(quests := s.quests[q := s.quests[q].(active := false)])
            && Moves(e, r.value.1, EngineId, employer, reward)
            && r.value.1.events ==
                 e.events + [Transferred(EngineId, employer, reward), QuestRefunded(employer, q, reward)])
  {
    if q in s.quests {
      TransferOutcome(e, EngineId, employer, s.quests[q].rewardAmount);
    }
  }

  /** Whether the wired pool would carry out an order of the engine now. */
  predicate RewardReady(w: Wiring, pool: RewardPool.Storage, e: Env, replies: Replies, reward: int) {
    if w.rewardPool == PoolId
    then !pool.paused && pool.admin.Some? && EngineId in pool.spenders && 0 < reward <= BalanceOf(e, PoolId)
    else replies.poolAccepts
  }

  function ExploreLog(own: bool, admin: Address, learner: Address, q: u32, reward: int): seq<Event> {
    (if own && 0 <= reward
     then [Transferred(PoolId, learner, reward), RewardDistributed(EngineId, learner, reward)] else [])
    + [ExploreQuestVerified(admin, learner, q, reward)]
  }

  /**
   An Explore reward is triggered by the engine's admin and nobody else, for an existing
   Explore quest whose reward the pool can pay. The learner gains exactly the stored
   reward, out of the platform's pool if that is the one wired.
   */
  lemma VerifyExploreOutcome(
    s: Storage, vault: StakeVault.Storage, pool: RewardPool.Storage, e: Env, auth: set<Address>, replies: Replies,
    admin: Address, learner: Address, q: u32)
    ensures var r := Exec(s, vault, pool, e, auth, replies, VerifyExploreQuest(admin, learner, q));
      && (r.Ok? <==>
            && SignedByAdmin(s, auth, admin) && q in s.quests && s.quests[q].questType.Explore?
            && RewardReady(s.wiring.value, pool, e, replies, s.quests[q].rewardAmount))
      && (r.Ok? ==>
            var (reward, own) := (s.quests[q].rewardAmount, s.wiring.value.rewardPool == PoolId);
            && r.value.0 == s && Moves(e, r.value.1, PoolId, learner, if own then reward as int else 0)
            && r.value.1.events == e.events + ExploreLog(own, admin, learner, q, reward))
  {
    if q in s.quests {
      RewardPool.DistributeOutcome(pool, e, {EngineId}, EngineId, learner, s.quests[q].rewardAmount);
    }
  }

  // ---------------------------------------------------------------- one payment

  /** The multiplier the wired vault answers for a learner, if it answers: by stake in the platform's own. */
  function Answer(w: Wiring, vault: StakeVault.Storage, replies: Replies, learner: Address): Option<u32> {
    if w.stakeVault == VaultId then
      var staked := if learner in vault.stakes then vault.stakes[learner].amount else 0;
      Some(if staked >= 500 then 200 else if staked >= 100 then 120 else 100)
    else if learner in replies.multipliers then Some(replies.multipliers[learner])
    else None
  }

  function Fee(reward: nat): nat {
    reward * 1500 / 10_000
  }

  /** What is left of a reward after the fee. */
  function Base(reward: nat): nat {
    FeeBounds(reward);
    reward - Fee(reward)
  }

  function Boosted(reward: nat, multiplier: nat): nat {
    Scaled(Base(reward), multiplier);
    Base(reward) * multiplier / 100
  }

  /** A learner's share: all that the fee leaves from multiplier 100 on, and in proportion below. */
  function Share(reward: nat, multiplier: nat): nat {
    if multiplier >= 100 then Base(reward) else Boosted(reward, multiplier)
  }

  lemma ShareWithinBase(reward: nat, multiplier: nat)
    ensures Share(reward, multiplier) <= Base(reward)
    ensures multiplier >= 100 ==> Boosted(reward, multiplier) >= Base(reward)
    ensures multiplier < 100 ==> Boosted(reward, multiplier) <= Base(reward)
  {
    Scaled(Base(reward), multiplier);
  }

  predicate Computable(reward: nat, multiplier: nat) {
    FitsI128(reward * 1500) && FitsI128(Base(reward) * multiplier)
  }

  lemma PayoutOutcome(reward: i128, multiplier: u32)
    requires 0 <= reward
    ensures var r := ComputeLearnerPayout(reward, multiplier);
      && (r.Ok? <==> Computable(reward, multiplier))
      && (r.Ok? ==>
            && r.value.fee == Fee(reward) && r.value.learnerAmount == Share(reward, multiplier)
            && r.value.boostActual == Boosted(reward, multiplier)
            && (r.value.boostCapped <==> Base(reward) < Boosted(reward, multiplier)))
  {
    FeeBounds(reward);
    Scaled(Base(reward), multiplier);
    ShareWithinBase(reward, multiplier);
  }

  /** Whether a learner's payment can be computed: the vault answers and nothing overflows. */
  predicate Quotable(w: Wiring, vault: StakeVault.Storage, replies: Replies, reward: nat, learner: Address) {
    var answer := Answer(w, vault, replies, learner);
    answer.Some? && Computable(reward, answer.value)
  }

  function ShareOf(w: Wiring, vault: StakeVault.Storage, replies: Replies, reward: nat, learner: Address): nat {
    var answer := Answer(w, vault, replies, learner);
    if answer.Some? then Share(reward, answer.value) else 0
  }

  lemma QuoteOutcome(w: Wiring, vault: StakeVault.Storage, replies: Replies, reward: i128, learner: Address)
    requires 0 <= reward
    ensures var r := Quote(w.stakeVault, vault, replies, reward, learner);
      && (r.Ok? <==> Quotable(w, vault, replies, reward, learner))
      && (r.Ok? ==>
            var m := Answer(w, vault, replies, learner).value;
            && r.value.fee == Fee(reward) && r.value.learnerAmount == ShareOf(w, vault, replies, reward, learner)
            && r.value.boostActual == Boosted(reward, m)
            && (r.value.boostCapped <==> Base(reward) < Boosted(reward, m)))
  {
    hide ComputeLearnerPayout, Fee, Share, Boosted, Computable;
    var answer := Answer(w, vault, replies, learner);
    if answer.Some? {
      PayoutOutcome(reward, answer.value);
    }
  }

  /** Two payments out of escrow, the fee to the pool and the share to the learner; nobody else gains or loses. */
  ghost predicate Splits(e: Env, e': Env, rewardPool: Address, learner: Address, fee: int, share: int) {
    && e'.now == e.now
    && forall a :: BalanceOf(e', a) == BalanceOf(e, a)
         - (if a == EngineId then fee + share else 0)
         + (if a == rewardPool then fee else 0) + (if a == learner then share else 0)
  }

  /** What a payment logs: both transfers, and the computation where the boost was cut back. */
  function PaymentLog(rewardPool: Address, reward: nat, learner: Address, q: u32, share: nat, boosted: nat): seq<Event> {
    [Transferred(EngineId, rewardPool, Fee(reward)), Transferred(EngineId, learner, share)]
    + (if Base(reward) < boosted then [PayoutComputed(learner, q, Fee(reward), share, boosted, true)] else [])
  }

  lemma TwoMoves(e: Env, e1: Env, e2: Env, rewardPool: Address, learner: Address, fee: int, share: int)
    requires Moves(e, e1, EngineId, rewardPool, fee) && Moves(e1, e2, EngineId, learner, share)
    ensures Splits(e, e2, rewardPool, learner, fee, share)
  {
  }

  lemma SplitSucceeds(rewardPool: Address, e: Env, p: Payout, learner: Address, q: u32)
    requires 0 <= p.fee && 0 <= p.learnerAmount
    ensures SplitEffect(rewardPool, e, p, learner, q).Ok? <==>
      && p.fee <= BalanceOf(e, EngineId)
      && p.learnerAmount + (if rewardPool == EngineId then 0 else p.fee) <= BalanceOf(e, EngineId)
  {
    hide TransferEffect;
    TransferOutcome(e, EngineId, rewardPool, p.fee);
    var r1 := TransferEffect(e, EngineId, rewardPool, p.fee);
    if r1.Ok? {
      TransferOutcome(r1.value, EngineId, learner, p.learnerAmount);
    }
  }

  lemma SplitChanges(rewardPool: Address, e: Env, p: Payout, learner: Address, q: u32, e': Env)
    requires SplitEffect(rewardPool, e, p, learner, q) == Ok(e')
    ensures 0 <= p.fee && 0 <= p.learnerAmount
    ensures Splits(e, e', rewardPool, learner, p.fee, p.learnerAmount)
    ensures e'.events == e.events
      + [Transferred(EngineId, rewardPool, p.fee), Transferred(EngineId, learner, p.learnerAmount)]
      + (if p.boostCapped then [PayoutComputed(learner, q, p.fee, p.learnerAmount, p.boostActual, true)] else [])
  {
    hide TransferEffect, Splits, Moves;
    var e1 := TransferEffect(e, EngineId, rewardPool, p.fee).value;
    var e2 := TransferEffect(e1, EngineId, learner, p.learnerAmount).value;
    TransferOutcome(e, EngineId, rewardPool, p.fee);
    TransferOutcome(e1, EngineId, learner, p.learnerAmount);
    TwoMoves(e, e1, e2, rewardPool, learner, p.fee, p.learnerAmount);
    SameSplits(e, e2, e', rewardPool, learner, p.fee, p.learnerAmount);
  }

  lemma SameSplits(e: Env, e2: Env, e': Env, rewardPool: Address, learner: Address, fee: int, share: int)
    requires Splits(e, e2, rewardPool, learner, fee, share) && e'.balances == e2.balances && e'.now == e2.now
    ensures Splits(e, e', rewardPool, learner, fee, share)
  {
  }

  /** Whether the escrow holds one payment; a fee to the engine itself stays. */
  predicate Affordable(w: Wiring, e: Env, fee: nat, share: nat) {
    fee <= BalanceOf(e, EngineId) && share + (if w.rewardPool == EngineId then 0 else fee) <= BalanceOf(e, EngineId)
  }

  lemma PaymentOutcome(
    w: Wiring, vault: StakeVault.Storage, e: Env, replies: Replies, reward: i128, learner: Address, q: u32)
    requires 0 <= reward
    ensures var r := PayEffect(w, vault, e, replies, reward, learner, q);
      var share := ShareOf(w, vault, replies, reward, learner);
      && (r.Ok? <==> Quotable(w, vault, replies, reward, learner) && Affordable(w, e, Fee(reward), share))
      && (r.Ok? ==>
            && Splits(e, r.value, w.rewardPool, learner, Fee(reward), share)
            && r.value.events == e.events + PaymentLog(w.rewardPool, reward, learner, q, share,
                                                       Boosted(reward, Answer(w, vault, replies, learner).value)))
  {
    hide Quote, SplitEffect, Fee, Base, Boosted, ShareOf, Quotable, Answer, Splits;
    QuoteOutcome(w, vault, replies, reward, learner);
    var quote := Quote(w.stakeVault, vault, replies, reward, learner);
    if quote.Ok? {
      SplitSucceeds(w.rewardPool, e, quote.value, learner, q);
      var r := SplitEffect(w.rewardPool, e, quote.value, learner, q);
      if r.Ok? {
        SplitChanges(w.rewardPool, e, quote.value, learner, q, r.value);
      }
    }
  }

  // ---------------------------------------------------------------- reviewing

  predicate MayJudge(s: Storage, auth: set<Address>, employer: Address, learner: Address, q: u32) {
    && !s.paused && employer in auth && q in s.quests && s.quests[q].employer == employer
    && (learner, q) in s.submissions && s.submissions[(learner, q)].status.Pending?
  }

  /** The employer can always reject a pending submission, at no cost and with no wiring. */
  lemma RejectOutcome(
    s: Storage, vault: StakeVault.Storage, pool: RewardPool.Storage, e: Env, auth: set<Address>, replies: Replies,
    employer: Address, learner: Address, q: u32)
    ensures var r := Exec(s, vault, pool, e, auth, replies, ReviewSubmission(employer, learner, q, false));
      && (r.Ok? <==> MayJudge(s, auth, employer, learner, q))
      && (r.Ok? ==>
            && r.value.0 == s.(submissions := s.submissions[(learner, q) :=
                                 Submission(s.submissions[(learner, q)].proofHash, Rejected)])
            && Logs(e, r.value.1, [SubmissionReviewed(employer, learner, q, false)]))
  {
  }

  /**
   In every reachable state the employer can approve a pending submission exactly when its
   payment can be computed and the escrow holds it. The learner then gains exactly the
   share, the pool exactly the fee, the escrow loses both, and nobody else is touched.
   */
  lemma ApproveOutcome(
    s: Storage, vault: StakeVault.Storage, pool: RewardPool.Storage, e: Env, auth: set<Address>, replies: Replies,
    employer: Address, learner: Address, q: u32)
    requires QuestEscrow.WellFormed(s)
    ensures (learner, q) in s.submissions ==> q in s.quests && 0 <= s.quests[q].rewardAmount
    ensures var r := Exec(s, vault, pool, e, auth, replies, ReviewSubmission(employer, learner, q, true));
      && (r.Ok? <==>
            && MayJudge(s, auth, employer, learner, q) && s.wiring.Some?
            && var reward := s.quests[q].rewardAmount;
               var w := s.wiring.value;
            && Quotable(w, vault, replies, reward, learner)
            && Affordable(w, e, Fee(reward), ShareOf(w, vault, replies, reward, learner)))
      && (r.Ok? ==>
            var (w, reward) := (s.wiring.value, s.quests[q].rewardAmount);
            var share := ShareOf(w, vault, replies, reward, learner);
            && r.value.0 == s.(submissions := s.submissions[(learner, q) :=
                                 Submission(s.submissions[(learner, q)].proofHash, Approved)])
            && Splits(e, r.value.1, w.rewardPool, learner, Fee(reward), share)
            && r.value.1.events == e.events
                 + PaymentLog(w.rewardPool, reward, learner, q, share, Boosted(reward, Answer(w, vault, replies, learner).value))
                 + [SubmissionReviewed(employer, learner, q, true)])
  {
    hide PayEffect, PaymentLog, Fee, Boosted, ShareOf, Quotable, Affordable, Answer;
    if MayJudge(s, auth, employer, learner, q) && s.wiring.Some? {
      PaymentOutcome(s.wiring.value, vault, e, replies, s.quests[q].rewardAmount, learner, q);
    }
  }

  /** With the platform's vault the share is all that the fee leaves, whatever has been staked. */
  lemma OwnVaultShare(w: Wiring, vault: StakeVault.Storage, replies: Replies, reward: i128, learner: Address)
    requires w.stakeVault == VaultId && 0 <= reward
    ensures ShareOf(w, vault, replies, reward, learner) == reward - reward * 1500 / 10_000
    ensures Quotable(w, vault, replies, reward, learner) <==> FitsI128(reward * 1500)
  {
    FeeBounds(reward);
    var m := Answer(w, vault, replies, learner).value;
    ProductMonotone(Base(reward), reward, m, 1500);
    Scaled(Base(reward), m);
  }

  // ---------------------------------------------------------------- batches

  /** The shares of a list of learners, together. */
  function Shares(w: Wiring, vault: StakeVault.Storage, replies: Replies, reward: nat, learners: seq<Address>): nat {
    if learners == [] then 0
    else ShareOf(w, vault, replies, reward, learners[0]) + Shares(w, vault, replies, reward, learners[1..])
  }

  /** What one address gains from the shares of a list of learners. */
  function Gain(w: Wiring, vault: StakeVault.Storage, replies: Replies, reward: nat, learners: seq<Address>, a: Address): nat {
    if learners == [] then 0 else
      (if a == learners[0] then ShareOf(w, vault, replies, reward, a) else 0) + Gain(w, vault, replies, reward, learners[1..], a)
  }

  /** Where nobody is listed twice, the listed gain their share once and the others nothing. */
  lemma {:induction false} GainOnce(
    w: Wiring, vault: StakeVault.Storage, replies: Replies, reward: nat, learners: seq<Address>, a: Address)
    requires PairwiseDistinct(learners)
    ensures Gain(w, vault, replies, reward, learners, a) ==
      if a in learners then ShareOf(w, vault, replies, reward, a) else 0
    decreases |learners|
  {
    if learners == [] {
    } else {
      assert forall i :: 0 <= i < |learners[1..]| ==> learners[1..][i] == learners[i + 1];
      GainOnce(w, vault, replies, reward, learners[1..], a);
      assert a in learners <==> a == learners[0] || a in learners[1..];
    }
  }

  /** The submissions of a quest's listed learners approved, everything else as it was. */
  ghost predicate Approves(s: Storage, s': Storage, q: u32, learners: seq<Address>) {
    && s' == s.(submissions := s'.submissions)
    && s'.submissions.Keys == s.submissions.Keys
    && (forall k :: k in s.submissions ==> s'.submissions[k].proofHash == s.submissions[k].proofHash)
    && (forall k :: k in s.submissions && k.1 == q && k.0 in learners ==> s'.submissions[k].status.Approved?)
    && (forall k :: k in s.submissions && !(k.1 == q && k.0 in learners) ==> s'.submissions[k] == s.submissions[k])
  }

  /** Payments to a list of learners: their shares, and one fee each to the pool. */
  ghost predicate SplitsAll(
    w: Wiring, vault: StakeVault.Storage, replies: Replies, reward: nat, learners: seq<Address>, e: Env, e': Env)
  {
    var fees, shares := Times(|learners|, Fee(reward)), Shares(w, vault, replies, reward, learners);
    && e'.now == e.now
    && forall a :: BalanceOf(e', a) == BalanceOf(e, a)
         - (if a == EngineId then fees + shares else 0)
         + (if a == w.rewardPool then fees else 0) + Gain(w, vault, replies, reward, learners, a)
  }

  lemma OneMorePaid(
    w: Wiring, vault: StakeVault.Storage, replies: Replies, reward: nat, learners: seq<Address>, e: Env, e1: Env, e2: Env, e': Env)
    requires learners != []
    requires Splits(e, e1, w.rewardPool, learners[0], Fee(reward), ShareOf(w, vault, replies, reward, learners[0]))
    requires e2.balances == e1.balances && e2.now == e1.now
    requires SplitsAll(w, vault, replies, reward, learners[1..], e2, e')
    ensures SplitsAll(w, vault, replies, reward, learners, e, e')
  {
    hide ShareOf, Fee, Times;
    TimesNext(|learners|, Fee(reward));
    assert Shares(w, vault, replies, reward, learners) ==
      ShareOf(w, vault, replies, reward, learners[0]) + Shares(w, vault, replies, reward, learners[1..]);
    forall a
      ensures Gain(w, vault, replies, reward, learners, a) ==
        (if a == learners[0] then ShareOf(w, vault, replies, reward, a) else 0)
        + Gain(w, vault, replies, reward, learners[1..], a)
      ensures BalanceOf(e2, a) == BalanceOf(e1, a)
    {
    }
  }

  lemma OneMoreApproved(s: Storage, s1: Storage, s': Storage, q: u32, learners: seq<Address>)
    requires learners != [] && (learners[0], q) in s.submissions
    requires s1 == Judge(s, learners[0], q, Approved) && Approves(s1, s', q, learners[1..])
    ensures Approves(s, s', q, learners)
  {
    assert forall a :: a in learners <==> a == learners[0] || a in learners[1..];
  }

  lemma {:induction false} LoopChanges(
    s: Storage, w: Wiring, vault: StakeVault.Storage, e: Env, replies: Replies,
    quest: Quest, q: u32, learners: seq<Address>, s': Storage, e': Env)
    requires 0 <= quest.rewardAmount
    requires ApproveAllEffect(s, w, vault, e, replies, quest, q, learners) == Ok((s', e'))
    ensures Approves(s, s', q, learners)
    ensures SplitsAll(w, vault, replies, quest.rewardAmount, learners, e, e')
    decreases |learners|
  {
    var reward: nat := quest.rewardAmount;
    if learners == [] {
      assert Times(0, Fee(reward)) == 0;
    } else {
      hide PayEffect, Approves, SplitsAll, Splits;
      var learner := learners[0];
      var e1 := PayEffect(w, vault, e, replies, quest.rewardAmount, learner, q).value;
      var e2 := Publish(e1, SubmissionReviewed(quest.employer, learner, q, true));
      var s1 := Judge(s, learner, q, Approved);
      PaymentOutcome(w, vault, e, replies, quest.rewardAmount, learner, q);
      LoopChanges(s1, w, vault, e2, replies, quest, q, learners[1..], s', e');
      hide ApproveAllEffect;
      OneMorePaid(w, vault, replies, reward, learners, e, e1, e2, e');
      OneMoreApproved(s, s1, s', q, learners);
    }
  }

  ghost predicate AllQuotable(w: Wiring, vault: StakeVault.Storage, replies: Replies, reward: nat, learners: seq<Address>) {
    forall i :: 0 <= i < |learners| ==> Quotable(w, vault, replies, reward, learners[i])
  }

  lemma QuotableNext(w: Wiring, vault: StakeVault.Storage, replies: Replies, reward: nat, learners: seq<Address>)
    requires learners != []
    ensures AllQuotable(w, vault, replies, reward, learners) <==>
      Quotable(w, vault, replies, reward, learners[0]) && AllQuotable(w, vault, replies, reward, learners[1..])
  {
    hide Quotable;
    if AllQuotable(w, vault, replies, reward, learners[1..]) {
      forall i | 0 < i < |learners| ensures Quotable(w, vault, replies, reward, learners[i]) {
        assert learners[1..][i - 1] == learners[i];
      }
    }
    if AllQuotable(w, vault, replies, reward, learners) {
      forall i | 0 <= i < |learners[1..]| ensures Quotable(w, vault, replies, reward, learners[1..][i]) {
        assert learners[1..][i] == learners[i + 1];
      }
    }
  }

  /** Whether an amount in escrow lasts for payments to a list of learners in turn; fees to the engine itself stay. */
  predicate EscrowLasts(
    w: Wiring, vault: StakeVault.Storage, replies: Replies, reward: nat, learners: seq<Address>, held: int)
    decreases |learners|
  {
    learners != [] ==>
      var share, kept := ShareOf(w, vault, replies, reward, learners[0]), if w.rewardPool == EngineId then 0 else Fee(reward);
      && Fee(reward) <= held && share + kept <= held
      && EscrowLasts(w, vault, replies, reward, learners[1..], held - share - kept)
  }

  /** With any pool but the engine, it lasts exactly when it covers all shares and fees. */
  lemma {:induction false} LastsExactly(
    w: Wiring, vault: StakeVault.Storage, replies: Replies, reward: nat, learners: seq<Address>, held: nat)
    requires w.rewardPool != EngineId
    ensures EscrowLasts(w, vault, replies, reward, learners, held) <==>
      Times(|learners|, Fee(reward)) + Shares(w, vault, replies, reward, learners) <= held
    decreases |learners|
  {
    if learners == [] {
      assert Times(0, Fee(reward)) == 0;
    } else {
      hide Times, Fee, ShareOf;
      TimesNext(|learners|, Fee(reward));
      var out := ShareOf(w, vault, replies, reward, learners[0]) + Fee(reward);
      if out <= held {
        LastsExactly(w, vault, replies, reward, learners[1..], held - out);
      }
    }
  }

  /** What one payment takes out of escrow. */
  function Outgoing(w: Wiring, vault: StakeVault.Storage, replies: Replies, reward: nat, learner: Address): nat {
    ShareOf(w, vault, replies, reward, learner) + (if w.rewardPool == EngineId then 0 else Fee(reward))
  }

  lemma LastsNext(w: Wiring, vault: StakeVault.Storage, replies: Replies, reward: nat, learners: seq<Address>, held: int)
    requires learners != []
    ensures EscrowLasts(w, vault, replies, reward, learners, held) <==>
      && Fee(reward) <= held && Outgoing(w, vault, replies, reward, learners[0]) <= held
      && EscrowLasts(w, vault, replies, reward, learners[1..], held - Outgoing(w, vault, replies, reward, learners[0]))
  {
    hide Fee, ShareOf;
  }

  /** A payment as the escrow sees it. */
  lemma EscrowPays(
    w: Wiring, vault: StakeVault.Storage, e: Env, replies: Replies, reward: i128, learner: Address, q: u32)
    requires 0 <= reward && learner != EngineId
    ensures var r := PayEffect(w, vault, e, replies, reward, learner, q);
      var held := BalanceOf(e, EngineId);
      && (r.Ok? <==>
            && Quotable(w, vault, replies, reward, learner)
            && Fee(reward) <= held && Outgoing(w, vault, replies, reward, learner) <= held)
      && (r.Ok? ==> BalanceOf(r.value, EngineId) == held - Outgoing(w, vault, replies, reward, learner))
  {
    hide PayEffect, Fee, ShareOf, Quotable, PaymentLog, Boosted, Answer;
    PaymentOutcome(w, vault, e, replies, reward, learner, q);
  }

  lemma {:induction false} LoopSucceeds(
    s: Storage, w: Wiring, vault: StakeVault.Storage, e: Env, replies: Replies, quest: Quest, q: u32, learners: seq<Address>)
    requires 0 <= quest.rewardAmount
    requires forall k :: k in s.submissions ==> k.0.Outside?
    ensures var reward: nat := quest.rewardAmount;
      ApproveAllEffect(s, w, vault, e, replies, quest, q, learners).Ok? <==>
        && AllPending(s, q, learners) && PairwiseDistinct(learners) && AllQuotable(w, vault, replies, reward, learners)
        && EscrowLasts(w, vault, replies, reward, learners, BalanceOf(e, EngineId))
    decreases |learners|
  {
    var reward: nat := quest.rewardAmount;
    if learners == [] {
    } else if (learners[0], q) in s.submissions && s.submissions[(learners[0], q)].status.Pending? {
      hide PayEffect, Fee, Quotable, AllPending, PairwiseDistinct, AllQuotable, EscrowLasts, Outgoing;
      var learner := learners[0];
      QuotableNext(w, vault, replies, reward, learners);
      JudgedOthers(s, q, learners);
      LastsNext(w, vault, replies, reward, learners, BalanceOf(e, EngineId));
      EscrowPays(w, vault, e, replies, quest.rewardAmount, learner, q);
      var r := PayEffect(w, vault, e, replies, quest.rewardAmount, learner, q);
      if r.Ok? {
        LoopSucceeds(Judge(s, learner, q, Approved), w, vault,
                     Publish(r.value, SubmissionReviewed(quest.employer, learner, q, true)), replies, quest, q, learners[1..]);
      }
    } else {
      assert !AllPending(s, q, learners);
    }
  }

  /**
   A batch approves exactly the listed learners and pays each of them exactly their share
   once; the pool gains one fee for each, the escrow loses all of it, and nobody else
   gains or loses, for any vault and any pool.
   */
  lemma BatchChanges(
    s: Storage, vault: StakeVault.Storage, pool: RewardPool.Storage, e: Env, auth: set<Address>, replies: Replies,
    employer: Address, q: u32, learners: Learners, s': Storage, e': Env)
    requires QuestEscrow.WellFormed(s) && q in s.quests && 0 <= s.quests[q].rewardAmount
    requires Exec(s, vault, pool, e, auth, replies, BatchReviewSubmissions(employer, q, learners)) == Ok((s', e'))
    ensures s.wiring.Some? && AllPending(s, q, learners) && PairwiseDistinct(learners)
    ensures Approves(s, s', q, learners)
    ensures SplitsAll(s.wiring.value, vault, replies, s.quests[q].rewardAmount, learners, e, e')
    ensures var (w, reward) := (s.wiring.value, s.quests[q].rewardAmount);
      forall a :: Gain(w, vault, replies, reward, learners, a) ==
                  if a in learners then ShareOf(w, vault, replies, reward, a) else 0
  {
    hide ApproveAllEffect, Approves, Gain, ShareOf, Shares, Fee, Times;
    var reward: nat := s.quests[q].rewardAmount;
    var (s1, e1) := ApproveAllEffect(s, s.wiring.value, vault, e, replies, s.quests[q], q, learners).value;
    LoopDistinct(s, s.wiring.value, vault, e, replies, s.quests[q], q, learners);
    LoopChanges(s, s.wiring.value, vault, e, replies, s.quests[q], q, learners, s1, e1);
    forall a ensures Gain(s.wiring.value, vault, replies, reward, learners, a) ==
      if a in learners then ShareOf(s.wiring.value, vault, replies, reward, a) else 0
    {
      GainOnce(s.wiring.value, vault, replies, reward, learners, a);
    }
  }

  lemma {:induction false} LoopDistinct(
    s: Storage, w: Wiring, vault: StakeVault.Storage, e: Env, replies: Replies, quest: Quest, q: u32, learners: seq<Address>)
    requires ApproveAllEffect(s, w, vault, e, replies, quest, q, learners).Ok?
    ensures AllPending(s, q, learners) && PairwiseDistinct(learners)
    decreases |learners|
  {
    if learners == [] {
    } else {
      hide PayEffect, AllPending, PairwiseDistinct;
      var e1 := PayEffect(w, vault, e, replies, quest.rewardAmount, learners[0], q).value;
      LoopDistinct(Judge(s, learners[0], q, Approved), w, vault,
                   Publish(e1, SubmissionReviewed(quest.employer, learners[0], q, true)), replies, quest, q, learners[1..]);
      JudgedOthers(s, q, learners);
    }
  }

  /**
   For any vault and any pool, a batch succeeds exactly when the employer signs and owns
   the quest, the learners are distinct, pending and quotable, and the escrow lasts for
   all of them; with any pool but the engine itself that is the sum of shares and fees.
   */
  lemma BatchSucceeds(
    s: Storage, vault: StakeVault.Storage, pool: RewardPool.Storage, e: Env, auth: set<Address>, replies: Replies,
    employer: Address, q: u32, learners: Learners)
    requires QuestEscrow.WellFormed(s) && q in s.quests && 0 <= s.quests[q].rewardAmount && s.wiring.Some?
    ensures var w := s.wiring.value;
      var (reward, held) := (s.quests[q].rewardAmount, BalanceOf(e, EngineId));
      && (Exec(s, vault, pool, e, auth, replies, BatchReviewSubmissions(employer, q, learners)).Ok? <==>
            && !s.paused && employer in auth && s.quests[q].employer == employer
            && AllPending(s, q, learners) && PairwiseDistinct(learners) && AllQuotable(w, vault, replies, reward, learners)
            && EscrowLasts(w, vault, replies, reward, learners, held))
      && (w.rewardPool != EngineId ==>
            (EscrowLasts(w, vault, replies, reward, learners, held) <==>
             Times(|learners|, Fee(reward)) + Shares(w, vault, replies, reward, learners) <= held))
  {
    hide ApproveAllEffect, AllPending, PairwiseDistinct, AllQuotable, Shares, Times, Fee, EscrowLasts;
    LoopSucceeds(s, s.wiring.value, vault, e, replies, s.quests[q], q, learners);
    if s.wiring.value.rewardPool != EngineId {
      LastsExactly(s.wiring.value, vault, replies, s.quests[q].rewardAmount, learners, BalanceOf(e, EngineId));
    }
  }
}
