/** What reviewing does: one by one and in batches, and exactly when a batch goes through. */
module QuestReviews {
  import opened Outcomes
  import opened Soroban
  import opened Payouts
  import opened QuestEngine
  import RewardPool
  import StakeVault

  /** Meters that only reviews, refunds and explore verifications move. */
  predicate Verdict(m: Meter) {
    m.Settlements? || m.Reviews? || m.Approvals? || m.ExplorePaid?
  }

  ghost predicate NoVerdicts(e: Env, e': Env) {
    forall m :: Verdict(m) ==> Tally(m, e'.events) == Tally(m, e.events)
  }

  lemma TwoPayments(e: Env, e1: Env, e2: Env, to1: Address, to2: Address, amount1: nat, amount2: nat)
    requires Paid(e, e1, EngineId, to1, amount1) && Paid(e1, e2, EngineId, to2, amount2)
    ensures NoVerdicts(e, e2)
    ensures Tally(Sent(EngineId), e2.events) == Tally(Sent(EngineId), e.events) + amount1 + amount2
  {
    forall m | Verdict(m) ensures Tally(m, e2.events) == Tally(m, e.events) {
      assert Tally(m, e1.events) == Tally(m, e.events);
    }
    assert Tally(Sent(EngineId), e1.events) == Tally(Sent(EngineId), e.events) + amount1;
  }

  /** The engine paid `amount` out of escrow and did nothing else. */
  ghost predicate EscrowPaid(e: Env, e': Env, amount: int) {
    && Frame(e, e', {EngineId})
    && NoVerdicts(e, e')
    && Tally(Sent(EngineId), e'.events) == Tally(Sent(EngineId), e.events) + amount
  }

  lemma BothPaid(e: Env, rewardPool: Address, p: Payout, learner: Address)
    requires TransferEffect(e, EngineId, rewardPool, p.fee).Ok?
    requires TransferEffect(TransferEffect(e, EngineId, rewardPool, p.fee).value, EngineId, learner, p.learnerAmount).Ok?
    ensures 0 <= p.fee && 0 <= p.learnerAmount
    ensures var e1 := TransferEffect(e, EngineId, rewardPool, p.fee).value;
      EscrowPaid(e, TransferEffect(e1, EngineId, learner, p.learnerAmount).value, p.fee + p.learnerAmount)
  {
    var e1 := TransferEffect(e, EngineId, rewardPool, p.fee).value;
    var e2 := TransferEffect(e1, EngineId, learner, p.learnerAmount).value;
    Transfers(e, EngineId, rewardPool, p.fee, {EngineId});
    Transfers(e1, EngineId, learner, p.learnerAmount, {EngineId});
    FrameTrans(e, e1, e2, {EngineId});
    TwoPayments(e, e1, e2, rewardPool, learner, p.fee, p.learnerAmount);
  }

  lemma PaidAndAnnounced(e: Env, e2: Env, e3: Env, ev: Event, amount: int)
    requires EscrowPaid(e, e2, amount)
    requires ev.PayoutComputed? && e3 == Publish(e2, ev)
    ensures EscrowPaid(e, e3, amount)
  {
    Published(e2, ev, {EngineId});
    FrameTrans(e, e2, e3, {EngineId});
    forall m | Verdict(m) ensures Tally(m, e3.events) == Tally(m, e.events) {
      assert Weight(m, ev) == 0;
    }
  }

  lemma SplitPays(rewardPool: Address, e: Env, p: Payout, learner: Address, questId: u32)
    requires SplitEffect(rewardPool, e, p, learner, questId).Ok?
    ensures 0 <= p.fee && 0 <= p.learnerAmount
    ensures EscrowPaid(e, SplitEffect(rewardPool, e, p, learner, questId).value, p.fee + p.learnerAmount)
  {
    var e1 := TransferEffect(e, EngineId, rewardPool, p.fee).value;
    var e2 := TransferEffect(e1, EngineId, learner, p.learnerAmount).value;
    var ev := PayoutComputed(learner, questId, p.fee, p.learnerAmount, p.boostActual, true);
    assert SplitEffect(rewardPool, e, p, learner, questId).value == if p.boostCapped then Publish(e2, ev) else e2;
    BothPaid(e, rewardPool, p, learner);
    PaidAndAnnounced(e, e2, Publish(e2, ev), ev, p.fee + p.learnerAmount);
  }

  /** Both transfers go through exactly when the escrow holds their sum. */
  lemma SplitExactly(rewardPool: Address, e: Env, p: Payout, learner: Address, questId: u32)
    requires rewardPool != EngineId && learner != EngineId
    requires 0 <= p.fee && 0 <= p.learnerAmount
    ensures SplitEffect(rewardPool, e, p, learner, questId).Ok? <==> p.fee + p.learnerAmount <= BalanceOf(e, EngineId)
    ensures SplitEffect(rewardPool, e, p, learner, questId).Ok? ==>
      var e' := SplitEffect(rewardPool, e, p, learner, questId).value;
      && BalanceOf(e', EngineId) == BalanceOf(e, EngineId) - p.fee - p.learnerAmount
      && (learner != rewardPool ==> BalanceOf(e', rewardPool) == BalanceOf(e, rewardPool) + p.fee)
  {
    if p.fee <= BalanceOf(e, EngineId) {
      Transfers(e, EngineId, rewardPool, p.fee, {EngineId});
      var e1 := TransferEffect(e, EngineId, rewardPool, p.fee).value;
      if p.learnerAmount <= BalanceOf(e1, EngineId) {
        Transfers(e1, EngineId, learner, p.learnerAmount, {EngineId});
      }
    }
  }

  /** What the escrow holds in full it can pay in two parts, to anybody. */
  lemma SplitFits(rewardPool: Address, e: Env, p: Payout, learner: Address, questId: u32)
    requires 0 <= p.fee && 0 <= p.learnerAmount && p.fee + p.learnerAmount <= BalanceOf(e, EngineId)
    ensures SplitEffect(rewardPool, e, p, learner, questId).Ok?
  {
    Transfers(e, EngineId, rewardPool, p.fee, {EngineId});
  }

  // ---------------------------------------------------------------- batch refines single

  /** Approving the same learners one by one. */
  function ReviewEachEffect(
    s: Storage, vault: StakeVault.Storage, e: Env, auth: set<Address>, replies: Replies,
    employer: Address, questId: u32, learners: seq<Address>): Outcome<(Storage, Env)>
    decreases |learners|
  {
    if learners == [] then Ok((s, e)) else
      var (s1, e1) :- ReviewEffect(s, vault, e, auth, replies, employer, learners[0], questId, true);
      ReviewEachEffect(s1, vault, e1, auth, replies, employer, questId, learners[1..])
  }

  ghost predicate MayReview(s: Storage, auth: set<Address>, employer: Address, questId: u32) {
    !s.paused && employer in auth && questId in s.quests && s.quests[questId].employer == employer && s.wiring.Some?
  }

  lemma {:induction false} LoopIsReviews(
    s: Storage, vault: StakeVault.Storage, e: Env, auth: set<Address>, replies: Replies,
    employer: Address, questId: u32, learners: seq<Address>)
    requires MayReview(s, auth, employer, questId)
    ensures ApproveAllEffect(s, s.wiring.value, vault, e, replies, s.quests[questId], questId, learners)
         == ReviewEachEffect(s, vault, e, auth, replies, employer, questId, learners)
    decreases |learners|
  {
    if learners == [] {
    } else {
      var r := ReviewEffect(s, vault, e, auth, replies, employer, learners[0], questId, true);
      if r.Ok? {
        LoopIsReviews(r.value.0, vault, r.value.1, auth, replies, employer, questId, learners[1..]);
      }
    }
  }

  /**
   A non-empty batch succeeds exactly when approving the same learners one by one
   does, and leaves the same submissions, balances and events, plus the summary event.
   */
  lemma BatchRefinesSingle(
    s: Storage, vault: StakeVault.Storage, e: Env, auth: set<Address>, replies: Replies,
    employer: Address, questId: u32, learners: Learners)
    requires learners != []
    ensures var batch := BatchEffect(s, vault, e, auth, replies, employer, questId, learners);
      var each := ReviewEachEffect(s, vault, e, auth, replies, employer, questId, learners);
      && (batch.Ok? <==> each.Ok?)
      && (batch.Ok? ==>
            batch.value == (each.value.0, Publish(each.value.1, BatchReviewed(employer, questId, |learners|))))
      && (batch.Panic? && s.wiring.Some? ==> batch == each)
  {
    if MayReview(s, auth, employer, questId) {
      LoopIsReviews(s, vault, e, auth, replies, employer, questId, learners);
    }
  }

  /** Also for an empty list, a successful batch is the successful reviews plus the summary. */
  lemma BatchIsReviews(
    s: Storage, vault: StakeVault.Storage, e: Env, auth: set<Address>, replies: Replies,
    employer: Address, questId: u32, learners: Learners)
    requires BatchEffect(s, vault, e, auth, replies, employer, questId, learners).Ok?
    ensures var each := ReviewEachEffect(s, vault, e, auth, replies, employer, questId, learners);
      && each.Ok?
      && BatchEffect(s, vault, e, auth, replies, employer, questId, learners).value ==
           (each.value.0, Publish(each.value.1, BatchReviewed(employer, questId, |learners|)))
  {
    LoopIsReviews(s, vault, e, auth, replies, employer, questId, learners);
  }

  // ---------------------------------------------------------------- exact success of a batch

  ghost predicate AllPending(s: Storage, questId: u32, learners: seq<Address>) {
    forall i :: 0 <= i < |learners| ==>
      (learners[i], questId) in s.submissions && s.submissions[(learners[i], questId)].status.Pending?
  }

  ghost predicate PairwiseDistinct(learners: seq<Address>) {
    forall i, j :: 0 <= i < j < |learners| ==> learners[i] != learners[j]
  }

  /** With the platform's own vault a reward splits without remainder, unless its fee does not fit the amount type. */
  lemma OwnVaultPaysAll(w: Wiring, vault: StakeVault.Storage, replies: Replies, reward: i128, learner: Address)
    requires w.stakeVault == VaultId && 0 <= reward
    ensures Quote(w.stakeVault, vault, replies, reward, learner).Ok? <==> FitsI128(reward * 1500)
    ensures FitsI128(reward * 1500) ==>
      var p := Quote(w.stakeVault, vault, replies, reward, learner).value;
      0 <= p.fee && 0 <= p.learnerAmount && p.fee + p.learnerAmount == reward && p.fee == reward * 1500 / 10_000
  {
    var multiplier := StakeVault.Multiplier(vault, learner);
    FeeBounds(reward);
    ProductMonotone(reward - reward * 1500 / 10_000, reward, multiplier, 1500);
    if FitsI128(reward * 1500) {
      PayoutNeverExceeds(reward, multiplier);
    }
  }

  /** So no stake ever changes what a learner is paid: the boost is always capped back to the base. */
  lemma BoostNeverPays(
    w: Wiring, vault: StakeVault.Storage, vault': StakeVault.Storage, replies: Replies, reward: i128, learner: Address)
    requires w.stakeVault == VaultId && 0 <= reward
    ensures var q := Quote(w.stakeVault, vault, replies, reward, learner);
      var q' := Quote(w.stakeVault, vault', replies, reward, learner);
      && (q.Ok? <==> q'.Ok?)
      && (q.Ok? ==> q.value.fee == q'.value.fee && q.value.learnerAmount == q'.value.learnerAmount)
  {
    hide Quote;
    OwnVaultPaysAll(w, vault, replies, reward, learner);
    OwnVaultPaysAll(w, vault', replies, reward, learner);
  }

  lemma JudgedOthers(s: Storage, questId: u32, learners: seq<Address>)
    requires learners != [] && (learners[0], questId) in s.submissions
    requires s.submissions[(learners[0], questId)].status.Pending?
    ensures var s' := Judge(s, learners[0], questId, Approved);
      AllPending(s, questId, learners) && PairwiseDistinct(learners) <==>
      AllPending(s', questId, learners[1..]) && PairwiseDistinct(learners[1..])
  {
    var s' := Judge(s, learners[0], questId, Approved);
    var rest := learners[1..];
    if AllPending(s', questId, rest) && PairwiseDistinct(rest) {
      forall i | 0 < i < |learners|
        ensures learners[i] != learners[0]
        ensures (learners[i], questId) in s.submissions && s.submissions[(learners[i], questId)].status.Pending?
      {
        assert rest[i - 1] == learners[i];
      }
      forall i, j | 0 <= i < j < |learners| ensures learners[i] != learners[j] {
        if i > 0 {
          assert rest[i - 1] != rest[j - 1];
        }
      }
    }
  }

  function Times(n: nat, x: nat): nat {
    n * x
  }

  lemma TimesNext(n: nat, x: nat)
    requires n > 0
    ensures Times(n, x) == x + Times(n - 1, x)
  {
  }

  /** One payment with the platform's vault: when it goes through, and what it moves. */
  lemma PayExactly(
    w: Wiring, vault: StakeVault.Storage, e: Env, replies: Replies, reward: i128, learner: Address, questId: u32)
    requires w.stakeVault == VaultId && w.rewardPool != EngineId && learner != EngineId && 0 <= reward
    ensures var r := PayEffect(w, vault, e, replies, reward, learner, questId);
      && (r.Ok? <==> FitsI128(reward * 1500) && reward <= BalanceOf(e, EngineId))
      && (r.Ok? ==>
            && BalanceOf(r.value, EngineId) == BalanceOf(e, EngineId) - reward
            && (learner != w.rewardPool ==>
                  BalanceOf(r.value, w.rewardPool) == BalanceOf(e, w.rewardPool) + reward * 1500 / 10_000))
  {
    hide Quote, SplitEffect;
    OwnVaultPaysAll(w, vault, replies, reward, learner);
    if FitsI128(reward * 1500) {
      var p := Quote(w.stakeVault, vault, replies, reward, learner).value;
      SplitExactly(w.rewardPool, e, p, learner, questId);
    }
  }

  lemma {:induction false} LoopExactly(
    s: Storage, w: Wiring, vault: StakeVault.Storage, e: Env, replies: Replies,
    quest: Quest, questId: u32, learners: seq<Address>)
    requires w.stakeVault == VaultId && w.rewardPool != EngineId
    requires 0 <= quest.rewardAmount
    requires forall k :: k in s.submissions ==> k.0.Outside?
    ensures var r := ApproveAllEffect(s, w, vault, e, replies, quest, questId, learners);
      var n, reward, fee := |learners|, quest.rewardAmount, quest.rewardAmount * 1500 / 10_000;
      && (r.Ok? <==>
            && AllPending(s, questId, learners) && PairwiseDistinct(learners)
            && (n > 0 ==> FitsI128(reward * 1500))
            && Times(n, reward) <= BalanceOf(e, EngineId))
      && (r.Ok? ==> BalanceOf(r.value.1, EngineId) == BalanceOf(e, EngineId) - Times(n, reward))
      && (r.Ok? && w.rewardPool !in learners ==>
            BalanceOf(r.value.1, w.rewardPool) == BalanceOf(e, w.rewardPool) + Times(n, fee))
    decreases |learners|
  {
    hide PayEffect;
    if learners == [] {
      assert Times(0, quest.rewardAmount) == 0 == Times(0, quest.rewardAmount * 1500 / 10_000);
    } else if (learners[0], questId) in s.submissions && s.submissions[(learners[0], questId)].status.Pending? {
      hide Times, AllPending, PairwiseDistinct;
      var learner := learners[0];
      var reward: nat := quest.rewardAmount;
      TimesNext(|learners|, reward);
      TimesNext(|learners|, reward * 1500 / 10_000);
      PayExactly(w, vault, e, replies, reward, learner, questId);
      var e1 := PayEffect(w, vault, e, replies, reward, learner, questId);
      if e1.Ok? {
        JudgedOthers(s, questId, learners);
        LoopExactly(Judge(s, learner, questId, Approved), w, vault,
                    Publish(e1.value, SubmissionReviewed(quest.employer, learner, questId, true)),
                    replies, quest, questId, learners[1..]);
      }
    }
  }

  /**
   With the platform's vault, a batch of n succeeds exactly when the engine is unpaused,
   the employer owns the quest and signs, the learners are distinct and all pending, the
   fee fits the amount type, and the escrow holds n rewards; it then moves exactly n
   rewards out and n fees to the pool. Rewards up to the declared maximum always fit.
   */
  lemma BatchExactly(
    s: Storage, vault: StakeVault.Storage, e: Env, auth: set<Address>, replies: Replies,
    employer: Address, questId: u32, learners: Learners)
    requires s.wiring.Some? && s.wiring.value.stakeVault == VaultId && s.wiring.value.rewardPool != EngineId
    requires questId in s.quests && 0 <= s.quests[questId].rewardAmount
    requires forall k :: k in s.submissions ==> k.0.Outside?
    ensures var r := BatchEffect(s, vault, e, auth, replies, employer, questId, learners);
      var n, reward, pool := |learners|, s.quests[questId].rewardAmount, s.wiring.value.rewardPool;
      && (r.Ok? <==>
            && !s.paused && employer in auth && s.quests[questId].employer == employer
            && AllPending(s, questId, learners) && PairwiseDistinct(learners)
            && (n > 0 ==> FitsI128(reward * 1500))
            && n * reward <= BalanceOf(e, EngineId))
      && (r.Ok? ==> BalanceOf(r.value.1, EngineId) == BalanceOf(e, EngineId) - n * reward)
      && (r.Ok? && pool !in learners ==>
            BalanceOf(r.value.1, pool) == BalanceOf(e, pool) + n * (reward * 1500 / 10_000))
  {
    LoopExactly(s, s.wiring.value, vault, e, replies, s.quests[questId], questId, learners);
  }

  // ---------------------------------------------------------------- the life of quests and submissions

  /** Quests keep their terms and are never reopened; a decided submission never changes again. */
  ghost predicate Onward(s: Storage, s': Storage) {
    && (forall q: u32 :: q in s.quests ==>
          && q in s'.quests && s'.quests[q].(active := s.quests[q].active) == s.quests[q]
          && (s'.quests[q].active ==> s.quests[q].active))
    && (forall k :: k in s.submissions ==>
          && k in s'.submissions && s'.submissions[k].proofHash == s.submissions[k].proofHash
          && (!s.submissions[k].status.Pending? ==> s'.submissions[k] == s.submissions[k]))
  }

  lemma ReviewOnward(
    s: Storage, vault: StakeVault.Storage, e: Env, auth: set<Address>, replies: Replies,
    employer: Address, learner: Address, questId: u32, approve: bool)
    requires ReviewEffect(s, vault, e, auth, replies, employer, learner, questId, approve).Ok?
    ensures Onward(s, ReviewEffect(s, vault, e, auth, replies, employer, learner, questId, approve).value.0)
  {
    hide PayEffect, Publish;
  }

  lemma {:induction false} ReviewEachOnward(
    s: Storage, vault: StakeVault.Storage, e: Env, auth: set<Address>, replies: Replies,
    employer: Address, questId: u32, learners: seq<Address>)
    requires ReviewEachEffect(s, vault, e, auth, replies, employer, questId, learners).Ok?
    ensures Onward(s, ReviewEachEffect(s, vault, e, auth, replies, employer, questId, learners).value.0)
    decreases |learners|
  {
    hide ReviewEffect;
    if learners == [] {
    } else {
      var (s1, e1) := ReviewEffect(s, vault, e, auth, replies, employer, learners[0], questId, true).value;
      ReviewOnward(s, vault, e, auth, replies, employer, learners[0], questId, true);
      ReviewEachOnward(s1, vault, e1, auth, replies, employer, questId, learners[1..]);
    }
  }

  /** Every engine call moves quests and submissions onward only. */
  lemma ExecOnward(
    s: Storage, vault: StakeVault.Storage, pool: RewardPool.Storage, e: Env, auth: set<Address>, replies: Replies, c: Call)
    requires s.questCounter < U32_MAX ==> s.questCounter + 1 !in s.quests
    requires QuestEngine.Exec(s, vault, pool, e, auth, replies, c).Ok?
    ensures Onward(s, QuestEngine.Exec(s, vault, pool, e, auth, replies, c).value.0)
  {
    hide ReviewEffect, BatchEffect, ReviewEachEffect, TransferEffect, RewardPool.DistributeRewardEffect, Publish;
    match c
    case ReviewSubmission(employer, learner, questId, approve) =>
      ReviewOnward(s, vault, e, auth, replies, employer, learner, questId, approve);
    case BatchReviewSubmissions(employer, questId, learners) =>
      BatchIsReviews(s, vault, e, auth, replies, employer, questId, learners);
      ReviewEachOnward(s, vault, e, auth, replies, employer, questId, learners);
    case _ =>
  }
}
