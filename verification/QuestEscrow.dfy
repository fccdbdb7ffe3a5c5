/** What the quest engine keeps over every call: the life of submissions and the books of the escrow. */
module QuestEscrow {
  import opened Outcomes
  import opened Sums
  import opened Soroban
  import opened Payouts
  import opened QuestEngine
  import opened QuestReviews
  import RewardPool
  import StakeVault

  // ---------------------------------------------------------------- invariants

  function Reviewed(s: Storage, learner: Address, questId: u32): nat {
    if (learner, questId) in s.submissions && !s.submissions[(learner, questId)].status.Pending? then 1 else 0
  }

  function WasApproved(s: Storage, learner: Address, questId: u32): nat {
    if (learner, questId) in s.submissions && s.submissions[(learner, questId)].status.Approved? then 1 else 0
  }

  /** Quest ids are 1 up to the counter; only accounts submit, only to Build quests. */
  ghost predicate WellFormed(s: Storage) {
    && (s.wiring.None? ==> s.questCounter == 0)
    && (forall q: u32 :: q in s.quests <==> 1 <= q <= s.questCounter)
    && (forall q: u32 :: q in s.quests && s.quests[q].questType.Build? ==> 0 <= s.quests[q].rewardAmount)
    && (forall k :: k in s.submissions ==>
          k.0.Outside? && k.1 in s.quests && s.quests[k.1].questType.Build?)
  }

  /** The log shows one review for each decided submission and none for the others, and quests settle only once they exist. */
  ghost predicate Recorded(s: Storage, log: seq<Event>) {
    && (forall l, q :: Tally(Reviews(l, q), log) == Reviewed(s, l, q))
    && (forall l, q :: Tally(Approvals(l, q), log) == WasApproved(s, l, q))
    && (forall q: u32 :: Tally(Settlements(q), log) > 0 ==> q in s.quests && 0 <= s.quests[q].rewardAmount)
  }

  /** What all settlements of all quests should have cost. */
  ghost function Spent(quests: map<u32, Quest>, log: seq<Event>): map<u32, int> {
    map q | q in quests :: quests[q].rewardAmount * Tally(Settlements(q), log)
  }

  /** What employers locked. */
  ghost function Escrowed(quests: map<u32, Quest>): map<u32, int> {
    map q | q in quests :: if quests[q].questType.Build? then quests[q].rewardAmount as int else 0
  }

  ghost predicate Books(s: Storage, log: seq<Event>) {
    && Tally(Sent(EngineId), log) <= Sum(Spent(s.quests, log))
    && Sum(Escrowed(s.quests)) <= Tally(Received(EngineId), log)
  }

  /** What settlements have cost less than their rewards: something only where a vault answered below 100. */
  ghost function Saved(s: Storage, log: seq<Event>): int {
    Sum(Spent(s.quests, log)) - Tally(Sent(EngineId), log)
  }

  /** What one payment leaves of its reward. */
  function Saving(w: Wiring, vault: StakeVault.Storage, replies: Replies, reward: i128, learner: Address): int {
    var quote := Quote(w.stakeVault, vault, replies, reward, learner);
    if quote.Ok? then reward - quote.value.fee - quote.value.learnerAmount else 0
  }

  function SavingOfAll(w: Wiring, vault: StakeVault.Storage, replies: Replies, reward: i128, learners: seq<Address>): int {
    if learners == [] then 0
    else Saving(w, vault, replies, reward, learners[0]) + SavingOfAll(w, vault, replies, reward, learners[1..])
  }

  /** What the payments of one successful call leave of their rewards. */
  function CallSaving(s: Storage, vault: StakeVault.Storage, replies: Replies, c: Call): int {
    match c
    case ReviewSubmission(_, learner, questId, approve) =>
      if approve && s.wiring.Some? && questId in s.quests
      then Saving(s.wiring.value, vault, replies, s.quests[questId].rewardAmount, learner) else 0
    case BatchReviewSubmissions(_, questId, learners) =>
      if s.wiring.Some? && questId in s.quests
      then SavingOfAll(s.wiring.value, vault, replies, s.quests[questId].rewardAmount, learners) else 0
    case _ => 0
  }

  ghost predicate OwnVault(s: Storage) {
    s.wiring.Some? ==> s.wiring.value.stakeVault == VaultId
  }

  ghost predicate Inv(s: Storage, log: seq<Event>) {
    WellFormed(s) && Recorded(s, log) && Books(s, log)
  }

  lemma OwnVaultSavesNothing(w: Wiring, vault: StakeVault.Storage, replies: Replies, reward: i128, learner: Address)
    requires w.stakeVault == VaultId && 0 <= reward
    ensures Saving(w, vault, replies, reward, learner) == 0
  {
    OwnVaultPaysAll(w, vault, replies, reward, learner);
  }

  lemma {:induction false} OwnVaultSavesNone(
    w: Wiring, vault: StakeVault.Storage, replies: Replies, reward: i128, learners: seq<Address>)
    requires w.stakeVault == VaultId && 0 <= reward
    ensures SavingOfAll(w, vault, replies, reward, learners) == 0
    decreases |learners|
  {
    if learners == [] {
    } else {
      OwnVaultSavesNothing(w, vault, replies, reward, learners[0]);
      OwnVaultSavesNone(w, vault, replies, reward, learners[1..]);
    }
  }

  /** With the platform's vault no call saves anything. */
  lemma CallSavesNothing(
    s: Storage, vault: StakeVault.Storage, pool: RewardPool.Storage, e: Env, auth: set<Address>, replies: Replies, c: Call)
    requires WellFormed(s) && OwnVault(s)
    requires QuestEngine.Exec(s, vault, pool, e, auth, replies, c).Ok?
    ensures CallSaving(s, vault, replies, c) == 0
  {
    hide PayEffect, Quote, Saving, SavingOfAll, TransferEffect, Publish;
    match c
    case ReviewSubmission(_, learner, questId, approve) =>
      if approve {
        assert (learner, questId) in s.submissions && s.wiring.Some?;
        OwnVaultSavesNothing(s.wiring.value, vault, replies, s.quests[questId].rewardAmount, learner);
      }
    case BatchReviewSubmissions(_, questId, learners) =>
      assert learners != [] ==> (learners[0], questId) in s.submissions;
      BatchSavesNothing(s, vault, replies, questId, learners);
    case _ =>
  }

  lemma BatchSavesNothing(s: Storage, vault: StakeVault.Storage, replies: Replies, questId: u32, learners: seq<Address>)
    requires WellFormed(s) && OwnVault(s) && s.wiring.Some? && questId in s.quests
    requires learners != [] ==> (learners[0], questId) in s.submissions
    ensures SavingOfAll(s.wiring.value, vault, replies, s.quests[questId].rewardAmount, learners) == 0
  {
    if learners != [] {
      OwnVaultSavesNone(s.wiring.value, vault, replies, s.quests[questId].rewardAmount, learners);
    }
  }

  // ---------------------------------------------------------------- how the log moves

  /** One decision on one submission. */
  ghost predicate Judged(log: seq<Event>, log': seq<Event>, learner: Address, questId: u32, approved: bool) {
    && (forall q :: Tally(Settlements(q), log') == Tally(Settlements(q), log) + (if approved && q == questId then 1 else 0))
    && (forall l, q :: Tally(Reviews(l, q), log') == Tally(Reviews(l, q), log) + (if l == learner && q == questId then 1 else 0))
    && (forall l, q :: Tally(Approvals(l, q), log') ==
          Tally(Approvals(l, q), log) + (if approved && l == learner && q == questId then 1 else 0))
  }

  lemma ReviewLogged(
    log: seq<Event>, log1: seq<Event>, log': seq<Event>,
    employer: Address, learner: Address, questId: u32, approved: bool)
    requires forall m :: Verdict(m) ==> Tally(m, log1) == Tally(m, log)
    requires Logged(log1, log', SubmissionReviewed(employer, learner, questId, approved))
    ensures Judged(log, log', learner, questId, approved)
    ensures Tally(Sent(EngineId), log') == Tally(Sent(EngineId), log1)
  {
    hide Tally;
    var ev := SubmissionReviewed(employer, learner, questId, approved);
    forall q ensures Tally(Settlements(q), log') == Tally(Settlements(q), log) + (if approved && q == questId then 1 else 0) {
      assert Verdict(Settlements(q));
    }
    forall l, q
      ensures Tally(Reviews(l, q), log') == Tally(Reviews(l, q), log) + (if l == learner && q == questId then 1 else 0)
    {
      assert Verdict(Reviews(l, q));
    }
    forall l, q
      ensures Tally(Approvals(l, q), log') ==
              Tally(Approvals(l, q), log) + (if approved && l == learner && q == questId then 1 else 0)
    {
      assert Verdict(Approvals(l, q));
    }
    assert Weight(Sent(EngineId), ev) == 0;
  }

  /** The effect of one decision on state, log and escrow. */
  ghost predicate Decided(
    s: Storage, e: Env, s': Storage, e': Env, learner: Address, questId: u32, approve: bool, saving: int)
  {
    var cost := Tally(Sent(EngineId), e'.events) - Tally(Sent(EngineId), e.events);
    && Frame(e, e', {EngineId})
    && (learner, questId) in s.submissions && s.submissions[(learner, questId)].status.Pending?
    && questId in s.quests
    && s' == Judge(s, learner, questId, if approve then Approved else Rejected)
    && Judged(e.events, e'.events, learner, questId, approve)
    && 0 <= cost && 0 <= saving
    && cost + saving == (if approve then s.quests[questId].rewardAmount as int else 0)
  }

  lemma PaidThenLogged(s: Storage, e: Env, e1: Env, e': Env, p: Payout, learner: Address, questId: u32)
    requires EscrowPaid(e, e1, p.fee + p.learnerAmount)
    requires questId in s.quests && (learner, questId) in s.submissions && s.submissions[(learner, questId)].status.Pending?
    requires 0 <= p.fee && 0 <= p.learnerAmount && p.fee + p.learnerAmount <= s.quests[questId].rewardAmount
    requires e' == Publish(e1, SubmissionReviewed(s.quests[questId].employer, learner, questId, true))
    ensures Decided(s, e, Judge(s, learner, questId, Approved), e', learner, questId, true,
                    s.quests[questId].rewardAmount - p.fee - p.learnerAmount)
  {
    var ev := SubmissionReviewed(s.quests[questId].employer, learner, questId, true);
    Published(e1, ev, {EngineId});
    FrameTrans(e, e1, e', {EngineId});
    ReviewLogged(e.events, e1.events, e'.events, s.quests[questId].employer, learner, questId, true);
  }

  lemma ApprovalCosts(
    s: Storage, vault: StakeVault.Storage, e: Env, auth: set<Address>, replies: Replies,
    employer: Address, learner: Address, questId: u32, s': Storage, e': Env)
    requires WellFormed(s)
    requires ReviewEffect(s, vault, e, auth, replies, employer, learner, questId, true) == Ok((s', e'))
    ensures s.wiring.Some? && questId in s.quests
    ensures Decided(s, e, s', e', learner, questId, true,
                    Saving(s.wiring.value, vault, replies, s.quests[questId].rewardAmount, learner))
  {
    var w, reward := s.wiring.value, s.quests[questId].rewardAmount;
    var p := Quote(w.stakeVault, vault, replies, reward, learner).value;
    var e1 := SplitEffect(w.rewardPool, e, p, learner, questId).value;
    assert e' == Publish(e1, SubmissionReviewed(employer, learner, questId, true));
    SplitPays(w.rewardPool, e, p, learner, questId);
    PayoutNeverExceeds(reward, MultiplierOf(w.stakeVault, vault, replies, learner).value);
    hide ReviewEffect, Quote;
    PaidThenLogged(s, e, e1, e', p, learner, questId);
  }

  /** An approval costs the reward less what the multiplier saves, and never more than the reward; a rejection nothing. */
  lemma ReviewCosts(
    s: Storage, vault: StakeVault.Storage, e: Env, auth: set<Address>, replies: Replies,
    employer: Address, learner: Address, questId: u32, approve: bool, s': Storage, e': Env)
    requires WellFormed(s)
    requires ReviewEffect(s, vault, e, auth, replies, employer, learner, questId, approve) == Ok((s', e'))
    ensures Decided(s, e, s', e', learner, questId, approve,
                    CallSaving(s, vault, replies, ReviewSubmission(employer, learner, questId, approve)))
  {
    var ev := SubmissionReviewed(employer, learner, questId, approve);
    if approve {
      ApprovalCosts(s, vault, e, auth, replies, employer, learner, questId, s', e');
    } else {
      assert e' == Publish(e, ev);
      Published(e, ev, {EngineId});
      ReviewLogged(e.events, e.events, e'.events, employer, learner, questId, false);
    }
  }

  // ---------------------------------------------------------------- single steps on the books

  lemma SpentBumped(quests: map<u32, Quest>, quests': map<u32, Quest>, log: seq<Event>, log': seq<Event>, questId: u32)
    requires questId in quests && quests'.Keys == quests.Keys
    requires forall q :: q in quests ==> quests'[q].rewardAmount == quests[q].rewardAmount
    requires forall q :: Tally(Settlements(q), log') == Tally(Settlements(q), log) + (if q == questId then 1 else 0)
    ensures Sum(Spent(quests', log')) == Sum(Spent(quests, log)) + quests[questId].rewardAmount
  {
    hide Tally, Sum;
    var n, reward := Tally(Settlements(questId), log), quests[questId].rewardAmount;
    assert reward * (n + 1) == reward * n + reward;
    assert Spent(quests', log') == Spent(quests, log)[questId := reward * n + reward];
    SumPut(Spent(quests, log), questId, reward * n + reward);
  }

  lemma SpentSame(quests: map<u32, Quest>, log: seq<Event>, log': seq<Event>)
    requires forall q :: Tally(Settlements(q), log') == Tally(Settlements(q), log)
    ensures Spent(quests, log') == Spent(quests, log)
  {
  }

  lemma EscrowedSame(quests: map<u32, Quest>, quests': map<u32, Quest>)
    requires quests'.Keys == quests.Keys
    requires forall q :: q in quests ==>
      quests'[q].rewardAmount == quests[q].rewardAmount && quests'[q].questType == quests[q].questType
    ensures Escrowed(quests') == Escrowed(quests)
  {
  }

  lemma JudgeKeeps(s: Storage, log: seq<Event>, log': seq<Event>, learner: Address, questId: u32, approved: bool)
    requires WellFormed(s) && Recorded(s, log)
    requires (learner, questId) in s.submissions && s.submissions[(learner, questId)].status.Pending?
    requires Judged(log, log', learner, questId, approved)
    ensures var s' := Judge(s, learner, questId, if approved then Approved else Rejected); WellFormed(s') && Recorded(s', log')
  {
  }

  /** What every verdict keeps. */
  ghost predicate Kept(s: Storage, e: Env, s': Storage, e': Env, saving: int) {
    && Inv(s', e'.events)
    && Frame(e, e', {EngineId})
    && s'.wiring == s.wiring
    && Saved(s', e'.events) == Saved(s, e.events) + saving
  }

  lemma SettledBooks(s: Storage, s': Storage, log: seq<Event>, log': seq<Event>, questId: u32)
    requires Books(s, log)
    requires questId in s.quests && s'.quests.Keys == s.quests.Keys
    requires forall q :: q in s.quests ==>
      s'.quests[q].rewardAmount == s.quests[q].rewardAmount && s'.quests[q].questType == s.quests[q].questType
    requires forall q :: Tally(Settlements(q), log') == Tally(Settlements(q), log) + (if q == questId then 1 else 0)
    requires Tally(Sent(EngineId), log') - Tally(Sent(EngineId), log) <= s.quests[questId].rewardAmount
    requires Tally(Received(EngineId), log) <= Tally(Received(EngineId), log')
    ensures Books(s', log')
    ensures Saved(s', log') ==
      Saved(s, log) + s.quests[questId].rewardAmount - (Tally(Sent(EngineId), log') - Tally(Sent(EngineId), log))
  {
    hide Spent, Tally;
    EscrowedSame(s.quests, s'.quests);
    hide Escrowed;
    SpentBumped(s.quests, s'.quests, log, log', questId);
  }

  lemma UnsettledBooks(s: Storage, s': Storage, log: seq<Event>, log': seq<Event>)
    requires Books(s, log) && s'.quests == s.quests
    requires forall q :: Tally(Settlements(q), log') == Tally(Settlements(q), log)
    requires Tally(Sent(EngineId), log') == Tally(Sent(EngineId), log)
    requires Tally(Received(EngineId), log) <= Tally(Received(EngineId), log')
    ensures Books(s', log')
    ensures Saved(s', log') == Saved(s, log)
  {
    SpentSame(s.quests, log, log');
  }

  lemma DecidedKeeps(
    s: Storage, e: Env, s': Storage, e': Env, learner: Address, questId: u32, approve: bool, saving: int)
    requires Inv(s, e.events) && Decided(s, e, s', e', learner, questId, approve, saving)
    ensures Kept(s, e, s', e', saving)
  {
    hide Spent, Escrowed, Tally, Sum;
    JudgeKeeps(s, e.events, e'.events, learner, questId, approve);
    hide WellFormed, Recorded;
    if approve {
      SettledBooks(s, s', e.events, e'.events, questId);
    } else {
      UnsettledBooks(s, s', e.events, e'.events);
    }
  }

  lemma ReviewKeeps(
    s: Storage, vault: StakeVault.Storage, e: Env, auth: set<Address>, replies: Replies,
    employer: Address, learner: Address, questId: u32, approve: bool, s': Storage, e': Env)
    requires Inv(s, e.events)
    requires ReviewEffect(s, vault, e, auth, replies, employer, learner, questId, approve) == Ok((s', e'))
    ensures questId in s.quests && s'.quests == s.quests
    ensures Kept(s, e, s', e', CallSaving(s, vault, replies, ReviewSubmission(employer, learner, questId, approve)))
  {
    hide CallSaving;
    ReviewCosts(s, vault, e, auth, replies, employer, learner, questId, approve, s', e');
    var saving := CallSaving(s, vault, replies, ReviewSubmission(employer, learner, questId, approve));
    DecidedKeeps(s, e, s', e', learner, questId, approve, saving);
  }

  lemma {:induction false} ReviewEachKeeps(
    s: Storage, vault: StakeVault.Storage, e: Env, auth: set<Address>, replies: Replies,
    employer: Address, questId: u32, learners: seq<Address>, s': Storage, e': Env)
    requires Inv(s, e.events) && s.wiring.Some? && questId in s.quests
    requires ReviewEachEffect(s, vault, e, auth, replies, employer, questId, learners) == Ok((s', e'))
    ensures Kept(s, e, s', e', SavingOfAll(s.wiring.value, vault, replies, s.quests[questId].rewardAmount, learners))
    decreases |learners|
  {
    hide Saved, Inv, Saving, ReviewEffect;
    if learners == [] {
      assert Frame(e, e, {EngineId});
    } else {
      hide Frame;
      var (s1, e1) := ReviewEffect(s, vault, e, auth, replies, employer, learners[0], questId, true).value;
      ReviewKeeps(s, vault, e, auth, replies, employer, learners[0], questId, true, s1, e1);
      ReviewEachKeeps(s1, vault, e1, auth, replies, employer, questId, learners[1..], s', e');
      FrameTrans(e, e1, e', {EngineId});
    }
  }

  /** An event that is no verdict and no transfer leaves everything the invariant talks about. */
  lemma SilentKeeps(s: Storage, s': Storage, log: seq<Event>, log': seq<Event>, ev: Event)
    requires Inv(s, log) && Logged(log, log', ev)
    requires s'.quests == s.quests && s'.questCounter == s.questCounter && s'.submissions == s.submissions
    requires s.wiring.Some? ==> s'.wiring.Some?
    requires !ev.Transferred? && !ev.SubmissionReviewed? && !ev.QuestRefunded?
    ensures Inv(s', log')
    ensures Saved(s', log') == Saved(s, log)
  {
    SilentMeters(log, log', ev);
    hide Logged, Inv, Saved, Tally;
    assert BookMeter(Received(EngineId));
    SameMetersKeep(s, s', log, log');
  }

  lemma SilentMeters(log: seq<Event>, log': seq<Event>, ev: Event)
    requires Logged(log, log', ev)
    requires !ev.Transferred? && !ev.SubmissionReviewed? && !ev.QuestRefunded?
    ensures forall m :: BookMeter(m) ==> Tally(m, log') == Tally(m, log)
  {
    hide Tally;
    forall m | BookMeter(m) ensures Tally(m, log') == Tally(m, log) {
      assert Weight(m, ev) == 0;
    }
  }

  /** The meters the invariant reads. */
  predicate BookMeter(m: Meter) {
    m.Settlements? || m.Reviews? || m.Approvals? || m == Sent(EngineId) || m == Received(EngineId)
  }

  lemma SameMetersKeep(s: Storage, s': Storage, log: seq<Event>, log': seq<Event>)
    requires Inv(s, log)
    requires s'.quests == s.quests && s'.questCounter == s.questCounter && s'.submissions == s.submissions
    requires s.wiring.Some? ==> s'.wiring.Some?
    requires forall m :: BookMeter(m) && !m.Received? ==> Tally(m, log') == Tally(m, log)
    requires Tally(Received(EngineId), log) <= Tally(Received(EngineId), log')
    ensures Inv(s', log')
    ensures Saved(s', log') == Saved(s, log)
  {
    hide Spent, Escrowed, Tally;
    forall q ensures Tally(Settlements(q), log') == Tally(Settlements(q), log) {
      assert BookMeter(Settlements(q));
    }
    forall l, q ensures Tally(Reviews(l, q), log') == Tally(Reviews(l, q), log) {
      assert BookMeter(Reviews(l, q));
    }
    forall l, q ensures Tally(Approvals(l, q), log') == Tally(Approvals(l, q), log) {
      assert BookMeter(Approvals(l, q));
    }
    assert BookMeter(Sent(EngineId));
    UnsettledBooks(s, s', log, log');
  }

  lemma Announced(s: Storage, e: Env, s1: Storage, e1: Env, ev: Event, saving: int)
    requires Kept(s, e, s1, e1, saving)
    requires !ev.Transferred? && !ev.SubmissionReviewed? && !ev.QuestRefunded? && Emitter(ev) == EngineId
    ensures Kept(s, e, s1, Publish(e1, ev), saving)
  {
    hide Saved, Inv;
    var e2 := Publish(e1, ev);
    Published(e1, ev, {EngineId});
    FrameTrans(e, e1, e2, {EngineId});
    SilentKeeps(s1, s1, e1.events, e2.events, ev);
  }

  lemma SummedUpKeeps(
    s: Storage, vault: StakeVault.Storage, e: Env, auth: set<Address>, replies: Replies,
    employer: Address, questId: u32, learners: Learners, s1: Storage, e1: Env)
    requires Inv(s, e.events) && s.wiring.Some? && questId in s.quests
    requires ReviewEachEffect(s, vault, e, auth, replies, employer, questId, learners) == Ok((s1, e1))
    ensures Kept(s, e, s1, Publish(e1, BatchReviewed(employer, questId, |learners|)),
                 CallSaving(s, vault, replies, BatchReviewSubmissions(employer, questId, learners)))
  {
    hide ReviewEachEffect, SavingOfAll, Kept, Inv;
    ReviewEachKeeps(s, vault, e, auth, replies, employer, questId, learners, s1, e1);
    var saving := SavingOfAll(s.wiring.value, vault, replies, s.quests[questId].rewardAmount, learners);
    Announced(s, e, s1, e1, BatchReviewed(employer, questId, |learners|), saving);
  }

  /** A batch is its reviews one by one, so it keeps what they keep. */
  lemma BatchKeeps(
    s: Storage, vault: StakeVault.Storage, e: Env, auth: set<Address>, replies: Replies,
    employer: Address, questId: u32, learners: Learners, s': Storage, e': Env)
    requires Inv(s, e.events)
    requires BatchEffect(s, vault, e, auth, replies, employer, questId, learners) == Ok((s', e'))
    ensures Kept(s, e, s', e', CallSaving(s, vault, replies, BatchReviewSubmissions(employer, questId, learners)))
  {
    hide Kept, CallSaving, Inv, ApproveAllEffect, ReviewEachEffect;
    BatchIsReviews(s, vault, e, auth, replies, employer, questId, learners);
    var (s1, e1) := ReviewEachEffect(s, vault, e, auth, replies, employer, questId, learners).value;
    SummedUpKeeps(s, vault, e, auth, replies, employer, questId, learners, s1, e1);
  }

  // ---------------------------------------------------------------- creating, submitting, refunding, verifying

  lemma CreatedRecorded(s: Storage, s': Storage, log: seq<Event>, log': seq<Event>, quest: Quest)
    requires WellFormed(s) && Recorded(s, log) && s.questCounter < U32_MAX && s.wiring.Some?
    requires s' == s.(questCounter := s.questCounter + 1, quests := s.quests[s.questCounter + 1 := quest])
    requires forall q :: Tally(Settlements(q), log') == Tally(Settlements(q), log)
    requires forall l, q :: Tally(Reviews(l, q), log') == Tally(Reviews(l, q), log)
    requires forall l, q :: Tally(Approvals(l, q), log') == Tally(Approvals(l, q), log)
    requires quest.questType.Build? ==> 0 <= quest.rewardAmount
    ensures WellFormed(s') && Recorded(s', log')
  {
    hide Tally;
  }

  lemma CreatedBooks(s: Storage, s': Storage, log: seq<Event>, log': seq<Event>, id: u32, quest: Quest)
    requires Books(s, log) && id !in s.quests && s'.quests == s.quests[id := quest]
    requires Tally(Settlements(id), log) == 0
    requires forall q :: Tally(Settlements(q), log') == Tally(Settlements(q), log)
    requires Tally(Sent(EngineId), log') == Tally(Sent(EngineId), log)
    requires Tally(Received(EngineId), log') >=
      Tally(Received(EngineId), log) + (if quest.questType.Build? then quest.rewardAmount as int else 0)
    ensures Books(s', log')
    ensures Saved(s', log') == Saved(s, log)
  {
    hide Tally, Sum;
    assert quest.rewardAmount * Tally(Settlements(id), log') == 0;
    assert Spent(s'.quests, log') == Spent(s.quests, log)[id := 0];
    SumPut(Spent(s.quests, log), id, 0);
    var locked := if quest.questType.Build? then quest.rewardAmount as int else 0;
    assert Escrowed(s'.quests) == Escrowed(s.quests)[id := locked];
    SumPut(Escrowed(s.quests), id, locked);
  }

  /** A new quest starts unsettled; a Build quest brings its reward along. */
  lemma CreatedKeeps(s: Storage, s': Storage, log: seq<Event>, log': seq<Event>, quest: Quest)
    requires Inv(s, log) && s.questCounter < U32_MAX && s.wiring.Some?
    requires s' == s.(questCounter := s.questCounter + 1, quests := s.quests[s.questCounter + 1 := quest])
    requires forall m :: BookMeter(m) && !m.Received? ==> Tally(m, log') == Tally(m, log)
    requires quest.questType.Build? ==> 0 <= quest.rewardAmount
    requires Tally(Received(EngineId), log') >=
      Tally(Received(EngineId), log) + (if quest.questType.Build? then quest.rewardAmount as int else 0)
    ensures Inv(s', log')
    ensures Saved(s', log') == Saved(s, log)
  {
    hide Tally, Spent, Escrowed, Saved;
    forall q ensures Tally(Settlements(q), log') == Tally(Settlements(q), log) {
      assert BookMeter(Settlements(q));
    }
    forall l, q ensures Tally(Reviews(l, q), log') == Tally(Reviews(l, q), log) {
      assert BookMeter(Reviews(l, q));
    }
    forall l, q ensures Tally(Approvals(l, q), log') == Tally(Approvals(l, q), log) {
      assert BookMeter(Approvals(l, q));
    }
    assert BookMeter(Sent(EngineId));
    CreatedRecorded(s, s', log, log', quest);
    CreatedBooks(s, s', log, log', s.questCounter + 1, quest);
  }

  lemma CreateBuildLogged(log: seq<Event>, log1: seq<Event>, log': seq<Event>, employer: Address, id: u32, reward: nat)
    requires employer != EngineId
    requires Logged(log, log1, Transferred(employer, EngineId, reward))
    requires Logged(log1, log', QuestCreated(employer, id, reward))
    ensures forall m :: BookMeter(m) && !m.Received? ==> Tally(m, log') == Tally(m, log)
    ensures Tally(Received(EngineId), log') == Tally(Received(EngineId), log) + reward
  {
    hide Tally;
    var ev1, ev2 := Transferred(employer, EngineId, reward), QuestCreated(employer, id, reward);
    forall m | BookMeter(m) && !m.Received? ensures Tally(m, log') == Tally(m, log) {
      assert Weight(m, ev1) == 0;
      assert Weight(m, ev2) == 0;
      assert Tally(m, log1) == Tally(m, log);
    }
    assert Weight(Received(EngineId), ev2) == 0;
    assert Tally(Received(EngineId), log1) == Tally(Received(EngineId), log) + reward;
  }

  lemma CreateBuildForm(
    s: Storage, e: Env, auth: set<Address>, employer: Address, reward: i128, hash: Hash, s': Storage, e': Env)
    requires CreateBuildEffect(s, e, auth, employer, reward, hash) == Ok((s', e'))
    ensures employer in auth && s.wiring.Some? && s.questCounter < U32_MAX
    ensures var quest := Quest(employer, reward, Build, hash, true);
      s' == s.(questCounter := s.questCounter + 1, quests := s.quests[s.questCounter + 1 := quest])
    ensures TransferEffect(e, employer, EngineId, reward).Ok?
    ensures e' == Publish(TransferEffect(e, employer, EngineId, reward).value, QuestCreated(employer, s.questCounter + 1, reward))
  {
  }

  lemma CreateBuildKeeps(
    s: Storage, e: Env, auth: set<Address>, employer: Address, reward: i128, hash: Hash, s': Storage, e': Env)
    requires Inv(s, e.events) && EngineId !in auth
    requires CreateBuildEffect(s, e, auth, employer, reward, hash) == Ok((s', e'))
    ensures Inv(s', e'.events) && Frame(e, e', {employer, EngineId})
    ensures Saved(s', e'.events) == Saved(s, e.events)
  {
    hide CreateBuildEffect, TransferEffect, Publish, Inv, Saved, Frame, Logged, Tally;
    CreateBuildForm(s, e, auth, employer, reward, hash, s', e');
    var ev := QuestCreated(employer, s.questCounter + 1, reward);
    var e1 := TransferEffect(e, employer, EngineId, reward).value;
    TransferThenPublish(e, employer, EngineId, reward, ev, {employer, EngineId});
    CreateBuildLogged(e.events, e1.events, e'.events, employer, s.questCounter + 1, reward);
    CreatedKeeps(s, s', e.events, e'.events, Quest(employer, reward, Build, hash, true));
  }

  lemma CreateExploreKeeps(
    s: Storage, e: Env, auth: set<Address>, admin: Address, reward: i128, hash: Hash, s': Storage, e': Env)
    requires Inv(s, e.events)
    requires CreateExploreEffect(s, e, auth, admin, reward, hash) == Ok((s', e'))
    ensures Inv(s', e'.events) && Frame(e, e', {EngineId})
    ensures Saved(s', e'.events) == Saved(s, e.events)
  {
    var quest := Quest(admin, reward, Explore, hash, true);
    var ev := QuestCreated(admin, s.questCounter + 1, reward);
    assert e' == Publish(e, ev);
    assert s' == s.(questCounter := s.questCounter + 1, quests := s.quests[s.questCounter + 1 := quest]);
    assert s.wiring.Some? && s.questCounter < U32_MAX;
    Published(e, ev, {EngineId});
    hide *;
    SilentMeters(e.events, e'.events, ev);
    CreatedKeeps(s, s', e.events, e'.events, quest);
  }

  lemma SubmittedRecorded(s: Storage, log: seq<Event>, learner: Address, questId: u32, hash: Hash)
    requires WellFormed(s) && Recorded(s, log)
    requires learner.Outside? && questId in s.quests && s.quests[questId].questType.Build?
    requires (learner, questId) !in s.submissions
    ensures var s' := s.(submissions := s.submissions[(learner, questId) := Submission(hash, Pending)]);
      WellFormed(s') && Recorded(s', log)
  {
    hide Tally;
  }

  lemma SubmitForm(s: Storage, e: Env, auth: Signers, learner: Address, questId: u32, hash: Hash, s': Storage, e': Env)
    requires SubmitProofEffect(s, e, auth, learner, questId, hash) == Ok((s', e'))
    ensures learner.Outside? && questId in s.quests && s.quests[questId].questType.Build? && (learner, questId) !in s.submissions
    ensures s' == s.(submissions := s.submissions[(learner, questId) := Submission(hash, Pending)])
    ensures e' == Publish(e, ProofSubmitted(learner, questId, hash))
  {
  }

  lemma SubmitKeeps(s: Storage, e: Env, auth: Signers, learner: Address, questId: u32, hash: Hash, s': Storage, e': Env)
    requires Inv(s, e.events)
    requires SubmitProofEffect(s, e, auth, learner, questId, hash) == Ok((s', e'))
    ensures Inv(s', e'.events) && Frame(e, e', {EngineId})
    ensures Saved(s', e'.events) == Saved(s, e.events)
  {
    hide SubmitProofEffect, Publish, Frame, Logged, Tally, WellFormed, Recorded, Spent, Escrowed;
    SubmitForm(s, e, auth, learner, questId, hash, s', e');
    var ev := ProofSubmitted(learner, questId, hash);
    Published(e, ev, {EngineId});
    SilentKeeps(s, s, e.events, e'.events, ev);
    SubmittedRecorded(s, e'.events, learner, questId, hash);
  }

  lemma RefundedRecorded(s: Storage, s': Storage, log: seq<Event>, log': seq<Event>, questId: u32)
    requires WellFormed(s) && Recorded(s, log)
    requires questId in s.quests && 0 <= s.quests[questId].rewardAmount
    requires s' == s.(quests := s.quests[questId := s.quests[questId].(active := false)])
    requires forall q :: Tally(Settlements(q), log') == Tally(Settlements(q), log) + (if q == questId then 1 else 0)
    requires forall l, q :: Tally(Reviews(l, q), log') == Tally(Reviews(l, q), log)
    requires forall l, q :: Tally(Approvals(l, q), log') == Tally(Approvals(l, q), log)
    ensures WellFormed(s') && Recorded(s', log')
  {
    hide Tally;
  }

  lemma RefundKeeps(s: Storage, e: Env, auth: set<Address>, employer: Address, questId: u32, s': Storage, e': Env)
    requires Inv(s, e.events)
    requires RefundEffect(s, e, auth, employer, questId) == Ok((s', e'))
    ensures Inv(s', e'.events) && Frame(e, e', {EngineId})
    ensures Saved(s', e'.events) == Saved(s, e.events)
  {
    var reward := s.quests[questId].rewardAmount;
    var ev := QuestRefunded(employer, questId, reward);
    var e1 := TransferEffect(e, EngineId, employer, reward).value;
    assert e' == Publish(e1, ev);
    assert questId in s.quests && s' == s.(quests := s.quests[questId := s.quests[questId].(active := false)]);
    TransferThenPublish(e, EngineId, employer, reward, ev, {EngineId});
    assert Logged(e.events, e1.events, Transferred(EngineId, employer, reward));
    assert Tally(Received(EngineId), e.events) <= Tally(Received(EngineId), e'.events);
    hide RefundEffect, TransferEffect, Publish, Frame, Logged, Paid, Tally;
    RefundLogged(e.events, e1.events, e'.events, employer, questId, reward);
    RefundedKeeps(s, s', e.events, e'.events, questId);
  }

  lemma RefundedKeeps(s: Storage, s': Storage, log: seq<Event>, log': seq<Event>, questId: u32)
    requires Inv(s, log)
    requires questId in s.quests && 0 <= s.quests[questId].rewardAmount
    requires s' == s.(quests := s.quests[questId := s.quests[questId].(active := false)])
    requires forall q :: Tally(Settlements(q), log') == Tally(Settlements(q), log) + (if q == questId then 1 else 0)
    requires forall l, q :: Tally(Reviews(l, q), log') == Tally(Reviews(l, q), log)
    requires forall l, q :: Tally(Approvals(l, q), log') == Tally(Approvals(l, q), log)
    requires Tally(Sent(EngineId), log') == Tally(Sent(EngineId), log) + s.quests[questId].rewardAmount
    requires Tally(Received(EngineId), log) <= Tally(Received(EngineId), log')
    ensures Inv(s', log')
    ensures Saved(s', log') == Saved(s, log)
  {
    hide Tally, Spent, Escrowed, Saved;
    RefundedRecorded(s, s', log, log', questId);
    hide WellFormed, Recorded;
    SettledBooks(s, s', log, log', questId);
  }

  lemma RefundLogged(log: seq<Event>, log1: seq<Event>, log': seq<Event>, employer: Address, questId: u32, reward: nat)
    requires Logged(log, log1, Transferred(EngineId, employer, reward))
    requires Logged(log1, log', QuestRefunded(employer, questId, reward))
    ensures forall q :: Tally(Settlements(q), log') == Tally(Settlements(q), log) + (if q == questId then 1 else 0)
    ensures forall l, q :: Tally(Reviews(l, q), log') == Tally(Reviews(l, q), log)
    ensures forall l, q :: Tally(Approvals(l, q), log') == Tally(Approvals(l, q), log)
    ensures Tally(Sent(EngineId), log') == Tally(Sent(EngineId), log) + reward
  {
    hide Tally;
    assert Tally(Sent(EngineId), log1) == Tally(Sent(EngineId), log) + reward;
    forall q ensures Tally(Settlements(q), log') == Tally(Settlements(q), log) + (if q == questId then 1 else 0) {
      assert Tally(Settlements(q), log1) == Tally(Settlements(q), log);
    }
    forall l, q ensures Tally(Reviews(l, q), log') == Tally(Reviews(l, q), log) {
      assert Tally(Reviews(l, q), log1) == Tally(Reviews(l, q), log);
    }
    forall l, q ensures Tally(Approvals(l, q), log') == Tally(Approvals(l, q), log) {
      assert Tally(Approvals(l, q), log1) == Tally(Approvals(l, q), log);
    }
  }

  lemma VerifyKeeps(
    s: Storage, pool: RewardPool.Storage, e: Env, auth: set<Address>, replies: Replies,
    admin: Address, learner: Address, questId: u32, e': Env)
    requires Inv(s, e.events)
    requires VerifyExploreEffect(s, pool, e, auth, replies, admin, learner, questId) == Ok(e')
    ensures Inv(s, e'.events) && Frame(e, e', {EngineId, PoolId})
    ensures Saved(s, e'.events) == Saved(s, e.events)
  {
    var reward := s.quests[questId].rewardAmount;
    var ev := ExploreQuestVerified(admin, learner, questId, reward);
    var own := s.wiring.value.rewardPool == PoolId;
    var e1 := if own then RewardPool.DistributeRewardEffect(pool, e, {EngineId}, EngineId, learner, reward).value else e;
    assert e' == Publish(e1, ev);
    if own {
      RewardPool.DistributeFrame(pool, e, {EngineId}, EngineId, learner, reward, {PoolId});
    }
    assert Frame(e, e1, {PoolId});
    Verified(s, e, e1, e', ev);
  }

  lemma Verified(s: Storage, e: Env, e1: Env, e': Env, ev: Event)
    requires Inv(s, e.events) && Frame(e, e1, {PoolId})
    requires ev.ExploreQuestVerified? && e' == Publish(e1, ev)
    ensures Inv(s, e'.events) && Frame(e, e', {EngineId, PoolId})
    ensures Saved(s, e'.events) == Saved(s, e.events)
  {
    hide Tally, Inv, Saved;
    OthersKeep(s, e, e1, {PoolId});
    Published(e1, ev, {EngineId, PoolId});
    Widen(e, e1, {PoolId}, {EngineId, PoolId});
    hide Frame;
    FrameTrans(e, e1, e', {EngineId, PoolId});
    SilentKeeps(s, s, e1.events, e'.events, ev);
  }

  /** Every engine call keeps the invariant and saves exactly what `CallSaving` says. */
  lemma ExecKeeps(
    s: Storage, vault: StakeVault.Storage, pool: RewardPool.Storage, e: Env,
    auth: Signers, replies: Replies, c: Call, s': Storage, e': Env)
    requires Inv(s, e.events)
    requires QuestEngine.Exec(s, vault, pool, e, auth, replies, c) == Ok((s', e'))
    ensures Inv(s', e'.events)
    ensures Frame(e, e', auth + {EngineId, PoolId})
    ensures Saved(s', e'.events) == Saved(s, e.events) + CallSaving(s, vault, replies, c)
  {
    hide Inv, Saved, Frame, Saving, SavingOfAll;
    match c
    case Initialize(_, _, _) | SetPause(_, _) | SetRewardPoolAddress(_, _) | SetStakeVaultAddress(_, _) =>
      AdminKeeps(s, vault, pool, e, auth, replies, c, s', e');
    case CreateBuildQuest(employer, reward, hash) =>
      CreateBuildKeeps(s, e, auth, employer, reward, hash, s', e');
      Widen(e, e', {employer, EngineId}, auth + {EngineId, PoolId});
    case CreateExploreQuest(admin, reward, hash) =>
      CreateExploreKeeps(s, e, auth, admin, reward, hash, s', e');
      Widen(e, e', {EngineId}, auth + {EngineId, PoolId});
    case SubmitProof(learner, questId, hash) =>
      SubmitKeeps(s, e, auth, learner, questId, hash, s', e');
      Widen(e, e', {EngineId}, auth + {EngineId, PoolId});
    case ReviewSubmission(employer, learner, questId, approve) =>
      ReviewKeeps(s, vault, e, auth, replies, employer, learner, questId, approve, s', e');
      Widen(e, e', {EngineId}, auth + {EngineId, PoolId});
    case BatchReviewSubmissions(employer, questId, learners) =>
      BatchKeeps(s, vault, e, auth, replies, employer, questId, learners, s', e');
      Widen(e, e', {EngineId}, auth + {EngineId, PoolId});
    case RefundQuest(employer, questId) =>
      RefundKeeps(s, e, auth, employer, questId, s', e');
      Widen(e, e', {EngineId}, auth + {EngineId, PoolId});
    case VerifyExploreQuest(admin, learner, questId) =>
      VerifyKeeps(s, pool, e, auth, replies, admin, learner, questId, e');
      Widen(e, e', {EngineId, PoolId}, auth + {EngineId, PoolId});
  }

  /** Steps in which the engine takes no part can only add to what it holds. */
  lemma OthersKeep(s: Storage, e: Env, e': Env, actors: set<Address>)
    requires Inv(s, e.events) && Frame(e, e', actors) && EngineId !in actors
    ensures Inv(s, e'.events)
    ensures Saved(s, e'.events) == Saved(s, e.events)
  {
    hide Tally, Inv, Saved;
    SameMetersKeep(s, s, e.events, e'.events);
  }

  lemma AdminKeeps(
    s: Storage, vault: StakeVault.Storage, pool: RewardPool.Storage, e: Env,
    auth: Signers, replies: Replies, c: Call, s': Storage, e': Env)
    requires Inv(s, e.events)
    requires c.Initialize? || c.SetPause? || c.SetRewardPoolAddress? || c.SetStakeVaultAddress?
    requires QuestEngine.Exec(s, vault, pool, e, auth, replies, c) == Ok((s', e'))
    ensures Inv(s', e'.events)
    ensures Frame(e, e', auth + {EngineId, PoolId})
    ensures Saved(s', e'.events) == Saved(s, e.events)
  {
    if c.SetRewardPoolAddress? || c.SetStakeVaultAddress? {
      var ev :=
        if c.SetRewardPoolAddress? then RewardPoolUpdated(c.admin, c.newAddress)
        else StakeVaultUpdated(c.admin, c.newAddress);
      assert e' == Publish(e, ev);
      Published(e, ev, auth + {EngineId, PoolId});
      SilentKeeps(s, s', e.events, e'.events, ev);
    }
  }

  // ---------------------------------------------------------------- solvency

  /** The rewards of Build quests that nobody has been paid or refunded for yet. */
  ghost function Obligations(quests: map<u32, Quest>, log: seq<Event>): map<u32, int> {
    map q | q in quests ::
      if quests[q].questType.Build? && Tally(Settlements(q), log) == 0 then quests[q].rewardAmount as int else 0
  }

  /** Settlements a quest's own lock does not pay for: all but the first of a Build quest, all of an Explore quest. */
  ghost function Unbacked(quest: Quest, settlements: nat): nat {
    if quest.questType.Build? && settlements > 0 then settlements - 1 else settlements
  }

  ghost function Overdrawn(quests: map<u32, Quest>, log: seq<Event>): map<u32, int> {
    map q | q in quests :: quests[q].rewardAmount * Unbacked(quests[q], Tally(Settlements(q), log))
  }

  /** What reached the engine beyond the locked rewards. */
  ghost function Donations(s: Storage, e: Env): int {
    Tally(Received(EngineId), e.events) - Sum(Escrowed(s.quests))
  }

  lemma UnbackedCost(reward: int, build: bool, n: nat)
    ensures build && n > 0 ==> reward * n == reward + reward * (n - 1)
  {
  }

  lemma LockedPlusOverdrawn(quests: map<u32, Quest>, log: seq<Event>)
    ensures Sum(Escrowed(quests)) + Sum(Overdrawn(quests, log)) == Sum(Obligations(quests, log)) + Sum(Spent(quests, log))
  {
    hide Tally, Sum;
    var both := map q | q in quests :: Escrowed(quests)[q] + Overdrawn(quests, log)[q];
    forall q | q in quests ensures both[q] == Obligations(quests, log)[q] + Spent(quests, log)[q] {
      UnbackedCost(quests[q].rewardAmount, quests[q].questType.Build?, Tally(Settlements(q), log));
    }
    SumAdd(both, Escrowed(quests), Overdrawn(quests, log));
    SumAdd(both, Obligations(quests, log), Spent(quests, log));
  }

  /**
   The engine's balance, to the last token and for any vault: what it held before, plus
   donations, plus what multipliers below 100 saved, plus every unsettled reward, minus
   the settlements no lock paid for.
   */
  lemma EscrowBalance(s: Storage, e: Env)
    requires Inv(s, e.events)
    ensures 0 <= Donations(s, e) && 0 <= Saved(s, e.events)
    ensures BalanceOf(e, EngineId) ==
      Opening(e, EngineId) + Donations(s, e) + Saved(s, e.events)
      + Sum(Obligations(s.quests, e.events)) - Sum(Overdrawn(s.quests, e.events))
  {
    hide Tally, Sum, Obligations, Overdrawn, Spent, Escrowed, WellFormed, Recorded;
    LockedPlusOverdrawn(s.quests, e.events);
  }

  /** Every Build quest is settled at most once and no Explore quest is refunded. */
  ghost predicate SettledOnce(s: Storage, log: seq<Event>) {
    forall q :: q in s.quests ==> Tally(Settlements(q), log) <= (if s.quests[q].questType.Build? then 1 else 0)
  }

  lemma NothingOverdrawn(s: Storage, log: seq<Event>)
    requires SettledOnce(s, log)
    ensures Sum(Overdrawn(s.quests, log)) <= 0
  {
    hide Tally;
    forall q | q in s.quests ensures Overdrawn(s.quests, log)[q] == 0 {
      assert Unbacked(s.quests[q], Tally(Settlements(q), log)) == 0;
    }
    SumBelow(Overdrawn(s.quests, log), map[]);
  }

  /** Under that discipline nothing is overdrawn, so the escrow covers every unsettled reward, whatever vault is wired. */
  lemma SettledOnceSolvent(s: Storage, e: Env)
    requires Inv(s, e.events) && SettledOnce(s, e.events) && 0 <= Opening(e, EngineId)
    ensures Sum(Obligations(s.quests, e.events)) <= BalanceOf(e, EngineId)
  {
    hide Tally, Sum, Inv, Opening, Overdrawn, Obligations, SettledOnce, Donations;
    EscrowBalance(s, e);
    NothingOverdrawn(s, e.events);
  }

  // ---------------------------------------------------------------- what one settlement does

  /** Whether a quest's own lock is still there to pay for a settlement. */
  ghost predicate LockUnspent(s: Storage, log: seq<Event>, questId: u32)
    requires questId in s.quests
  {
    s.quests[questId].questType.Build? && Tally(Settlements(questId), log) == 0
  }

  /** What the engine holds beyond the rewards it owes; negative when it cannot cover them. */
  ghost function Slack(s: Storage, e: Env): int {
    BalanceOf(e, EngineId) - Sum(Obligations(s.quests, e.events))
  }

  lemma ObligationsSettled(quests: map<u32, Quest>, quests': map<u32, Quest>, log: seq<Event>, log': seq<Event>, questId: u32)
    requires questId in quests && quests'.Keys == quests.Keys
    requires forall q :: q in quests ==>
      quests'[q].rewardAmount == quests[q].rewardAmount && quests'[q].questType == quests[q].questType
    requires forall q :: Tally(Settlements(q), log') == Tally(Settlements(q), log) + (if q == questId then 1 else 0)
    ensures Sum(Obligations(quests', log')) == Sum(Obligations(quests, log)) -
      (if quests[questId].questType.Build? && Tally(Settlements(questId), log) == 0 then quests[questId].rewardAmount else 0)
  {
    hide Tally, Sum;
    assert Obligations(quests', log') == Obligations(quests, log)[questId := 0];
    SumPut(Obligations(quests, log), questId, 0);
  }

  /**
   A refund spends what the engine owes to others exactly when its quest is an Explore
   quest or has been settled before, and then all of its amount: the checks that
   `refund_quest` lacks.
   */
  lemma RefundOverdraws(s: Storage, e: Env, auth: Signers, employer: Address, questId: u32, s': Storage, e': Env)
    requires RefundEffect(s, e, auth, employer, questId) == Ok((s', e'))
    ensures questId in s.quests && 0 <= s.quests[questId].rewardAmount
    ensures Slack(s', e') == Slack(s, e) - (if LockUnspent(s, e.events, questId) then 0 else s.quests[questId].rewardAmount)
  {
    hide Tally, Sum, Obligations, Frame;
    var reward := s.quests[questId].rewardAmount;
    var ev := QuestRefunded(employer, questId, reward);
    var e1 := TransferEffect(e, EngineId, employer, reward).value;
    assert e' == Publish(e1, ev);
    assert s' == s.(quests := s.quests[questId := s.quests[questId].(active := false)]);
    TransferThenPublish(e, EngineId, employer, reward, ev, {EngineId});
    assert employer != EngineId && BalanceOf(e', EngineId) == BalanceOf(e, EngineId) - reward;
    hide RefundEffect, TransferEffect, Publish, Logged;
    RefundLogged(e.events, e1.events, e'.events, employer, questId, reward);
    ObligationsSettled(s.quests, s'.quests, e.events, e'.events, questId);
  }

  /** What leaves the engine in a payment: the fee too, unless the engine is its own pool. */
  function Outlay(w: Wiring, p: Payout): int {
    p.learnerAmount + (if w.rewardPool == EngineId then 0 else p.fee)
  }

  lemma SplitMoves(rewardPool: Address, e: Env, p: Payout, learner: Address, questId: u32)
    requires SplitEffect(rewardPool, e, p, learner, questId).Ok? && learner != EngineId
    ensures BalanceOf(SplitEffect(rewardPool, e, p, learner, questId).value, EngineId) ==
      BalanceOf(e, EngineId) - p.learnerAmount - (if rewardPool == EngineId then 0 else p.fee)
  {
    hide Tally, Sum;
    var e1 := TransferEffect(e, EngineId, rewardPool, p.fee).value;
    Transfers(e, EngineId, rewardPool, p.fee, {EngineId});
    Transfers(e1, EngineId, learner, p.learnerAmount, {EngineId});
  }

  lemma ApprovalMoves(
    s: Storage, vault: StakeVault.Storage, e: Env, auth: set<Address>, replies: Replies,
    employer: Address, learner: Address, questId: u32, e': Env)
    requires learner != EngineId
    requires ReviewEffect(s, vault, e, auth, replies, employer, learner, questId, true).Ok?
    requires e' == ReviewEffect(s, vault, e, auth, replies, employer, learner, questId, true).value.1
    ensures s.wiring.Some? && questId in s.quests
    ensures var quote := Quote(s.wiring.value.stakeVault, vault, replies, s.quests[questId].rewardAmount, learner);
      quote.Ok? && BalanceOf(e', EngineId) == BalanceOf(e, EngineId) - Outlay(s.wiring.value, quote.value)
  {
    hide Quote, SplitEffect, Tally, Sum;
    var w := s.wiring.value;
    var p := Quote(w.stakeVault, vault, replies, s.quests[questId].rewardAmount, learner).value;
    SplitMoves(w.rewardPool, e, p, learner, questId);
  }

  /**
   A quest's first approval leaves in escrow what its payment does not use of the lock;
   every further settlement's payment is taken from what the engine owes to others: the
   check that the reviews lack.
   */
  lemma ApprovalOverdraws(
    s: Storage, vault: StakeVault.Storage, e: Env, auth: set<Address>, replies: Replies,
    employer: Address, learner: Address, questId: u32, s': Storage, e': Env)
    requires WellFormed(s)
    requires ReviewEffect(s, vault, e, auth, replies, employer, learner, questId, true) == Ok((s', e'))
    ensures s.wiring.Some? && questId in s.quests
    ensures var reward := s.quests[questId].rewardAmount;
      var quote := Quote(s.wiring.value.stakeVault, vault, replies, reward, learner);
      && quote.Ok? && 0 <= Outlay(s.wiring.value, quote.value) <= reward
      && Slack(s', e') ==
           Slack(s, e) - Outlay(s.wiring.value, quote.value) + (if LockUnspent(s, e.events, questId) then reward else 0)
  {
    hide Frame, Tally, Sum, Obligations, SplitEffect;
    assert learner != EngineId;
    ApprovalCosts(s, vault, e, auth, replies, employer, learner, questId, s', e');
    ApprovalMoves(s, vault, e, auth, replies, employer, learner, questId, e');
    hide WellFormed, ReviewEffect;
    var reward := s.quests[questId].rewardAmount;
    PayoutNeverExceeds(reward, MultiplierOf(s.wiring.value.stakeVault, vault, replies, learner).value);
    hide Quote, MultiplierOf;
    ObligationsSettled(s.quests, s'.quests, e.events, e'.events, questId);
  }
}
