/**
 The Soroban host as the six contracts see it: addresses, checked integer widths,
 the ledger clock, the event log and the reward token. The token is trusted: it
 moves a non-negative amount that the sender holds, and nothing else.
 */
module Soroban {
  import opened Outcomes
  import opened Sums

  type u32 = x: int | 0 <= x <= 0xFFFF_FFFF
  type u64 = x: int | 0 <= x <= 0xFFFF_FFFF_FFFF_FFFF
  type i128 = x: int | -0x8000_0000_0000_0000_0000_0000_0000_0000 <= x <= 0x7FFF_FFFF_FFFF_FFFF_FFFF_FFFF_FFFF_FFFF

  const U32_MAX: u32 := 0xFFFF_FFFF
  const U64_MAX: u64 := 0xFFFF_FFFF_FFFF_FFFF

  predicate FitsI128(x: int) {
    -0x8000_0000_0000_0000_0000_0000_0000_0000 <= x <= 0x7FFF_FFFF_FFFF_FFFF_FFFF_FFFF_FFFF_FFFF
  }

  /** Rust's integer division: rounds toward zero. */
  function TruncDiv(a: int, b: int): int
    requires b > 0
  {
    if a >= 0 then a / b else -((-a) / b)
  }

  /** The six contracts of the platform, and everybody else (users, wallets, foreign contracts). */
  datatype Address = Outside(id: nat) | PoolId | VaultId | BadgeId | RegistryId | EngineId | GovernanceId

  /** Who may sign a transaction: a platform contract never does, it only authorises the calls it makes itself. */
  type Signers = s: set<Address> | forall a :: a in s ==> a.Outside?

  type Hash = int

  /** What contracts outside the platform answer when a rewired address makes a platform contract call them. */
  datatype Replies = Replies(multipliers: map<Address, u32>, poolAccepts: bool, badgeAccepts: bool, badgeCount: Option<nat>)

  datatype Event =
    | Transferred(from: Address, to: Address, moved: nat)
    // RewardPool
    | PoolInitialized(admin: Address)
    | SpenderAdded(spender: Address)
    | RewardDistributed(caller: Address, learner: Address, amount: int)
    | PoolFunded(donor: Address, amount: int)
    | EmergencySweep(admin: Address, recoveryWallet: Address, swept: nat)
    // StakeVault
    | StakeVaultInitialized(admin: Address)
    | Staked(user: Address, amount: int, totalStaked: int, lockTimestamp: u64)
    | Unstaked(user: Address, amount: int)
    // BadgeNFT
    | BadgeMinted(learner: Address, courseId: u32, mintedAt: u64)
    | BadgeRevoked(learner: Address, courseId: u32)
    // CourseRegistry
    | CourseCreated(courseId: u32, instructor: Address, totalModules: u32)
    | MetadataUpdated(courseId: u32, instructor: Address, newHash: Hash)
    | CourseStatusChanged(courseId: u32, active: bool)
    | OwnershipTransferred(courseId: u32, previousInstructor: Address, newInstructor: Address)
    | ModuleCompleted(learner: Address, courseId: u32, newProgress: u32)
    | CourseCompleted(learner: Address, courseId: u32, rewardAmount: int)
    // QuestEngine
    | RewardPoolUpdated(admin: Address, newAddress: Address)
    | StakeVaultUpdated(admin: Address, newAddress: Address)
    | QuestCreated(employer: Address, questId: u32, rewardAmount: int)
    | ProofSubmitted(learner: Address, questId: u32, proofHash: Hash)
    | PayoutComputed(learner: Address, questId: u32, fee: int, learnerAmount: int, boostActual: int, boostCapped: bool)
    | SubmissionReviewed(employer: Address, learner: Address, questId: u32, approved: bool)
    | BatchReviewed(employer: Address, questId: u32, approvedCount: u32)
    | QuestRefunded(employer: Address, questId: u32, amount: int)
    | ExploreQuestVerified(admin: Address, learner: Address, questId: u32, amount: int)
    // Governance
    | ProposalExecuted(proposalId: u32, proposer: Address)
    | ProposalCancelled(proposalId: u32, cancelledBy: Address)

  /** Who causes an event: the sender of a transfer, otherwise the contract that publishes it. */
  function Emitter(ev: Event): Address {
    match ev
    case Transferred(from, _, _) => from
    case PoolInitialized(_) | SpenderAdded(_) | RewardDistributed(_, _, _) | PoolFunded(_, _) | EmergencySweep(_, _, _) => PoolId
    case StakeVaultInitialized(_) | Staked(_, _, _, _) | Unstaked(_, _) => VaultId
    case BadgeMinted(_, _, _) | BadgeRevoked(_, _) => BadgeId
    case CourseCreated(_, _, _) | MetadataUpdated(_, _, _) | CourseStatusChanged(_, _) | OwnershipTransferred(_, _, _)
      | ModuleCompleted(_, _, _) | CourseCompleted(_, _, _) => RegistryId
    case RewardPoolUpdated(_, _) | StakeVaultUpdated(_, _) | QuestCreated(_, _, _) | ProofSubmitted(_, _, _)
      | PayoutComputed(_, _, _, _, _, _) | SubmissionReviewed(_, _, _, _) | BatchReviewed(_, _, _)
      | QuestRefunded(_, _, _) | ExploreQuestVerified(_, _, _, _) => EngineId
    case ProposalExecuted(_, _) | ProposalCancelled(_, _) => GovernanceId
  }

  // ---------------------------------------------------------------- history

  datatype Whom = Anyone | Only(who: Address)

  predicate Covers(whom: Whom, a: Address) {
    whom.Anyone? || whom.who == a
  }

  /** Quantities that can be read off the event log. */
  datatype Meter =
    | Sent(party: Address)                            // tokens sent by an address, self-transfers included
    | Received(party: Address)                        // tokens received, self-transfers included
    | PoolSent(whom: Whom)                            // tokens sent by the reward pool
    | CoursesPaid(whom: Whom)                         // CourseCompleted events
    | ExplorePaid(whom: Whom)                         // amounts of ExploreQuestVerified events
    | Swept(whom: Whom)                               // amounts of EmergencySweep events
    | CoursePaid(learner: Address, course: u32)       // CourseCompleted events of one learner and course
    | Settlements(quest: u32)                         // approvals and refunds of one quest
    | Reviews(learner: Address, quest: u32)           // SubmissionReviewed events of one submission
    | Approvals(learner: Address, quest: u32)         // those that approved
    | Executions(proposal: u32)
    | Cancellations(proposal: u32)

  /** The party that must act for a meter to move. */
  function Owner(m: Meter): Address {
    match m
    case Sent(a) => a
    case Received(a) => a
    case PoolSent(_) | Swept(_) => PoolId
    case CoursesPaid(_) | CoursePaid(_, _) => RegistryId
    case ExplorePaid(_) | Settlements(_) | Reviews(_, _) | Approvals(_, _) => EngineId
    case Executions(_) | Cancellations(_) => GovernanceId
  }

  /** How much an event moves a meter: only what a meter's owner causes counts. */
  function Weight(m: Meter, ev: Event): int {
    if m.Received? || Owner(m) == Emitter(ev) then Reading(m, ev) else 0
  }

  function Reading(m: Meter, ev: Event): int {
    match m
    case Sent(a) => if ev.Transferred? && ev.from == a then ev.moved else 0
    case Received(a) => if ev.Transferred? && ev.to == a then ev.moved else 0
    case PoolSent(w) => if ev.Transferred? && ev.from == PoolId && Covers(w, ev.to) then ev.moved else 0
    case CoursesPaid(w) => if ev.CourseCompleted? && Covers(w, ev.learner) then 1 else 0
    case ExplorePaid(w) => if ev.ExploreQuestVerified? && Covers(w, ev.learner) then ev.amount else 0
    case Swept(w) => if ev.EmergencySweep? && Covers(w, ev.recoveryWallet) then ev.swept else 0
    case CoursePaid(l, c) => if ev.CourseCompleted? && ev.learner == l && ev.courseId == c then 1 else 0
    case Settlements(q) =>
      if (ev.SubmissionReviewed? && ev.questId == q && ev.approved) || (ev.QuestRefunded? && ev.questId == q) then 1 else 0
    case Reviews(l, q) => if ev.SubmissionReviewed? && ev.learner == l && ev.questId == q then 1 else 0
    case Approvals(l, q) =>
      if ev.SubmissionReviewed? && ev.learner == l && ev.questId == q && ev.approved then 1 else 0
    case Executions(p) => if ev.ProposalExecuted? && ev.proposalId == p then 1 else 0
    case Cancellations(p) => if ev.ProposalCancelled? && ev.proposalId == p then 1 else 0
  }

  /** A meter's reading over a log. */
  ghost function Tally(m: Meter, log: seq<Event>): (n: int)
    ensures !m.ExplorePaid? ==> 0 <= n
  {
    if log == [] then 0 else Tally(m, log[..|log| - 1]) + Weight(m, log[|log| - 1])
  }

  datatype Deposit = Deposit(amount: int, time: u64)

  ghost function DepositsAfter(before: seq<Deposit>, user: Address, ev: Event): seq<Deposit> {
    if ev.Staked? && ev.user == user then before + [Deposit(ev.amount, ev.lockTimestamp)]
    else if ev.Unstaked? && ev.user == user then []
    else before
  }

  /** A user's stakes since their latest unstake, oldest first. */
  ghost function OpenDeposits(log: seq<Event>, user: Address): seq<Deposit> {
    if log == [] then [] else DepositsAfter(OpenDeposits(log[..|log| - 1], user), user, log[|log| - 1])
  }

  // ---------------------------------------------------------------- environment

  datatype Env = Env(now: u64, balances: map<Address, nat>, events: seq<Event>)

  function BalanceOf(e: Env, a: Address): nat {
    Held(e.balances, a)
  }

  /** What an address must have held before the log began, by its balance and the recorded transfers. */
  ghost function Opening(e: Env, a: Address): int {
    BalanceOf(e, a) + Tally(Sent(a), e.events) - Tally(Received(a), e.events)
  }

  /**
   What any step caused by `actors` alone keeps: time, the token supply, the balance sheet,
   every meter owned by somebody else; and counts never go down.
   */
  ghost predicate Frame(e: Env, e': Env, actors: set<Address>) {
    && e'.now == e.now
    && Sum(e'.balances) == Sum(e.balances)
    && (forall a :: Opening(e', a) == Opening(e, a))
    && (forall m: Meter :: !m.Received? && Owner(m) !in actors ==> Tally(m, e'.events) == Tally(m, e.events))
    && (forall m: Meter :: !m.ExplorePaid? ==> Tally(m, e.events) <= Tally(m, e'.events))
    && (VaultId !in actors ==> forall u :: OpenDeposits(e'.events, u) == OpenDeposits(e.events, u))
  }

  lemma FrameTrans(e: Env, e1: Env, e2: Env, actors: set<Address>)
    requires Frame(e, e1, actors) && Frame(e1, e2, actors)
    ensures Frame(e, e2, actors)
  {
  }

  lemma Widen(e: Env, e': Env, actors: set<Address>, more: set<Address>)
    requires Frame(e, e', actors) && actors <= more
    ensures Frame(e, e', more)
  {
  }

  /** A single entry at the end of the log moves every meter by its weight. */
  ghost predicate Logged(log: seq<Event>, log': seq<Event>, ev: Event) {
    && (forall m :: Tally(m, log') == Tally(m, log) + Weight(m, ev))
    && (forall u :: OpenDeposits(log', u) == DepositsAfter(OpenDeposits(log, u), u, ev))
  }

  lemma AppendLogs(log: seq<Event>, ev: Event)
    ensures Logged(log, log + [ev], ev)
  {
  }

  function Publish(e: Env, ev: Event): Env
    requires !ev.Transferred?
  {
    e.(events := e.events + [ev])
  }

  lemma LoggedFrame(e: Env, e': Env, ev: Event, actors: set<Address>)
    requires e'.now == e.now && e'.balances == e.balances && Logged(e.events, e'.events, ev)
    requires !ev.Transferred? && Emitter(ev) in actors
    ensures Frame(e, e', actors)
  {
    forall a ensures Opening(e', a) == Opening(e, a) {
      assert Weight(Sent(a), ev) == 0 == Weight(Received(a), ev);
    }
    forall m: Meter | !m.Received? && Owner(m) !in actors ensures Tally(m, e'.events) == Tally(m, e.events) {
      assert Weight(m, ev) == 0;
    }
    forall m: Meter | !m.ExplorePaid? ensures Tally(m, e.events) <= Tally(m, e'.events) {
      assert Weight(m, ev) >= 0;
    }
  }

  lemma Published(e: Env, ev: Event, actors: set<Address>)
    requires !ev.Transferred? && Emitter(ev) in actors
    ensures Frame(e, Publish(e, ev), actors)
    ensures Logged(e.events, Publish(e, ev).events, ev)
  {
    AppendLogs(e.events, ev);
    LoggedFrame(e, Publish(e, ev), ev, actors);
  }

  /** A transfer followed by one event, the shape of most calls that move money. */
  lemma TransferThenPublish(e: Env, from: Address, to: Address, amount: int, ev: Event, actors: set<Address>)
    requires TransferEffect(e, from, to, amount).Ok? && from in actors
    requires !ev.Transferred? && Emitter(ev) in actors
    ensures 0 <= amount
    ensures var e1 := TransferEffect(e, from, to, amount).value;
      && Paid(e, e1, from, to, amount)
      && Logged(e1.events, Publish(e1, ev).events, ev)
      && Frame(e, Publish(e1, ev), actors)
  {
    Transfers(e, from, to, amount, actors);
    var e1 := TransferEffect(e, from, to, amount).value;
    Published(e1, ev, actors);
    FrameTrans(e, e1, Publish(e1, ev), actors);
  }

  function Held(balances: map<Address, nat>, a: Address): nat {
    if a in balances then balances[a] else 0
  }

  /** The balance sheet after `from` paid `amount` to `to`. */
  function Moved(balances: map<Address, nat>, from: Address, to: Address, amount: nat): map<Address, nat>
    requires amount <= Held(balances, from)
  {
    var debited := balances[from := Held(balances, from) - amount];
    debited[to := Held(debited, to) + amount]
  }

  lemma MovedBalances(balances: map<Address, nat>, from: Address, to: Address, amount: nat)
    requires amount <= Held(balances, from)
    ensures Sum(Moved(balances, from, to, amount)) == Sum(balances)
    ensures forall a :: Held(Moved(balances, from, to, amount), a) ==
                        Held(balances, a) - (if a == from then amount else 0) + (if a == to then amount else 0)
  {
    SumPut(balances, from, Held(balances, from) - amount);
    var debited := balances[from := Held(balances, from) - amount];
    SumPut(debited, to, Held(debited, to) + amount);
  }

  /** The token's transfer: a self-transfer needs the balance too but changes nothing. */
  function TransferEffect(e: Env, from: Address, to: Address, amount: int): Outcome<Env> {
    if amount < 0 then Panic(NegativeAmount) else
    :- Need(amount <= BalanceOf(e, from), InsufficientBalance);
    Ok(Env(e.now, Moved(e.balances, from, to, amount), e.events + [Transferred(from, to, amount)]))
  }

  ghost predicate Paid(e: Env, e': Env, from: Address, to: Address, amount: nat) {
    && e'.now == e.now
    && Sum(e'.balances) == Sum(e.balances)
    && (forall a :: BalanceOf(e', a) == BalanceOf(e, a) - (if a == from then amount else 0) + (if a == to then amount else 0))
    && Logged(e.events, e'.events, Transferred(from, to, amount))
  }

  lemma PaidFrame(e: Env, e': Env, from: Address, to: Address, amount: nat, actors: set<Address>)
    requires Paid(e, e', from, to, amount) && from in actors
    ensures Frame(e, e', actors)
  {
  }

  /** A transfer conserves the supply and moves exactly the amount. */
  lemma Transfers(e: Env, from: Address, to: Address, amount: int, actors: set<Address>)
    requires TransferEffect(e, from, to, amount).Ok? && from in actors
    ensures 0 <= amount
    ensures var e' := TransferEffect(e, from, to, amount).value;
      Paid(e, e', from, to, amount) && Frame(e, e', actors)
  {
    MovedBalances(e.balances, from, to, amount);
    AppendLogs(e.events, Transferred(from, to, amount));
    PaidFrame(e, TransferEffect(e, from, to, amount).value, from, to, amount, actors);
  }

  /** Exactly `amount` went from one address to another; time stood still. */
  ghost predicate Moves(e: Env, e': Env, from: Address, to: Address, amount: int) {
    && e'.now == e.now
    && forall a :: BalanceOf(e', a) == BalanceOf(e, a) - (if a == from then amount else 0) + (if a == to then amount else 0)
  }

  /** A transfer goes through exactly for a non-negative amount that the sender holds; it moves that and logs it. */
  lemma TransferOutcome(e: Env, from: Address, to: Address, amount: int)
    ensures var r := TransferEffect(e, from, to, amount);
      && (r.Ok? <==> 0 <= amount <= BalanceOf(e, from))
      && (r.Ok? ==> Moves(e, r.value, from, to, amount) && r.value.events == e.events + [Transferred(from, to, amount)])
  {
    if 0 <= amount <= BalanceOf(e, from) {
      MovedBalances(e.balances, from, to, amount);
    }
  }

  /** Nothing but the log changed, which gained the given events. */
  predicate Logs(e: Env, e': Env, more: seq<Event>) {
    e' == e.(events := e.events + more)
  }

  /** The host object every contract holds. */
  class Host {
    var now: u64
    var balances: map<Address, nat>
    var events: seq<Event>

    constructor (now: u64, balances: map<Address, nat>)
      ensures View() == Env(now, balances, [])
    {
      this.now, this.balances, this.events := now, balances, [];
    }

    function View(): Env
      reads this
    {
      Env(now, balances, events)
    }

    function Balance(a: Address): nat
      reads this
    {
      if a in balances then balances[a] else 0
    }

    method Emit(ev: Event)
      requires !ev.Transferred?
      modifies this`events
      ensures View() == Publish(old(View()), ev)
    {
      events := events + [ev];
    }

    method Transfer(from: Address, to: Address, amount: int) returns (r: Outcome<()>)
      modifies this`balances, this`events
      ensures r == TransferEffect(old(View()), from, to, amount).Verdict()
      ensures View() == After(TransferEffect(old(View()), from, to, amount), old(View()))
    {
      if amount < 0 {
        return Panic(NegativeAmount);
      }
      if Balance(from) < amount {
        return Panic(InsufficientBalance);
      }
      balances := balances[from := Balance(from) - amount];
      balances := balances[to := Balance(to) + amount];
      assert balances == Moved(old(balances), from, to, amount);
      events := events + [Transferred(from, to, amount)];
      r := Ok(());
    }

    /** Rolling back a frame that panicked. */
    method Revert(e: Env)
      requires e.now == now
      modifies this`balances, this`events
      ensures View() == e
    {
      balances, events := e.balances, e.events;
    }

    method Advance(to: u64)
      modifies this`now
      ensures View() == old(View()).(now := if to >= old(now) then to else old(now))
    {
      if to >= now {
        now := to;
      }
    }
  }
}
