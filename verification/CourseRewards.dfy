/** What the completion protocol keeps: progress, at-most-once payment, and badges that agree with progress. */
module CourseRewards {
  import opened Outcomes
  import opened Soroban
  import opened CourseRegistry
  import RewardPool
  import BadgeNft

  // ---------------------------------------------------------------- what a call may do

  /** `n` more CourseCompleted events for one learner and course, none for the others. */
  ghost predicate Pays(log: seq<Event>, log': seq<Event>, learner: Address, id: u32, n: int) {
    forall l, c: u32 :: Tally(CoursePaid(l, c), log') == Tally(CoursePaid(l, c), log) + (if l == learner && c == id then n else 0)
  }

  lemma AttemptFrame(wired: Option<Address>, pool: RewardPool.Storage, e: Env, replies: Replies, learner: Address)
    requires DistributeAttempt(wired, pool, e, replies, learner).Ok?
    ensures Frame(e, DistributeAttempt(wired, pool, e, replies, learner).value, {PoolId})
  {
    if wired.value == PoolId {
      RewardPool.DistributeFrame(pool, e, {RegistryId}, RegistryId, learner, BASE_REWARD, {PoolId});
    }
  }

  lemma CompletionLogged(log: seq<Event>, log': seq<Event>, learner: Address, id: u32)
    requires Logged(log, log', CourseCompleted(learner, id, BASE_REWARD))
    ensures Pays(log, log', learner, id, 1)
  {
    hide Tally;
  }

  lemma SilentPays(log: seq<Event>, log': seq<Event>, ev: Event, learner: Address, id: u32)
    requires Logged(log, log', ev) && !ev.CourseCompleted?
    ensures Pays(log, log', learner, id, 0)
  {
    hide Tally;
    forall l, c: u32 ensures Tally(CoursePaid(l, c), log') == Tally(CoursePaid(l, c), log) {
      assert Weight(CoursePaid(l, c), ev) == 0;
    }
  }

  lemma ForeignPays(e: Env, e': Env, actors: set<Address>, learner: Address, id: u32)
    requires Frame(e, e', actors) && RegistryId !in actors
    ensures Pays(e.events, e'.events, learner, id, 0)
  {
    hide Tally;
    forall l, c: u32 ensures Tally(CoursePaid(l, c), e'.events) == Tally(CoursePaid(l, c), e.events) {
      assert Owner(CoursePaid(l, c)) == RegistryId;
    }
  }

  lemma PaysTrans(log: seq<Event>, log1: seq<Event>, log': seq<Event>, learner: Address, id: u32, n: int, n': int)
    requires Pays(log, log1, learner, id, n) && Pays(log1, log', learner, id, n')
    ensures Pays(log, log', learner, id, n + n')
  {
    hide Tally;
  }

  /** The attempt to pay logs one completion exactly when it succeeds. */
  lemma TryPays(wired: Option<Address>, pool: RewardPool.Storage, e: Env, replies: Replies, learner: Address, id: u32)
    ensures var (paid, e') := TryDistribute(wired, pool, e, replies, learner, id);
      && Frame(e, e', {RegistryId, PoolId})
      && Pays(e.events, e'.events, learner, id, if paid then 1 else 0)
  {
    var r := DistributeAttempt(wired, pool, e, replies, learner);
    hide DistributeAttempt, Tally;
    if r.Ok? {
      var ev := CourseCompleted(learner, id, BASE_REWARD);
      AttemptFrame(wired, pool, e, replies, learner);
      Published(r.value, ev, {RegistryId, PoolId});
      Widen(e, r.value, {PoolId}, {RegistryId, PoolId});
      FrameTrans(e, r.value, Publish(r.value, ev), {RegistryId, PoolId});
      ForeignPays(e, r.value, {PoolId}, learner, id);
      CompletionLogged(r.value.events, Publish(r.value, ev).events, learner, id);
      PaysTrans(e.events, r.value.events, Publish(r.value, ev).events, learner, id, 0, 1);
    }
  }

  lemma MintFrame(wired: Option<Address>, badges: BadgeNft.Storage, e: Env, replies: Replies, learner: Address, id: u32)
    requires MintAttempt(wired, badges, e, replies, learner, id).Ok?
    ensures Frame(e, MintAttempt(wired, badges, e, replies, learner, id).value.1, {BadgeId})
  {
    if wired.Some? && wired.value == BadgeId {
      Published(e, BadgeMinted(learner, id, e.now), {BadgeId});
    }
  }

  const ACTORS: set<Address> := {RegistryId, BadgeId, PoolId}

  /** Whether the attempt made by this finish pays. */
  function FinishPays(
    s: Storage, badges: BadgeNft.Storage, pool: RewardPool.Storage, e: Env, replies: Replies, learner: Address, id: u32): bool
  {
    var minted := MintAttempt(s.badgeNft, badges, e, replies, learner, id);
    minted.Ok? && TryDistribute(s.rewardPool, pool, minted.value.1, replies, learner, id).0
  }

  lemma FinishForm(
    s: Storage, badges: BadgeNft.Storage, pool: RewardPool.Storage, e: Env, replies: Replies, learner: Address, id: u32,
    s': Storage, badges': BadgeNft.Storage, e': Env)
    requires FinishEffect(s, badges, pool, e, replies, learner, id) == Ok((s', badges', e'))
    ensures var minted := MintAttempt(s.badgeNft, badges, e, replies, learner, id);
      && minted.Ok? && badges' == minted.value.0
      && (FinishPays(s, badges, pool, e, replies, learner, id), e') ==
           TryDistribute(s.rewardPool, pool, minted.value.1, replies, learner, id)
    ensures FinishPays(s, badges, pool, e, replies, learner, id) ==> s.rewardPool.Some?
    ensures s' == s.(pending := s'.pending)
    ensures forall k :: k in s'.pending <==>
      if k == (learner, id) && s.rewardPool.Some? then !FinishPays(s, badges, pool, e, replies, learner, id) else k in s.pending
  {
  }

  lemma FinishKeeps(
    s: Storage, badges: BadgeNft.Storage, pool: RewardPool.Storage, e: Env, replies: Replies, learner: Address, id: u32,
    s': Storage, badges': BadgeNft.Storage, e': Env)
    requires FinishEffect(s, badges, pool, e, replies, learner, id) == Ok((s', badges', e'))
    ensures Frame(e, e', ACTORS)
    ensures Pays(e.events, e'.events, learner, id, if FinishPays(s, badges, pool, e, replies, learner, id) then 1 else 0)
  {
    hide FinishEffect, FinishPays, TryDistribute, MintAttempt, Frame, Tally, Pays;
    FinishForm(s, badges, pool, e, replies, learner, id, s', badges', e');
    var e1 := MintAttempt(s.badgeNft, badges, e, replies, learner, id).value.1;
    MintFrame(s.badgeNft, badges, e, replies, learner, id);
    TryPays(s.rewardPool, pool, e1, replies, learner, id);
    ForeignPays(e, e1, {BadgeId}, learner, id);
    PaysTrans(e.events, e1.events, e'.events, learner, id, 0,
              if FinishPays(s, badges, pool, e, replies, learner, id) then 1 else 0);
    Widen(e, e1, {BadgeId}, ACTORS);
    Widen(e1, e', {RegistryId, PoolId}, ACTORS);
    FrameTrans(e, e1, e', ACTORS);
  }

  // ---------------------------------------------------------------- the invariant

  /** Payments made plus the payment pending. */
  ghost function Due(s: Storage, log: seq<Event>, learner: Address, id: u32): nat {
    Tally(CoursePaid(learner, id), log) + (if (learner, id) in s.pending then 1 else 0)
  }

  /** One for a finished course whose reward is neither paid nor pending. */
  ghost function Gap(s: Storage, log: seq<Event>, learner: Address, id: u32): int {
    (if Finished(s, learner, id) then 1 else 0) - Due(s, log, learner, id)
  }

  ghost predicate WellFormed(s: Storage) {
    && (forall id: u32 :: id in s.courses <==> 1 <= id <= s.courseCount)
    && (forall id: u32 :: id in s.courses ==> 0 < s.courses[id].totalModules)
    && (forall k :: k in s.progress ==> k.1 in s.courses && s.progress[k] <= s.courses[k.1].totalModules)
  }

  /** At most one payment, made or pending, and only for a finished course. */
  ghost predicate PaidOnce(s: Storage, log: seq<Event>) {
    forall l, c: u32 :: 0 <= Gap(s, log, l, c)
  }

  ghost predicate Inv(s: Storage, log: seq<Event>) {
    WellFormed(s) && PaidOnce(s, log)
  }

  /** Courses keep their length and progress only grows. */
  ghost predicate Onward(s: Storage, s': Storage) {
    && (forall id: u32 :: id in s.courses ==> id in s'.courses && s'.courses[id].totalModules == s.courses[id].totalModules)
    && (forall l, id: u32 :: Progress(s, l, id) <= Progress(s', l, id))
  }

  /** What a call does to the rewards: `n` of them are lost for one learner and course, none for the others. */
  ghost predicate Loses(s: Storage, log: seq<Event>, s': Storage, log': seq<Event>, learner: Address, id: u32, n: nat) {
    forall l, c: u32 :: Gap(s', log', l, c) == Gap(s, log, l, c) + (if l == learner && c == id then n else 0)
  }

  ghost predicate Kept(s: Storage, log: seq<Event>, s': Storage, log': seq<Event>, learner: Address, id: u32, n: nat) {
    Inv(s', log') && Onward(s, s') && Loses(s, log, s', log', learner, id, n)
  }

  lemma CatalogueKeeps(s: Storage, s': Storage, log: seq<Event>, log': seq<Event>, learner: Address, id: u32)
    requires Inv(s, log)
    requires Pays(log, log', learner, id, 0)
    requires s'.progress == s.progress && s'.pending == s.pending
    requires s'.courseCount == s.courseCount && s'.courses.Keys == s.courses.Keys
    requires forall c: u32 :: c in s.courses ==> s'.courses[c].totalModules == s.courses[c].totalModules
    ensures Kept(s, log, s', log', learner, id, 0)
  {
    hide Tally;
    forall l, c: u32 ensures Gap(s', log', l, c) == Gap(s, log, l, c) {
    }
  }

  lemma CreatedKeeps(s: Storage, s': Storage, log: seq<Event>, log': seq<Event>, course: Course, learner: Address, id: u32)
    requires Inv(s, log) && s.courseCount < U32_MAX && course.totalModules > 0
    requires Pays(log, log', learner, id, 0)
    requires s' == s.(courseCount := s.courseCount + 1, courses := s.courses[s.courseCount + 1 := course])
    ensures Kept(s, log, s', log', learner, id, 0)
  {
    hide Tally;
    forall l, c: u32 ensures Gap(s', log', l, c) == Gap(s, log, l, c) {
      assert 0 <= Gap(s, log, l, c);
    }
  }

  lemma EnrolledKeeps(s: Storage, s': Storage, log: seq<Event>, learner: Address, id: u32)
    requires Inv(s, log) && id in s.courses && (learner, id) !in s.progress
    requires s' == s.(progress := s.progress[(learner, id) := 0])
    ensures Kept(s, log, s', log, learner, id, 0)
  {
    hide Tally;
    forall l, c: u32 ensures Gap(s', log, l, c) == Gap(s, log, l, c) && Progress(s', l, c) == Progress(s, l, c) {
    }
  }

  /** One module more: the reward of the last one is paid, pending or, with `lost` as 1, neither. */
  lemma AdvancedKeeps(
    s: Storage, s': Storage, log: seq<Event>, log': seq<Event>, learner: Address, id: u32, paid: nat, lost: nat)
    requires Inv(s, log) && id in s.courses && Progress(s, learner, id) < s.courses[id].totalModules
    requires s' == s.(progress := s.progress[(learner, id) := Progress(s, learner, id) + 1], pending := s'.pending)
    requires Pays(log, log', learner, id, paid)
    requires forall k :: k != (learner, id) ==> (k in s'.pending <==> k in s.pending)
    requires paid + lost + (if (learner, id) in s'.pending then 1 else 0)
             == (if Progress(s, learner, id) + 1 == s.courses[id].totalModules then 1 else 0)
    ensures Kept(s, log, s', log', learner, id, lost)
  {
    hide Tally;
    assert 0 <= Gap(s, log, learner, id);
    forall l, c: u32 ensures Gap(s', log', l, c) == Gap(s, log, l, c) + (if l == learner && c == id then lost else 0) {
      if (l, c) != (learner, id) {
        assert Progress(s', l, c) == Progress(s, l, c);
      }
    }
  }

  /** A claim pays or loses. */
  lemma ClaimedKeeps(s: Storage, s': Storage, log: seq<Event>, log': seq<Event>, learner: Address, id: u32, paid: nat)
    requires Inv(s, log) && (learner, id) in s.pending && paid <= 1
    requires s' == s.(pending := s.pending - {(learner, id)})
    requires Pays(log, log', learner, id, paid)
    ensures Kept(s, log, s', log', learner, id, 1 - paid)
  {
    hide Tally;
    forall l, c: u32 ensures Gap(s', log', l, c) == Gap(s, log, l, c) + (if l == learner && c == id then 1 - paid else 0) {
    }
  }

  // ---------------------------------------------------------------- the calls

  /** The rewards a successful call loses for one learner and course. */
  function Lost(s: Storage, pool: RewardPool.Storage, e: Env, replies: Replies, c: Call, learner: Address, id: u32): nat {
    match c
    case CompleteModule(_, l, i) =>
      // finished while no pool is wired
      if (l, i) == (learner, id) && i in s.courses && Progress(s, l, i) + 1 == s.courses[i].totalModules && s.rewardPool.None?
      then 1 else 0
    case ClaimCompletionReward(l, i) =>
      // claimed while the pool refuses
      if (l, i) == (learner, id) && DistributeAttempt(s.rewardPool, pool, e, replies, l).Panic? then 1 else 0
    case _ => 0
  }

  /** The learner and course a call is about, where it is about one. */
  function Subject(c: Call): (Address, u32) {
    match c
    case CompleteModule(_, l, i) => (l, i)
    case ClaimCompletionReward(l, i) => (l, i)
    case _ => (RegistryId, 0)
  }

  lemma CompleteForm(
    s: Storage, badges: BadgeNft.Storage, pool: RewardPool.Storage, e: Env, auth: set<Address>, replies: Replies,
    verifier: Address, learner: Address, id: u32, s': Storage, badges': BadgeNft.Storage, e': Env)
    requires CompleteModuleEffect(s, badges, pool, e, auth, replies, verifier, learner, id) == Ok((s', badges', e'))
    ensures id in s.courses && Progress(s, learner, id) < s.courses[id].totalModules
    ensures var n := Progress(s, learner, id) + 1;
      var s1 := s.(progress := s.progress[(learner, id) := n]);
      var e1 := Publish(e, ModuleCompleted(learner, id, n));
      if n == s.courses[id].totalModules then FinishEffect(s1, badges, pool, e1, replies, learner, id) == Ok((s', badges', e'))
      else s' == s1 && badges' == badges && e' == e1
  {
  }

  lemma CompleteKeeps(
    s: Storage, badges: BadgeNft.Storage, pool: RewardPool.Storage, e: Env, auth: set<Address>, replies: Replies,
    verifier: Address, learner: Address, id: u32, s': Storage, badges': BadgeNft.Storage, e': Env)
    requires Inv(s, e.events)
    requires CompleteModuleEffect(s, badges, pool, e, auth, replies, verifier, learner, id) == Ok((s', badges', e'))
    ensures Frame(e, e', ACTORS)
    ensures Kept(s, e.events, s', e'.events, learner, id,
                 Lost(s, pool, e, replies, CompleteModule(verifier, learner, id), learner, id))
  {
    hide CompleteModuleEffect, FinishEffect, FinishPays, Frame, Logged, Pays, Kept, Inv, Tally, MintAttempt, TryDistribute;
    CompleteForm(s, badges, pool, e, auth, replies, verifier, learner, id, s', badges', e');
    var n := Progress(s, learner, id) + 1;
    var s1 := s.(progress := s.progress[(learner, id) := n]);
    var ev := ModuleCompleted(learner, id, n);
    var e1 := Publish(e, ev);
    Published(e, ev, ACTORS);
    SilentPays(e.events, e1.events, ev, learner, id);
    if n == s.courses[id].totalModules {
      FinishForm(s1, badges, pool, e1, replies, learner, id, s', badges', e');
      FinishKeeps(s1, badges, pool, e1, replies, learner, id, s', badges', e');
      var paid := if FinishPays(s1, badges, pool, e1, replies, learner, id) then 1 else 0;
      PaysTrans(e.events, e1.events, e'.events, learner, id, 0, paid);
      FrameTrans(e, e1, e', ACTORS);
      UnfinishedNotPending(s, e.events, learner, id);
      AdvancedKeeps(s, s', e.events, e'.events, learner, id, paid, if s.rewardPool.None? then 1 else 0);
    } else {
      UnfinishedNotPending(s, e.events, learner, id);
      AdvancedKeeps(s, s', e.events, e'.events, learner, id, 0, 0);
    }
  }

  lemma UnfinishedNotPending(s: Storage, log: seq<Event>, learner: Address, id: u32)
    requires Inv(s, log) && !Finished(s, learner, id)
    ensures (learner, id) !in s.pending
    ensures Tally(CoursePaid(learner, id), log) == 0
  {
    assert 0 <= Gap(s, log, learner, id);
  }

  lemma ClaimKeeps(
    s: Storage, pool: RewardPool.Storage, e: Env, auth: set<Address>, replies: Replies, learner: Address, id: u32,
    s': Storage, e': Env)
    requires Inv(s, e.events)
    requires ClaimEffect(s, pool, e, auth, replies, learner, id) == Ok((s', e'))
    ensures Frame(e, e', ACTORS)
    ensures Kept(s, e.events, s', e'.events, learner, id,
                 Lost(s, pool, e, replies, ClaimCompletionReward(learner, id), learner, id))
  {
    hide Frame, Pays, Kept, Inv, Tally, DistributeAttempt;
    TryPays(s.rewardPool, pool, e, replies, learner, id);
    Widen(e, e', {RegistryId, PoolId}, ACTORS);
    ClaimedKeeps(s, s', e.events, e'.events, learner, id,
                 if TryDistribute(s.rewardPool, pool, e, replies, learner, id).0 then 1 else 0);
  }

  /** The calls on the catalogue and on settings. */
  predicate Clerical(c: Call) {
    !c.CompleteModule? && !c.ClaimCompletionReward?
  }

  lemma PublishedPays(e: Env, ev: Event, learner: Address, id: u32)
    requires !ev.Transferred? && !ev.CourseCompleted? && Emitter(ev) == RegistryId
    ensures Frame(e, Publish(e, ev), ACTORS)
    ensures Pays(e.events, Publish(e, ev).events, learner, id, 0)
  {
    Published(e, ev, ACTORS);
    SilentPays(e.events, Publish(e, ev).events, ev, learner, id);
  }

  lemma ClericalKeeps(
    s: Storage, badges: BadgeNft.Storage, pool: RewardPool.Storage, e: Env, auth: set<Address>, replies: Replies, c: Call,
    s': Storage, badges': BadgeNft.Storage, e': Env)
    requires Inv(s, e.events) && Clerical(c)
    requires CourseRegistry.Exec(s, badges, pool, e, auth, replies, c) == Ok((s', badges', e'))
    ensures Frame(e, e', ACTORS) && badges' == badges
    ensures Kept(s, e.events, s', e'.events, Subject(c).0, Subject(c).1, 0)
  {
    hide Frame, Pays, Kept, Inv, Tally;
    var (l, i) := Subject(c);
    match c
    case Initialize(_) | SetRewardPoolAddress(_, _) | SetBadgeNftAddress(_, _) =>
      SameLog(e, l, i);
      CatalogueKeeps(s, s', e.events, e.events, l, i);
    case CreateCourse(_, instructor, total, hash) =>
      PublishedPays(e, CourseCreated(s.courseCount + 1, instructor, total), l, i);
      CreatedKeeps(s, s', e.events, e'.events, Course(instructor, total, hash, true), l, i);
    case UpdateMetadata(id, hash) =>
      PublishedPays(e, MetadataUpdated(id, s.courses[id].instructor, hash), l, i);
      CatalogueKeeps(s, s', e.events, e'.events, l, i);
    case SetCourseStatus(_, id, active) =>
      PublishedPays(e, CourseStatusChanged(id, active), l, i);
      CatalogueKeeps(s, s', e.events, e'.events, l, i);
    case TransferOwnership(current, next, id) =>
      PublishedPays(e, OwnershipTransferred(id, current, next), l, i);
      CatalogueKeeps(s, s', e.events, e'.events, l, i);
    case Enroll(learner, id) =>
      SameLog(e, l, i);
      EnrolledKeeps(s, s', e.events, learner, id);
      SameSubject(s, s', e.events, learner, id, l, i);
  }

  lemma SameLog(e: Env, learner: Address, id: u32)
    ensures Frame(e, e, ACTORS) && Pays(e.events, e.events, learner, id, 0)
  {
  }

  lemma SameSubject(s: Storage, s': Storage, log: seq<Event>, learner: Address, id: u32, learner': Address, id': u32)
    requires Kept(s, log, s', log, learner, id, 0)
    ensures Kept(s, log, s', log, learner', id', 0)
  {
  }

  /** Every registry call keeps the invariant, only moves learners onward, and loses exactly the rewards `Lost` names. */
  lemma ExecKeeps(
    s: Storage, badges: BadgeNft.Storage, pool: RewardPool.Storage, e: Env, auth: set<Address>, replies: Replies, c: Call,
    s': Storage, badges': BadgeNft.Storage, e': Env)
    requires Inv(s, e.events)
    requires CourseRegistry.Exec(s, badges, pool, e, auth, replies, c) == Ok((s', badges', e'))
    ensures Frame(e, e', ACTORS)
    ensures Inv(s', e'.events) && Onward(s, s')
    ensures forall l, i: u32 :: Gap(s', e'.events, l, i) == Gap(s, e.events, l, i) + Lost(s, pool, e, replies, c, l, i)
  {
    hide Frame, Inv, Gap, Onward;
    match c
    case CompleteModule(verifier, learner, id) =>
      CompleteKeeps(s, badges, pool, e, auth, replies, verifier, learner, id, s', badges', e');
    case ClaimCompletionReward(learner, id) =>
      ClaimKeeps(s, pool, e, auth, replies, learner, id, s', e');
    case _ =>
      ClericalKeeps(s, badges, pool, e, auth, replies, c, s', badges', e');
  }

  /** Steps in which the registry takes no part leave its rewards as they are. */
  lemma OthersKeep(s: Storage, e: Env, e': Env, actors: set<Address>)
    requires Inv(s, e.events) && Frame(e, e', actors) && RegistryId !in actors
    ensures Inv(s, e'.events)
    ensures forall l, i: u32 :: Gap(s, e'.events, l, i) == Gap(s, e.events, l, i)
  {
    ForeignPays(e, e', actors, RegistryId, 0);
    hide Frame, Tally;
    forall l, i: u32 ensures Gap(s, e'.events, l, i) == Gap(s, e.events, l, i) {
    }
  }

  // ---------------------------------------------------------------- the retry path

  /**
   A claim goes through exactly when the learner signs and a reward is pending, and
   uses the record up. It pays exactly 100_000_000 when the pool is unpaused,
   initialised, lists the registry and holds that much; otherwise it pays nothing,
   and the reward is lost.
   */
  lemma ClaimExactly(s: Storage, pool: RewardPool.Storage, e: Env, auth: Signers, replies: Replies, learner: Address, id: u32)
    requires Inv(s, e.events) && s.rewardPool == Some(PoolId)
    ensures var r := ClaimEffect(s, pool, e, auth, replies, learner, id);
      && (r.Ok? <==> learner in auth && (learner, id) in s.pending)
      && (r.Ok? ==>
            var (s', e') := r.value;
            && s' == s.(pending := s.pending - {(learner, id)})
            && (if RewardPool.CanDistribute(pool, e, RegistryId, 100_000_000) then
                  && BalanceOf(e', learner) == BalanceOf(e, learner) + 100_000_000
                  && BalanceOf(e', PoolId) == BalanceOf(e, PoolId) - 100_000_000
                  && Tally(CoursePaid(learner, id), e'.events) == 1
                  && Gap(s', e'.events, learner, id) == 0
                else
                  e' == e && Gap(s', e'.events, learner, id) == 1))
  {
    var r := ClaimEffect(s, pool, e, auth, replies, learner, id);
    if r.Ok? {
      var (s', e') := r.value;
      assert 0 <= Gap(s, e.events, learner, id);
      if RewardPool.CanDistribute(pool, e, RegistryId, 100_000_000) {
        ClaimMoves(s, pool, e, auth, replies, learner, id, e');
      }
    }
  }

  lemma ClaimMoves(
    s: Storage, pool: RewardPool.Storage, e: Env, auth: set<Address>, replies: Replies, learner: Address, id: u32, e': Env)
    requires s.rewardPool == Some(PoolId) && learner in auth && learner != PoolId && (learner, id) in s.pending
    requires RewardPool.CanDistribute(pool, e, RegistryId, BASE_REWARD)
    requires ClaimEffect(s, pool, e, auth, replies, learner, id).Ok?
    requires e' == ClaimEffect(s, pool, e, auth, replies, learner, id).value.1
    ensures BalanceOf(e', learner) == BalanceOf(e, learner) + BASE_REWARD
    ensures BalanceOf(e', PoolId) == BalanceOf(e, PoolId) - BASE_REWARD
    ensures Tally(CoursePaid(learner, id), e'.events) == Tally(CoursePaid(learner, id), e.events) + 1
  {
    TransferThenPublish(e, PoolId, learner, BASE_REWARD, RewardDistributed(RegistryId, learner, BASE_REWARD), {PoolId});
    TryPays(s.rewardPool, pool, e, replies, learner, id);
  }
}
