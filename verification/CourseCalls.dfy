/** Each registry call on its own: exactly when it succeeds and everything it changes, however the registry is wired. */
module CourseCalls {
  import opened Outcomes
  import opened Soroban
  import opened CourseRegistry
  import BadgeNft
  import CourseRewards
  import RewardPool

  type Registry = CourseRegistry.Storage

  // ---------------------------------------------------------------- settings and catalogue

  lemma InitializeOutcome(
    s: Registry, b: BadgeNft.Storage, pool: RewardPool.Storage, e: Env, auth: set<Address>, replies: Replies, admin: Address)
    ensures var r := Exec(s, b, pool, e, auth, replies, Initialize(admin));
      && (r.Ok? <==> s.admin.None? && admin in auth)
      && (r.Ok? ==> r.value == (s.(admin := Some(admin)), b, e))
  {
  }

  /** Wiring is the admin's right, and takes the address given. */
  lemma WiringOutcome(
    s: Registry, b: BadgeNft.Storage, pool: RewardPool.Storage, e: Env, auth: set<Address>, replies: Replies,
    admin: Address, address: Address)
    ensures var rp := Exec(s, b, pool, e, auth, replies, SetRewardPoolAddress(admin, address));
      var rb := Exec(s, b, pool, e, auth, replies, SetBadgeNftAddress(admin, address));
      && (rp.Ok? <==> s.admin == Some(admin) && admin in auth)
      && (rb.Ok? <==> s.admin == Some(admin) && admin in auth)
      && (rp.Ok? ==> rp.value == (s.(rewardPool := Some(address)), b, e))
      && (rb.Ok? ==> rb.value == (s.(badgeNft := Some(address)), b, e))
  {
  }

  /**
   Creating courses is the admin's right and needs a positive length. The new course has
   the next id, exactly the instructor, length and hash given, and is active; no other
   course changes.
   */
  lemma CreateCourseOutcome(
    s: Registry, b: BadgeNft.Storage, pool: RewardPool.Storage, e: Env, auth: set<Address>, replies: Replies,
    admin: Address, instructor: Address, totalModules: u32, hash: Hash)
    ensures var r := Exec(s, b, pool, e, auth, replies, CreateCourse(admin, instructor, totalModules, hash));
      && (r.Ok? <==> s.admin == Some(admin) && admin in auth && 0 < totalModules && s.courseCount < U32_MAX)
      && (r.Ok? ==>
            var (s', b', e') := r.value;
            var id := s.courseCount + 1;
            && s' == s.(courseCount := id, courses := s'.courses)
            && s'.courses.Keys == s.courses.Keys + {id}
            && s'.courses[id].instructor == instructor && s'.courses[id].totalModules == totalModules
            && s'.courses[id].metadataHash == hash && s'.courses[id].active
            && (forall c: u32 :: c in s.courses && c != id ==> s'.courses[c] == s.courses[c])
            && b' == b && Logs(e, e', [CourseCreated(id, instructor, totalModules)]))
  {
  }

  /** The instructor alone replaces the hash. */
  lemma UpdateMetadataOutcome(
    s: Registry, b: BadgeNft.Storage, pool: RewardPool.Storage, e: Env, auth: set<Address>, replies: Replies,
    id: u32, hash: Hash)
    ensures var r := Exec(s, b, pool, e, auth, replies, UpdateMetadata(id, hash));
      && (r.Ok? <==> id in s.courses && s.courses[id].instructor in auth)
      && (r.Ok? ==>
            && r.value.0 == s.(courses := s.courses[id := s.courses[id].(metadataHash := hash)])
            && r.value.1 == b && Logs(e, r.value.2, [MetadataUpdated(id, s.courses[id].instructor, hash)]))
  {
  }

  /** The admin alone sets the status. */
  lemma SetStatusOutcome(
    s: Registry, b: BadgeNft.Storage, pool: RewardPool.Storage, e: Env, auth: set<Address>, replies: Replies,
    admin: Address, id: u32, active: bool)
    ensures var r := Exec(s, b, pool, e, auth, replies, SetCourseStatus(admin, id, active));
      && (r.Ok? <==> s.admin == Some(admin) && admin in auth && id in s.courses)
      && (r.Ok? ==>
            && r.value.0 == s.(courses := s.courses[id := s.courses[id].(active := active)])
            && r.value.1 == b && Logs(e, r.value.2, [CourseStatusChanged(id, active)]))
  {
  }

  /** The instructor alone hands a course over. */
  lemma TransferOwnershipOutcome(
    s: Registry, b: BadgeNft.Storage, pool: RewardPool.Storage, e: Env, auth: set<Address>, replies: Replies,
    current: Address, next: Address, id: u32)
    ensures var r := Exec(s, b, pool, e, auth, replies, TransferOwnership(current, next, id));
      && (r.Ok? <==> id in s.courses && s.courses[id].instructor == current && current in auth)
      && (r.Ok? ==>
            && r.value.0 == s.(courses := s.courses[id := s.courses[id].(instructor := next)])
            && r.value.1 == b && Logs(e, r.value.2, [OwnershipTransferred(id, current, next)]))
  {
  }

  /** Every learner can enrol once in every active course, starting at zero. */
  lemma EnrollOutcome(
    s: Registry, b: BadgeNft.Storage, pool: RewardPool.Storage, e: Env, auth: set<Address>, replies: Replies,
    learner: Address, id: u32)
    ensures var r := Exec(s, b, pool, e, auth, replies, Enroll(learner, id));
      && (r.Ok? <==> learner in auth && id in s.courses && s.courses[id].active && (learner, id) !in s.progress)
      && (r.Ok? ==> r.value == (s.(progress := s.progress[(learner, id) := 0]), b, e))
  {
  }

  // ---------------------------------------------------------------- payment and badge

  /** Whether the registry's order over 100_000_000 would be carried out now. */
  predicate RewardReady(wired: Option<Address>, pool: RewardPool.Storage, e: Env, replies: Replies) {
    && wired.Some?
    && if wired.value == PoolId
       then !pool.paused && pool.admin.Some? && RegistryId in pool.spenders && 100_000_000 <= BalanceOf(e, PoolId)
       else replies.poolAccepts
  }

  /** The completions logged for a payment, with the transfer if the platform's pool makes it. */
  function RewardLog(wired: Option<Address>, learner: Address, id: u32): seq<Event> {
    (if wired == Some(PoolId)
     then [Transferred(PoolId, learner, 100_000_000), RewardDistributed(RegistryId, learner, 100_000_000)] else [])
    + [CourseCompleted(learner, id, 100_000_000)]
  }

  function RewardMoved(wired: Option<Address>): nat {
    if wired == Some(PoolId) then 100_000_000 else 0
  }

  lemma PaymentOutcome(wired: Option<Address>, pool: RewardPool.Storage, e: Env, replies: Replies, learner: Address, id: u32)
    ensures var (paid, e') := TryDistribute(wired, pool, e, replies, learner, id);
      && (paid <==> RewardReady(wired, pool, e, replies))
      && (!paid ==> e' == e)
      && (paid ==> Moves(e, e', PoolId, learner, RewardMoved(wired)) && e'.events == e.events + RewardLog(wired, learner, id))
  {
    if wired == Some(PoolId) {
      RewardPool.DistributeOutcome(pool, e, {RegistryId}, RegistryId, learner, 100_000_000);
    }
  }

  /** Whether minting the badge of a finished course goes through: with no badge contract wired it always does. */
  predicate MayMint(wired: Option<Address>, b: BadgeNft.Storage, replies: Replies, learner: Address, id: u32) {
    wired.Some? ==>
      if wired.value == BadgeId
      then b.admin == Some(RegistryId) && !BadgeNft.HasBadge(b, learner, id)
      else replies.badgeAccepts
  }

  function WithBadge(b: BadgeNft.Storage, learner: Address, badge: BadgeNft.Badge): BadgeNft.Storage {
    b.(userBadges := b.userBadges[learner := BadgeNft.Badges(b, learner) + [badge]])
  }

  lemma MintingOutcome(wired: Option<Address>, b: BadgeNft.Storage, e: Env, replies: Replies, learner: Address, id: u32)
    ensures var r := MintAttempt(wired, b, e, replies, learner, id);
      && (r.Ok? <==> MayMint(wired, b, replies, learner, id))
      && (r.Ok? && wired == Some(BadgeId) ==>
            && r.value.0 == WithBadge(b, learner, BadgeNft.Badge(id, e.now))
            && Logs(e, r.value.1, [BadgeMinted(learner, id, e.now)]))
      && (r.Ok? && wired != Some(BadgeId) ==> r.value == (b, e))
  {
  }

  // ---------------------------------------------------------------- completing and claiming

  predicate LastModule(s: Registry, learner: Address, id: u32) {
    id in s.courses && Progress(s, learner, id) + 1 == s.courses[id].totalModules
  }

  /**
   `complete_module` succeeds exactly when the admin signs as verifier, the course exists,
   modules remain, and on the last of them the badge can be minted. No badge contract and
   no pool need be wired, and no learner enrolled.
   */
  lemma CompleteSucceeds(
    s: Registry, b: BadgeNft.Storage, pool: RewardPool.Storage, e: Env, auth: set<Address>, replies: Replies,
    verifier: Address, learner: Address, id: u32)
    ensures Exec(s, b, pool, e, auth, replies, CompleteModule(verifier, learner, id)).Ok? <==>
      && verifier in auth && s.admin == Some(verifier)
      && id in s.courses && Progress(s, learner, id) < s.courses[id].totalModules
      && (LastModule(s, learner, id) ==> MayMint(s.badgeNft, b, replies, learner, id))
  {
    hide MintAttempt, TryDistribute, MayMint, Publish;
    if id in s.courses && Progress(s, learner, id) < s.courses[id].totalModules {
      var n := Progress(s, learner, id) + 1;
      MintingOutcome(s.badgeNft, b, Publish(e, ModuleCompleted(learner, id, n)), replies, learner, id);
    }
  }

  /** What a completed module writes besides progress, if it is the last. */
  ghost predicate Graduation(
    s: Registry, b: BadgeNft.Storage, pool: RewardPool.Storage, e: Env, replies: Replies, learner: Address, id: u32,
    s': Registry, b': BadgeNft.Storage, e': Env)
  {
    var key, paid := (learner, id), RewardReady(s.rewardPool, pool, e, replies);
    && s'.pending == (if paid then s.pending - {key} else if s.rewardPool.Some? then s.pending + {key} else s.pending)
    && b' == (if s.badgeNft == Some(BadgeId) then WithBadge(b, learner, BadgeNft.Badge(id, e.now)) else b)
    && Moves(e, e', PoolId, learner, if paid then RewardMoved(s.rewardPool) else 0)
    && e'.events == e.events
         + (if s.badgeNft == Some(BadgeId) then [BadgeMinted(learner, id, e.now)] else [])
         + (if paid then RewardLog(s.rewardPool, learner, id) else [])
  }

  lemma FinishChanges(
    s: Registry, b: BadgeNft.Storage, pool: RewardPool.Storage, e: Env, replies: Replies, learner: Address, id: u32,
    s': Registry, b': BadgeNft.Storage, e': Env)
    requires FinishEffect(s, b, pool, e, replies, learner, id) == Ok((s', b', e'))
    ensures s' == s.(pending := s'.pending) && Graduation(s, b, pool, e, replies, learner, id, s', b', e')
  {
    hide FinishEffect, CourseRewards.FinishPays, MintAttempt, TryDistribute, RewardLog, WithBadge;
    CourseRewards.FinishForm(s, b, pool, e, replies, learner, id, s', b', e');
    MintingOutcome(s.badgeNft, b, e, replies, learner, id);
    var e1 := MintAttempt(s.badgeNft, b, e, replies, learner, id).value.1;
    PaymentOutcome(s.rewardPool, pool, e1, replies, learner, id);
    var paid := CourseRewards.FinishPays(s, b, pool, e, replies, learner, id);
    assert e1.balances == e.balances && e1.now == e.now;
    assert RewardReady(s.rewardPool, pool, e1, replies) == RewardReady(s.rewardPool, pool, e, replies) == paid;
    hide RewardReady;
    assert s'.pending ==
      if paid then s.pending - {(learner, id)} else if s.rewardPool.Some? then s.pending + {(learner, id)} else s.pending;
  }

  /**
   A success adds exactly one to this learner's progress in this course and to no other.
   Short of the last module that and its event are all. On the last the reward becomes
   pending where a pool is wired, the badge is appended where the platform's badge
   contract is, and the pool pays exactly 100_000_000 if it can, clearing the record.
   */
  lemma CompleteChanges(
    s: Registry, b: BadgeNft.Storage, pool: RewardPool.Storage, e: Env, auth: set<Address>, replies: Replies,
    verifier: Address, learner: Address, id: u32, s': Registry, b': BadgeNft.Storage, e': Env)
    requires Exec(s, b, pool, e, auth, replies, CompleteModule(verifier, learner, id)) == Ok((s', b', e'))
    ensures var n := Progress(s, learner, id) + 1;
      && 1 <= n <= U32_MAX
      && s' == s.(progress := s.progress[(learner, id) := n], pending := s'.pending)
      && (forall l, c: u32 :: Progress(s', l, c) == Progress(s, l, c) + (if l == learner && c == id then 1 else 0))
      && var e1 := e.(events := e.events + [ModuleCompleted(learner, id, n)]);
         if LastModule(s, learner, id) then Graduation(s, b, pool, e1, replies, learner, id, s', b', e')
         else s'.pending == s.pending && b' == b && e' == e1
  {
    hide FinishEffect, Graduation;
    CourseRewards.CompleteForm(s, b, pool, e, auth, replies, verifier, learner, id, s', b', e');
    var n := Progress(s, learner, id) + 1;
    var s1 := s.(progress := s.progress[(learner, id) := n]);
    var e1 := Publish(e, ModuleCompleted(learner, id, n));
    hide Exec, CompleteModuleEffect;
    if LastModule(s, learner, id) {
      FinishChanges(s1, b, pool, e1, replies, learner, id, s', b', e');
      SameGraduation(s, s1, b, pool, e1, replies, learner, id, s', b', e');
    }
  }

  lemma SameGraduation(
    s: Registry, s1: Registry, b: BadgeNft.Storage, pool: RewardPool.Storage, e: Env, replies: Replies, learner: Address, id: u32,
    s': Registry, b': BadgeNft.Storage, e': Env)
    requires s1.rewardPool == s.rewardPool && s1.badgeNft == s.badgeNft && s1.pending == s.pending
    requires Graduation(s1, b, pool, e, replies, learner, id, s', b', e')
    ensures Graduation(s, b, pool, e, replies, learner, id, s', b', e')
  {
  }

  /** A claim by the learner of a pending reward uses the record up, and pays exactly 100_000_000 if the pool can. */
  lemma ClaimOutcome(
    s: Registry, b: BadgeNft.Storage, pool: RewardPool.Storage, e: Env, auth: set<Address>, replies: Replies,
    learner: Address, id: u32)
    ensures var r := Exec(s, b, pool, e, auth, replies, ClaimCompletionReward(learner, id));
      var paid := RewardReady(s.rewardPool, pool, e, replies);
      && (r.Ok? <==> learner in auth && (learner, id) in s.pending)
      && (r.Ok? ==>
            var (s', b', e') := r.value;
            && s' == s.(pending := s.pending - {(learner, id)}) && b' == b
            && (if paid then
                  Moves(e, e', PoolId, learner, RewardMoved(s.rewardPool))
                  && e'.events == e.events + RewardLog(s.rewardPool, learner, id)
                else e' == e))
  {
    hide TryDistribute, RewardReady, RewardLog, RewardMoved;
    PaymentOutcome(s.rewardPool, pool, e, replies, learner, id);
  }
}
