/** Courses, progress, and the completion protocol that mints a badge and pays a reward. */
module CourseRegistry {
  import opened Outcomes
  import opened Soroban
  import BadgeNft
  import RewardPool

  const BASE_REWARD: i128 := 100_000_000

  datatype Course = Course(instructor: Address, totalModules: u32, metadataHash: Hash, active: bool)

  datatype Storage = Storage(
    admin: Option<Address>,
    badgeNft: Option<Address>,
    rewardPool: Option<Address>,
    courseCount: u32,
    courses: map<u32, Course>,
    progress: map<(Address, u32), u32>,
    pending: set<(Address, u32)>)

  datatype Call =
    | Initialize(admin: Address)
    | SetRewardPoolAddress(admin: Address, newAddress: Address)
    | SetBadgeNftAddress(admin: Address, newAddress: Address)
    | CreateCourse(admin: Address, instructor: Address, totalModules: u32, metadataHash: Hash)
    | UpdateMetadata(id: u32, newHash: Hash)
    | SetCourseStatus(admin: Address, id: u32, active: bool)
    | TransferOwnership(currentInstructor: Address, newInstructor: Address, id: u32)
    | Enroll(learner: Address, id: u32)
    | CompleteModule(verifier: Address, learner: Address, id: u32)
    | ClaimCompletionReward(learner: Address, id: u32)

  function InitializeEffect(s: Storage, auth: set<Address>, admin: Address): Outcome<Storage> {
    if s.admin.Some? then Panic(AlreadyInitialized) else
    :- Need(admin in auth, NotAuthorized);
    Ok(s.(admin := Some(admin)))
  }

  function NeedAdmin(s: Storage, auth: set<Address>, admin: Address): Check {
    if admin !in auth then Fail(NotAuthorized)
    else if s.admin.None? then Fail(NotInitialized)
    else Need(admin == s.admin.value, Unauthorized)
  }

  function SetRewardPoolEffect(s: Storage, auth: set<Address>, admin: Address, newAddress: Address): Outcome<Storage> {
    var check := NeedAdmin(s, auth, admin);
    :- check;
    Ok(s.(rewardPool := Some(newAddress)))
  }

  function SetBadgeNftEffect(s: Storage, auth: set<Address>, admin: Address, newAddress: Address): Outcome<Storage> {
    var check := NeedAdmin(s, auth, admin);
    :- check;
    Ok(s.(badgeNft := Some(newAddress)))
  }

  function CreateCourseEffect(
    s: Storage, e: Env, auth: set<Address>, admin: Address, instructor: Address, totalModules: u32, hash: Hash)
    : Outcome<(Storage, Env)>
  {
    var check := NeedAdmin(s, auth, admin);
    :- check;
    :- Need(totalModules > 0, NoModules);
    :- Need(s.courseCount < U32_MAX, Overflow);
    var id := s.courseCount + 1;
    Ok((s.(courseCount := id, courses := s.courses[id := Course(instructor, totalModules, hash, true)]),
        Publish(e, CourseCreated(id, instructor, totalModules))))
  }

  function UpdateMetadataEffect(s: Storage, e: Env, auth: set<Address>, id: u32, newHash: Hash): Outcome<(Storage, Env)> {
    if id !in s.courses then Panic(CourseNotFound) else
    var course := s.courses[id];
    :- Need(course.instructor in auth, NotAuthorized);
    Ok((s.(courses := s.courses[id := course.(metadataHash := newHash)]),
        Publish(e, MetadataUpdated(id, course.instructor, newHash))))
  }

  function SetCourseStatusEffect(s: Storage, e: Env, auth: set<Address>, admin: Address, id: u32, active: bool)
    : Outcome<(Storage, Env)>
  {
    var check := NeedAdmin(s, auth, admin);
    :- check;
    :- Need(id in s.courses, CourseNotFound);
    Ok((s.(courses := s.courses[id := s.courses[id].(active := active)]), Publish(e, CourseStatusChanged(id, active))))
  }

  function TransferOwnershipEffect(s: Storage, e: Env, auth: set<Address>, current: Address, next: Address, id: u32)
    : Outcome<(Storage, Env)>
  {
    if id !in s.courses then Panic(CourseNotFound) else
    :- Need(s.courses[id].instructor == current, Unauthorized);
    :- Need(current in auth, NotAuthorized);
    Ok((s.(courses := s.courses[id := s.courses[id].(instructor := next)]),
        Publish(e, OwnershipTransferred(id, current, next))))
  }

  function EnrollEffect(s: Storage, auth: set<Address>, learner: Address, id: u32): Outcome<Storage> {
    if learner !in auth then Panic(NotAuthorized) else
    :- Need(id in s.courses, CourseNotFound);
    :- Need(s.courses[id].active, CourseNotActive);
    :- Need((learner, id) !in s.progress, AlreadyEnrolled);
    Ok(s.(progress := s.progress[(learner, id) := 0]))
  }

  function Progress(s: Storage, learner: Address, id: u32): u32 {
    if (learner, id) in s.progress then s.progress[(learner, id)] else 0
  }

  /** `is_course_finished` on an existing course. */
  predicate Finished(s: Storage, learner: Address, id: u32) {
    id in s.courses && Progress(s, learner, id) >= s.courses[id].totalModules
  }

  /** The try call into the wired pool: its failure leaves the environment as it was. */
  function DistributeAttempt(wired: Option<Address>, pool: RewardPool.Storage, e: Env, replies: Replies, learner: Address)
    : Outcome<Env>
  {
    if wired.None? then Panic(NotInitialized) else
    if wired.value == PoolId then
      RewardPool.DistributeRewardEffect(pool, e, {RegistryId}, RegistryId, learner, BASE_REWARD)
    else if replies.poolAccepts then Ok(e)
    else Panic(ForeignCallFailed)
  }

  /** `try_distribute_reward`: whether the reward was paid, and the environment left behind. */
  function TryDistribute(wired: Option<Address>, pool: RewardPool.Storage, e: Env, replies: Replies, learner: Address, id: u32)
    : (bool, Env)
  {
    var r := DistributeAttempt(wired, pool, e, replies, learner);
    if r.Ok? then (true, Publish(r.value, CourseCompleted(learner, id, BASE_REWARD))) else (false, e)
  }

  /** The plain call into the wired badge contract: its failure is the caller's failure. */
  function MintAttempt(
    wired: Option<Address>, badges: BadgeNft.Storage, e: Env, replies: Replies, learner: Address, id: u32)
    : Outcome<(BadgeNft.Storage, Env)>
  {
    if wired.None? then Ok((badges, e))
    else if wired.value == BadgeId then BadgeNft.MintBadgeEffect(badges, e, {RegistryId}, RegistryId, learner, id)
    else if replies.badgeAccepts then Ok((badges, e))
    else Panic(ForeignCallFailed)
  }

  /** The last module's consequences: a pending reward if a pool is wired, the badge, and the attempt to pay. */
  function FinishEffect(
    s: Storage, badges: BadgeNft.Storage, pool: RewardPool.Storage, e: Env, replies: Replies, learner: Address, id: u32)
    : Outcome<(Storage, BadgeNft.Storage, Env)>
  {
    var recorded := if s.rewardPool.Some? then s.(pending := s.pending + {(learner, id)}) else s;
    var (badges', e1) :- MintAttempt(s.badgeNft, badges, e, replies, learner, id);
    var (paid, e2) := TryDistribute(s.rewardPool, pool, e1, replies, learner, id);
    Ok((if paid then recorded.(pending := recorded.pending - {(learner, id)}) else recorded, badges', e2))
  }

  /** One more module done; on the last one, its consequences. */
  function AdvanceEffect(
    s: Storage, badges: BadgeNft.Storage, pool: RewardPool.Storage, e: Env, replies: Replies, learner: Address, id: u32)
    : Outcome<(Storage, BadgeNft.Storage, Env)>
    requires id in s.courses && Progress(s, learner, id) < s.courses[id].totalModules
  {
    var newProgress := Progress(s, learner, id) + 1;
    var s1 := s.(progress := s.progress[(learner, id) := newProgress]);
    var e1 := Publish(e, ModuleCompleted(learner, id, newProgress));
    if newProgress == s.courses[id].totalModules then FinishEffect(s1, badges, pool, e1, replies, learner, id)
    else Ok((s1, badges, e1))
  }

  function CompleteModuleEffect(
    s: Storage, badges: BadgeNft.Storage, pool: RewardPool.Storage, e: Env,
    auth: set<Address>, replies: Replies, verifier: Address, learner: Address, id: u32)
    : Outcome<(Storage, BadgeNft.Storage, Env)>
  {
    var check := NeedAdmin(s, auth, verifier);
    :- check;
    :- Need(id in s.courses, CourseNotFound);
    :- Need(Progress(s, learner, id) < s.courses[id].totalModules, CourseAlreadyCompleted);
    AdvanceEffect(s, badges, pool, e, replies, learner, id)
  }

  function ClaimEffect(
    s: Storage, pool: RewardPool.Storage, e: Env, auth: set<Address>, replies: Replies, learner: Address, id: u32)
    : Outcome<(Storage, Env)>
  {
    if learner !in auth then Panic(NotAuthorized) else
    :- Need((learner, id) in s.pending, NoPendingReward);
    Ok((s.(pending := s.pending - {(learner, id)}), TryDistribute(s.rewardPool, pool, e, replies, learner, id).1))
  }

  function Exec(
    s: Storage, badges: BadgeNft.Storage, pool: RewardPool.Storage, e: Env,
    auth: set<Address>, replies: Replies, c: Call): Outcome<(Storage, BadgeNft.Storage, Env)>
  {
    match c
    case Initialize(admin) => var s' :- InitializeEffect(s, auth, admin); Ok((s', badges, e))
    case SetRewardPoolAddress(admin, a) => var s' :- SetRewardPoolEffect(s, auth, admin, a); Ok((s', badges, e))
    case SetBadgeNftAddress(admin, a) => var s' :- SetBadgeNftEffect(s, auth, admin, a); Ok((s', badges, e))
    case CreateCourse(admin, instructor, total, hash) =>
      var (s', e') :- CreateCourseEffect(s, e, auth, admin, instructor, total, hash); Ok((s', badges, e'))
    case UpdateMetadata(id, hash) => var (s', e') :- UpdateMetadataEffect(s, e, auth, id, hash); Ok((s', badges, e'))
    case SetCourseStatus(admin, id, active) =>
      var (s', e') :- SetCourseStatusEffect(s, e, auth, admin, id, active); Ok((s', badges, e'))
    case TransferOwnership(current, next, id) =>
      var (s', e') :- TransferOwnershipEffect(s, e, auth, current, next, id); Ok((s', badges, e'))
    case Enroll(learner, id) => var s' :- EnrollEffect(s, auth, learner, id); Ok((s', badges, e))
    case CompleteModule(verifier, learner, id) =>
      CompleteModuleEffect(s, badges, pool, e, auth, replies, verifier, learner, id)
    case ClaimCompletionReward(learner, id) =>
      var (s', e') :- ClaimEffect(s, pool, e, auth, replies, learner, id); Ok((s', badges, e'))
  }

  /** Who must have signed for each part of a stored course to change, over all calls. */
  lemma ChangesAreSigned(
    s: Storage, badges: BadgeNft.Storage, pool: RewardPool.Storage, e: Env, auth: set<Address>, replies: Replies, c: Call, id: u32)
    requires id in s.courses && id <= s.courseCount
    requires Exec(s, badges, pool, e, auth, replies, c).Ok?
    ensures var s' := Exec(s, badges, pool, e, auth, replies, c).value.0;
      && id in s'.courses
      && s'.courses[id].totalModules == s.courses[id].totalModules
      && (s'.courses[id].metadataHash != s.courses[id].metadataHash ==> s.courses[id].instructor in auth)
      && (s'.courses[id].instructor != s.courses[id].instructor ==> s.courses[id].instructor in auth)
      && (s'.courses[id].active != s.courses[id].active ==> s.admin.Some? && s.admin.value in auth)
      && (s'.rewardPool != s.rewardPool || s'.badgeNft != s.badgeNft ==> s.admin.Some? && s.admin.value in auth)
  {
    hide TryDistribute, MintAttempt, Publish;
  }

  class Contract {
    const host: Host
    const badges: BadgeNft.Contract
    const pool: RewardPool.Contract
    var admin: Option<Address>
    var badgeNft: Option<Address>
    var rewardPool: Option<Address>
    var courseCount: u32
    var courses: map<u32, Course>
    var progress: map<(Address, u32), u32>
    var pending: set<(Address, u32)>

    /** All contracts live on one host. */
    ghost predicate Valid() {
      badges.host == host && pool.host == host
    }

    constructor (host: Host, badges: BadgeNft.Contract, pool: RewardPool.Contract)
      requires badges.host == host && pool.host == host
      ensures Valid() && this.host == host && this.badges == badges && this.pool == pool
      ensures State() == Storage(None, None, None, 0, map[], map[], {})
    {
      this.host, this.badges, this.pool := host, badges, pool;
      admin, badgeNft, rewardPool, courseCount, courses, progress, pending := None, None, None, 0, map[], map[], {};
    }

    function State(): Storage
      reads this
    {
      Storage(admin, badgeNft, rewardPool, courseCount, courses, progress, pending)
    }

    method Initialize(auth: set<Address>, admin: Address) returns (r: Outcome<()>)
      modifies this`admin
      ensures r == InitializeEffect(old(State()), auth, admin).Verdict()
      ensures State() == After(InitializeEffect(old(State()), auth, admin), old(State()))
    {
      if this.admin.Some? {
        return Panic(AlreadyInitialized);
      }
      if admin !in auth {
        return Panic(NotAuthorized);
      }
      this.admin := Some(admin);
      r := Ok(());
    }

    method SetRewardPoolAddress(auth: set<Address>, admin: Address, newAddress: Address) returns (r: Outcome<()>)
      modifies this`rewardPool
      ensures r == SetRewardPoolEffect(old(State()), auth, admin, newAddress).Verdict()
      ensures State() == After(SetRewardPoolEffect(old(State()), auth, admin, newAddress), old(State()))
    {
      if admin !in auth {
        return Panic(NotAuthorized);
      }
      if this.admin.None? {
        return Panic(NotInitialized);
      }
      if admin != this.admin.value {
        return Panic(Unauthorized);
      }
      rewardPool := Some(newAddress);
      r := Ok(());
    }

    method SetBadgeNftAddress(auth: set<Address>, admin: Address, newAddress: Address) returns (r: Outcome<()>)
      modifies this`badgeNft
      ensures r == SetBadgeNftEffect(old(State()), auth, admin, newAddress).Verdict()
      ensures State() == After(SetBadgeNftEffect(old(State()), auth, admin, newAddress), old(State()))
    {
      if admin !in auth {
        return Panic(NotAuthorized);
      }
      if this.admin.None? {
        return Panic(NotInitialized);
      }
      if admin != this.admin.value {
        return Panic(Unauthorized);
      }
      badgeNft := Some(newAddress);
      r := Ok(());
    }

    method CreateCourse(auth: set<Address>, admin: Address, instructor: Address, totalModules: u32, hash: Hash)
      returns (r: Outcome<u32>)
      modifies this`courseCount, this`courses, host`events
      ensures r.Verdict() ==
        CreateCourseEffect(old(State()), old(host.View()), auth, admin, instructor, totalModules, hash).Verdict()
      ensures r.Ok? ==> r.value == courseCount
      ensures (State(), host.View()) ==
        After(CreateCourseEffect(old(State()), old(host.View()), auth, admin, instructor, totalModules, hash),
              old((State(), host.View())))
    {
      if admin !in auth {
        return Panic(NotAuthorized);
      }
      if this.admin.None? {
        return Panic(NotInitialized);
      }
      if admin != this.admin.value {
        return Panic(Unauthorized);
      }
      if totalModules == 0 {
        return Panic(NoModules);
      }
      if courseCount == U32_MAX {
        return Panic(Overflow);
      }
      var newId := courseCount + 1;
      courseCount := newId;
      courses := courses[newId := Course(instructor, totalModules, hash, true)];
      host.Emit(CourseCreated(newId, instructor, totalModules));
      r := Ok(newId);
    }

    method UpdateMetadata(auth: set<Address>, id: u32, newHash: Hash) returns (r: Outcome<()>)
      modifies this`courses, host`events
      ensures r == UpdateMetadataEffect(old(State()), old(host.View()), auth, id, newHash).Verdict()
      ensures (State(), host.View()) ==
        After(UpdateMetadataEffect(old(State()), old(host.View()), auth, id, newHash), old((State(), host.View())))
    {
      if id !in courses {
        return Panic(CourseNotFound);
      }
      var course := courses[id];
      if course.instructor !in auth {
        return Panic(NotAuthorized);
      }
      courses := courses[id := course.(metadataHash := newHash)];
      host.Emit(MetadataUpdated(id, course.instructor, newHash));
      r := Ok(());
    }

    method SetCourseStatus(auth: set<Address>, admin: Address, id: u32, active: bool) returns (r: Outcome<()>)
      modifies this`courses, host`events
      ensures r == SetCourseStatusEffect(old(State()), old(host.View()), auth, admin, id, active).Verdict()
      ensures (State(), host.View()) ==
        After(SetCourseStatusEffect(old(State()), old(host.View()), auth, admin, id, active), old((State(), host.View())))
    {
      if admin !in auth {
        return Panic(NotAuthorized);
      }
      if this.admin.None? {
        return Panic(NotInitialized);
      }
      if admin != this.admin.value {
        return Panic(Unauthorized);
      }
      if id !in courses {
        return Panic(CourseNotFound);
      }
      courses := courses[id := courses[id].(active := active)];
      host.Emit(CourseStatusChanged(id, active));
      r := Ok(());
    }

    method TransferOwnership(auth: set<Address>, current: Address, next: Address, id: u32) returns (r: Outcome<()>)
      modifies this`courses, host`events
      ensures r == TransferOwnershipEffect(old(State()), old(host.View()), auth, current, next, id).Verdict()
      ensures (State(), host.View()) ==
        After(TransferOwnershipEffect(old(State()), old(host.View()), auth, current, next, id), old((State(), host.View())))
    {
      if id !in courses {
        return Panic(CourseNotFound);
      }
      var course := courses[id];
      if course.instructor != current {
        return Panic(Unauthorized);
      }
      if current !in auth {
        return Panic(NotAuthorized);
      }
      courses := courses[id := course.(instructor := next)];
      host.Emit(OwnershipTransferred(id, current, next));
      r := Ok(());
    }

    method Enroll(auth: set<Address>, learner: Address, id: u32) returns (r: Outcome<()>)
      modifies this`progress
      ensures r == EnrollEffect(old(State()), auth, learner, id).Verdict()
      ensures State() == After(EnrollEffect(old(State()), auth, learner, id), old(State()))
    {
      if learner !in auth {
        return Panic(NotAuthorized);
      }
      if id !in courses {
        return Panic(CourseNotFound);
      }
      if !courses[id].active {
        return Panic(CourseNotActive);
      }
      var key := (learner, id);
      if key in progress {
        return Panic(AlreadyEnrolled);
      }
      progress := progress[key := 0];
      r := Ok(());
    }

    method IsCourseFinished(learner: Address, id: u32) returns (r: Outcome<bool>)
      ensures r.Ok? <==> id in courses
      ensures r.Ok? ==> (r.value <==> Finished(State(), learner, id))
    {
      if id !in courses {
        return Panic(CourseNotFound);
      }
      var done: u32 := if (learner, id) in progress then progress[(learner, id)] else 0;
      r := Ok(done >= courses[id].totalModules);
    }

    method TryDistributeReward(replies: Replies, learner: Address, id: u32) returns (paid: bool)
      requires Valid()
      modifies host`balances, host`events
      ensures (paid, host.View()) == TryDistribute(rewardPool, pool.State(), old(host.View()), replies, learner, id)
    {
      if rewardPool.None? {
        return false;
      }
      var r: Outcome<()>;
      if rewardPool.value == PoolId {
        r := pool.DistributeReward({RegistryId}, RegistryId, learner, BASE_REWARD);
      } else {
        r := if replies.poolAccepts then Ok(()) else Panic(ForeignCallFailed);
      }
      if r.Ok? {
        host.Emit(CourseCompleted(learner, id, BASE_REWARD));
      }
      paid := r.Ok?;
    }

    method MintBadge(replies: Replies, learner: Address, id: u32) returns (r: Outcome<()>)
      requires Valid()
      modifies badges`userBadges, host`events
      ensures r == MintAttempt(badgeNft, old(badges.State()), old(host.View()), replies, learner, id).Verdict()
      ensures (badges.State(), host.View()) ==
        After(MintAttempt(badgeNft, old(badges.State()), old(host.View()), replies, learner, id),
              old((badges.State(), host.View())))
    {
      if badgeNft.None? {
        return Ok(());
      }
      if badgeNft.value == BadgeId {
        r := badges.MintBadge({RegistryId}, RegistryId, learner, id);
      } else {
        r := if replies.badgeAccepts then Ok(()) else Panic(ForeignCallFailed);
      }
    }

    method Finish(replies: Replies, learner: Address, id: u32) returns (r: Outcome<()>)
      requires Valid()
      modifies this`pending, badges`userBadges, host`balances, host`events
      ensures r == FinishEffect(old(State()), old(badges.State()), pool.State(), old(host.View()), replies, learner, id).Verdict()
      ensures (State(), badges.State(), host.View()) ==
        After(FinishEffect(old(State()), old(badges.State()), pool.State(), old(host.View()), replies, learner, id),
              old((State(), badges.State(), host.View())))
    {
      var key := (learner, id);
      var before := pending;
      if rewardPool.Some? {
        pending := pending + {key};
      }
      r := MintBadge(replies, learner, id);
      if r.Panic? {
        pending := before;
        return;
      }
      var paid := TryDistributeReward(replies, learner, id);
      if paid {
        pending := pending - {key};
      }
    }

    method Advance(replies: Replies, learner: Address, id: u32) returns (r: Outcome<()>)
      requires Valid()
      requires id in courses && Progress(State(), learner, id) < courses[id].totalModules
      modifies this`progress, this`pending, badges`userBadges, host`balances, host`events
      ensures r == AdvanceEffect(old(State()), old(badges.State()), pool.State(), old(host.View()), replies, learner, id).Verdict()
      ensures (State(), badges.State(), host.View()) ==
        After(AdvanceEffect(old(State()), old(badges.State()), pool.State(), old(host.View()), replies, learner, id),
              old((State(), badges.State(), host.View())))
    {
      var key := (learner, id);
      var before, frame := progress, host.View();
      var newProgress := (if key in progress then progress[key] else 0) + 1;
      progress := progress[key := newProgress];
      host.Emit(ModuleCompleted(learner, id, newProgress));
      r := Ok(());
      if newProgress == courses[id].totalModules {
        r := Finish(replies, learner, id);
        if r.Panic? {
          progress := before;
          host.Revert(frame);
        }
      }
    }

    method CompleteModule(auth: set<Address>, replies: Replies, verifier: Address, learner: Address, id: u32)
      returns (r: Outcome<()>)
      requires Valid()
      modifies this`progress, this`pending, badges`userBadges, host`balances, host`events
      ensures r == CompleteModuleEffect(old(State()), old(badges.State()), pool.State(), old(host.View()),
                                        auth, replies, verifier, learner, id).Verdict()
      ensures (State(), badges.State(), host.View()) ==
        After(CompleteModuleEffect(old(State()), old(badges.State()), pool.State(), old(host.View()),
                                   auth, replies, verifier, learner, id),
              old((State(), badges.State(), host.View())))
    {
      if verifier !in auth {
        return Panic(NotAuthorized);
      }
      if admin.None? {
        return Panic(NotInitialized);
      }
      if verifier != admin.value {
        return Panic(Unauthorized);
      }
      if id !in courses {
        return Panic(CourseNotFound);
      }
      var current: u32 := if (learner, id) in progress then progress[(learner, id)] else 0;
      if current >= courses[id].totalModules {
        return Panic(CourseAlreadyCompleted);
      }
      r := Advance(replies, learner, id);
    }

    method ClaimCompletionReward(auth: set<Address>, replies: Replies, learner: Address, id: u32) returns (r: Outcome<()>)
      requires Valid()
      modifies this`pending, host`balances, host`events
      ensures r == ClaimEffect(old(State()), pool.State(), old(host.View()), auth, replies, learner, id).Verdict()
      ensures (State(), host.View()) ==
        After(ClaimEffect(old(State()), pool.State(), old(host.View()), auth, replies, learner, id),
              old((State(), host.View())))
    {
      if learner !in auth {
        return Panic(NotAuthorized);
      }
      var key := (learner, id);
      if key !in pending {
        return Panic(NoPendingReward);
      }
      pending := pending - {key};
      var _ := TryDistributeReward(replies, learner, id);
      r := Ok(());
    }
  }
}
