/** Badges against progress: who can hold a badge, and which finished courses lack one. */
module CourseBadges {
  import opened Outcomes
  import opened Soroban
  import opened CourseRegistry
  import opened BadgeNft
  import RewardPool
  import CourseRewards

  type Registry = CourseRegistry.Storage
  type Vectors = BadgeNft.Storage

  /** The registry mints in the platform's badge contract, whose admin it is. */
  predicate Wired(s: Registry, b: Vectors) {
    s.badgeNft == Some(BadgeId) && b.admin == Some(RegistryId)
  }

  /** The badge contract belongs to nobody yet, or to the registry. */
  predicate OwnAdmin(b: Vectors) {
    b.admin.None? || b.admin == Some(RegistryId)
  }

  /** Badges are held for finished courses only, one for each. */
  ghost predicate Earned(s: Registry, b: Vectors) {
    && (forall l, c: u32 :: HasBadge(b, l, c) ==> Finished(s, l, c))
    && (forall l :: Distinct(Badges(b, l)))
  }

  /** A course finished without a badge to show for it. */
  predicate Missing(s: Registry, b: Vectors, learner: Address, id: u32) {
    Finished(s, learner, id) && !HasBadge(b, learner, id)
  }

  /** Every vector is the old one, possibly with more badges behind. */
  ghost predicate Grows(b: Vectors, b': Vectors) {
    forall l :: Badges(b, l) <= Badges(b', l)
  }

  /** Nobody can sign for the registry, so no transaction reaches its badge vectors directly. */
  lemma NoDirectCalls(b: Vectors, e: Env, auth: Signers, c: BadgeNft.Call)
    requires b.admin == Some(RegistryId)
    ensures BadgeNft.Exec(b, e, auth, c).Panic?
  {
  }

  /** Before it has an admin, a direct call can only give it one, and an admin is for good. */
  lemma DirectCallsKeep(b: Vectors, e: Env, auth: Signers, c: BadgeNft.Call)
    requires BadgeNft.Exec(b, e, auth, c).Ok? && OwnAdmin(BadgeNft.Exec(b, e, auth, c).value.0)
    ensures BadgeNft.Exec(b, e, auth, c).value.0.userBadges == b.userBadges && b.admin.None?
  {
  }

  lemma Appended(badges: seq<Badge>, badge: Badge)
    requires !Holds(badges, badge.courseId) && Distinct(badges)
    ensures Distinct(badges + [badge])
    ensures forall c: u32 :: Holds(badges + [badge], c) <==> Holds(badges, c) || c == badge.courseId
  {
    forall c: u32 ensures Holds(badges + [badge], c) <==> Holds(badges, c) || c == badge.courseId {
      var more := badges + [badge];
      if Holds(badges, c) {
        var i :| 0 <= i < |badges| && badges[i].courseId == c;
        assert more[i].courseId == c;
      }
      assert more[|badges|] == badge;
    }
  }

  /** What a mint that goes through does: one badge more if the platform's contract is wired, otherwise nothing here. */
  lemma Mints(s: Registry, b: Vectors, e: Env, replies: Replies, learner: Address, id: u32)
    requires Earned(s, b) && MintAttempt(s.badgeNft, b, e, replies, learner, id).Ok?
    ensures var b' := MintAttempt(s.badgeNft, b, e, replies, learner, id).value.0;
      && b'.admin == b.admin
      && (forall l, c: u32 :: HasBadge(b', l, c) <==>
            HasBadge(b, l, c) || (s.badgeNft == Some(BadgeId) && l == learner && c == id))
      && (forall l :: Distinct(Badges(b', l)))
  {
    if s.badgeNft == Some(BadgeId) {
      var badge := Badge(id, e.now);
      Appended(Badges(b, learner), badge);
      var b' := MintAttempt(s.badgeNft, b, e, replies, learner, id).value.0;
      forall l ensures Distinct(Badges(b', l)) {
        assert Badges(b', l) == if l == learner then Badges(b, learner) + [badge] else Badges(b, l);
      }
    }
  }

  lemma MintGrows(wired: Option<Address>, b: Vectors, e: Env, replies: Replies, learner: Address, id: u32)
    requires MintAttempt(wired, b, e, replies, learner, id).Ok?
    ensures Grows(b, MintAttempt(wired, b, e, replies, learner, id).value.0)
  {
  }

  /** The last module finishes a course that had no badge yet, so the mint cannot fail. */
  lemma MintSucceeds(s: Registry, b: Vectors, e: Env, replies: Replies, learner: Address, id: u32)
    requires Wired(s, b) && Earned(s, b) && !Finished(s, learner, id)
    ensures MintAttempt(s.badgeNft, b, e, replies, learner, id).Ok?
  {
    assert !HasBadge(b, learner, id);
  }

  /** With the badge contract wired, only the verifier, the course and the remaining modules decide about `complete_module`. */
  lemma CompleteExactly(
    s: Registry, b: Vectors, pool: RewardPool.Storage, e: Env, auth: set<Address>, replies: Replies,
    verifier: Address, learner: Address, id: u32)
    requires Wired(s, b) && Earned(s, b)
    ensures CompleteModuleEffect(s, b, pool, e, auth, replies, verifier, learner, id).Ok? <==>
      && verifier in auth && s.admin == Some(verifier)
      && id in s.courses && Progress(s, learner, id) < s.courses[id].totalModules
  {
    hide Earned, MintAttempt, TryDistribute, HasBadge, Publish;
    if id in s.courses && Progress(s, learner, id) < s.courses[id].totalModules {
      var n := Progress(s, learner, id) + 1;
      MintSucceeds(s, b, Publish(e, ModuleCompleted(learner, id, n)), replies, learner, id);
    }
  }

  lemma ProgressFinishes(s: Registry, s': Registry, learner: Address, id: u32)
    requires id in s.courses && Progress(s, learner, id) < s.courses[id].totalModules
    requires s'.courses == s.courses && s'.progress == s.progress[(learner, id) := Progress(s, learner, id) + 1]
    ensures forall l, c: u32 :: Finished(s', l, c) <==>
      Finished(s, l, c) || (l == learner && c == id && Progress(s, learner, id) + 1 == s.courses[id].totalModules)
  {
    forall l, c: u32 | (l, c) != (learner, id) ensures Progress(s', l, c) == Progress(s, l, c) {
    }
  }

  /** A call that, when it succeeds, finishes a course while the platform's badge contract is not wired. */
  predicate SkipsBadge(s: Registry, c: CourseRegistry.Call, learner: Address, id: u32) {
    && c.CompleteModule? && c.learner == learner && c.id == id
    && id in s.courses && Progress(s, learner, id) + 1 == s.courses[id].totalModules
    && s.badgeNft != Some(BadgeId)
  }

  /** What every registry call does to badges. */
  ghost predicate Kept(s: Registry, b: Vectors, s': Registry, b': Vectors, c: CourseRegistry.Call) {
    && Earned(s', b')
    && (forall l, i: u32 :: Missing(s', b', l, i) <==> Missing(s, b, l, i) || SkipsBadge(s, c, l, i))
  }

  lemma CompleteKeeps(
    s: Registry, b: Vectors, pool: RewardPool.Storage, e: Env, auth: set<Address>, replies: Replies,
    verifier: Address, learner: Address, id: u32, s': Registry, b': Vectors, e': Env)
    requires Earned(s, b)
    requires CompleteModuleEffect(s, b, pool, e, auth, replies, verifier, learner, id) == Ok((s', b', e'))
    ensures Kept(s, b, s', b', CompleteModule(verifier, learner, id))
    ensures Grows(b, b') && b'.admin == b.admin
  {
    hide CompleteModuleEffect, FinishEffect, MintAttempt, HasBadge;
    CourseRewards.CompleteForm(s, b, pool, e, auth, replies, verifier, learner, id, s', b', e');
    var n := Progress(s, learner, id) + 1;
    var s1 := s.(progress := s.progress[(learner, id) := n]);
    var e1 := Publish(e, ModuleCompleted(learner, id, n));
    ProgressFinishes(s, s1, learner, id);
    assert Earned(s1, b);
    if n == s.courses[id].totalModules {
      CourseRewards.FinishForm(s1, b, pool, e1, replies, learner, id, s', b', e');
      Mints(s1, b, e1, replies, learner, id);
      MintGrows(s1.badgeNft, b, e1, replies, learner, id);
      ProgressFinishes(s, s', learner, id);
    }
  }

  lemma OthersKeep(
    s: Registry, b: Vectors, pool: RewardPool.Storage, e: Env, auth: set<Address>, replies: Replies, c: CourseRegistry.Call,
    s': Registry, b': Vectors, e': Env)
    requires Earned(s, b) && CourseRewards.WellFormed(s) && !c.CompleteModule?
    requires CourseRegistry.Exec(s, b, pool, e, auth, replies, c) == Ok((s', b', e'))
    ensures Kept(s, b, s', b', c)
    ensures b' == b
  {
    hide TryDistribute, HasBadge, Publish, CompleteModuleEffect;
    forall l, i: u32 ensures Finished(s', l, i) <==> Finished(s, l, i) {
    }
  }

  /**
   Every registry call keeps badges earned, takes none away, and leaves exactly those
   finished courses without a badge that `SkipsBadge` names.
   */
  lemma ExecKeeps(
    s: Registry, b: Vectors, pool: RewardPool.Storage, e: Env, auth: set<Address>, replies: Replies, c: CourseRegistry.Call,
    s': Registry, b': Vectors, e': Env)
    requires Earned(s, b) && CourseRewards.WellFormed(s)
    requires CourseRegistry.Exec(s, b, pool, e, auth, replies, c) == Ok((s', b', e'))
    ensures Kept(s, b, s', b', c)
    ensures Grows(b, b') && b'.admin == b.admin
  {
    if c.CompleteModule? {
      hide Earned, Kept, Grows, CompleteModuleEffect;
      CompleteKeeps(s, b, pool, e, auth, replies, c.verifier, c.learner, c.id, s', b', e');
    } else {
      OthersKeep(s, b, pool, e, auth, replies, c, s', b', e');
    }
  }

  // ---------------------------------------------------------------- counting

  ghost function FinishedCourses(s: Registry, learner: Address): set<u32> {
    set c: u32 | c in s.courses && Finished(s, learner, c)
  }

  lemma {:induction false} IdsAre(ids: set<u32>, n: nat)
    requires forall c: u32 :: c in ids <==> 1 <= c <= n
    requires n <= U32_MAX
    ensures |ids| == n
    decreases n
  {
    if n == 0 {
      assert ids == {};
    } else {
      IdsAre(ids - {n}, n - 1);
    }
  }

  lemma {:induction false} SubsetSize(a: set<u32>, b: set<u32>)
    requires a <= b
    ensures |a| <= |b|
    ensures |a| == |b| <==> a == b
    decreases |a|
  {
    if a == {} {
      assert |b| == 0 <==> b == {};
    } else {
      var c :| c in a;
      SubsetSize(a - {c}, b - {c});
      assert a == (a - {c}) + {c} && b == (b - {c}) + {c};
    }
  }

  ghost function Badged(b: Vectors, courses: set<u32>, learner: Address): set<u32> {
    set c: u32 | c in courses && HasBadge(b, learner, c)
  }

  /**
   A learner holds at most as many badges as courses finished, and so at most as many as
   there are courses; the first two agree exactly when no finished course lacks its badge.
   */
  lemma CountIsFinished(s: Registry, b: Vectors, learner: Address)
    requires CourseRewards.WellFormed(s) && Earned(s, b)
    ensures |Badges(b, learner)| <= |FinishedCourses(s, learner)| <= s.courseCount
    ensures |Badges(b, learner)| == |FinishedCourses(s, learner)| <==> forall c: u32 :: !Missing(s, b, learner, c)
  {
    var badged, finished := Badged(b, s.courses.Keys, learner), FinishedCourses(s, learner);
    forall c: u32 ensures c in badged <==> Holds(Badges(b, learner), c) {
      assert HasBadge(b, learner, c) ==> Finished(s, learner, c);
    }
    CountIsCardinality(Badges(b, learner), badged);
    IdsAre(s.courses.Keys, s.courseCount);
    SubsetSize(finished, s.courses.Keys);
    SubsetSize(badged, finished);
    forall c: u32 ensures Missing(s, b, learner, c) <==> c in finished && c !in badged {
    }
  }
}
