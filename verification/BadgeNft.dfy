/** Soulbound badges: one vector per learner, scanned linearly. */
module BadgeNft {
  import opened Outcomes
  import opened Soroban

  datatype Badge = Badge(courseId: u32, mintedAt: u64)

  datatype Storage = Storage(admin: Option<Address>, userBadges: map<Address, seq<Badge>>)

  datatype Call =
    | Initialize(admin: Address)
    | MintBadge(caller: Address, learner: Address, courseId: u32)
    | RevokeBadge(admin: Address, learner: Address, courseId: u32)

  function Badges(s: Storage, learner: Address): seq<Badge> {
    if learner in s.userBadges then s.userBadges[learner] else []
  }

  predicate Holds(badges: seq<Badge>, courseId: u32) {
    exists i :: 0 <= i < |badges| && badges[i].courseId == courseId
  }

  predicate HasBadge(s: Storage, learner: Address, courseId: u32) {
    Holds(Badges(s, learner), courseId)
  }

  /** The vector without the first badge of a course. */
  function WithoutFirst(badges: seq<Badge>, courseId: u32): seq<Badge> {
    if badges == [] then []
    else if badges[0].courseId == courseId then badges[1..]
    else [badges[0]] + WithoutFirst(badges[1..], courseId)
  }

  function InitializeEffect(s: Storage, admin: Address): Outcome<Storage> {
    if s.admin.Some? then Panic(AlreadyInitialized) else
    Ok(s.(admin := Some(admin)))
  }

  function MintBadgeEffect(s: Storage, e: Env, auth: set<Address>, caller: Address, learner: Address, courseId: u32)
    : (r: Outcome<(Storage, Env)>)
  {
    if caller !in auth then Panic(NotAuthorized) else
    :- Need(s.admin.Some?, NotInitialized);
    :- Need(caller == s.admin.value, Unauthorized);
    :- Need(!HasBadge(s, learner, courseId), BadgeExists);
    var badges := Badges(s, learner) + [Badge(courseId, e.now)];
    Ok((s.(userBadges := s.userBadges[learner := badges]), Publish(e, BadgeMinted(learner, courseId, e.now))))
  }

  function RevokeBadgeEffect(s: Storage, e: Env, auth: set<Address>, admin: Address, learner: Address, courseId: u32)
    : (r: Outcome<(Storage, Env)>)
  {
    if admin !in auth then Panic(NotAuthorized) else
    :- Need(s.admin.Some?, NotInitialized);
    :- Need(admin == s.admin.value, Unauthorized);
    if HasBadge(s, learner, courseId) then
      Ok((s.(userBadges := s.userBadges[learner := WithoutFirst(Badges(s, learner), courseId)]),
          Publish(e, BadgeRevoked(learner, courseId))))
    else
      Ok((s, e))
  }

  function Exec(s: Storage, e: Env, auth: set<Address>, c: Call): (r: Outcome<(Storage, Env)>)
  {
    match c
    case Initialize(admin) => var s' :- InitializeEffect(s, admin); Ok((s', e))
    case MintBadge(caller, learner, courseId) => MintBadgeEffect(s, e, auth, caller, learner, courseId)
    case RevokeBadge(admin, learner, courseId) => RevokeBadgeEffect(s, e, auth, admin, learner, courseId)
  }

  lemma ExecFrame(s: Storage, e: Env, auth: set<Address>, c: Call, actors: set<Address>)
    requires Exec(s, e, auth, c).Ok? && BadgeId in actors
    ensures Frame(e, Exec(s, e, auth, c).value.1, actors)
  {
    match c
    case Initialize(admin) =>
    case MintBadge(caller, learner, courseId) => Published(e, BadgeMinted(learner, courseId, e.now), actors);
    case RevokeBadge(admin, learner, courseId) => Published(e, BadgeRevoked(learner, courseId), actors);
  }

  /** No vector holds two badges of one course. */
  ghost predicate Distinct(badges: seq<Badge>) {
    forall i, j :: 0 <= i < j < |badges| ==> badges[i].courseId != badges[j].courseId
  }

  /** Revoking what a mint just added gives back the vector as it was. */
  lemma {:induction false} RevokeUndoesMint(badges: seq<Badge>, badge: Badge)
    requires !Holds(badges, badge.courseId)
    ensures WithoutFirst(badges + [badge], badge.courseId) == badges
  {
    if badges == [] {
    } else {
      assert badges[0].courseId != badge.courseId;
      forall i | 0 <= i < |badges[1..]| ensures badges[1..][i].courseId != badge.courseId {
        assert badges[1..][i] == badges[i + 1];
      }
      RevokeUndoesMint(badges[1..], badge);
      assert (badges + [badge])[1..] == badges[1..] + [badge];
    }
  }

  /** Removal at the index of the first match. */
  lemma {:induction false} WithoutFirstAt(badges: seq<Badge>, k: nat)
    requires k < |badges|
    requires forall i :: 0 <= i < k ==> badges[i].courseId != badges[k].courseId
    ensures WithoutFirst(badges, badges[k].courseId) == badges[..k] + badges[k + 1..]
  {
    if k == 0 {
      assert badges[..0] + badges[1..] == badges[1..];
    } else {
      var rest := badges[1..];
      assert rest[k - 1] == badges[k];
      WithoutFirstAt(rest, k - 1);
      assert [badges[0]] + (rest[..k - 1] + rest[k..]) == badges[..k] + badges[k + 1..];
    }
  }

  lemma InitializeOutcome(s: Storage, e: Env, auth: set<Address>, admin: Address)
    ensures var r := Exec(s, e, auth, Initialize(admin));
      && (r.Ok? <==> s.admin.None?)
      && (r.Ok? ==> r.value == (s.(admin := Some(admin)), e))
  {
  }

  /** A mint is the admin's right, refuses a second badge of a course, and appends one badge stamped now. */
  lemma MintOutcome(s: Storage, e: Env, auth: set<Address>, caller: Address, learner: Address, courseId: u32)
    ensures var r := Exec(s, e, auth, MintBadge(caller, learner, courseId));
      var held := Badges(s, learner);
      && (r.Ok? <==>
            caller in auth && s.admin == Some(caller) && forall i :: 0 <= i < |held| ==> held[i].courseId != courseId)
      && (r.Ok? ==>
            && r.value.0 == s.(userBadges := s.userBadges[learner := held + [Badge(courseId, e.now)]])
            && Logs(e, r.value.1, [BadgeMinted(learner, courseId, e.now)]))
  {
  }

  /** A revocation is the admin's right; it takes out the first badge of the course and nothing else, or changes nothing. */
  lemma RevokeOutcome(s: Storage, e: Env, auth: set<Address>, admin: Address, learner: Address, courseId: u32)
    ensures var r := Exec(s, e, auth, RevokeBadge(admin, learner, courseId));
      var held := Badges(s, learner);
      && (r.Ok? <==> admin in auth && s.admin == Some(admin))
      && (r.Ok? && !HasBadge(s, learner, courseId) ==> r.value == (s, e))
      && (r.Ok? && HasBadge(s, learner, courseId) ==>
            && r.value.0 == s.(userBadges := s.userBadges[learner := Badges(r.value.0, learner)])
            && Logs(e, r.value.1, [BadgeRevoked(learner, courseId)])
            && exists k ::
                 && 0 <= k < |held| && held[k].courseId == courseId
                 && (forall i :: 0 <= i < k ==> held[i].courseId != courseId)
                 && Badges(r.value.0, learner) == held[..k] + held[k + 1..])
  {
    var held := Badges(s, learner);
    if HasBadge(s, learner, courseId) {
      var k := FirstOf(held, courseId);
      WithoutFirstAt(held, k);
    }
  }

  lemma {:induction false} FirstOf(badges: seq<Badge>, courseId: u32) returns (k: nat)
    requires Holds(badges, courseId)
    ensures k < |badges| && badges[k].courseId == courseId
    ensures forall i :: 0 <= i < k ==> badges[i].courseId != courseId
    decreases |badges|
  {
    if badges[0].courseId == courseId {
      k := 0;
    } else {
      var i :| 0 <= i < |badges| && badges[i].courseId == courseId;
      assert badges[1..][i - 1].courseId == courseId;
      k := FirstOf(badges[1..], courseId);
      k := k + 1;
    }
  }

  /** On a vector without repetition the number of badges is the number of courses they name. */
  lemma {:induction false} CountIsCardinality(badges: seq<Badge>, courses: set<u32>)
    requires Distinct(badges)
    requires forall c: u32 :: c in courses <==> Holds(badges, c)
    ensures |badges| == |courses|
  {
    if badges == [] {
      assert courses == {};
    } else {
      var last := |badges| - 1;
      var c := badges[last].courseId;
      forall d: u32 ensures d in courses - {c} <==> Holds(badges[..last], d) {
        if Holds(badges, d) {
          var i :| 0 <= i < |badges| && badges[i].courseId == d;
          if i < last {
            assert badges[..last][i].courseId == d;
          }
        }
        if Holds(badges[..last], d) {
          var i :| 0 <= i < last && badges[..last][i].courseId == d;
          assert badges[i].courseId == d;
        }
      }
      CountIsCardinality(badges[..last], courses - {c});
      assert Holds(badges, c);
    }
  }

  class Contract {
    const host: Host
    var admin: Option<Address>
    var userBadges: map<Address, seq<Badge>>

    constructor (host: Host)
      ensures this.host == host && State() == Storage(None, map[])
    {
      this.host, admin, userBadges := host, None, map[];
    }

    function State(): Storage
      reads this
    {
      Storage(admin, userBadges)
    }

    method Initialize(admin: Address) returns (r: Outcome<()>)
      modifies this`admin
      ensures r == InitializeEffect(old(State()), admin).Verdict()
      ensures State() == After(InitializeEffect(old(State()), admin), old(State()))
    {
      if this.admin.Some? {
        return Panic(AlreadyInitialized);
      }
      this.admin := Some(admin);
      r := Ok(());
    }

    method GetBadges(learner: Address) returns (badges: seq<Badge>)
      ensures badges == Badges(State(), learner)
    {
      badges := if learner in userBadges then userBadges[learner] else [];
    }

    method GetBadgeCount(learner: Address) returns (count: nat)
      ensures count == |Badges(State(), learner)|
    {
      var badges := GetBadges(learner);
      count := |badges|;
    }

    method HasBadge(learner: Address, courseId: u32) returns (found: bool)
      ensures found <==> Holds(Badges(State(), learner), courseId)
    {
      var badges := GetBadges(learner);
      for i := 0 to |badges|
        invariant forall j :: 0 <= j < i ==> badges[j].courseId != courseId
      {
        if badges[i].courseId == courseId {
          return true;
        }
      }
      found := false;
    }

    method MintBadge(auth: set<Address>, caller: Address, learner: Address, courseId: u32) returns (r: Outcome<()>)
      modifies this`userBadges, host`events
      ensures r == MintBadgeEffect(old(State()), old(host.View()), auth, caller, learner, courseId).Verdict()
      ensures (State(), host.View()) ==
        After(MintBadgeEffect(old(State()), old(host.View()), auth, caller, learner, courseId), old((State(), host.View())))
    {
      if caller !in auth {
        return Panic(NotAuthorized);
      }
      if admin.None? {
        return Panic(NotInitialized);
      }
      if caller != admin.value {
        return Panic(Unauthorized);
      }
      var badges := GetBadges(learner);
      for i := 0 to |badges|
        invariant forall j :: 0 <= j < i ==> badges[j].courseId != courseId
      {
        if badges[i].courseId == courseId {
          return Panic(BadgeExists);
        }
      }
      var mintedAt := host.now;
      userBadges := userBadges[learner := badges + [Badge(courseId, mintedAt)]];
      host.Emit(BadgeMinted(learner, courseId, mintedAt));
      r := Ok(());
    }

    method RevokeBadge(auth: set<Address>, admin: Address, learner: Address, courseId: u32) returns (r: Outcome<()>)
      modifies this`userBadges, host`events
      ensures r == RevokeBadgeEffect(old(State()), old(host.View()), auth, admin, learner, courseId).Verdict()
      ensures (State(), host.View()) ==
        After(RevokeBadgeEffect(old(State()), old(host.View()), auth, admin, learner, courseId), old((State(), host.View())))
    {
      if admin !in auth {
        return Panic(NotAuthorized);
      }
      if this.admin.None? {
        return Panic(NotInitialized);
      }
      if admin != this.admin.value {
        return Panic(Unauthorized);
      }
      var badges := GetBadges(learner);
      var found, indexToRemove := false, 0;
      var i := 0;
      while i < |badges| && !found
        invariant 0 <= i <= |badges|
        invariant found ==> indexToRemove < |badges| && badges[indexToRemove].courseId == courseId
        invariant forall j :: 0 <= j < (if found then indexToRemove else i) ==> badges[j].courseId != courseId
        decreases |badges| - i, !found
      {
        if badges[i].courseId == courseId {
          indexToRemove := i;
          found := true;
        } else {
          i := i + 1;
        }
      }
      if found {
        WithoutFirstAt(badges, indexToRemove);
        userBadges := userBadges[learner := badges[..indexToRemove] + badges[indexToRemove + 1..]];
        host.Emit(BadgeRevoked(learner, courseId));
      }
      r := Ok(());
    }
  }
}
