/** Badge-weighted proposals: vote, cancel, execute. */
module Governance {
  import opened Outcomes
  import opened Soroban
  import BadgeNft

  datatype Proposal = Proposal(
    id: u32, proposer: Address, metadataHash: Hash, votesFor: u32, votesAgainst: u32, endTime: u64, executed: bool)

  /** `initialize` writes both at once. */
  datatype Wiring = Wiring(admin: Address, badgeNft: Address)

  datatype Storage = Storage(wiring: Option<Wiring>, proposals: map<u32, Proposal>, userVotes: set<(Address, u32)>)

  datatype Call =
    | Initialize(admin: Address, badgeNft: Address)
    | CastVote(voter: Address, proposalId: u32, support: bool)
    | CancelProposal(caller: Address, proposalId: u32)
    | ExecuteProposal(proposalId: u32)

  function InitializeEffect(s: Storage, auth: set<Address>, admin: Address, badgeNft: Address): Outcome<Storage> {
    if s.wiring.Some? then Panic(AlreadyInitialized) else
    :- Need(admin in auth, NotAuthorized);
    Ok(s.(wiring := Some(Wiring(admin, badgeNft))))
  }

  /** The number of badges the wired badge contract reports for a voter. */
  function VoteWeight(badgeNft: Address, badges: BadgeNft.Storage, replies: Replies, voter: Address): Outcome<nat> {
    if badgeNft == BadgeId then Ok(|BadgeNft.Badges(badges, voter)|)
    else if replies.badgeCount.Some? then Ok(replies.badgeCount.value)
    else Panic(ForeignCallFailed)
  }

  function CastVoteEffect(
    s: Storage, badges: BadgeNft.Storage, auth: set<Address>, replies: Replies, voter: Address, proposalId: u32, support: bool)
    : Outcome<Storage>
  {
    if voter !in auth then Panic(NotAuthorized) else
    :- Need((voter, proposalId) !in s.userVotes, AlreadyVoted);
    :- Need(s.wiring.Some?, NotInitialized);
    var weight :- VoteWeight(s.wiring.value.badgeNft, badges, replies, voter);
    :- Need(proposalId in s.proposals, ProposalNotFound);
    var proposal := s.proposals[proposalId];
    :- Need((if support then proposal.votesFor else proposal.votesAgainst) + weight <= U32_MAX, VoteOverflow);
    var counted :=
      if support then proposal.(votesFor := proposal.votesFor + weight)
      else proposal.(votesAgainst := proposal.votesAgainst + weight);
    Ok(s.(proposals := s.proposals[proposalId := counted], userVotes := s.userVotes + {(voter, proposalId)}))
  }

  function CancelEffect(s: Storage, e: Env, auth: set<Address>, caller: Address, proposalId: u32): Outcome<(Storage, Env)> {
    if caller !in auth then Panic(NotAuthorized) else
    :- Need(proposalId in s.proposals, ProposalNotFound);
    var proposal := s.proposals[proposalId];
    :- Need(s.wiring.Some?, NotInitialized);
    :- Need(caller == proposal.proposer || caller == s.wiring.value.admin, Unauthorized);
    :- Need(e.now < proposal.endTime, VotingEnded);
    :- Need(!proposal.executed, AlreadyExecuted);
    Ok((s.(proposals := s.proposals[proposalId := proposal.(executed := true)]),
        Publish(e, ProposalCancelled(proposalId, caller))))
  }

  function ExecuteEffect(s: Storage, e: Env, proposalId: u32): Outcome<(Storage, Env)> {
    if proposalId !in s.proposals then Panic(ProposalNotFound) else
    var proposal := s.proposals[proposalId];
    :- Need(e.now > proposal.endTime, VotingActive);
    :- Need(proposal.votesFor > proposal.votesAgainst, ProposalRejected);
    :- Need(!proposal.executed, AlreadyExecuted);
    Ok((s.(proposals := s.proposals[proposalId := proposal.(executed := true)]),
        Publish(e, ProposalExecuted(proposalId, proposal.proposer))))
  }

  function Exec(s: Storage, badges: BadgeNft.Storage, e: Env, auth: set<Address>, replies: Replies, c: Call)
    : Outcome<(Storage, Env)>
  {
    match c
    case Initialize(admin, badgeNft) => var s' :- InitializeEffect(s, auth, admin, badgeNft); Ok((s', e))
    case CastVote(voter, proposalId, support) =>
      var s' :- CastVoteEffect(s, badges, auth, replies, voter, proposalId, support); Ok((s', e))
    case CancelProposal(caller, proposalId) => CancelEffect(s, e, auth, caller, proposalId)
    case ExecuteProposal(proposalId) => ExecuteEffect(s, e, proposalId)
  }

  lemma InitializeOutcome(
    s: Storage, badges: BadgeNft.Storage, e: Env, auth: set<Address>, replies: Replies, admin: Address, badgeNft: Address)
    ensures var r := Exec(s, badges, e, auth, replies, Initialize(admin, badgeNft));
      && (r.Ok? <==> s.wiring.None? && admin in auth)
      && (r.Ok? ==> r.value == (s.(wiring := Some(Wiring(admin, badgeNft))), e))
  {
  }

  /**
   A vote counts exactly once for each voter, with the badges the wired contract reports
   now, on the side chosen and on no other, unless that side would overflow.
   */
  lemma CastVoteOutcome(
    s: Storage, badges: BadgeNft.Storage, e: Env, auth: set<Address>, replies: Replies, voter: Address, p: u32, support: bool)
    ensures var r := Exec(s, badges, e, auth, replies, CastVote(voter, p, support));
      var own := s.wiring.Some? && s.wiring.value.badgeNft == BadgeId;
      var weight :=
        if own then |BadgeNft.Badges(badges, voter)|
        else if replies.badgeCount.Some? then replies.badgeCount.value
        else 0;
      && (r.Ok? <==>
            && voter in auth && (voter, p) !in s.userVotes && s.wiring.Some? && (own || replies.badgeCount.Some?)
            && p in s.proposals
            && (if support then s.proposals[p].votesFor else s.proposals[p].votesAgainst) + weight <= U32_MAX)
      && (r.Ok? ==>
            var (q, s') := (s.proposals[p], r.value.0);
            && r.value.1 == e
            && p in s'.proposals
            && s'.proposals[p].votesFor == q.votesFor + (if support then weight else 0)
            && s'.proposals[p].votesAgainst == q.votesAgainst + (if support then 0 else weight)
            && s' == s.(userVotes := s.userVotes + {(voter, p)},
                        proposals := s.proposals[p := q.(votesFor := s'.proposals[p].votesFor,
                                                         votesAgainst := s'.proposals[p].votesAgainst)]))
  {
  }

  /** The proposer and the admin can cancel every open proposal before its end, and nobody else ever. */
  lemma CancelOutcome(
    s: Storage, badges: BadgeNft.Storage, e: Env, auth: set<Address>, replies: Replies, caller: Address, p: u32)
    ensures var r := Exec(s, badges, e, auth, replies, CancelProposal(caller, p));
      && (r.Ok? <==>
            && caller in auth && p in s.proposals && s.wiring.Some?
            && (caller == s.proposals[p].proposer || caller == s.wiring.value.admin)
            && e.now < s.proposals[p].endTime && !s.proposals[p].executed)
      && (r.Ok? ==>
            && r.value.0 == s.(proposals := s.proposals[p := s.proposals[p].(executed := true)])
            && Logs(e, r.value.1, [ProposalCancelled(p, caller)]))
  {
  }

  /** Anybody can execute a proposal exactly when it is past its end, unlocked, and has strictly more votes for than against. */
  lemma ExecuteOutcome(s: Storage, badges: BadgeNft.Storage, e: Env, auth: set<Address>, replies: Replies, p: u32)
    ensures var r := Exec(s, badges, e, auth, replies, ExecuteProposal(p));
      && (r.Ok? <==>
            && p in s.proposals && s.proposals[p].endTime < e.now
            && s.proposals[p].votesAgainst < s.proposals[p].votesFor && !s.proposals[p].executed)
      && (r.Ok? ==>
            && r.value.0 == s.(proposals := s.proposals[p := s.proposals[p].(executed := true)])
            && Logs(e, r.value.1, [ProposalExecuted(p, s.proposals[p].proposer)]))
  {
  }

  lemma ExecFrame(s: Storage, badges: BadgeNft.Storage, e: Env, auth: set<Address>, replies: Replies, c: Call, actors: set<Address>)
    requires Exec(s, badges, e, auth, replies, c).Ok? && GovernanceId in actors
    ensures Frame(e, Exec(s, badges, e, auth, replies, c).value.1, actors)
  {
    match c
    case Initialize(_, _) | CastVote(_, _, _) =>
    case CancelProposal(caller, id) => Published(e, ProposalCancelled(id, caller), actors);
    case ExecuteProposal(id) => Published(e, ProposalExecuted(id, s.proposals[id].proposer), actors);
  }

  // ---------------------------------------------------------------- finality

  /** A proposal is locked exactly by the one execution or cancellation the log shows for it. */
  ghost predicate Final(s: Storage, log: seq<Event>) {
    forall p :: Closings(p, log) == (if p in s.proposals && s.proposals[p].executed then 1 else 0)
  }

  /** Executions and cancellations of a proposal, together. */
  ghost function Closings(p: u32, log: seq<Event>): nat {
    Tally(Executions(p), log) + Tally(Cancellations(p), log)
  }

  lemma ClosedOnce(log: seq<Event>, id: u32, ev: Event, p: u32)
    requires (ev.ProposalExecuted? || ev.ProposalCancelled?) && ev.proposalId == id
    ensures Closings(p, log + [ev]) == Closings(p, log) + (if p == id then 1 else 0)
  {
    AppendLogs(log, ev);
    assert Weight(Executions(p), ev) + Weight(Cancellations(p), ev) == if p == id then 1 else 0;
  }

  lemma FinalWhenLocked(s: Storage, s': Storage, log: seq<Event>, id: u32, ev: Event)
    requires Final(s, log)
    requires id in s.proposals && !s.proposals[id].executed
    requires s'.proposals == s.proposals[id := s.proposals[id].(executed := true)]
    requires (ev.ProposalExecuted? || ev.ProposalCancelled?) && ev.proposalId == id
    ensures Final(s', log + [ev])
  {
    forall p ensures Closings(p, log + [ev]) == (if p in s'.proposals && s'.proposals[p].executed then 1 else 0) {
      ClosedOnce(log, id, ev, p);
    }
  }

  /** Proposals neither appear nor vanish, keep their terms, gain votes only, and are never unlocked. */
  ghost predicate Onward(s: Storage, s': Storage) {
    && s'.proposals.Keys == s.proposals.Keys
    && s.userVotes <= s'.userVotes
    && (forall p :: p in s.proposals ==>
          var q, q' := s.proposals[p], s'.proposals[p];
          && q'.endTime == q.endTime && q'.proposer == q.proposer && q'.metadataHash == q.metadataHash
          && q.votesFor <= q'.votesFor && q.votesAgainst <= q'.votesAgainst
          && (q.executed ==> q'.executed))
  }

  lemma ExecOnward(s: Storage, badges: BadgeNft.Storage, e: Env, auth: set<Address>, replies: Replies, c: Call)
    requires Exec(s, badges, e, auth, replies, c).Ok?
    ensures Onward(s, Exec(s, badges, e, auth, replies, c).value.0)
  {
  }

  /** Every call keeps the books on finality. */
  lemma FinalKept(s: Storage, badges: BadgeNft.Storage, e: Env, auth: set<Address>, replies: Replies, c: Call)
    requires Final(s, e.events) && Exec(s, badges, e, auth, replies, c).Ok?
    ensures var (s', e') := Exec(s, badges, e, auth, replies, c).value; Final(s', e'.events)
  {
    var (s', e') := Exec(s, badges, e, auth, replies, c).value;
    match c
    case Initialize(_, _) | CastVote(_, _, _) =>
    case CancelProposal(caller, id) =>
      var ev := ProposalCancelled(id, caller);
      FinalWhenLocked(s, s', e.events, id, ev);
    case ExecuteProposal(id) =>
      var ev := ProposalExecuted(id, s.proposals[id].proposer);
      FinalWhenLocked(s, s', e.events, id, ev);
  }

  lemma OthersKeep(s: Storage, e: Env, e': Env, actors: set<Address>)
    requires Final(s, e.events) && Frame(e, e', actors) && GovernanceId !in actors
    ensures Final(s, e'.events)
  {
    hide Tally;
    forall p ensures Closings(p, e'.events) == Closings(p, e.events) {
      assert Owner(Executions(p)) == GovernanceId == Owner(Cancellations(p));
    }
  }

  /** What an execution proves about its proposal at that moment. */
  lemma ExecutionJustified(s: Storage, badges: BadgeNft.Storage, e: Env, auth: set<Address>, replies: Replies, c: Call, p: u32)
    requires Exec(s, badges, e, auth, replies, c).Ok?
    requires var e' := Exec(s, badges, e, auth, replies, c).value.1;
      Tally(Executions(p), e'.events) > Tally(Executions(p), e.events)
    ensures p in s.proposals && e.now > s.proposals[p].endTime
    ensures s.proposals[p].votesFor > s.proposals[p].votesAgainst && !s.proposals[p].executed
  {
    hide Tally;
    match c
    case Initialize(_, _) | CastVote(_, _, _) => assert false;
    case CancelProposal(caller, id) => AppendLogs(e.events, ProposalCancelled(id, caller));
    case ExecuteProposal(id) => AppendLogs(e.events, ProposalExecuted(id, s.proposals[id].proposer));
  }

  /** What a cancellation proves: the proposer or the admin signed, before the end, with the proposal still open. */
  lemma CancellationJustified(s: Storage, badges: BadgeNft.Storage, e: Env, auth: set<Address>, replies: Replies, c: Call, p: u32)
    requires Exec(s, badges, e, auth, replies, c).Ok?
    requires var e' := Exec(s, badges, e, auth, replies, c).value.1;
      Tally(Cancellations(p), e'.events) > Tally(Cancellations(p), e.events)
    ensures p in s.proposals && e.now < s.proposals[p].endTime && !s.proposals[p].executed
    ensures s.proposals[p].proposer in auth || (s.wiring.Some? && s.wiring.value.admin in auth)
  {
    hide Tally;
    match c
    case Initialize(_, _) | CastVote(_, _, _) => assert false;
    case CancelProposal(caller, id) => AppendLogs(e.events, ProposalCancelled(id, caller));
    case ExecuteProposal(id) => AppendLogs(e.events, ProposalExecuted(id, s.proposals[id].proposer));
  }

  class Contract {
    const host: Host
    const badges: BadgeNft.Contract
    var wiring: Option<Wiring>
    var proposals: map<u32, Proposal>
    var userVotes: set<(Address, u32)>

    /** Both contracts live on one host. */
    ghost predicate Valid() {
      badges.host == host
    }

    /** There is no call that creates a proposal: they are seeded. */
    constructor (host: Host, badges: BadgeNft.Contract, proposals: map<u32, Proposal>)
      requires badges.host == host
      ensures Valid() && this.host == host && this.badges == badges
      ensures State() == Storage(None, proposals, {})
    {
      this.host, this.badges, this.proposals := host, badges, proposals;
      wiring, userVotes := None, {};
    }

    function State(): Storage
      reads this
    {
      Storage(wiring, proposals, userVotes)
    }

    method Initialize(auth: set<Address>, admin: Address, badgeNft: Address) returns (r: Outcome<()>)
      modifies this`wiring
      ensures r == InitializeEffect(old(State()), auth, admin, badgeNft).Verdict()
      ensures State() == After(InitializeEffect(old(State()), auth, admin, badgeNft), old(State()))
    {
      if wiring.Some? {
        return Panic(AlreadyInitialized);
      }
      if admin !in auth {
        return Panic(NotAuthorized);
      }
      wiring := Some(Wiring(admin, badgeNft));
      r := Ok(());
    }

    method Weigh(replies: Replies, voter: Address) returns (r: Outcome<nat>)
      requires wiring.Some?
      ensures r == VoteWeight(wiring.value.badgeNft, badges.State(), replies, voter)
    {
      if wiring.value.badgeNft == BadgeId {
        var held := badges.GetBadges(voter);
        r := Ok(|held|);
      } else if replies.badgeCount.Some? {
        r := Ok(replies.badgeCount.value);
      } else {
        r := Panic(ForeignCallFailed);
      }
    }

    method CastVote(auth: set<Address>, replies: Replies, voter: Address, proposalId: u32, support: bool)
      returns (r: Outcome<()>)
      modifies this`proposals, this`userVotes
      ensures r == CastVoteEffect(old(State()), badges.State(), auth, replies, voter, proposalId, support).Verdict()
      ensures State() ==
        After(CastVoteEffect(old(State()), badges.State(), auth, replies, voter, proposalId, support), old(State()))
    {
      if voter !in auth {
        return Panic(NotAuthorized);
      }
      if (voter, proposalId) in userVotes {
        return Panic(AlreadyVoted);
      }
      if wiring.None? {
        return Panic(NotInitialized);
      }
      var answer := Weigh(replies, voter);
      if answer.Panic? {
        return Panic(answer.reason);
      }
      var weight := answer.value;
      if proposalId !in proposals {
        return Panic(ProposalNotFound);
      }
      var proposal := proposals[proposalId];
      if support {
        if proposal.votesFor + weight > U32_MAX {
          return Panic(VoteOverflow);
        }
        proposal := proposal.(votesFor := proposal.votesFor + weight);
      } else {
        if proposal.votesAgainst + weight > U32_MAX {
          return Panic(VoteOverflow);
        }
        proposal := proposal.(votesAgainst := proposal.votesAgainst + weight);
      }
      proposals := proposals[proposalId := proposal];
      userVotes := userVotes + {(voter, proposalId)};
      r := Ok(());
    }

    method CancelProposal(auth: set<Address>, caller: Address, proposalId: u32) returns (r: Outcome<()>)
      modifies this`proposals, host`events
      ensures r == CancelEffect(old(State()), old(host.View()), auth, caller, proposalId).Verdict()
      ensures (State(), host.View()) ==
        After(CancelEffect(old(State()), old(host.View()), auth, caller, proposalId), old((State(), host.View())))
    {
      if caller !in auth {
        return Panic(NotAuthorized);
      }
      if proposalId !in proposals {
        return Panic(ProposalNotFound);
      }
      var proposal := proposals[proposalId];
      if wiring.None? {
        return Panic(NotInitialized);
      }
      if caller != proposal.proposer && caller != wiring.value.admin {
        return Panic(Unauthorized);
      }
      if host.now >= proposal.endTime {
        return Panic(VotingEnded);
      }
      if proposal.executed {
        return Panic(AlreadyExecuted);
      }
      proposals := proposals[proposalId := proposal.(executed := true)];
      host.Emit(ProposalCancelled(proposalId, caller));
      r := Ok(());
    }

    method ExecuteProposal(proposalId: u32) returns (r: Outcome<()>)
      modifies this`proposals, host`events
      ensures r == ExecuteEffect(old(State()), old(host.View()), proposalId).Verdict()
      ensures (State(), host.View()) ==
        After(ExecuteEffect(old(State()), old(host.View()), proposalId), old((State(), host.View())))
    {
      if proposalId !in proposals {
        return Panic(ProposalNotFound);
      }
      var proposal := proposals[proposalId];
      if host.now <= proposal.endTime {
        return Panic(VotingActive);
      }
      if proposal.votesFor <= proposal.votesAgainst {
        return Panic(ProposalRejected);
      }
      if proposal.executed {
        return Panic(AlreadyExecuted);
      }
      proposals := proposals[proposalId := proposal.(executed := true)];
      host.Emit(ProposalExecuted(proposalId, proposal.proposer));
      r := Ok(());
    }
  }
}
