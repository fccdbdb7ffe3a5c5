/** Tallies against ballots over whole runs, and against badges where the badge contract is wired. */
module Voting {
  import opened Outcomes
  import opened Sums
  import opened Soroban
  import opened Platform
  import opened Safety
  import opened Authority
  import opened Graduation
  import BadgeNft
  import CourseBadges
  import Governance

  /** A recorded vote, with the badge count of the voter when it was cast. */
  datatype Ballot = Ballot(support: bool, weight: nat)

  type Box = map<Address, Ballot>

  /** Whether a step casts a vote on a proposal. */
  predicate Casts(w: World, a: Action, p: u32) {
    && a.Invoke? && a.call.ToGovernance? && a.call.governance.CastVote? && a.call.governance.proposalId == p
    && var vote := a.call.governance;
       Governance.CastVoteEffect(w.governance, w.badges, a.auth, a.replies, vote.voter, p, vote.support).Ok?
  }

  function BoxAfter(box: Box, w: World, a: Action, p: u32): Box {
    if Casts(w, a, p) then
      var vote := a.call.governance;
      var weight := Governance.VoteWeight(w.governance.wiring.value.badgeNft, w.badges, a.replies, vote.voter).value;
      box[vote.voter := Ballot(vote.support, weight)]
    else box
  }

  /** The ballots a run casts on a proposal. */
  function Ballots(w: World, actions: seq<Action>, p: u32): Box {
    if actions == [] then map[]
    else BoxAfter(Ballots(w, actions[..|actions| - 1], p), Run(w, actions[..|actions| - 1]), actions[|actions| - 1], p)
  }

  ghost function Side(box: Box, support: bool): map<Address, int> {
    map v | v in box :: if box[v].support == support then box[v].weight as int else 0
  }

  ghost function Weights(box: Box): map<Address, int> {
    map v | v in box :: box[v].weight as int
  }

  lemma SidesAddUp(box: Box)
    ensures Sum(Weights(box)) == Sum(Side(box, true)) + Sum(Side(box, false))
  {
    SumAdd(Weights(box), Side(box, true), Side(box, false));
  }

  /** The tallies of a proposal are the sums over its ballots, one for each recorded voter. */
  ghost predicate Counted(s: Governance.Storage, box: Box, p: u32) {
    && (forall v :: v in box <==> (v, p) in s.userVotes)
    && (p in s.proposals ==>
          && s.proposals[p].votesFor == Sum(Side(box, true))
          && s.proposals[p].votesAgainst == Sum(Side(box, false)))
  }

  lemma SideGrows(box: Box, voter: Address, ballot: Ballot, support: bool)
    requires voter !in box
    ensures Sum(Side(box[voter := ballot], support)) ==
            Sum(Side(box, support)) + (if ballot.support == support then ballot.weight else 0)
  {
    hide Sum;
    var more := if ballot.support == support then ballot.weight as int else 0;
    assert Side(box[voter := ballot], support) == Side(box, support)[voter := more];
    SumPut(Side(box, support), voter, more);
  }

  lemma VoteCounted(s: Governance.Storage, s': Governance.Storage, box: Box, p: u32, voter: Address, ballot: Ballot)
    requires Counted(s, box, p) && p in s.proposals && (voter, p) !in s.userVotes
    requires s'.userVotes == s.userVotes + {(voter, p)} && p in s'.proposals
    requires s'.proposals[p].votesFor == s.proposals[p].votesFor + (if ballot.support then ballot.weight else 0)
    requires s'.proposals[p].votesAgainst == s.proposals[p].votesAgainst + (if ballot.support then 0 else ballot.weight)
    ensures Counted(s', box[voter := ballot], p)
  {
    hide Sum, Side;
    SideGrows(box, voter, ballot, true);
    SideGrows(box, voter, ballot, false);
  }

  lemma CastVoteCounted(w: World, a: Action, p: u32, box: Box)
    requires Casts(w, a, p) && Counted(w.governance, box, p)
    ensures Counted(Step(w, a).governance, BoxAfter(box, w, a, p), p)
  {
    hide Counted, Governance.VoteWeight;
    var vote := a.call.governance;
    var weight := Governance.VoteWeight(w.governance.wiring.value.badgeNft, w.badges, a.replies, vote.voter).value;
    VoteCounted(w.governance, Step(w, a).governance, box, p, vote.voter, Ballot(vote.support, weight));
  }

  /** Any other governance call leaves the tallies and the voters of a proposal alone. */
  lemma OtherCallsCount(
    s: Governance.Storage, badges: BadgeNft.Storage, e: Env, auth: set<Address>, replies: Replies, c: Governance.Call, p: u32)
    requires !(c.CastVote? && c.proposalId == p)
    requires Governance.Exec(s, badges, e, auth, replies, c).Ok?
    ensures var s' := Governance.Exec(s, badges, e, auth, replies, c).value.0;
      && s'.proposals.Keys == s.proposals.Keys
      && (forall v :: (v, p) in s'.userVotes <==> (v, p) in s.userVotes)
      && (p in s.proposals ==>
            && s'.proposals[p].votesFor == s.proposals[p].votesFor
            && s'.proposals[p].votesAgainst == s.proposals[p].votesAgainst)
  {
  }

  lemma StepCounted(w: World, a: Action, p: u32, box: Box)
    requires Counted(w.governance, box, p)
    ensures Counted(Step(w, a).governance, BoxAfter(box, w, a, p), p)
  {
    if Casts(w, a, p) {
      hide Counted, BoxAfter, Step, Casts;
      CastVoteCounted(w, a, p, box);
    } else if a.Invoke? && Platform.Exec(w, a.auth, a.replies, a.call).Ok? {
      hide Sum;
      if a.call.ToGovernance? {
        OtherCallsCount(w.governance, w.badges, w.env, a.auth, a.replies, a.call.governance, p);
      } else {
        Untouched(w, a.auth, a.replies, a.call, Step(w, a));
      }
    }
  }

  lemma FreshCounted(w: World, p: u32)
    requires Fresh(w)
    ensures Counted(w.governance, map[], p)
  {
    assert Side(map[], true) == map[] == Side(map[], false);
  }

  /** In every reachable state a proposal's tallies are the sums of its ballots, each weighed when it was cast. */
  lemma {:induction false} TallyIsSumOfBallots(w: World, actions: seq<Action>, p: u32)
    requires Fresh(w)
    ensures Counted(Run(w, actions).governance, Ballots(w, actions, p), p)
    decreases |actions|
  {
    hide Fresh, Step, BoxAfter, Counted;
    if actions == [] {
      FreshCounted(w, p);
    } else {
      var n := |actions| - 1;
      TallyIsSumOfBallots(w, actions[..n], p);
      StepCounted(Run(w, actions[..n]), actions[n], p, Ballots(w, actions[..n], p));
    }
  }

  // ---------------------------------------------------------------- bounded by holdings

  /** With the registry as the badge contract's only admin, a vote weighs at most the number of courses. */
  lemma WeightBoundedByCourses(w: World, actions: seq<Action>, replies: Replies, voter: Address)
    requires Fresh(w) && OwnAdmin(Run(w, actions))
    ensures var w' := Run(w, actions);
      var weight := Governance.VoteWeight(BadgeId, w'.badges, replies, voter);
      weight.Ok? && weight.value <= w'.registry.courseCount
  {
    hide Fresh, Run, OwnAdmin, Struck, CourseBadges.FinishedCourses;
    CountIsFinished(w, actions, voter);
  }

  ghost function Counts(b: BadgeNft.Storage): map<Address, int> {
    map l | l in b.userBadges :: |b.userBadges[l]| as int
  }

  /** All badges held by all learners. */
  ghost function TotalHeld(b: BadgeNft.Storage): int {
    Sum(Counts(b))
  }

  /** No ballot outweighs what its voter holds. */
  ghost predicate Covered(box: Box, b: BadgeNft.Storage) {
    forall v :: v in box ==> box[v].weight <= |BadgeNft.Badges(b, v)|
  }

  /** Governance, where it is initialised, weighs votes by the platform's badges. */
  predicate OwnBadges(w: World) {
    w.governance.wiring.Some? ==> w.governance.wiring.value.badgeNft == BadgeId
  }

  lemma OwnBadgesBefore(w: World, a: Action)
    requires OwnBadges(Step(w, a))
    ensures OwnBadges(w)
  {
    hide Step, AdminOf;
    StepAuthority(w, a);
  }

  lemma StepCovered(w: World, a: Action, p: u32, box: Box)
    requires OwnBadges(w) && Covered(box, w.badges) && CourseBadges.Grows(w.badges, Step(w, a).badges)
    ensures Covered(BoxAfter(box, w, a, p), Step(w, a).badges)
  {
    hide Step, Governance.CastVoteEffect;
    forall v | v in BoxAfter(box, w, a, p)
      ensures BoxAfter(box, w, a, p)[v].weight <= |BadgeNft.Badges(Step(w, a).badges, v)|
    {
      assert BadgeNft.Badges(w.badges, v) <= BadgeNft.Badges(Step(w, a).badges, v);
      CastWeight(w, a, p);
    }
  }

  lemma CastWeight(w: World, a: Action, p: u32)
    requires OwnBadges(w)
    ensures Casts(w, a, p) ==>
      && w.governance.wiring.Some?
      && Governance.VoteWeight(w.governance.wiring.value.badgeNft, w.badges, a.replies, a.call.governance.voter)
         == Ok(|BadgeNft.Badges(w.badges, a.call.governance.voter)|)
  {
  }

  lemma {:induction false} BallotsCovered(w: World, actions: seq<Action>, p: u32)
    requires Fresh(w) && OwnAdmin(Run(w, actions)) && OwnBadges(Run(w, actions))
    ensures Covered(Ballots(w, actions, p), Run(w, actions).badges)
    decreases |actions|
  {
    hide Fresh, Step, BoxAfter, Covered, OwnAdmin, Earned, CourseBadges.Grows, OwnBadges, Safe, Struck, CourseBadges.Missing;
    if actions == [] {
      NoBallots(w.badges);
    } else {
      var n := |actions| - 1;
      var w1 := Run(w, actions[..n]);
      AdminWasOwn(w1, actions[n]);
      OwnBadgesBefore(w1, actions[n]);
      BallotsCovered(w, actions[..n], p);
      RunEarns(w, actions[..n], RegistryId, 0);
      StepGrows(w1, actions[n]);
      StepCovered(w1, actions[n], p, Ballots(w, actions[..n], p));
    }
  }

  lemma NoBallots(b: BadgeNft.Storage)
    ensures Covered(map[], b)
  {
  }

  lemma CoveredBySum(box: Box, b: BadgeNft.Storage)
    requires Covered(box, b)
    ensures Sum(Weights(box)) <= TotalHeld(b)
  {
    forall v | v in Weights(box) ensures Weights(box)[v] <= Get(Counts(b), v) {
    }
    SumBelow(Weights(box), Counts(b));
  }

  /** With the badge contract wired, all votes of a proposal together never exceed the badges currently held. */
  lemma TallyBoundedByHoldings(w: World, actions: seq<Action>, p: u32)
    requires Fresh(w) && OwnAdmin(Run(w, actions)) && OwnBadges(Run(w, actions))
    requires p in Run(w, actions).governance.proposals
    ensures var w' := Run(w, actions);
      w'.governance.proposals[p].votesFor + w'.governance.proposals[p].votesAgainst <= TotalHeld(w'.badges)
  {
    hide Fresh, Run, Covered, OwnAdmin, OwnBadges, Sum;
    BallotsCovered(w, actions, p);
    TallyIsSumOfBallots(w, actions, p);
    CoveredBySum(Ballots(w, actions, p), Run(w, actions).badges);
    SidesAddUp(Ballots(w, actions, p));
  }

  lemma SideNonNegative(box: Box, support: bool)
    ensures 0 <= Sum(Side(box, support))
  {
    SumNonNegative(Side(box, support));
  }

  lemma FitsAnotherBallot(box: Box, b: BadgeNft.Storage, voter: Address, support: bool)
    requires Covered(box, b) && voter !in box
    ensures Sum(Side(box, support)) + |BadgeNft.Badges(b, voter)| <= TotalHeld(b)
  {
    hide Sum, TotalHeld, Weights, Side;
    var ballot := Ballot(support, |BadgeNft.Badges(b, voter)|);
    CoveredBySum(box[voter := ballot], b);
    SidesAddUp(box[voter := ballot]);
    SideGrows(box, voter, ballot, support);
    SideNonNegative(box[voter := ballot], !support);
  }

  /** So while all badges together fit in u32, a vote can only fail for its signature, a repetition or a missing proposal. */
  lemma VoteNeverOverflows(
    w: World, actions: seq<Action>, auth: set<Address>, replies: Replies, voter: Address, p: u32, support: bool)
    requires Fresh(w) && OwnAdmin(Run(w, actions)) && OwnBadges(Run(w, actions)) && Run(w, actions).governance.wiring.Some?
    requires TotalHeld(Run(w, actions).badges) <= U32_MAX
    ensures var w' := Run(w, actions);
      Governance.CastVoteEffect(w'.governance, w'.badges, auth, replies, voter, p, support).Ok? <==>
        voter in auth && (voter, p) !in w'.governance.userVotes && p in w'.governance.proposals
  {
    hide Fresh, Run, Covered, OwnAdmin, Sum, Side, TotalHeld;
    BallotsCovered(w, actions, p);
    TallyIsSumOfBallots(w, actions, p);
    var w' := Run(w, actions);
    if (voter, p) !in w'.governance.userVotes {
      FitsAnotherBallot(Ballots(w, actions, p), w'.badges, voter, support);
    }
  }
}
