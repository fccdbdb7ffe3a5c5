/** The central reward pool: an allowlist of spenders, a pause switch and a full sweep. */
module RewardPool {
  import opened Outcomes
  import opened Soroban

  /** `initialize` writes the admin and the token together, so one option stands for both. */
  datatype Storage = Storage(admin: Option<Address>, spenders: set<Address>, spenderCount: u32, paused: bool)

  datatype Call =
    | Initialize(admin: Address)
    | AddApprovedSpender(admin: Address, spender: Address)
    | SetPause(admin: Address, status: bool)
    | DistributeReward(caller: Address, learner: Address, amount: i128)
    | FundPool(donor: Address, amount: i128)
    | EmergencySweep(admin: Address, recoveryWallet: Address)

  function InitializeEffect(s: Storage, e: Env, auth: set<Address>, admin: Address): (r: Outcome<(Storage, Env)>)
  {
    if s.admin.Some? then Panic(AlreadyInitialized) else
    :- Need(admin in auth, NotAuthorized);
    Ok((s.(admin := Some(admin)), Publish(e, PoolInitialized(admin))))
  }

  function AddApprovedSpenderEffect(s: Storage, e: Env, auth: set<Address>, admin: Address, spender: Address)
    : (r: Outcome<(Storage, Env)>)
  {
    if s.admin.None? then Panic(NotInitialized) else
    :- Need(admin == s.admin.value, Unauthorized);
    :- Need(admin in auth, NotAuthorized);
    :- Need(spender in s.spenders || s.spenderCount < U32_MAX, Overflow);
    var count := if spender in s.spenders then s.spenderCount else s.spenderCount + 1;
    Ok((s.(spenders := s.spenders + {spender}, spenderCount := count), Publish(e, SpenderAdded(spender))))
  }

  function SetPauseEffect(s: Storage, auth: set<Address>, admin: Address, status: bool): Outcome<Storage> {
    if s.admin.None? then Panic(NotInitialized) else
    :- Need(admin == s.admin.value, Unauthorized);
    :- Need(admin in auth, NotAuthorized);
    Ok(s.(paused := status))
  }

  /** A distribution goes through exactly when nothing the pool guards against holds. */
  predicate CanDistribute(s: Storage, e: Env, spender: Address, amount: int) {
    && !s.paused
    && s.admin.Some?
    && spender in s.spenders
    && 0 < amount <= BalanceOf(e, PoolId)
  }

  function DistributeRewardEffect(s: Storage, e: Env, auth: set<Address>, caller: Address, learner: Address, amount: int)
    : (r: Outcome<Env>)
    ensures r.Ok? <==> caller in auth && CanDistribute(s, e, caller, amount)
  {
    if s.paused then Panic(ContractPaused) else
    :- Need(caller in auth, NotAuthorized);
    :- Need(amount > 0, AmountNotPositive);
    :- Need(s.admin.Some?, NotInitialized);
    :- Need(caller in s.spenders, NotASpender);
    var e1 :- TransferEffect(e, PoolId, learner, amount);
    Ok(Publish(e1, RewardDistributed(caller, learner, amount)))
  }

  function FundPoolEffect(s: Storage, e: Env, auth: set<Address>, donor: Address, amount: int): (r: Outcome<Env>)
  {
    if donor !in auth then Panic(NotAuthorized) else
    :- Need(s.admin.Some?, NotInitialized);
    var e1 :- TransferEffect(e, donor, PoolId, amount);
    Ok(Publish(e1, PoolFunded(donor, amount)))
  }

  function EmergencySweepEffect(s: Storage, e: Env, auth: set<Address>, admin: Address, wallet: Address): (r: Outcome<Env>)
  {
    if admin !in auth then Panic(NotAuthorized) else
    :- Need(s.admin.Some?, NotInitialized);
    :- Need(admin == s.admin.value, Unauthorized);
    var balance := BalanceOf(e, PoolId);
    var e1 :- TransferEffect(e, PoolId, wallet, balance);
    Ok(Publish(e1, Event.EmergencySweep(admin, wallet, balance)))
  }

  function Exec(s: Storage, e: Env, auth: set<Address>, c: Call): (r: Outcome<(Storage, Env)>)
  {
    match c
    case Initialize(admin) => InitializeEffect(s, e, auth, admin)
    case AddApprovedSpender(admin, spender) => AddApprovedSpenderEffect(s, e, auth, admin, spender)
    case SetPause(admin, status) =>
      var s' :- SetPauseEffect(s, auth, admin, status); Ok((s', e))
    case DistributeReward(caller, learner, amount) =>
      var e' :- DistributeRewardEffect(s, e, auth, caller, learner, amount); Ok((s, e'))
    case FundPool(donor, amount) =>
      var e' :- FundPoolEffect(s, e, auth, donor, amount); Ok((s, e'))
    case EmergencySweep(admin, wallet) =>
      var e' :- EmergencySweepEffect(s, e, auth, admin, wallet); Ok((s, e'))
  }

  lemma DistributeFrame(
    s: Storage, e: Env, auth: set<Address>, caller: Address, learner: Address, amount: int, actors: set<Address>)
    requires DistributeRewardEffect(s, e, auth, caller, learner, amount).Ok? && PoolId in actors
    ensures Frame(e, DistributeRewardEffect(s, e, auth, caller, learner, amount).value, actors)
  {
    TransferThenPublish(e, PoolId, learner, amount, RewardDistributed(caller, learner, amount), actors);
  }

  lemma InitializeOutcome(s: Storage, e: Env, auth: set<Address>, admin: Address)
    ensures var r := Exec(s, e, auth, Initialize(admin));
      && (r.Ok? <==> s.admin.None? && admin in auth)
      && (r.Ok? ==> r.value.0 == s.(admin := Some(admin)) && Logs(e, r.value.1, [PoolInitialized(admin)]))
  {
  }

  /** Approving is the admin's right; it adds one address and counts it once. */
  lemma AddSpenderOutcome(s: Storage, e: Env, auth: set<Address>, admin: Address, spender: Address)
    ensures var r := Exec(s, e, auth, AddApprovedSpender(admin, spender));
      && (r.Ok? <==> s.admin == Some(admin) && admin in auth && (spender in s.spenders || s.spenderCount < U32_MAX))
      && (r.Ok? ==>
            && r.value.0.spenderCount == s.spenderCount + (if spender in s.spenders then 0 else 1)
            && r.value.0 == s.(spenders := s.spenders + {spender}, spenderCount := r.value.0.spenderCount)
            && Logs(e, r.value.1, [SpenderAdded(spender)]))
  {
  }

  /** The switch takes the given position, for the admin alone. */
  lemma SetPauseOutcome(s: Storage, e: Env, auth: set<Address>, admin: Address, status: bool)
    ensures var r := Exec(s, e, auth, SetPause(admin, status));
      && (r.Ok? <==> s.admin == Some(admin) && admin in auth)
      && (r.Ok? ==> r.value == (s.(paused := status), e))
  {
  }

  /**
   A distribution succeeds exactly for a signing caller on the allowlist of an unpaused,
   initialised pool that holds the positive amount; it moves exactly that to the learner.
   */
  lemma DistributeOutcome(s: Storage, e: Env, auth: set<Address>, caller: Address, learner: Address, amount: i128)
    ensures var r := Exec(s, e, auth, DistributeReward(caller, learner, amount));
      && (r.Ok? <==>
            !s.paused && caller in auth && s.admin.Some? && caller in s.spenders && 0 < amount <= BalanceOf(e, PoolId))
      && (r.Ok? ==>
            && r.value.0 == s && Moves(e, r.value.1, PoolId, learner, amount)
            && r.value.1.events ==
                 e.events + [Transferred(PoolId, learner, amount), RewardDistributed(caller, learner, amount)])
  {
    TransferOutcome(e, PoolId, learner, amount);
  }

  /** Every balance after a distribution; one to the pool itself moves nothing. */
  lemma DistributionPays(s: Storage, e: Env, auth: set<Address>, caller: Address, learner: Address, amount: int)
    requires DistributeRewardEffect(s, e, auth, caller, learner, amount).Ok?
    ensures Moves(e, DistributeRewardEffect(s, e, auth, caller, learner, amount).value, PoolId, learner, amount)
  {
    TransferOutcome(e, PoolId, learner, amount);
  }

  /** Funding needs the donor's signature and balance and an initialised pool, and moves exactly the amount. */
  lemma FundExactly(s: Storage, e: Env, auth: set<Address>, donor: Address, amount: i128)
    ensures var r := Exec(s, e, auth, FundPool(donor, amount));
      && (r.Ok? <==> donor in auth && s.admin.Some? && 0 <= amount <= BalanceOf(e, donor))
      && (r.Ok? ==>
            && r.value.0 == s && Moves(e, r.value.1, donor, PoolId, amount)
            && r.value.1.events == e.events + [Transferred(donor, PoolId, amount), PoolFunded(donor, amount)])
  {
    TransferOutcome(e, donor, PoolId, amount);
  }

  /** Only the admin can sweep, always can, and leaves nothing behind unless sweeping into the pool itself. */
  lemma SweepExactly(s: Storage, e: Env, auth: set<Address>, admin: Address, wallet: Address)
    ensures var r := Exec(s, e, auth, Call.EmergencySweep(admin, wallet));
      var all := BalanceOf(e, PoolId);
      && (r.Ok? <==> admin in auth && s.admin == Some(admin))
      && (r.Ok? ==>
            && r.value.0 == s && Moves(e, r.value.1, PoolId, wallet, all)
            && (wallet != PoolId ==> BalanceOf(r.value.1, PoolId) == 0)
            && r.value.1.events == e.events + [Transferred(PoolId, wallet, all), Event.EmergencySweep(admin, wallet, all)])
  {
    TransferOutcome(e, PoolId, wallet, BalanceOf(e, PoolId));
  }

  lemma ExecFrame(s: Storage, e: Env, auth: set<Address>, c: Call)
    requires Exec(s, e, auth, c).Ok?
    ensures Frame(e, Exec(s, e, auth, c).value.1, auth + {PoolId})
  {
    var actors := auth + {PoolId};
    match c
    case Initialize(admin) => Published(e, PoolInitialized(admin), actors);
    case AddApprovedSpender(admin, spender) => Published(e, SpenderAdded(spender), actors);
    case SetPause(admin, status) =>
    case DistributeReward(caller, learner, amount) => DistributeFrame(s, e, auth, caller, learner, amount, actors);
    case FundPool(donor, amount) => TransferThenPublish(e, donor, PoolId, amount, PoolFunded(donor, amount), actors);
    case EmergencySweep(admin, wallet) =>
      var balance := BalanceOf(e, PoolId);
      TransferThenPublish(e, PoolId, wallet, balance, Event.EmergencySweep(admin, wallet, balance), actors);
  }

  /** The footprint counter is the number of allowlisted spenders. */
  predicate CountsSpenders(s: Storage) {
    s.spenderCount == |s.spenders|
  }

  lemma FootprintKept(s: Storage, e: Env, auth: set<Address>, c: Call)
    requires CountsSpenders(s)
    ensures CountsSpenders(After(Exec(s, e, auth, c), (s, e)).0)
  {
    if c.AddApprovedSpender? && c.spender in s.spenders {
      assert s.spenders + {c.spender} == s.spenders;
    }
  }

  class Contract {
    const host: Host
    var admin: Option<Address>
    var spenders: set<Address>
    var spenderCount: u32
    var paused: bool

    constructor (host: Host)
      ensures this.host == host && State() == Storage(None, {}, 0, false)
    {
      this.host, admin, spenders, spenderCount, paused := host, None, {}, 0, false;
    }

    function State(): Storage
      reads this
    {
      Storage(admin, spenders, spenderCount, paused)
    }

    method Initialize(auth: set<Address>, admin: Address) returns (r: Outcome<()>)
      modifies this`admin, host`events
      ensures r == InitializeEffect(old(State()), old(host.View()), auth, admin).Verdict()
      ensures (State(), host.View()) ==
        After(InitializeEffect(old(State()), old(host.View()), auth, admin), old((State(), host.View())))
    {
      if this.admin.Some? {
        return Panic(AlreadyInitialized);
      }
      if admin !in auth {
        return Panic(NotAuthorized);
      }
      this.admin := Some(admin);
      host.Emit(PoolInitialized(admin));
      r := Ok(());
    }

    method AddApprovedSpender(auth: set<Address>, admin: Address, spender: Address) returns (r: Outcome<()>)
      modifies this`spenders, this`spenderCount, host`events
      ensures r == AddApprovedSpenderEffect(old(State()), old(host.View()), auth, admin, spender).Verdict()
      ensures (State(), host.View()) ==
        After(AddApprovedSpenderEffect(old(State()), old(host.View()), auth, admin, spender), old((State(), host.View())))
    {
      if this.admin.None? {
        return Panic(NotInitialized);
      }
      if admin != this.admin.value {
        return Panic(Unauthorized);
      }
      if admin !in auth {
        return Panic(NotAuthorized);
      }
      var before := spenders;
      var isNew := spender !in spenders;
      spenders := spenders + {spender};
      if isNew {
        if spenderCount == U32_MAX {
          spenders := before;
          return Panic(Overflow);
        }
        spenderCount := spenderCount + 1;
      }
      host.Emit(SpenderAdded(spender));
      r := Ok(());
    }

    method SetPause(auth: set<Address>, admin: Address, status: bool) returns (r: Outcome<()>)
      modifies this`paused
      ensures r == SetPauseEffect(old(State()), auth, admin, status).Verdict()
      ensures State() == After(SetPauseEffect(old(State()), auth, admin, status), old(State()))
    {
      if this.admin.None? {
        return Panic(NotInitialized);
      }
      if admin != this.admin.value {
        return Panic(Unauthorized);
      }
      if admin !in auth {
        return Panic(NotAuthorized);
      }
      paused := status;
      r := Ok(());
    }

    method DistributeReward(auth: set<Address>, caller: Address, learner: Address, amount: int) returns (r: Outcome<()>)
      modifies host`balances, host`events
      ensures r == DistributeRewardEffect(State(), old(host.View()), auth, caller, learner, amount).Verdict()
      ensures host.View() ==
        After(DistributeRewardEffect(State(), old(host.View()), auth, caller, learner, amount), old(host.View()))
    {
      if paused {
        return Panic(ContractPaused);
      }
      if caller !in auth {
        return Panic(NotAuthorized);
      }
      if amount <= 0 {
        return Panic(AmountNotPositive);
      }
      if admin.None? {
        return Panic(NotInitialized);
      }
      if caller !in spenders {
        return Panic(NotASpender);
      }
      r := host.Transfer(PoolId, learner, amount);
      if r.Ok? {
        host.Emit(RewardDistributed(caller, learner, amount));
      }
    }

    method FundPool(auth: set<Address>, donor: Address, amount: int) returns (r: Outcome<()>)
      modifies host`balances, host`events
      ensures r == FundPoolEffect(State(), old(host.View()), auth, donor, amount).Verdict()
      ensures host.View() == After(FundPoolEffect(State(), old(host.View()), auth, donor, amount), old(host.View()))
    {
      if donor !in auth {
        return Panic(NotAuthorized);
      }
      if admin.None? {
        return Panic(NotInitialized);
      }
      r := host.Transfer(donor, PoolId, amount);
      if r.Ok? {
        host.Emit(PoolFunded(donor, amount));
      }
    }

    method EmergencySweep(auth: set<Address>, admin: Address, wallet: Address) returns (r: Outcome<()>)
      modifies host`balances, host`events
      ensures r == EmergencySweepEffect(State(), old(host.View()), auth, admin, wallet).Verdict()
      ensures host.View() == After(EmergencySweepEffect(State(), old(host.View()), auth, admin, wallet), old(host.View()))
    {
      if admin !in auth {
        return Panic(NotAuthorized);
      }
      if this.admin.None? {
        return Panic(NotInitialized);
      }
      if admin != this.admin.value {
        return Panic(Unauthorized);
      }
      var balance := host.Balance(PoolId);
      r := host.Transfer(PoolId, wallet, balance);
      if r.Ok? {
        host.Emit(Event.EmergencySweep(admin, wallet, balance));
      }
    }

    method EstimatedStorageFootprint() returns (entries: nat)
      ensures entries == spenderCount
      ensures CountsSpenders(State()) ==> entries == |spenders|
    {
      entries := spenderCount;
    }
  }
}
