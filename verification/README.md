# Orivex contracts: a verified model

The repository holds six Soroban contracts that share one reward token: a course
registry that mints badges and pays for finished courses, a quest engine that escrows
employers' rewards, a stake vault, a reward pool, a badge contract and a governance
contract that weighs votes by badges. This project models all six together as one
state machine over one token ledger, one clock and one event log, and proves what that
machine keeps over every run.

## How it is organised

- `Soroban.dfy`: addresses, integer widths, the event log with its meters (sums read off
  the log), the trusted token ledger and the host object. `Outcomes.dfy`, `Sums.dfy`:
  results of calls and sums over finite maps.
- One module a contract (`RewardPool`, `StakeVault`, `BadgeNft`, `CourseRegistry`,
  `QuestEngine`, `Governance`; `Payouts` for the fee split). Each has the contract as a
  class whose fields are the stored entries and whose methods update them step by step,
  roll back where the original panics, and are proved equal to an effect function on the
  stored values and the environment. `Platform` puts the six on one host: a `Step`, a
  `Run`, and a class `Chain` proved to take exactly those steps.
- Each call on its own, exactly when it succeeds and everything it changes: the `Outcome`
  lemmas, in `CourseCalls` and `QuestCalls` and in the modules of the smaller contracts.
- What a contract keeps over its calls: `QuestReviews`, `QuestEscrow`, `CourseRewards`,
  `CourseBadges` (and the second half of `StakeVault` and `Governance`).
- What the whole platform keeps over every run: `Safety`, `Authority`, `Announcements`,
  `Histories`, `Solvency`, `Graduation`, `Voting`, `PoolLedger`. `Deployment` runs the setup calls and
  says what stays true of the platform they leave. `Counterexamples` holds runs of that
  platform on which stronger claims fail.

A run starts in any `Fresh` world: nothing has happened yet, balances and wiring are
arbitrary, proposals are seeded with no votes; the contracts as created are such a world,
and setup is part of the run. An action is a signed transaction to any
of the contracts or to the token, by any set of outside accounts, or the clock moving
forward. A panic reverts the whole transaction, except inside the one call the registry
makes as a try call, where it reverts only that call. Contracts that a rewired address
points to outside the platform answer whatever `Replies` says.

## What the code does not do

- Approving a submission does not close its quest, and `refund_quest` looks neither at
  approvals nor at the quest type (contracts/quest-engine/src/lib.rs:565-604). An employer
  can be paid back out of another employer's escrow: `Counterexamples.RefundAfterApproval`.
  `Solvency.EscrowExactly` says, for every run and any vault, exactly when the escrow still
  covers what it owes; `QuestEscrow.RefundOverdraws` and `QuestEscrow.ApprovalOverdraws` say
  what each settlement does to that.
- `claim_completion_reward` removes the pending record before it tries to pay and ignores
  a failure (contracts/course-registry/src/lib.rs:509-513), although its comment says the
  learner can retry: `Counterexamples.ClaimAgainstEmptyPool`. A course finished before any
  pool is wired has its reward recorded nowhere. A reward is lost if and only if one of the
  two happened: `Graduation.PaidOrPendingExactly`.
- `cast_vote` checks neither `end_time` nor `executed`
  (contracts/governance/src/lib.rs:106-137): `Counterexamples.VoteAfterExecution`.
- `complete_module` looks neither at enrolment nor at the active flag
  (contracts/course-registry/src/lib.rs:417-453): `Counterexamples.InactiveCourseCompletes`.
- The badge contract's `initialize` asks for no signature (contracts/badge-nft/src/lib.rs:91-96),
  so the theorems on badges say whose admin they need: nobody's or the registry's.
- With the platform's own vault no stake ever changes a payout, because every multiplier
  is at least 100 and the boost is capped at the base: `QuestReviews.BoostNeverPays`.
- The course reward is the 100_000_000 of contracts/course-registry/src/lib.rs:534, not
  the 10_000_000 declared in contracts/common/src/constants.rs:35. `MAX_QUEST_REWARD` and
  `MAX_BADGES_PER_LEARNER` are declared but never enforced; the first appears only as a
  hypothesis on payouts, the second not at all.

## Model

| member | source | states |
|---|---|---|
| Platform.Chain.SubmitAll | contracts/integration-tests/src/lib.rs:26-125 | The six contract objects, driven by any sequence of transactions and clock moves, end in exactly the world the state machine's run ends in, so every theorem about runs is about the contracts |
| Platform.Chain.Submit | contracts/integration-tests/src/lib.rs:26-125 | One transaction or clock move changes the contracts as one step of the machine; a panicking call leaves every contract and the ledger as they were |
| Safety.StepSafe | contracts/integration-tests/src/lib.rs:26-125 | No transaction to any contract, whoever signs and however addresses are wired, breaks the vault's solvency, the escrow's books, at-most-once course rewards, proposal finality or the spender count |
| Safety.RunSafe | contracts/integration-tests/src/lib.rs:26-125 | The same over every run |
| Safety.ExecFrame | contracts/integration-tests/src/lib.rs:26-125 | Every transaction conserves the token supply and moves only quantities owned by its signers, the contract called and the contracts that one calls |
| Safety.TokenOutcome | contracts/integration-tests/src/lib.rs:66-112 | A transfer outside the contracts needs the sender's signature and balance and moves exactly the amount |
| Histories.RunLater | contracts/integration-tests/src/lib.rs:26-125 | Over any run time and counts never go back, the supply and every account's books stay fixed, course lengths, quest terms and decisions stand, and locked proposals stay locked |
| Histories.LedgerOfRun | contracts/reward-pool/src/lib.rs:274-377 | Supply is conserved over every run, and each balance is what the account started with plus everything it received minus everything it sent |
| Authority.AdminsForGood | contracts/integration-tests/src/lib.rs:66-112 | Over every run, from any state, each admin once set stays, governance stays wired as it was, and no approved spender is ever removed |
| Authority.ChangesAreSigned | contracts/integration-tests/src/lib.rs:66-112 | A pause switch, allowlist or wiring of pool, registry or engine that differs after a run was changed in a step of that run signed by its admin, the same all along |
| Authority.PoolCall | contracts/reward-pool/src/lib.rs:119-220 | Over all pool calls: the admin is set once and signs for it, the allowlist only grows, and switch and allowlist move only with the admin's signature |
| Authority.VaultCall | contracts/stake-vault/src/lib.rs:76-87 | Over all vault calls: the admin is set once and signs for it |
| Authority.BadgesCall | contracts/badge-nft/src/lib.rs:91-96 | Over all badge calls: the admin is set once; nobody has to sign for it |
| Authority.RegistryCall | contracts/course-registry/src/lib.rs:103-212 | Over all registry calls: the admin is set once and signs for it, wiring and catalogue grow only with that signature, and the badge contract's admin is left alone |
| Authority.EngineCall | contracts/quest-engine/src/lib.rs:159-253 | Over all engine calls: the admin is set once and signs for it; pause switch, pool and vault change only with that signature |
| Authority.GovernanceCall | contracts/governance/src/lib.rs:79-89 | Over all governance calls: admin and badge contract are set once, with the admin's signature |
| Deployment.SetupDeploys | contracts/integration-tests/src/lib.rs:66-112 | From the contracts as created, with any balances and proposals, the setup transactions in the tests' order reach the fully wired platform |
| Deployment.Deploy | contracts/integration-tests/src/lib.rs:66-112 | The same as a method on the contract objects |
| Deployment.DeployedForGood | contracts/integration-tests/src/lib.rs:66-112 | Whatever follows the setup, badges belong to the registry and governance weighs by them, so the theorems on badges and votes apply to every continuation |
| Deployment.DeployedKeepsFaith | contracts/integration-tests/src/lib.rs:66-112 | For the deployed platform and every continuation: votes never exceed badges held, and a badge is held exactly for each course finished while the registry was wired to the badge contract |
| RewardPool.Contract.AddApprovedSpender | contracts/reward-pool/src/lib.rs:152-187 | Only the stored admin with a signature extends the allowlist; repeating an address changes nothing but logs again; a counter overflow reverts |
| RewardPool.Contract.DistributeReward | contracts/reward-pool/src/lib.rs:238-287 | Pays or reverts as specified, in the original's order of checks; RewardPool.DistributionPays and PoolLedger say what that means for balances |
| RewardPool.Contract.FundPool | contracts/reward-pool/src/lib.rs:302-321 | Takes the donation or reverts; see RewardPool.FundExactly |
| RewardPool.Contract.EmergencySweep | contracts/reward-pool/src/lib.rs:338-377 | Moves the whole balance or reverts; see RewardPool.SweepExactly |
| RewardPool.Contract.EstimatedStorageFootprint | contracts/reward-pool/src/lib.rs:383-388 | Reports the number of distinct approved spenders |
| RewardPool.DistributeRewardEffect | contracts/reward-pool/src/lib.rs:238-287 | A distribution succeeds exactly when the caller signs, the pool is unpaused and initialised, lists the caller, and holds the positive amount |
| RewardPool.DistributionPays | contracts/reward-pool/src/lib.rs:274-286 | Exactly the amount goes from the pool to the learner and every other balance stays; a distribution to the pool itself moves nothing |
| RewardPool.DistributeOutcome | contracts/reward-pool/src/lib.rs:238-287 | Exact success of a distribution, every balance after it, and its log |
| RewardPool.AddSpenderOutcome | contracts/reward-pool/src/lib.rs:152-187 | The admin alone, by signing, adds one address and counts it once; a full counter refuses |
| RewardPool.SetPauseOutcome | contracts/reward-pool/src/lib.rs:202-220 | The switch takes the given position exactly when the admin signs |
| RewardPool.InitializeOutcome | contracts/reward-pool/src/lib.rs:119-136 | Initialisation succeeds exactly once, for the address that signs as admin |
| RewardPool.FundExactly | contracts/reward-pool/src/lib.rs:302-321 | Funding succeeds exactly for a signing donor who holds the non-negative amount and an initialised pool; exactly that moves, and nobody else pays |
| RewardPool.SweepExactly | contracts/reward-pool/src/lib.rs:338-377 | A sweep succeeds exactly for the signing admin; the whole balance goes to the wallet and nobody else gains |
| RewardPool.FootprintKept | contracts/reward-pool/src/lib.rs:171-183 | Every pool call keeps the counter equal to the number of distinct spenders |
| Histories.FootprintOfRun | contracts/reward-pool/src/lib.rs:383-388 | In every reachable state the reported footprint is the number of approved spenders |
| PoolLedger.PoolOutflowExact | contracts/reward-pool/src/lib.rs:238-377 | With only registry and engine approved and no other pool ever wired, what the pool sent to anybody, and to each single address, is 100_000_000 for each course completion plus explore rewards plus sweeps; rejected calls do not matter |
| PoolLedger.PoolOutflowAccounted | contracts/reward-pool/src/lib.rs:238-377 | The same account under any rewiring, with the rewards that other pools were announced to have paid on its other side |
| PoolLedger.RunExplained | contracts/course-registry/src/lib.rs:536-551 | No step of any contract leaves pool outflow unexplained by such events, beyond what the step announces as paid elsewhere |
| PoolLedger.ReviewEachEven | contracts/quest-engine/src/lib.rs:497-541 | Reviews, however many, never touch the pool's outflow |
| StakeVault.Contract.Stake | contracts/stake-vault/src/lib.rs:92-133 | Takes the deposit, adds it to the record and restarts the lock, or reverts all of it, also on overflow after the transfer |
| StakeVault.Contract.Unstake | contracts/stake-vault/src/lib.rs:138-174 | Pays the record out and removes it, or reverts |
| StakeVault.Contract.GetMultiplier | contracts/stake-vault/src/lib.rs:180-197 | Answers the tier that StakeVault.TierByDeposits relates to the deposits made |
| StakeVault.ExecKeeps | contracts/stake-vault/src/lib.rs:92-174 | Every vault call keeps the vault's balance above the sum of stakes, and each record equal to the deposits since the latest unstake, locked from the newest |
| StakeVault.OthersKeep | contracts/stake-vault/src/lib.rs:92-174 | So does everything the vault takes no part in |
| StakeVault.UnstakeExactly | contracts/stake-vault/src/lib.rs:138-174 | An unstake can only fail for a missing signature, a missing record or the lock, never for funds |
| StakeVault.StakeExactly | contracts/stake-vault/src/lib.rs:92-133 | While the supply fits i128, a stake succeeds exactly for a signing user who holds the positive amount |
| StakeVault.UnstakePays | contracts/stake-vault/src/lib.rs:138-174 | It pays exactly the stakes since the previous unstake, every one of them at least 604800 seconds old, and leaves other users' stakes alone |
| StakeVault.StakeOutcome | contracts/stake-vault/src/lib.rs:92-133 | A stake succeeds exactly for a signing user with the positive amount and a total that fits i128; it adds to that record alone, restarts its lock now, and takes the amount from that user alone |
| StakeVault.UnstakeOutcome | contracts/stake-vault/src/lib.rs:138-174 | An unstake succeeds exactly from 604800 seconds after the latest stake; it removes that record alone and pays all of it to that user alone |
| StakeVault.InitializeOutcome | contracts/stake-vault/src/lib.rs:76-87 | Initialisation succeeds exactly once, for the address that signs as admin |
| StakeVault.TierByDeposits | contracts/stake-vault/src/lib.rs:180-197 | The multiplier is 200, 120 or 100 exactly as the open deposits reach 500, 100 or neither |
| Histories.VaultAlwaysPays | contracts/stake-vault/src/lib.rs:92-174 | In every reachable state of the whole platform the vault covers all stakes, so after the lock the owner's signature is enough |
| Histories.UnstakeReturnsDeposits | contracts/stake-vault/src/lib.rs:106-173 | The lock as a property of traces: what an unstake returns in any reachable state, and how old all of it is |
| BadgeNft.Contract.MintBadge | contracts/badge-nft/src/lib.rs:109-149 | The scan finds a duplicate exactly when the vector holds the course; otherwise one badge stamped with the ledger time is appended |
| BadgeNft.Contract.RevokeBadge | contracts/badge-nft/src/lib.rs:165-208 | The scan removes exactly the first badge of the course and nothing else, and is silent when there is none |
| BadgeNft.Contract.HasBadge | contracts/badge-nft/src/lib.rs:254-262 | True exactly when some badge of the vector names the course |
| BadgeNft.Contract.GetBadgeCount | contracts/badge-nft/src/lib.rs:238-241 | The length of that vector; see BadgeNft.CountIsCardinality |
| BadgeNft.RevokeUndoesMint | contracts/badge-nft/src/lib.rs:109-208 | Revoking what a mint just added restores the vector |
| BadgeNft.MintOutcome | contracts/badge-nft/src/lib.rs:109-149 | A mint succeeds exactly for the signing admin and a course not in the vector; one badge stamped now is appended to that vector alone |
| BadgeNft.RevokeOutcome | contracts/badge-nft/src/lib.rs:165-208 | A revocation succeeds exactly for the signing admin; it takes out the first badge of the course, or changes and logs nothing |
| BadgeNft.InitializeOutcome | contracts/badge-nft/src/lib.rs:91-96 | Initialisation succeeds exactly once, for anybody |
| BadgeNft.WithoutFirstAt | contracts/badge-nft/src/lib.rs:190-204 | Removing by course is removing at the first matching index |
| BadgeNft.CountIsCardinality | contracts/badge-nft/src/lib.rs:238-262 | Without repetitions the count is the number of different courses held |
| CourseRegistry.Contract.CompleteModule | contracts/course-registry/src/lib.rs:417-491 | Advances, and on the last module records the reward, mints and tries to pay; a failing mint undoes all of it, a failing payment only itself |
| CourseRegistry.Contract.Finish | contracts/course-registry/src/lib.rs:455-490 | The consequences of the last module: all, or none when the mint fails |
| CourseRegistry.Contract.TryDistributeReward | contracts/course-registry/src/lib.rs:523-552 | Pays and announces the completion, or changes nothing |
| CourseRegistry.Contract.ClaimCompletionReward | contracts/course-registry/src/lib.rs:500-514 | Uses the pending record up whether or not the payment succeeds |
| CourseRegistry.Contract.CreateCourse | contracts/course-registry/src/lib.rs:165-212 | A new course under the next id, with a positive length, or a revert |
| CourseRegistry.Contract.Enroll | contracts/course-registry/src/lib.rs:248-266 | Writes zero progress only where there is none; see Histories.ProgressNeverResets |
| CourseRegistry.Contract.IsCourseFinished | contracts/course-registry/src/lib.rs:321-336 | Answers for existing courses only, whether the progress reaches the length |
| CourseRegistry.Contract.UpdateMetadata | contracts/course-registry/src/lib.rs:219-242 | Needs the instructor's signature; see CourseRegistry.ChangesAreSigned |
| CourseRegistry.Contract.SetCourseStatus | contracts/course-registry/src/lib.rs:285-315 | Needs the admin's signature |
| CourseRegistry.Contract.TransferOwnership | contracts/course-registry/src/lib.rs:376-411 | Needs the current instructor's signature |
| CourseRegistry.Contract.SetRewardPoolAddress | contracts/course-registry/src/lib.rs:118-134 | Needs the admin's signature |
| CourseRegistry.Contract.SetBadgeNftAddress | contracts/course-registry/src/lib.rs:142-158 | Needs the admin's signature |
| CourseRegistry.ChangesAreSigned | contracts/course-registry/src/lib.rs:118-411 | Over all calls, a course's hash or instructor changes only if its instructor signed, its status or the wiring only if the admin did, its length never |
| CourseRewards.ExecKeeps | contracts/course-registry/src/lib.rs:417-552 | Every registry call keeps payments plus pending at most one and zero before the last module, moves progress only onward, and loses exactly the rewards that a completion without a pool or a refused claim loses |
| CourseRewards.TryPays | contracts/course-registry/src/lib.rs:523-552 | An attempt logs one completion exactly when it pays, whatever it is wired to |
| CourseCalls.CompleteSucceeds | contracts/course-registry/src/lib.rs:417-491 | In every state and however wired: success exactly when the admin signs as verifier, the course exists, modules remain, and on the last one no badge contract is wired, or the platform's can mint, or a foreign one accepts |
| CourseCalls.CompleteChanges | contracts/course-registry/src/lib.rs:433-491 | A success adds one to exactly this progress; on the last module the pending record, the badge, the payment of exactly 100_000_000 and the log are exact for any wiring |
| CourseCalls.ClaimOutcome | contracts/course-registry/src/lib.rs:500-514 | Exact success of a claim, its use of the record, and its payment or none, for any wiring |
| CourseCalls.CreateCourseOutcome | contracts/course-registry/src/lib.rs:165-212 | The admin alone creates, with a positive length below the u32 count; the course under the next id has exactly the instructor, length and hash given, is active, and no other course changes |
| CourseCalls.EnrollOutcome | contracts/course-registry/src/lib.rs:248-266 | Every learner can enrol once in every active course, at zero progress |
| CourseCalls.UpdateMetadataOutcome | contracts/course-registry/src/lib.rs:219-242 | The instructor's signature is what a new hash takes, and nothing else of the course changes |
| CourseCalls.SetStatusOutcome | contracts/course-registry/src/lib.rs:285-315 | The admin's signature is what a new status takes, and nothing else of the course changes |
| CourseCalls.TransferOwnershipOutcome | contracts/course-registry/src/lib.rs:376-411 | The current instructor's signature is what a new instructor takes, and nothing else of the course changes |
| CourseCalls.WiringOutcome | contracts/course-registry/src/lib.rs:118-158 | The admin's signature is what new pool and badge addresses take, and they become exactly those given |
| CourseCalls.InitializeOutcome | contracts/course-registry/src/lib.rs:103-106 | Initialisation succeeds exactly once, for the address that signs as admin |
| Announcements.StoredAsAnnounced | contracts/course-registry/src/lib.rs:193-209 | Over every run each course was announced exactly once with exactly the length stored, each quest with exactly its employer and reward, and whatever was announced is stored |
| Announcements.ExecAdds | contracts/integration-tests/src/lib.rs:66-112 | No transaction rewrites the log, and only the calls themselves announce new courses and quests, explore rewards, sweeps and completions, with their own arguments |
| Announcements.PaymentsAreSigned | contracts/quest-engine/src/lib.rs:799-846 | Over every run explore payments move only in steps the engine's admin signed, sweeps only in steps the pool's admin signed, a course reward only in steps the registry's admin or the learner signed |
| CourseRewards.ClaimExactly | contracts/course-registry/src/lib.rs:500-514 | A claim succeeds exactly for the signing learner with a pending reward; it pays exactly 100_000_000 if the pool can distribute, otherwise the reward is gone |
| Histories.PaidPendingOrLost | contracts/course-registry/src/lib.rs:417-552 | Over every run, under any rewiring, pausing and sweeping: payments, the pending flag and losses of a learner and course add up to one once the course is finished and to zero before |
| Histories.LostForGood | contracts/course-registry/src/lib.rs:500-514 | A lost reward is never paid and never pending again, whatever follows |
| Histories.ProgressNeverResets | contracts/course-registry/src/lib.rs:248-266 | A course's length is positive and fixed; progress never falls or exceeds it, so enrolling late cannot erase it |
| Graduation.PaidOrPendingExactly | contracts/course-registry/src/lib.rs:448-514 | Over every run a finished course is paid once or pending if and only if it was not finished without a pool wired and the learner never claimed while the distribution failed |
| Graduation.PaidOrPendingOncePooled | contracts/course-registry/src/lib.rs:448-514 | Where every finishing step had a pool wired, only a claim at the wrong moment loses the reward |
| Graduation.RefusalIsPanic | contracts/course-registry/src/lib.rs:523-552 | The guard a caller can look up: the distribution fails exactly when no pool is wired, or the platform's pool cannot pay 100_000_000 to the registry's order, or another pool refuses |
| Graduation.ClaimInRun | contracts/course-registry/src/lib.rs:500-514 | In every reachable state a claim of a pending reward pays exactly 100_000_000 once, if and only if the pool is unpaused, lists the registry and holds that much |
| Counterexamples.ClaimAgainstEmptyPool | contracts/course-registry/src/lib.rs:509-513 | A concrete run after which a finished course is neither paid nor pending, for all continuations |
| CourseBadges.ExecKeeps | contracts/course-registry/src/lib.rs:417-491 | Every registry call keeps badges earned and only appends to badge vectors, and the finished courses without a badge are exactly those finished while the platform's badge contract was not wired |
| CourseBadges.CompleteExactly | contracts/course-registry/src/lib.rs:417-491 | With the badge contract wired the mint cannot fail: `complete_module` succeeds exactly when its own checks pass |
| CourseBadges.NoDirectCalls | contracts/badge-nft/src/lib.rs:91-208 | With the registry as admin every transaction on the badge contract itself panics |
| CourseBadges.CountIsFinished | contracts/badge-nft/src/lib.rs:238-241 | Badges never outnumber finished courses, nor those all courses, and match them exactly when none lacks its badge |
| Graduation.BadgeIffFinished | contracts/badge-nft/src/lib.rs:109-149 | In every state of every run in which the badge contract has no admin but the registry, a learner holds a badge exactly for each course finished while the badge contract was wired |
| Graduation.CountIsFinished | contracts/badge-nft/src/lib.rs:238-241 | In those states the badge count is the number of finished courses exactly when none was finished unwired, never more, never repeats a course, and never exceeds the course count |
| Graduation.CompletionNeverBlocked | contracts/course-registry/src/lib.rs:417-491 | In every reachable state with the badge contract wired the duplicate-badge panic is unreachable from `complete_module` |
| Graduation.BadgesNeverRevoked | contracts/badge-nft/src/lib.rs:165-208 | No such run takes a badge away: earlier vectors are prefixes of later ones |
| Payouts.PayoutWithinReward | contracts/quest-engine/src/lib.rs:147-154 | Up to the declared maximum no reward and no u32 multiplier overflows i128; fee and payout never exceed the reward and use all of it exactly from multiplier 100 on |
| Payouts.PayoutNeverExceeds | contracts/quest-engine/src/lib.rs:147-154 | Beyond the maximum a payout may panic but still never exceeds the reward |
| Payouts.PayoutMonotone | contracts/quest-engine/src/lib.rs:147-154 | A larger reward or multiplier never pays a learner less |
| QuestReviews.OwnVaultPaysAll | contracts/quest-engine/src/lib.rs:497-521 | With the real tiers a reward splits without remainder, rounding included, unless its fee product overflows |
| QuestReviews.BoostNeverPays | contracts/quest-engine/src/lib.rs:147-154 | With the platform's vault the split is the same whatever anybody has staked |
| QuestEngine.Contract.CreateBuildQuest | contracts/quest-engine/src/lib.rs:261-315 | Locks the reward and stores an active quest under the next id, or reverts, also when only the counter overflows |
| QuestEngine.Contract.CreateExploreQuest | contracts/quest-engine/src/lib.rs:336-387 | Stores a quest of the admin without taking money |
| QuestEngine.Contract.SubmitProof | contracts/quest-engine/src/lib.rs:402-441 | One pending submission per learner and active Build quest |
| QuestEngine.Contract.ReviewSubmission | contracts/quest-engine/src/lib.rs:458-558 | Decides a pending submission of the employer's quest; an approval that cannot be paid in full reverts |
| QuestEngine.Contract.BatchReviewSubmissions | contracts/quest-engine/src/lib.rs:613-710 | The loop approves and pays learner by learner; the first failure undoes everything |
| QuestEngine.Contract.Pay | contracts/quest-engine/src/lib.rs:660-688 | One split out of escrow, as both review paths make it |
| QuestEngine.Contract.RefundQuest | contracts/quest-engine/src/lib.rs:565-604 | Returns the reward and closes the quest, or reverts |
| QuestEngine.Contract.VerifyExploreQuest | contracts/quest-engine/src/lib.rs:799-846 | Pays an Explore quest through the pool, or reverts |
| QuestReviews.BatchRefinesSingle | contracts/quest-engine/src/lib.rs:613-710 | A non-empty batch succeeds exactly when the same reviews one by one do, fails with the same reason on an initialised engine, and leaves the same state, ledger and log plus one summary event with the count |
| QuestReviews.BatchExactly | contracts/quest-engine/src/lib.rs:613-710 | With the platform's vault, a batch of n succeeds exactly when unpaused, signed by the quest's employer, all learners distinct and pending, the fee fits i128 and the escrow holds n rewards; n rewards leave, n fees reach the pool |
| QuestReviews.SplitExactly | contracts/quest-engine/src/lib.rs:525-527 | Both transfers of a payment succeed exactly when the escrow holds their sum |
| QuestCalls.ApproveOutcome | contracts/quest-engine/src/lib.rs:458-558 | In every reachable state, for any vault and pool: exact success of an approval; the learner gains exactly the share, the pool exactly the fee, the escrow loses both, nobody else is touched, and only that submission is approved |
| QuestCalls.PayoutOutcome | contracts/quest-engine/src/lib.rs:147-154 | The share is all that the fee leaves from multiplier 100 on and that times the multiplier over 100 below; fee, boost and cap flag are exact, and so is what overflows |
| QuestCalls.OwnVaultShare | contracts/quest-engine/src/lib.rs:497-521 | With the platform's vault the learner's share is the reward less its 15 percent, whatever has been staked |
| QuestCalls.BatchChanges | contracts/quest-engine/src/lib.rs:649-702 | A batch approves exactly the listed learners, who are distinct; each gains exactly their share once, the pool one fee for each, and nobody else gains or loses |
| QuestCalls.BatchSucceeds | contracts/quest-engine/src/lib.rs:613-710 | For any vault and any pool: exact success of a batch, by what the escrow lasts for |
| QuestCalls.RejectOutcome | contracts/quest-engine/src/lib.rs:458-558 | The employer can always reject a pending submission of theirs, at no cost and without wiring |
| QuestCalls.VerifyExploreOutcome | contracts/quest-engine/src/lib.rs:799-846 | An Explore reward is triggered exactly by the signing engine admin, for an existing Explore quest the pool can pay; the learner gains exactly the stored reward out of the pool |
| QuestCalls.CreateBuildOutcome | contracts/quest-engine/src/lib.rs:261-315 | Anybody can create a Build quest exactly by holding its non-negative reward; that amount leaves them alone and the quest under the next id has exactly these terms |
| QuestCalls.CreateExploreOutcome | contracts/quest-engine/src/lib.rs:336-387 | The admin alone creates an Explore quest, with exactly the reward given and no money moved |
| QuestCalls.SubmitOutcome | contracts/quest-engine/src/lib.rs:402-441 | Every learner can hand in exactly once for every active Build quest |
| QuestCalls.RefundOutcome | contracts/quest-engine/src/lib.rs:565-604 | A refund succeeds exactly for the signing employer of an active quest whose reward the engine holds; it returns exactly that and closes that quest alone |
| QuestCalls.SetPauseOutcome | contracts/quest-engine/src/lib.rs:195-213 | The switch takes the given position exactly when the admin signs |
| QuestCalls.WiringOutcome | contracts/quest-engine/src/lib.rs:217-253 | The admin's signature is what new pool and vault addresses take, and they become exactly those given |
| QuestCalls.InitializeOutcome | contracts/quest-engine/src/lib.rs:159-180 | Initialisation succeeds exactly once, for the address that signs as admin |
| QuestReviews.ExecOnward | contracts/quest-engine/src/lib.rs:281-702 | No engine call changes a quest's terms, reopens a quest, or touches a decided submission |
| Solvency.BatchInRun | contracts/quest-engine/src/lib.rs:613-710 | The exact batch condition in every reachable wired state, for every existing quest and reward |
| Histories.ReviewedOnce | contracts/quest-engine/src/lib.rs:486-548 | Over any mix of single and batch reviews each submission is reviewed at most once, belongs to an existing Build quest, and its status is what its one review said |
| Histories.DecisionsStand | contracts/quest-engine/src/lib.rs:458-702 | Submissions move only from pending to a decision that never changes; quest terms are fixed |
| Histories.RefundIsFinal | contracts/quest-engine/src/lib.rs:565-604 | A refunded quest never takes another submission or a second refund |
| Histories.IdsAreDense | contracts/quest-engine/src/lib.rs:281-304 | Quest ids, and course ids, are exactly 1 up to the counter |
| QuestEscrow.ExecKeeps | contracts/quest-engine/src/lib.rs:261-702 | Every engine call keeps log and submissions in agreement, and the escrow's outflow equal to one reward for each approval or refund less what the multipliers saved |
| QuestEscrow.ReviewCosts | contracts/quest-engine/src/lib.rs:486-558 | An approval costs the escrow the reward less its saving, never more than the reward; a rejection nothing |
| QuestEscrow.EscrowBalance | contracts/quest-engine/src/lib.rs:261-604 | For any vault the engine's balance is its opening balance plus donations plus savings plus unsettled rewards minus settlements no lock paid for |
| QuestEscrow.RefundOverdraws | contracts/quest-engine/src/lib.rs:565-604 | A refund lowers what the engine holds beyond its obligations exactly when its quest is an Explore quest or was settled before, and then by its whole amount |
| QuestEscrow.ApprovalOverdraws | contracts/quest-engine/src/lib.rs:458-558 | A first approval raises it by what the payment leaves of the lock; every later one lowers it by exactly what it pays out, for any vault and multiplier |
| QuestEscrow.CallSavesNothing | contracts/quest-engine/src/lib.rs:497-521 | With the platform's vault no call saves anything: payments use the whole reward |
| QuestEscrow.SettledOnceSolvent | contracts/quest-engine/src/lib.rs:261-604 | Settling each Build quest at most once and refunding no Explore quest keeps every unsettled reward covered |
| Solvency.EscrowSolvent | contracts/quest-engine/src/lib.rs:261-604 | The same over every run of the platform, for any vault and any u32 multiplier |
| Solvency.EscrowExactly | contracts/quest-engine/src/lib.rs:261-604 | Over every run and for any vaults wired along it the engine's balance is exact, and the escrow is solvent if and only if opening balance, donations and savings cover what settlements overspent |
| Solvency.SavedOverRun | contracts/quest-engine/src/lib.rs:497-541 | What settlements cost less than their rewards is, over every run, the sum over its approvals of reward minus fee minus learner amount |
| Solvency.OwnVaultSavesNothing | contracts/quest-engine/src/lib.rs:497-521 | It is nothing on runs whose states have the platform's vault wired |
| Solvency.EachRewardCovered | contracts/quest-engine/src/lib.rs:261-604 | Under single settlement each unsettled Build quest's reward is within the engine's balance |
| Solvency.RefundNeverShort | contracts/quest-engine/src/lib.rs:565-604 | So its refund fails only for the signature, the employer or an inactive quest, never for funds |
| Solvency.ApprovalNeverShort | contracts/quest-engine/src/lib.rs:458-558 | Nor does its first approval, for any vault that answers |
| Counterexamples.RefundAfterApproval | contracts/quest-engine/src/lib.rs:565-604 | A concrete run after which the escrow is empty while another employer's reward is owed |
| Governance.Contract.CastVote | contracts/governance/src/lib.rs:106-137 | Adds the voter's badge count to one side and marks the voter, or reverts |
| Governance.Contract.CancelProposal | contracts/governance/src/lib.rs:216-247 | Locks an open proposal, or reverts; see Governance.CancellationJustified |
| Governance.Contract.ExecuteProposal | contracts/governance/src/lib.rs:252-275 | Locks a passed proposal, or reverts; see Governance.ExecutionJustified |
| Governance.ExecutionJustified | contracts/governance/src/lib.rs:252-275 | An execution event proves the proposal existed, was past its end, unlocked and had strictly more votes for |
| Governance.CancellationJustified | contracts/governance/src/lib.rs:216-247 | A cancellation event proves it was before the end, unlocked, and proposer or admin signed |
| Governance.ExecuteOutcome | contracts/governance/src/lib.rs:252-275 | In every state anybody can execute a proposal exactly when it is past its end, unlocked, and has strictly more votes for than against; it locks that one alone and logs its proposer |
| Governance.CancelOutcome | contracts/governance/src/lib.rs:216-247 | In every state the signing proposer and the signing admin can cancel exactly the open proposals before their end; it locks that one alone |
| Governance.CastVoteOutcome | contracts/governance/src/lib.rs:106-137 | Exact success of a vote, and its weight on the chosen side of that proposal alone |
| Governance.InitializeOutcome | contracts/governance/src/lib.rs:79-89 | Initialisation succeeds exactly once, for the address that signs as admin |
| Governance.FinalKept | contracts/governance/src/lib.rs:106-275 | Every call keeps a proposal locked exactly when the log holds its one closing event |
| Governance.ExecOnward | contracts/governance/src/lib.rs:106-275 | No call adds, removes or reopens a proposal, changes its terms or takes votes away |
| Histories.ClosedOnce | contracts/governance/src/lib.rs:216-275 | Over every run executions and cancellations of a proposal together are one if it is locked and none otherwise |
| Histories.LockedForever | contracts/governance/src/lib.rs:106-275 | Later votes never reopen a locked proposal: both closing calls fail from then on |
| Histories.ExecutedWasRipe | contracts/governance/src/lib.rs:252-275 | Every executed proposal has exactly one step in its run that executed it, in a state past its end with a strict majority |
| Histories.CancelledWasOpen | contracts/governance/src/lib.rs:216-247 | Every cancelled proposal has exactly one step that cancelled it, before its end |
| Voting.TallyIsSumOfBallots | contracts/governance/src/lib.rs:106-137 | Over every run the two tallies are the sums of the ballots on each side, one for each recorded voter, each weighed by the badges held when cast |
| Voting.TallyBoundedByHoldings | contracts/governance/src/lib.rs:112-131 | Where the badge contract has no admin but the registry and governance weighs by it, all votes of a proposal never exceed the badges all learners hold now |
| Voting.VoteNeverOverflows | contracts/governance/src/lib.rs:120-131 | While those fit u32 the overflow panic is unreachable: a vote fails only for its signature, a repetition or a missing proposal |
| Voting.WeightBoundedByCourses | contracts/governance/src/lib.rs:112-118 | There a vote never weighs more than there are courses |
| Counterexamples.VotesNeverClose | contracts/governance/src/lib.rs:106-137 | The outcome of a vote depends neither on the proposal's end nor on its execution |
| Counterexamples.VoteAfterExecution | contracts/governance/src/lib.rs:106-137 | A concrete run in which an executed proposal receives a successful vote after its end and loses its majority |
| Counterexamples.StatusOnlyStopsEnrolment | contracts/course-registry/src/lib.rs:248-491 | A deactivated course refuses enrolment, but completing its modules has the same outcome, badge and payment as if it were active |
| Counterexamples.InactiveCourseCompletes | contracts/course-registry/src/lib.rs:417-491 | A concrete run in which an inactive course is completed without enrolment, with badge and payment |

## Left out

- The token's internals: one trusted ledger shared by all contracts. It rejects negative
  amounts and missing funds; minting, allowances, a frozen account and a receiver's overflow
  are not modelled. Balances at the start of a run are arbitrary, which stands in for minting.
- Separate token addresses: each contract stores its own, here they are one and the same.
- Foreign contracts an admin may wire instead of the platform's: only their answers are
  modelled, not effects of their own or calls back into the platform.
- Signatures, authorisation trees, storage expiry and fees: a call knows the set of addresses
  that authorised it, a contract authorises the calls it makes itself, and no platform
  contract signs a transaction.
- `upgrade_contract`, `migrate`, `contract_version` and the old structs in every contract:
  replacing code is the host's business and the only migration transforms no data.
- Event topics and encoding, metadata hashes as bytes: events are a log of values, hashes opaque.
- `get_quest`, `get_submission`, `get_course`, `get_progress`, `course_count`, `get_proposal`:
  plain reads of stored entries.
- contracts/common: its helpers repeat checks the contracts make inline.
- Creating proposals: no contract call does it; they are seeded in the initial state with no
  votes and unlocked, as contracts/governance/src/test.rs:33-53 does.
- `initialize` of vault, pool, engine and governance writes several entries at once; they are
  one option here, so states with only some of them written do not occur.
- QuestEngine.Contract.Pay: the payment both review paths spell out is one method here.
- Voting.VoteNeverOverflows: assumes all badges together fit u32, which no contract enforces.
