# Arc payment gateway: a verified model

The gateway lets an agent ask for one kind of payment that a human approved in
advance (a *capability*). An enforcement point decides, the decision is counted
and written to a log, and only then a settler builds, guards, signs, re-checks
and broadcasts one USDC transfer. The log's head is published on chain from time
to time. This project models that program and proves what it is relied on for.
`dafny verify dfyconfig.toml` checks all of it.

## How the model is built

**The gateways, as one transition system** (`Files`, `Machine`, and the proofs in
`LockProofs`, `CountProofs`, `LogProofs`, `RunTheorems`, `Fencing`, `Evidence`,
`Sharing`). A file has the content visible now and the set of contents one of
which a power loss may leave; a rename adds to that set, a successful directory
sync shrinks it, and a write that fails may have left either content. Runs start
from any files at all; results about a log's checkpoints start before its first
one, and results about a log's entries start with a count beside it that covers
them. `Machine.LocalStep` is the program of one gateway, one externally visible
effect at a time. A run interleaves any number of gateways, each with its own
log, state directory, capability and mode, with crashes of single gateways, power
losses, and someone from outside replacing lock files. Results that need the lock
files left in place say so (`!outside`).

**The same program, imperative** (`Deeds`, `Gateway`, `Checkpointers`,
`Servers`). The classes and methods follow the source statement by statement.
They reach files, locks, the enforcement point and the endpoint only through
`Gateway.Os`, each of whose operations requires that `Machine.LocalStep` allows
the effect in the gateway's current phase, whatever the outcome will be. So a
method that skipped a sync, wrote the log before the counts, or settled before
saving would not verify, and what is proved of all runs of the transition system
holds of this code. `Os` also keeps everything that was done and answered, in
order; the contracts of opening, saving and recording say exactly what that
sequence becomes.

**The checkpointer** (`CheckpointSpec`, `CheckpointFlight`, `CheckpointSpacing`,
`CheckpointRepeats`, `CheckpointWaits`, `Checkpointers`). Its methods are proved
equal to functions of its state and of the answers it gets; invariants over the
history of sends, inclusions, drops and records are proved for every sequence of
them. A send that returned an error is in that history, since it may have gone
out.

**The path walk** (`PathRules`, `PathLaws`, `PathRef`, `PathWalk`). The worklist
loop runs against a file system that may answer differently at every lookup. It
is proved against a compositional reference (resolve the parent, then the last
name) for the case that every answer agreed with one file system, and against its
own lookups for every other case.

**Guard and settlement** (`Bytes`, `Transfer`, `Guard`, `CheckpointGuard`,
`Native`, `Atomic`, `Plans`, `Settle`). Big integers, targets and calldata are
heap objects that callers may keep and change; `Plans.Plan.Rewrite` is whatever a
`Tamper`, or a calldata overlay it installed, may do to the plan and to every
integer it points to. `Plans.World` is the endpoint, the clock and the signer;
every answer is arbitrary, and every answer is remembered.

**Capability file keys** (`CapabilityKeys`): the scan that runs before decoding.

**Funds** (`Funds`) joins the count over runs, the amount bound and the fee
ceiling.

## What is assumed

- The enforcement point says ALLOW only if the policy it was given passed, and
  then appends exactly one ALLOW entry for the capability; otherwise it appends
  at most one entry, which is not an ALLOW. The exact-payment policy compares
  recipient, asset and resource and bounds the amount by the capability's ceiling.
- The parser of the call's decimal amount refuses zero (docs/SPEC-ARC-GATE.md
  section 4a).
- Saving a log is one atomic replacement, and loading it returns what was saved.
- A log's head root is a function of its entries (`Env.rootOf`). Nothing is
  assumed about collisions.
- A capability file's SHA-256 stands for the capability.
- Base58 is any function on the 32-byte identifier; it is only ever compared with
  itself, so its injectivity is not needed here. It would be needed to conclude
  from equal transport strings to equal addresses.
- Signing keeps every field of a transaction but the chain id, which becomes the
  signer's; recovering the sender gives the address of the key that signed.
- The gas paid for a transaction is at most its gas limit times its fee cap
  (EIP-1559, section "Specification").
- A rename is atomic, a successful directory sync makes the renames in that
  directory durable, and different paths are different files.
- Sizes of the saved log, and clock readings, do not decrease within one run.

## The code against its documentation

- docs/SPEC-ARC-GATE.md section 5 says a checkpoint is sent at most once a minute
  and gives that as the bound on the key's gas. Two things in the code break this.
  The time of a send is kept only if the endpoint acknowledged it
  (cmd/arc-gateway/checkpoint.go:121-128), and a send answered with an error may
  have gone out; and that time is not stored (cmd/arc-gateway/checkpoint.go:68-73),
  so it is forgotten at a restart. Within one run,
  `CheckpointSpacing.SendsAgainIffUnacknowledged` says exactly when another send
  can follow within a minute: if and only if the first was answered with an error.
  `CheckpointSpacing.OneHeadTwice` and `CheckpointSpacing.TwoHeadsAtOnce` are runs
  where it does. The interval starts anew with each run: a restart within the minute
  allows another send whether the first was acknowledged or not
  (`CheckpointSpacing.RestartForgetsTheMinute`; two such runs, both sends
  acknowledged in the same second, are `CheckpointSpacing.TwoRunsInOneSecond`).
- The same section says no head is published twice. In the code, being acknowledged
  does not keep a head from being sent again, and being seen mined does only until
  the next restart; from then on only its record does. Exactly:
  `CheckpointRepeats.RepeatsInRunIff`: within its run, a head of n entries can be
  sent again exactly while n is still the saved log's size and nothing of n
  entries or more has been seen mined. `CheckpointRepeats.RepeatsAfterRestartIff`:
  a later run can send it again exactly if the log it loads still has n entries and
  the record it loads names fewer. Which records that can be follows from how the
  attempts to write them ended, so `CheckpointRepeats.NextRunRepeatsIff`: the next
  run can send it again exactly if it loads a log of n entries and no record of n or
  more was written. So a head that was mined is sent again when writing its record
  failed (cmd/arc-gateway/checkpoint.go:166-168), of which
  `CheckpointRepeats.MinedHeadTwice` is an example; `CheckpointSpacing.OneHeadTwice`
  is one within a run. What holds in every case is that one size never carries two
  roots (`RunTheorems.OneRootPerSize`).
- `max_payments` is documented as the capability's count. It is enforced for
  gateways that share a state directory, and for gateways that share a log.
  `Sharing.BoundIffAnyTwoShare` shows that, for any family of settling gateways
  on one capability, the bound holds exactly when every two of them share one or
  the other, which section 3 of docs/SPEC-ARC-GATE.md asks operators to arrange.

## Model

| member | source | states |
|---|---|---|
| RunTheorems.SettleCallsBounded | cmd/arc-gateway/state.go:72-162 | In every state of every run, settle calls under one capability, counted over all gateways of one state directory whatever their logs, or of one log whatever their state directories, are at most MaxPayments, as long as no lock file is replaced |
| Sharing.BoundIffAnyTwoShare | cmd/arc-gateway/state.go:109-122 | For any set of settling configurations of one capability, no run in which no lock file is replaced exceeds MaxPayments if and only if every two of them share the state directory or the log |
| RunTheorems.DurableCountCoversLog | cmd/arc-gateway/state.go:137-162 | As long as no lock file is replaced, and if the count beside the log covered it when the run began: at every instant, any count and any log that a power loss could leave beside each other satisfy count >= ALLOW entries of the capability, even when other capabilities ran on the log; and the count loads, if files had the right kind of content when the run began |
| RunTheorems.OneRootPerSize | cmd/arc-gateway/checkpoint.go:99-134 | Over all runs and restarts of a log, from before its first checkpoint record and as long as no lock file is replaced, two checkpoints ever sent for one size, acknowledged or not, carry one root, and it is the root of the first n entries of every log the disk may hold |
| RunTheorems.RestartNeverRefuses | cmd/arc-gateway/state.go:246-285 | From every reachable state, and from whatever a power loss leaves of it, provided files had the right kind of content, and this log no record, when the run began, and no lock file was replaced, the log, the three counts and the checkpoint record all load |
| RunTheorems.OneGatewayPerLogAndCapability | cmd/arc-gateway/lock_unix.go:22-47 | As long as no lock file is replaced, two gateways past openLogState have different logs, and different capabilities or state directories |
| RunTheorems.StillHeldByOne | cmd/arc-gateway/state.go:164-173 | Even if lock files are replaced, at most one gateway passes stillHeld for a lock name in any state |
| Fencing.SettlesFenced | cmd/arc-gateway/state.go:137-145 | In every run, with lock files replaced at any time: a settle call comes after two states, both since the decision it carries out, in which the log's lock name and then the capability's referred to the files the gateway holds |
| Fencing.SavesFenced | cmd/arc-gateway/state.go:142-151 | So does every write of a count or of the log past startup |
| Evidence.SettledIsLogged | cmd/arc-gateway/server.go:341-347 | As long as no lock file is replaced, and from before the log's first checkpoint record: when a gateway settles, every log a power loss may leave begins with all its entries, the last of which is that ALLOW |
| RunTheorems.FilesTouchedUnderBothLocks | cmd/arc-gateway/state.go:68-100 | A gateway that reads or writes a file, settles or sends a checkpoint holds both of its locks |
| Gateway.WriteAtomic | cmd/arc-gateway/capability.go:154-180 | Success means renamed and its directory synced; failure means the rename failed, or the sync after it did |
| Gateway.LockFile | cmd/arc-gateway/lock_unix.go:22-47 | Open, flock, check the name; success holds the lock under its name, failure leaves nothing open |
| Gateway.OpenLog | cmd/arc-gateway/main.go:230-252 | Success returns exactly what the file loads as (empty if missing) and has written it back; otherwise the gateway has stopped or never read it |
| Gateway.ReadCount | cmd/arc-gateway/capability.go:124-143 | Refuses exactly when the file cannot be read or does not load for this capability; otherwise the maximum of what was known and what it holds |
| Gateway.RootAt | cmd/arc-gateway/state.go:277-285 | The loop computes the root of exactly the first n entries |
| Gateway.LoadCheckpointHead | cmd/arc-gateway/state.go:243-275 | Exactly: 0 without a record, the recorded size if the log's prefix of that size has the recorded root, else a refusal |
| Gateway.SaveCheckpointHead | cmd/arc-gateway/state.go:287-294 | One write of exactly that record, after which the gateway goes on whatever it answered |
| Gateway.LogState.SaveCounts | cmd/arc-gateway/state.go:159-162 | Both copies are attempted; success means both were renamed and synced |
| Gateway.LogState.Save | cmd/arc-gateway/state.go:137-157 | True if and only if what was done is exactly: both names found to be the held files, both counts, the log and its directory's sync, in that order, each successful; only then the saved size moves and an ALLOW goes on to be settled |
| Gateway.OpenLogState | cmd/arc-gateway/state.go:72-135 | On success what was done is exactly: both locks, log read and written back, three counts and the record read, both counts written; log, count and published size are what those files held, the count being the highest for this capability and nothing else. If every answer is what given files and lock names call for, it opens exactly if the walk passed and nothing read is refused. A failure closes every lock file it opened |
| Gateway.Restart | cmd/arc-gateway/state.go:72-135 | From every reachable state, or what a power loss leaves of it, a start opens if nothing fails and the walk passes |
| Deeds.RefusedWhateverElse | cmd/arc-gateway/capability.go:124-143 | Garbage never opens, nor a log whose first n entries do not have the recorded root, and counts of other capabilities count for nothing |
| Checkpointers.Checkpointer.constructor | cmd/arc-gateway/checkpoint.go:68-73 | It starts from the recorded size, with nothing pending |
| Checkpointers.Checkpointer.Confirm | cmd/arc-gateway/checkpoint.go:136-169 | The pending transaction, and no other, is looked for. Unseen waits or, after ten minutes, drops; reverted restores the previous size; success writes exactly the pending head's record, once, and remembers what that write answered; otherwise nothing is written |
| Checkpointers.Checkpointer.Publish | cmd/arc-gateway/checkpoint.go:99-134 | Sends only the whole, saved, unpublished head with none in flight; an error leaves the state alone |
| Checkpointers.Checkpointer.MaybePublish | cmd/arc-gateway/checkpoint.go:75-91 | Its new state is the specification's for the answers it got, and the history invariant is kept |
| Checkpointers.Checkpointer.PublishNow | cmd/arc-gateway/checkpoint.go:93-97 | One more checkpoint of the saved head, waited for, keeping the history invariant |
| CheckpointSpec.RunHistory | cmd/arc-gateway/checkpoint.go:78-169 | Over any run from a loaded record: recorded sizes strictly increase and name transactions seen mined of acknowledged heads; every send is larger than every head seen mined; a pending head p has recorded = p.prev < p.n = published <= saved, and with none pending published is the newest recorded; a triggered send is at least `every` decisions and a minute after every acknowledged one before it, and acks x every <= decisions |
| CheckpointWaits.SendsUnseenIffTimedOut | cmd/arc-gateway/checkpoint.go:152-159 | While a checkpoint is in flight, an endpoint that never shows a receipt can keep a head that is otherwise due from being sent for exactly ten minutes |
| CheckpointWaits.ShutdownRecords | cmd/arc-gateway/checkpoint.go:93-133 | With a healthy endpoint, a clean shutdown leaves the whole saved log seen mined and its record attempted |
| CheckpointSpacing.SendsAgainIffUnacknowledged | cmd/arc-gateway/checkpoint.go:84-128 | When the newest event of a run is a triggered send less than a minute ago, some continuation sends again within that minute if and only if the send was answered with an error |
| CheckpointSpacing.CloseSendsAreUnacknowledged | cmd/arc-gateway/checkpoint.go:84-90 | In any run, of two triggered sends less than a minute or fewer than `every` decisions apart, the first was answered with an error |
| CheckpointSpacing.OneHeadTwice | cmd/arc-gateway/checkpoint.go:121-128 | A run that sends one head, same size and root, at two consecutive decisions in the same second |
| CheckpointSpacing.TwoHeadsAtOnce | cmd/arc-gateway/checkpoint.go:121-128 | The same with a log that grows by a saved entry at each decision |
| CheckpointSpacing.RestartForgetsTheMinute | cmd/arc-gateway/checkpoint.go:68-73 | After any run whose newest event is a triggered send less than a minute ago, acknowledged or not, the next run can send within that same minute |
| CheckpointSpacing.TwoRunsInOneSecond | cmd/arc-gateway/checkpoint.go:68-73 | Two runs, one after the other, that each send one acknowledged head in the same second |
| CheckpointRepeats.MaySendIffNewer | cmd/arc-gateway/checkpoint.go:99-169 | From any state of any run, some continuation sends a given head if and only if it has at least the saved log's size and is newer than the loaded record and everything seen mined since |
| CheckpointRepeats.RepeatsInRunIff | cmd/arc-gateway/checkpoint.go:99-169 | A head that a run has sent can be sent again in it, acknowledged or not, if and only if the saved log still has its size and nothing of its size or more was loaded from the record or seen mined |
| CheckpointRepeats.RepeatsAfterRestartIff | cmd/arc-gateway/state.go:243-275 | It can be sent again by a later run, whatever record that loads, if and only if the log it loads still has its size and the record names fewer entries |
| CheckpointRepeats.NextRunRepeatsIff | cmd/arc-gateway/checkpoint.go:160-169 | With a record the disk may hold after the first run, the next run can send it again if and only if it loads a log of its size and no record of its size or more was written |
| CheckpointRepeats.MinedHeadTwice | cmd/arc-gateway/checkpoint.go:166-168 | Two runs that both send one head: acknowledged and seen mined in the first, whose record write failed |
| CheckpointFlight.OneInFlight | cmd/arc-gateway/checkpoint.go:107-128 | In every run, whatever the endpoint and the clock answer, before anything is sent after an acknowledged checkpoint, that one has been seen mined or reverted, or has gone unseen for more than ten minutes |
| Servers.Server.Decide | cmd/arc-gateway/server.go:77-82 | The policy answers yes exactly if payments are left, the call names the approved recipient, asset and resource, and the amount is within the ceiling; an ALLOW needs that, appends one ALLOW entry and is counted at once |
| Servers.Server.ToolsCall | cmd/arc-gateway/server.go:283-383 | An ALLOW is for a call that names the approved recipient and resource. Nothing is signed unless it is counted and on disk with its entry; then at most one transaction, which pays the approved recipient the amount named, signed within a minute of the call and before the capability expires; never in evaluate or dry-run mode. A settlement goes through if and only if the settler is set up, in time, and every answer favourable |
| Servers.Server.Serve | cmd/arc-gateway/server.go:117-134 | Over a whole session: every well-formed call gets one decision; no more is signed or broadcast than was counted, the count stays within MaxPayments, every transaction pays the approved recipient within the ceiling, and what was broadcast costs at most (MaxMicro + MaxFeeMicro) x 10^12 for each payment counted |
| Servers.Session | cmd/arc-gateway/main.go:101-207 | Opening the state, serving and the last checkpoint together: one session signs and broadcasts at most MaxPayments transactions at a bounded cost, and ends with no lock held and the saved log's head handed to the endpoint, unless it was recorded before or an earlier one is in the way; if the state does not open, nothing is signed |
| Servers.Server.SettleCall | cmd/arc-gateway/server.go:362-371 | The settler gets the authorized call: what is signed pays the approved recipient that amount, before that call's expiry |
| Servers.Server.Handle | cmd/arc-gateway/server.go:155-164 | The checkpointer sees exactly the well-formed calls, once each |
| Settle.CheckPayment | settle/evm/arcpay/settle.go:144-166 | Accepts with amount m exactly the payments that carry a marker and an expiry, name the given non-zero recipient and USDC, and whose amount is m's canonical numeral |
| Settle.Run | settle/evm/arcpay/settle.go:168-383 | Against every endpoint and every tamper: an unauthorized payment reaches no endpoint or key; at most one signature and one broadcast, each exactly the authorized transfer within the fee ceiling, with the nonce the endpoints agreed on, sent by the payer, before expiry, never in a dry run, never from a decoy key. Untampered, the transaction signed has the gas, fee cap and tip that the answers call for, and it goes through if and only if the payment was ready, in time, and every answer favourable |
| Settle.Prepare | settle/evm/arcpay/settle.go:213-322 | Whatever was answered and tampered with, the binding is the authorized terms; untampered, it succeeds exactly on agreeing, funded and priced answers and a complete configuration, with the transaction they call for |
| Settle.GuardAndSign | settle/evm/arcpay/settle.go:327-364 | A signature exists only for a transaction the guard accepted, in time; only one by the payer is passed on; without a decoy that happens exactly if it was accepted, in time, and the signer answered |
| Settle.Bind | settle/evm/arcpay/plan.go:148-159 | Binding succeeds exactly on a set chain id, non-zero addresses and a non-zero ceiling, and keeps the amount it was given |
| Settle.BoundNonce | settle/evm/arcpay/chain.go:65-81 | A nonce is returned only if the pending and the confirmed nonce, and the second endpoint's if there is one, were all answered with it |
| Settle.Preflight | settle/evm/arcpay/settle.go:213-237 | Goes on exactly if the endpoint reports the configured chain, at least the amount, and a native balance that truncates to it |
| Settle.EstimateGas | settle/evm/arcpay/settle.go:273-294 | The gas limit is the answer plus a fifth; above the sanity bound, or without an answer unless the plan was tampered with, it refuses |
| Plans.Plan.constructor | settle/evm/arcpay/plan.go:167-174 | An untampered plan for the network, with an amount of its own |
| Plans.Plan.Calldata | settle/evm/arcpay/plan.go:75-85 | Without an overlay, the transfer's calldata, or nothing if the amount does not fit, and nothing is changed |
| Plans.Plan.Build | settle/evm/arcpay/plan.go:87-105 | An untampered plan builds exactly the transaction it describes |
| Plans.ReadBack | settle/evm/arcpay/plan.go:107-138 | The view reads every field off the built object, into memory of its own; a chain id past 64 bits refuses |
| Guard.NewBoundPayment | settle/evm/guard.go:181-224 | Accepts or refuses as specified, and what it returns shares no memory with what it was given |
| Guard.BindIff | settle/evm/guard.go:181-224 | A binding is accepted exactly when it is the widening of well-formed terms |
| Guard.DeepCopy | settle/evm/guard.go:257-272 | Same value, fresh memory throughout |
| Guard.Verify | settle/evm/guard.go:305-381 | The verdict and the first error are those of the twelve assertions on the transaction as handed over; the verdict holds a private copy |
| Guard.AcceptsIffExpected | settle/evm/guard.go:305-381 | The twelve assertions pass exactly on the one expected transaction, with fee cap not negative and fee within the ceiling |
| Guard.AcceptedDifferOnlyInGas | settle/evm/guard.go:305-381 | Two transactions accepted for one payment differ only in gas limit and fee cap |
| Guard.AssertSame | settle/evm/guard.go:389-420 | Passes exactly if every field equals the verified copy's, and what passes would pass Verify |
| Guard.BindThenMutate | settle/evm/guard.go:168-187 | No later change to anything that existed before, or that an accessor returned, changes the bound terms |
| Guard.VerifyThenMutate | settle/evm/guard.go:245-272 | No later change to anything the caller could hold, what the accessors return included, changes the verdict or the copy it is about |
| Guard.BindMutateVerifyMutate | settle/evm/guard.go:168-381 | The same over both steps, with a caller that changes what it holds in between: the verdict is about the terms as first bound |
| CheckpointGuard.CheckpointDataIsInjective | settle/evm/checkpoint.go:25-31 | Equal calldata means equal size and root |
| CheckpointGuard.AcceptedFixesBinding | settle/evm/checkpoint.go:53-81 | An accepted transaction is the described one up to gas limit and fee cap; another binding accepts it exactly if it differs in the fee ceiling at most |
| CheckpointGuard.GuardsAreDisjoint | settle/evm/checkpoint.go:12-17 | No transaction passes both guards under any pair of bindings |
| Transfer.EncodeTransfer | settle/evm/transfer.go:98-114 | Fills exactly the reference layout, for exactly the amounts of 256 bits |
| Transfer.DecodeTransfer | settle/evm/transfer.go:76-96 | Reads exactly that layout; length, selector and dirty address word refuse in that order |
| Transfer.DecodeIffEncoded | settle/evm/transfer.go:81-114 | Decoding gives (to, amount) if and only if the bytes are its encoding and the amount fits 256 bits |
| Transfer.AmountByteAt | settle/evm/transfer.go:105-114 | The i-th byte from the end of the calldata is worth 256^i |
| Bytes.NarrowIffWidened | settle/evm/address.go:118-137 | An identifier narrows to an address exactly if it is that address widened |
| Native.ConsistentIffTruncation | settle/evm/arc.go:137-168 | The two balances are consistent exactly if one is the truncation of the other, and the residue is the remainder |
| Atomic.ParseAtomic | settle/evm/arcpay/settle.go:126-142 | Accepts v exactly if the string is v's decimal numeral and 1 <= v < 2^64 |
| Atomic.DecimalIsCanonical | cmd/arc-gateway/server.go:328 | The numeral printed for n reads back as n and has no leading zero |
| Atomic.CanonicalIsDecimal | settle/evm/arcpay/settle.go:128-141 | Every digit string without a leading zero is the numeral of its value |
| Atomic.NumeralOrderIffValueOrder | settle/evm/arcpay/settle.go:126-142 | Numerals are ordered by length and then character by character exactly as their values are |
| Funds.TotalFundsBounded | cmd/arc-gateway/server.go:333-371 | Over any run, if each settle call did what Settle.Run promises, value, transfers and gas of all of them under one capability are at most MaxPayments x (MaxMicro + MaxFeeMicro) x 10^12 |
| PathWalk.ResolvePath | settle/evm/arcpay/dir.go:62-134 | Equal to the reference if all lookups agree with one file system; otherwise still: every directory above the result and the result itself passed on lookups of their own paths, no component is empty or a dot, and every link read was root's in a directory that had passed |
| PathLaws.AbsoluteTarget | settle/evm/arcpay/dir.go:112-118 | An absolute link target points to the same place from everywhere |
| PathLaws.RelativeTarget | settle/evm/arcpay/dir.go:112-118 | The first component of a relative target goes to the parent for "..", stays for ".", and goes below for a name; the rest goes on from there |
| PathLaws.TargetOfRootedPath | settle/evm/arcpay/dir.go:112-118 | A slash and the text of a path point to that path |
| PathLaws.TargetOfParentPath | settle/evm/arcpay/dir.go:112-118 | "../" and the text of a path point to it below the parent |
| PathLaws.AboveRuleIff | settle/evm/arcpay/dir.go:136-148 | Where owners are known, aboveRule passes exactly the directories in which no user but this one and root can replace what is not its own; a sticky directory that all can write is one |
| PathLaws.OwnerOnlyIff | settle/evm/arcpay/dir.go:28-37 | ownerOnly passes exactly those in which no such user can replace anything |
| PathRef.WalkIsResolve | settle/evm/arcpay/dir.go:92-133 | The worklist and the compositional reference agree on every path of every file system whose root passes the rule for a directory above |
| PathRef.ResolvedIsReal | settle/evm/arcpay/dir.go:45-58 | Every directory above the resolved one passes the rule for it, and the last its own |
| PathRef.RealHasNoLink | settle/evm/arcpay/dir.go:45-53 | No prefix of a resolved path is a link, and every proper one passed aboveRule |
| PathRef.ResolveIsIdempotent | settle/evm/arcpay/dir.go:53-134 | Resolving a resolved path returns it and follows no link |
| PathRef.PrivateIsParent | settle/evm/arcpay/dir.go:53-58 | A path that ResolvePrivatePath accepts, ResolveParentPath accepts with the same result |
| CapabilityKeys.ExactKeys | cmd/arc-gateway/capability.go:191-233 | Accepts exactly the objects in which every member is spelled as a field and is the one a case-folding, last-wins decoder takes that field from |

## Left out

- JSON, the MCP messages, reply texts, tool descriptions and mode banners: reading and printing.
- The values of a capability file and its expiry at load (cmd/arc-gateway/capability.go:47-102): single-field checks. Its keys are modelled.
- checkPathFlags, checkLogPath and checkStateDir (cmd/arc-gateway/state.go:35-49, 175-225): they combine the path walk with single checks; opening the state takes their answer as a parameter.
- System calls below open, lock, name check, rename and sync; network file systems, access control lists, and processes that ignore the locks.
- A log whose name makes two of the gateway's files the same file (for example a log called like another log's count file): paths of different kinds are different files here.
- Loading a log signed by another key (cmd/arc-gateway/main.go:245-247): a log that is not this key's counts as one that does not load.
- Keccak, ECDSA, Ed25519, base58, the Merkle construction and RLP: see "What is assumed".
- The tip (GasTipCap): it is not in the guard's view, so nothing is claimed about it.
- Gas price, nonce and receipt calls of a checkpoint's send (cmd/arc-gateway/checkpoint.go:171-260): the send is one step that is acknowledged or not, with the head recorded as possibly out in both cases. The guard it runs is modelled on its own.
- The check that the signer's chain id is the bound one (settle/evm/arcpay/settle.go:312-315): the signer is built from the same network, so it always passes.
- Deadlines on endpoint calls: the model keeps the two explicit expiry checks; a call cut short by a deadline is one that answers with an error.
- A tamper that keeps running beside the settlement, in another goroutine.
- A server without a settler outside evaluate-only mode.
- Path strings and Windows volumes: a path is its sequence of components, already made absolute and cleaned; link targets are split and cleaned as strings. Equality with the kernel's resolution is not claimed, since targets are cleaned lexically.
- Liveness: that a checkpoint or a payment is eventually confirmed.
- Gateway.LoadCheckpointHead: the recorded root's hexadecimal form is not modelled, so a malformed one is a record that is not one.
- Settle.BoundNonce: a single endpoint that lies twice about the nonce is not excluded, as settle/evm/arcpay/chain.go:58-64 says.
