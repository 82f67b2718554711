# A verified model of the agent kernel

The kernel is a set of small engines that keep state on disk and in memory and must survive
failing writes, stopping processes, and changing authority. This project models them in Dafny
and proves what they promise over whole runs. Most engines have two files: a value with one
function for each operation, about which the laws are proved, and a class whose methods
update fields in place, loop as the source does, and are proved to compute those functions.

Check it with `dafny verify dfyconfig.toml`.

## What is modelled

- **The tape** (`Tape`, `Jsonl`, `TapeRuns`, `TextLines`, `TapeLines`). An append-only file of bytes with a cached
  counter. A write may leave any prefix of its line, a repair may stop before or after the cut,
  and the file may be reopened at any time. The line format is a parameter, used through four
  laws: an encoding opens with a brace, has no newline, decodes, and no proper prefix decodes.
  The run theorems start at an empty tape; `TapeLines` is about any file, whoever wrote it.
- **The content-addressed workspace** (`ObjectIds`, `Merkle`, `Workspaces`, `MerkleLaws`,
  `MerkleReads`, `MerkleRuns`, `MerkleRefs`, `MerkleDirs`). Objects, HEAD, refs and the current branch, against a plain map from paths to
  bytes. The digest is a parameter without collisions among the payloads that a run hashes.
- **The scope tree** (`Scopes`, `ScopeTrees`, `ScopeLaws`, `ScopeRemoval`, `ScopeEffects`). Mounts and wraps
  with registered inverses. A tool is a term: a base of one scope, or a wrap of one scope around
  a tool; an inverse is a value that names what it takes back.
- **Supervision** (`Ledgers`, `LedgerLaws`, `LedgerEffects`, `Supervisions`) and its boundary
  (`Reviews`, `ReviewRuns`, `ReviewEffects`, `ReviewControls`). The ledger of instances, epochs, mounts, bindings and pending
  reviews; and the calls that file, judge and spend reviews around it, with every append and
  every mail allowed to fail. A failed append may have kept its line.
- **The shadow checkers** (`Semantics`, `Contracts`, `ToolContracts`, `GateEffects`). Capabilities, decisions,
  contract assessment, and the projections of the tool gate and the review ceiling.
- **The recorder** (`Charters`, `Seats`, `SeatTrees`, `Recorders`, `TapeSeats`, `RecorderRuns`,
  `RestoreRuns`, `RecorderEffects`, `RecorderObjects`). Charters that only narrow, the seat forest, spawn, release
  and cancel with their tape records and pending markers, and the replay that gives the seats
  back. A failed append may have kept its line here too.
- **Sub-workspaces** (`SubWorkspaces`, `SubEffects`, `Wps`). The live and the retiring maps with their log, and
  the published views with theirs.
- **Delivery and sessions** (`Deliveries`, `DeliveryRuns`, `DeliveryRoutes`, `DeliverySessions`,
  `SessionLives`, `SessionEffects`, `SessionObjects`). The fence around event delivery, and the intent to finish that outlives
  its process.
- **The environment ledger** (`EnvLedgers`, `EnvLedgerRuns`, `EnvPuts`, `EnvStores`). Blob, log record,
  projection, stopped at any step.
- **The excerpt** (`Excerpts`). A bounded view of UTF-8 text.

The modules named after effects, routes, refs, lines and puts say what single calls achieve: exactly
when each succeeds, what it leaves in every outcome, and what it does not touch, in terms other
than those of the operation itself.

`Chains` holds what supervisors and seats share: chains of single upward links without cycles.

Locks are atomic steps. UUIDs are natural numbers or strings that a run draws fresh where a
theorem says so. Outcomes of I/O, clocks, model calls and bodies are parameters of each call,
ranging over every outcome the source distinguishes.

Where a promise is false of the code, a lemma gives the input that breaks it and another the
exact condition under which it holds:

- HEAD can become unreadable (`MerkleRuns.ResetAcceptsBroken`), exactly when a reset goes to a
  target that is not whole (`MerkleRuns.HeadStaysReadableIff`). HEAD and the branch can part,
  exactly at the stops of `MerkleRuns.SyncedAfter`.
- The restored seats can differ from the live ones (`RestoreRuns.CancelDiverges`,
  `RestoreRuns.CancelOutlivesRelease`): `RestoreRuns.RestoredExactly` says when over all runs,
  `RestoreRuns.RestoreIffNoneCut` over those that spawn nothing below a cancelled worker and keep
  no spawn line, and `RestoreRuns.SpawnRestoresIff` for one such line.
- A scope can pin itself (`ScopeRemoval.WrappingTwicePins`); `ScopeRemoval.UnmountsIffPeels` says
  exactly when an unmount goes through.
- A grant can escape a charter above its own (`Charters.ForgetEscapes`), exactly for differing
  memories to forget (`Charters.AllowsLifts`).
- The log of sub-workspaces can fall out of step (`SubWorkspaces.RegisterKeeps`,
  `SubWorkspaces.UnmountKeeps`), and view numbers can repeat (`SubWorkspaces.ViewsAreNumberedIff`).
- An accepted hexadecimal text need not be canonical (`ObjectIds.HexCanonical`).

## Model

| member | source | states |
|---|---|---|
| TapeRuns.NoRunCorrupts | crates/an-agent-core/src/memstream/jsonl.rs:130-303 | after every run of appends, repairs and reopens, each failing after any byte prefix, a read without I/O failure never reports corruption; its events are numbered 1..n, contain every acknowledged append in order and each failed one whole or not at all; every byte the tape lost is in the side file |
| TapeRuns.OnlyIoFails | crates/an-agent-core/src/memstream/jsonl.rs:130-214 | the only error that any read or append of any run can give is an I/O error, and without a fault there is none |
| TapeRuns.ServedForever | crates/an-agent-core/src/memstream/jsonl.rs:130-141 | what one read served, every later read serves again as a prefix |
| TapeRuns.AppendIsReadBack | crates/an-agent-core/src/memstream/jsonl.rs:143-214 | an undisturbed append after any run returns the next number and is read back last |
| TapeRuns.EvidenceFirst | crates/an-agent-core/src/memstream/jsonl.rs:274-305 | on any tape, torn bytes are in the side file before they leave the tape, and apart from that one cut the file only grows |
| TapeRuns.ScanLayout | crates/an-agent-core/src/memstream/jsonl.rs:231-272 | scanning inverts printing: a tape laid out as whole lines with an open line or a torn fragment scans to exactly those events |
| TapeRuns.HealKeeps | crates/an-agent-core/src/memstream/jsonl.rs:231-305 | a repair, finished or stopped anywhere, keeps the events; a finished one returns them |
| TapeRuns.WriteKeeps | crates/an-agent-core/src/memstream/jsonl.rs:170-214 | a write stopped after any number of bytes leaves the new event whole or not at all |
| Jsonl.JsonlStore.Append | crates/an-agent-core/src/memstream/jsonl.rs:143-214 | leaves tape, side file, cached number and newline flag exactly as the specified append of the old state, the one the run theorems above speak of, in every fault |
| Jsonl.JsonlStore.ReadAll | crates/an-agent-core/src/memstream/jsonl.rs:130-141 | drops the cached number, then answers with the scan of the whole file, healed: over every file the answer of ReadSucceedsIff and CorruptLineIsReported |
| Jsonl.JsonlStore.ScanAndHeal | crates/an-agent-core/src/memstream/jsonl.rs:231-272 | the loop over byte offsets computes the scan of ScanStops and ScanTail, stops with it at the first corrupt line, and moves a torn tail aside |
| Jsonl.JsonlStore.QuarantineTail | crates/an-agent-core/src/memstream/jsonl.rs:274-305 | the side file is written before the tape is cut, whatever step fails |
| TapeLines.CorruptLineIsReported | crates/an-agent-core/src/memstream/jsonl.rs:130-272 | over every file: at the first whole line that is neither blank nor a valid event, a read and an append without a cached number both answer the corrupt line under its own number, or a corrupt event if it decodes, whatever follows it, and change no byte of tape or side file |
| TapeLines.CorruptionAfterEvents | crates/an-agent-core/src/memstream/jsonl.rs:246-264 | after n valid events that is line n + 1, for every rest of the file |
| TapeLines.ScanStops | crates/an-agent-core/src/memstream/jsonl.rs:246-264 | no scan goes past such a line |
| TapeLines.ScanTail | crates/an-agent-core/src/memstream/jsonl.rs:246-272 | a last stretch without a newline is torn exactly if it does not decode, and is otherwise judged like a line |
| TapeLines.ReadSucceedsIff | crates/an-agent-core/src/memstream/jsonl.rs:130-141 | over every file, whoever wrote it: a read succeeds if and only if all its whole lines pass and its last stretch is blank, torn or valid; it answers the events in order, and only a torn stretch leaves the tape |
| TapeLines.AppendToAnyFile | crates/an-agent-core/src/memstream/jsonl.rs:143-214 | on every such file an append takes the number after the last event and is read back after all of them |
| TapeLines.ServedAreValid | crates/an-agent-core/src/memstream/jsonl.rs:130-141 | no read of any file serves an event of another version or without an id |
| TapeLines.TornIsMovedInOrder | crates/an-agent-core/src/memstream/jsonl.rs:274-305 | wherever a repair of a torn stretch stops, the tape is cut only once the whole evidence is in the side file |
| TapeLines.NextNumberIsKept | crates/an-agent-core/src/memstream/jsonl.rs:150-214 | after an append that returned, the next takes the next number whatever a read of the tape would meet |
| ObjectIds.FrameInjective | crates/an-agent-workspace/src/id.rs:8-19 | the kind, length and payload framing is injective for kinds without a space, whatever the payloads hold |
| ObjectIds.HexRoundTrip | crates/an-agent-workspace/src/id.rs:21-35 | the text of an id parses back to that id |
| ObjectIds.HexCanonical | crates/an-agent-workspace/src/id.rs:25-35 | an accepted text is the text of its id if and only if it has only lower-case digits |
| ObjectIds.WriteHex | crates/an-agent-workspace/src/id.rs:50-58 | the loop writes two lower-case digits per byte, high half first, the text that HexRoundTrip reads back |
| ObjectIds.ReadHex | crates/an-agent-workspace/src/id.rs:25-35 | the loop accepts exactly 64 characters that pair up to bytes, and reads the id that HexRoundTrip and HexCanonical speak of |
| ObjectIds.HexSpells | crates/an-agent-workspace/src/id.rs:50-58 | each byte is spelled by the digit of its upper half and then the digit of its lower half, among 0 to 9 and a to f |
| ObjectIds.AcceptedIff | crates/an-agent-workspace/src/id.rs:25-35 | exactly the texts of 64 characters are accepted with a digit of either case in each low place and a digit or a plus in each high place |
| ObjectIds.FrameOfTwo | crates/an-agent-workspace/src/id.rs:8-19 | the frame of a two-byte blob, byte by byte |
| Basics.DecimalReads | crates/an-agent-workspace/src/id.rs:8-19 | the length in a frame is a decimal numeral that says that number, most significant digit first and without leading zeros |
| MerkleRuns.WriteRefines | crates/an-agent-workspace/src/store.rs:139-162 | after any run whose resets go to whole targets, a write to a nonempty path sets one path of the path map, removes what lay below it, and changes nothing else; it reads back; it is refused, without effect, exactly when a file lies on the way |
| MerkleRuns.CommitRefines | crates/an-agent-workspace/src/store.rs:297-333 | a commit on any closed tree refines one update of the path map |
| MerkleRuns.CommitRefused | crates/an-agent-workspace/src/store.rs:297-333 | it is refused if and only if some proper prefix of the path is a file |
| MerkleRuns.HeadIsReadable | crates/an-agent-workspace/src/store.rs:276-295 | as long as each reset goes to a whole target, everything reachable from HEAD or a ref is present and decodes |
| MerkleReads.ReadableIffWhole | crates/an-agent-workspace/src/store.rs:276-295 | every path reads from a root, or stops at a file in the way, if and only if some set of directories around the root is closed under its entries |
| MerkleRuns.HeadStaysReadableIff | crates/an-agent-workspace/src/store.rs:198-204 | over every run, interrupted or not, everything below HEAD stays readable throughout if and only if each reset that moves HEAD goes to a whole target |
| MerkleRuns.ResetReadableIff | crates/an-agent-workspace/src/store.rs:198-204 | a reset leaves a readable HEAD if and only if a walk over the objects its target names finds all of them, of the right kind, before the reset |
| MerkleRuns.SnapshotsAreWhole | crates/an-agent-workspace/src/store.rs:198-204 | former HEADs and other snapshots are always such targets |
| MerkleRuns.SnapshotsNeverChange | crates/an-agent-workspace/src/store.rs:297-355 | every path reads from a snapshot as before, whatever runs later, interrupted writes included |
| MerkleRuns.ResetUndoes | crates/an-agent-workspace/src/store.rs:198-204 | after a run with whole targets, a reset to the HEAD before a write restores every read, however much was done in between |
| MerkleRuns.ResetAcceptsBroken | crates/an-agent-workspace/src/store.rs:198-204 | a target that is not whole occurs: a reset to a directory with a malformed entry is accepted and then cannot be read |
| MerkleRuns.RefsNameFormerHeads | crates/an-agent-workspace/src/store.rs:180-259 | after every run, HEAD and every ref name a former HEAD |
| MerkleRuns.BranchFollowsHead | crates/an-agent-workspace/src/store.rs:243-255 | after every uninterrupted run the ref of the current branch equals HEAD |
| MerkleRuns.SyncedAfter | crates/an-agent-workspace/src/store.rs:235-255 | where the three writes stop decides exactly whether HEAD and the branch still agree |
| MerkleRefs.WriteMovesBranch | crates/an-agent-workspace/src/store.rs:139-162 | a completed write keeps the current branch, moves its ref to the new HEAD, and moves no other ref; with no branch it moves none; a refused one moves nothing |
| MerkleRefs.ResetMovesBranch | crates/an-agent-workspace/src/store.rs:198-204 | the same of a completed reset |
| MerkleRefs.MergeMovesBranch | crates/an-agent-workspace/src/store.rs:206-213 | a completed merge takes HEAD and the ref of the current branch to the other ref, which stays |
| MerkleRefs.CheckoutSwitches | crates/an-agent-workspace/src/store.rs:189-196 | a completed checkout goes to where its ref is and makes it the current branch |
| MerkleRefs.BranchIsHead | crates/an-agent-workspace/src/store.rs:180-187 | a new branch is at HEAD and changes neither HEAD nor the current branch |
| MerkleRefs.OnlyTheLead | crates/an-agent-workspace/src/store.rs:139-260 | nobody but the lead changes anything |
| MerkleRefs.BranchCarriesWork | crates/an-agent-workspace/src/store.rs:139-259 | once a branch is checked out, any completed writes, resets, merges and branch calls leave it current, and its ref at HEAD |
| MerkleRefs.OtherRefsStay | crates/an-agent-workspace/src/store.rs:180-259 | a ref that is neither current nor named by an operation never moves, stopped operations included |
| MerkleRefs.SwitchingLosesNothing | crates/an-agent-workspace/src/store.rs:139-259 | work on a branch, a checkout of another, anything there, stopped or not: a checkout of the first succeeds and every path reads as when it was left |
| MerkleRefs.RefsArePlain | crates/an-agent-workspace/src/store.rs:362-373 | after every run each ref has a name of letters, digits, dashes and underscores, so none is a path elsewhere |
| MerkleRefs.PlainIff | crates/an-agent-workspace/src/store.rs:362-373 | exactly those names are accepted for a branch |
| MerkleLaws.UpsertContent | crates/an-agent-workspace/src/store.rs:297-333 | the recursive upsert changes the path map at its path and below it only |
| MerkleLaws.UpsertRefused | crates/an-agent-workspace/src/store.rs:297-333 | an upsert fails exactly when the walk to its path fails, and then adds nothing |
| MerkleLaws.UpsertWalk | crates/an-agent-workspace/src/store.rs:297-333 | a path that is neither a prefix nor an extension is walked as before |
| MerkleLaws.WalkMeaning | crates/an-agent-workspace/src/store.rs:276-295 | what a lookup finds in a closed store is what the path map says |
| MerkleLaws.ReadsStable | crates/an-agent-workspace/src/store.rs:335-355 | reads do not see objects added later |
| MerkleDirs.ReadMeans | crates/an-agent-workspace/src/store.rs:276-295 | from any closed directory a read answers the file at the path; at a directory bytes that decode to exactly what lies below the path; nothing only where nothing lies at or below it; and an error if and only if a file is in the way |
| MerkleDirs.WalkBelow | crates/an-agent-workspace/src/store.rs:276-295 | the same of the walk: a directory it finds stands for all paths below |
| Workspaces.Workspace.WriteFile | crates/an-agent-workspace/src/store.rs:139-162 | objects, HEAD, refs and current branch end as the specified write of the old state, the one WriteRefines and WriteMovesBranch speak of, at every point where it may stop |
| Workspaces.Workspace.UpsertAt | crates/an-agent-workspace/src/store.rs:297-333 | the recursion that writes objects gives the root and the objects of the upsert that UpsertContent characterizes, or refuses and has written nothing |
| Workspaces.Workspace.LookupPath | crates/an-agent-workspace/src/store.rs:276-295 | the loop down the path finds the object, nothing, or a file in the way, as WalkMeaning relates to the path map |
| Workspaces.Workspace.SetHeadAndBranch | crates/an-agent-workspace/src/store.rs:243-255 | HEAD, then the ref of the branch, then the metadata: each stop leaves the state whose agreement SyncedAfter decides |
| Workspaces.Workspace.CheckoutRef | crates/an-agent-workspace/src/store.rs:189-196 | success means that HEAD is the ref and the name is the current branch; refs never change, and a refusal changes nothing |
| Workspaces.Workspace.MergeFastForward | crates/an-agent-workspace/src/store.rs:206-214 | success means that HEAD is the ref and the ref of the current branch is HEAD; no other ref and no branch ever changes, and a refusal changes nothing |
| ScopeRemoval.ReachableIsValid | crates/an-agent-spool/src/scope.rs:173-406 | in every reachable tree each wrapper chain is exactly nested over one mounted instance, and no name resolves to a tool over a disposed scope |
| ScopeLaws.ResolveIsAlive | crates/an-agent-spool/src/scope.rs:173-181 | a resolved tool is built only over scopes that are alive |
| ScopeLaws.WrapKeeps | crates/an-agent-spool/src/scope.rs:231-273 | wrapping adds one layer over the present top and registers its inverse |
| ScopeLaws.MountKeeps | crates/an-agent-spool/src/scope.rs:185-229 | mounting adds one instance and registers its inverse |
| ScopeRemoval.OrderLaws | crates/an-agent-spool/src/scope/unmount.rs:5-31 | a cascade visits exactly the subtree, each scope once, children first |
| ScopeRemoval.PlanIsExact | crates/an-agent-spool/src/scope.rs:313-384 | the planned pin check passes if and only if no later step of the removal meets a pin |
| ScopeRemoval.CascadeKeeps | crates/an-agent-spool/src/scope.rs:313-347 | every intermediate state of a planned cascade is valid |
| ScopeRemoval.UnmountLaws | crates/an-agent-spool/src/scope.rs:308-347 | a successful cascade leaves the old tree filtered to the scopes outside the subtree; a refused one changes nothing |
| ScopeRemoval.UnmountsIffPeels | crates/an-agent-spool/src/scope.rs:308-384 | a cascade goes through if and only if, on the chains as they are before it, all layers over a name leave before a scope that mounted it, and a layer that leaves does so after every layer over it |
| ScopeRemoval.UpdateMounts | crates/an-agent-spool/src/scope.rs:391-406 | an update that gets past its unmount never fails to mount |
| ScopeRemoval.WrappingTwicePins | crates/an-agent-spool/src/scope.rs:349-384 | a scope can pin itself: a wrap that succeeded succeeds again, and then every unmount of the scope, or of anything it hangs below, is refused as the tree stands |
| ScopeRemoval.SelfPinOccurs | crates/an-agent-spool/src/scope.rs:231-273 | such a wrap exists |
| ScopeEffects.ResolveMeans | crates/an-agent-spool/src/scope.rs:173-183 | a name resolves if and only if a live scope is mounted under it, to all layers that wrap it, in the order they were added, around an instance of that name; without layers to the instance mounted last |
| ScopeEffects.MountMeans | crates/an-agent-spool/src/scope.rs:185-229 | a mount succeeds if and only if its parent is live; it takes a fresh id, appends to its parent only, and changes what its own name resolves to only if no layer wraps it |
| ScopeEffects.WrapMeans | crates/an-agent-spool/src/scope.rs:231-273 | a wrap succeeds if and only if the target is mounted and its newest instance is of the same component set; each refusal has its own error |
| ScopeEffects.WrapResolves | crates/an-agent-spool/src/scope.rs:231-273 | the target then resolves to one more layer over what it resolved to, and no other name changes |
| ScopeEffects.UnmountResolves | crates/an-agent-spool/src/scope.rs:313-347 | after an unmount each name resolves to its former tool without the outer layers of the subtree; with no layer left, to the newest instance that stays, or to nothing |
| ScopeEffects.UnmountUndoes | crates/an-agent-spool/src/scope.rs:185-347 | a scope that was mounted and wrapped other names, each once, unmounts if and only if nothing wraps its own name, and then every name resolves as before it came |
| ScopeEffects.YoungerFirst | crates/an-agent-spool/src/scope/unmount.rs:21-31 | of two siblings the younger leaves first, with everything below it |
| ScopeTrees.ReportIsSubtree | crates/an-agent-spool/src/scope.rs:313-347 | the report lists exactly the subtree, each scope once, nothing after its ancestor |
| ScopeTrees.ScopeTree.UnmountCascade | crates/an-agent-spool/src/scope.rs:313-320 | the loop over the disposal order turns the tree into the one filtered to the scopes outside the subtree, or refuses before the first step, leaves it, and names the first pin in disposal order with the layer on top of it |
| ScopeTrees.ScopeTree.DisposeNode | crates/an-agent-spool/src/scope.rs:322-347 | runs the inverses of one scope newest first, after which no instance, wrapper or child link of it is left and all others are untouched |
| ScopeTrees.ScopeTree.AppendOrder | crates/an-agent-spool/src/scope/unmount.rs:21-31 | the recursion appends the order that OrderLaws characterizes |
| ScopeTrees.ScopeTree.WrapName | crates/an-agent-spool/src/scope.rs:231-273 | one new top layer over the tool that the name resolved to, and one inverse on the wrapping scope; each of the five refusals changes nothing |
| ScopeTrees.ScopeTree.MountInstance | crates/an-agent-spool/src/scope.rs:185-229 | a new scope with the next id, its instance on top of its name, its link at its parent and its inverse; a dead parent changes nothing |
| ScopeTrees.ScopeTree.UpdateInPlace | crates/an-agent-spool/src/scope.rs:391-406 | after a successful unmount the replacement is mounted under the same parent and name; a refused unmount changes nothing |
| LedgerLaws.EveryReachableLedger | crates/an-agent-supervision/src/lib.rs:121-409 | after every run each pending scope is current, one review waits per scope, subject and kind, both ends of each binding are live, nobody is above itself, and taking a scope never misses an epoch |
| LedgerLaws.RevokedStaysStale | crates/an-agent-supervision/src/lib.rs:363-388 | with fresh incarnations no scope naming a principal and taken at any time before its revocation is ever current again |
| LedgerLaws.ClosedStaysClosed | crates/an-agent-supervision/src/lib.rs:238-271 | an id that was filed and is no longer pending never becomes pending again |
| LedgerLaws.CheckCallBinds | crates/an-agent-supervision/src/lib.rs:330-361 | an approval answers for one call, one list of facts and one card, and for nothing once closed |
| LedgerLaws.RetireKeeps | crates/an-agent-supervision/src/lib.rs:379-387 | retiring drops an instance, its bindings and its reviews together |
| LedgerLaws.RevokeKeeps | crates/an-agent-supervision/src/lib.rs:365-377 | revoking keeps the invariant, also when the epoch is exhausted |
| LedgerLaws.BindKeeps | crates/an-agent-supervision/src/lib.rs:154-180 | a checked binding keeps the relation acyclic, also when it replaces one |
| LedgerLaws.InsertKeeps | crates/an-agent-supervision/src/lib.rs:238-271 | an admitted request is current and alone in its scope, subject and kind |
| Chains.LinkAcyclic | crates/an-agent-supervision/src/lib.rs:154-180 | a new upward link from below keeps chains free of cycles |
| Supervisions.Supervision.CheckBinding | crates/an-agent-supervision/src/lib.rs:154-173 | the walk up the supervisors ends, and refuses exactly when the child is met |
| Supervisions.Supervision.Scope | crates/an-agent-supervision/src/lib.rs:182-201 | the unchecked epoch lookup is safe |
| Supervisions.Supervision.Waiting | crates/an-agent-supervision/src/lib.rs:208-219 | a waiting review is found exactly when there is one |
| Supervisions.Supervision.Insert | crates/an-agent-supervision/src/lib.rs:238-271 | files exactly the requests that InsertKeeps admits, and records the id as seen; a stale or duplicate request changes nothing |
| Supervisions.Supervision.Resolve | crates/an-agent-supervision/src/lib.rs:306-328 | ledger and error are those of ResolveMeans for each resolution, and the invariant holds after each |
| Supervisions.Supervision.CheckCall | crates/an-agent-supervision/src/lib.rs:332-357 | answers approved, waiting, stale or missing as CheckCallBinds pins down, and changes nothing |
| Supervisions.Supervision.Revoke | crates/an-agent-supervision/src/lib.rs:365-377 | the epoch advances by one, or at the last epoch the instance retires, and exactly the reviews naming the principal as child or supervisor are closed and listed in the order of their ids |
| Supervisions.Supervision.Retire | crates/an-agent-supervision/src/lib.rs:379-387 | the instance, its bindings and its reviews go, and each closed review is listed once |
| Supervisions.Supervision.RemoveWhere | crates/an-agent-supervision/src/lib.rs:399-409 | exactly the chosen reviews are closed and returned, each once, in the order of their ids |
| ReviewRuns.ApprovalsAreOneShot | crates/an-agent-core/src/control/supervision.rs:32-432 | after every run each call let through under Ask spent a distinct id; that very call with those facts had been filed in that scope; the bound supervisor instance approved it after the evidence, no Consult, Retry or Reject of it succeeded between that and the call, and the consumption is on the tape |
| ReviewRuns.ClosedNeverAuthorizes | crates/an-agent-core/src/control/supervision.rs:373-397 | a closed id never lets a later call through, whatever runs |
| ReviewRuns.GateRecordsAgree | crates/an-agent-core/src/control/supervision.rs:332-432 | every record that the tool gate hands to its shadow is recorded as agreeing |
| ReviewRuns.CeilingRecordsAgree | crates/an-agent-core/src/control/supervision.rs:94-109 | so is every record of the review ceiling |
| ReviewRuns.RecordsAreLawful | crates/an-agent-core/src/control/supervision.rs:332-397 | a call is let through freely only under Go, and by an approval only under Ask, which closes it |
| ReviewRuns.JudgeKeeps | crates/an-agent-core/src/control/supervision.rs:77-129 | resolving keeps every approval explained: evidence before approval, revocation before evidence |
| ReviewRuns.RetainKeeps | crates/an-agent-core/src/control/supervision.rs:210-266 | filing keeps it too, wherever the append or the mail fails |
| ReviewRuns.ReviewToolKeeps | crates/an-agent-core/src/control/supervision.rs:332-432 | so does a call, also when its consumption is recorded only in part |
| LedgerEffects.ScopeIff | crates/an-agent-supervision/src/lib.rs:182-201 | a scope is taken if and only if child and mount are live, and records the supervisor and both epochs of now |
| LedgerEffects.OpenIff | crates/an-agent-supervision/src/lib.rs:121-127 | an engagement is opened if and only if its principal has none, at epoch zero, and no other changes |
| LedgerEffects.BindIff | crates/an-agent-supervision/src/lib.rs:154-180 | a binding is made if and only if both ends are live, nothing of the child waits and no cycle arises; it replaces the link of the child only |
| LedgerEffects.InsertIff | crates/an-agent-supervision/src/lib.rs:238-271 | a request is filed if and only if its scope is current and its own, its id is new and nothing equal waits; it then waits unapproved |
| LedgerEffects.ResolvesIff | crates/an-agent-supervision/src/lib.rs:273-304 | who may resolve which review, and how |
| LedgerEffects.ResolveMeans | crates/an-agent-supervision/src/lib.rs:306-328 | an approval gives this review this card, a consultation takes its card away, a retry and a rejection close it; no other review is touched |
| LedgerEffects.ReviewLife | crates/an-agent-supervision/src/lib.rs:238-357 | filed a review lets nothing through, approved exactly its call with its facts and card, consulted again nothing, and after a retry or a rejection it is missing |
| LedgerEffects.MountsMean | crates/an-agent-supervision/src/lib.rs:136-152 | unmounting a body ends exactly the reviews taken on it |
| LedgerEffects.RevokeMeans | crates/an-agent-supervision/src/lib.rs:365-377 | a revocation moves to the next epoch, or retires at the last one, and ends exactly the reviews that concern the principal |
| LedgerEffects.RetireMeans | crates/an-agent-supervision/src/lib.rs:379-387 | a retirement ends exactly the engagement, the bindings at either end, and those reviews |
| LedgerEffects.InvalidateMeans | crates/an-agent-supervision/src/lib.rs:389-409 | a new revision of a fact ends exactly the reviews that rest on another one |
| ReviewEffects.NotAdmitted | crates/an-agent-core/src/control/supervision.rs:77-129 | a judgement that fails a check changes nothing, except that it closes a review whose facts went stale |
| ReviewEffects.TakingBackMeans | crates/an-agent-core/src/control/supervision.rs:77-129 | an admitted Consult takes the approval back, and an admitted Retry or Reject closes the review, at once and whatever becomes of line and mail; the history records it |
| ReviewEffects.ApprovingMeans | crates/an-agent-core/src/control/supervision.rs:77-129 | an admitted approval succeeds if and only if the ceiling, the record, the line and the mail all go through; only then is the card on the review, and on no other |
| ReviewEffects.RejectionIsFinal | crates/an-agent-core/src/control/supervision.rs:77-129 | after an admitted Retry or Reject, no course of later acts lets the call of that review through |
| ReviewEffects.FilingMeans | crates/an-agent-core/src/control/supervision.rs:210-266 | what is filed, for whom, and when an equal request is answered with the one that waits |
| ReviewEffects.FreeIff | crates/an-agent-core/src/control/supervision.rs:332-372 | a call runs without a review if and only if its tool is granted under Go to a live agent and its check is recorded |
| ReviewEffects.BoundedNeverFree | crates/an-agent-core/src/control/supervision.rs:332-372 | an agent whose tools fit a charter that is not Go never runs a call without a review |
| ReviewEffects.CheckCallIff | crates/an-agent-supervision/src/lib.rs:332-357 | a pending review answers if and only if call, facts and card are its own |
| ReviewEffects.SpendIff | crates/an-agent-core/src/control/supervision.rs:373-432 | a waiting review is spent if and only if it is approved for this call by a card that is still valid, and its consumption and check are recorded |
| ReviewEffects.CallFiles | crates/an-agent-core/src/control/supervision.rs:332-432 | a call under Ask with nothing waiting is held back and filed as a high-risk review of exactly this call |
| ReviewEffects.ApprovedIsSpent | crates/an-agent-core/src/control/supervision.rs:373-432 | a call that meets its approved review closes it, and goes through if and only if that is recorded |
| ReviewEffects.ApprovedCallGoesThrough | crates/an-agent-core/src/control/supervision.rs:77-432 | held back, approved, let through once: the whole way in one statement, with nothing let through again |
| ReviewEffects.DeniedNeverRuns | crates/an-agent-core/src/control/supervision.rs:332-432 | a call of a tool that the card lacks or denies never goes through, whatever was filed or approved before |
| ReviewEffects.CauseMeans | crates/an-agent-core/src/control/supervision.rs:398-432 | a call is high-risk if and only if its tool is on the card under Ask |
| ReviewEffects.DeniedIsNeverApproved | crates/an-agent-core/src/control/supervision.rs:77-432 | a call of a tool that the card lacks or denies is filed, but no judgement by anybody approves it |
| ReviewEffects.AnswersAreRecorded | crates/an-agent-core/src/control/supervision.rs:332-432 | no call goes through, and no review is asked for, without the check on record |
| ReviewEffects.FilingRefused | crates/an-agent-core/src/control/supervision.rs:210-266 | a request is refused, without a change, for an unreadable body, a scope it cannot take, or stale facts |
| ReviewEffects.FactsMean | crates/an-agent-core/src/control/supervision.rs:323-330 | facts are current if and only if no generation of now has another revision of one of their kinds |
| ReviewEffects.MountMeans | crates/an-agent-core/src/control/supervision.rs:210-230 | the first fact that names a body decides which one a request is made on |
| ReviewEffects.FactsBindTheCall | crates/an-agent-core/src/control/supervision.rs:332-372 | facts and subject tell card, incarnation, gathered facts and tool apart, so no approval serves another call |
| ReviewEffects.SetSupervisorMeans | crates/an-agent-core/src/control/supervision.rs:32-50 | a supervisor is bound if and only if the ledger admits the link and its line is written |
| ReviewControls.ReviewControl.ReviewTool | crates/an-agent-core/src/control/supervision.rs:332-432 | verdict, ledger and history are those of the specified call, the one ApprovalsAreOneShot speaks of, for every outcome of its I/O |
| ReviewControls.ReviewControl.ResolveReview | crates/an-agent-core/src/control/supervision.rs:77-129 | ledger and history are those of the specified judgement: the one that TakingBackMeans, ApprovingMeans and RejectionIsFinal speak of |
| ReviewControls.ReviewControl.RetainReview | crates/an-agent-core/src/control/supervision.rs:210-266 | ledger and history are those of the specified filing: the line and the mail come before the insertion |
| ToolContracts.ToolGateAgrees | crates/an-agent-core/src/control/tool_contract.rs:61-121 | the shadow agrees with a recorded verdict if and only if the verdict is the gate's own rule |
| ToolContracts.CeilingAgrees | crates/an-agent-core/src/control/tool_contract.rs:124-204 | the same for the review ceiling |
| ToolContracts.RecordToolGate | crates/an-agent-core/src/control/tool_contract.rs:61-121 | the comparison it records is the one ToolGateAgrees decides, and it cites the consumption if there was one |
| Contracts.AllowMeans | crates/an-agent-semantic/src/contract.rs:72-149 | the checker allows exactly when profile, roles, sources, operation and decision are all in order |
| Contracts.NeverContradicts | crates/an-agent-semantic/src/contract.rs:72-149 | it never contradicts the decision on its own claims |
| Contracts.AssessContract | crates/an-agent-semantic/src/contract.rs:72-149 | the loops fill the findings in the order of the checks |
| Semantics.CoversIsInclusion | crates/an-agent-semantic/src/lib.rs:72-89 | coverage is inclusion of targets under one operation, both directions |
| Semantics.DecideIsIntersection | crates/an-agent-semantic/src/lib.rs:256-300 | a decision allows exactly the well-formed attempts that every claim, and at least one, covers |
| Semantics.DecideIsAntitone | crates/an-agent-semantic/src/lib.rs:256-300 | more claims never allow more |
| Semantics.GrantBindsOneAttempt | crates/an-agent-semantic/src/lib.rs:198-210 | a grant matches the attempt it was decided for and no other |
| GateEffects.DecisionMeans | crates/an-agent-semantic/src/lib.rs:256-300 | each reason of a refusal and each grant, in terms of what the attempt holds and what the claims reach |
| GateEffects.FindingsMean | crates/an-agent-semantic/src/contract.rs:72-149 | a finding is in the assessment if and only if what it names is wrong: each code for a profile, a role, a source, an operation or a claim |
| GateEffects.BlankMeans | crates/an-agent-semantic/src/contract.rs:72-149 | a role or a profile name is blank if and only if it has Unicode white space only |
| GateEffects.FindMeans | crates/an-agent-core/src/control/supervision.rs:131-147 | the first tool of a name on a card is the one that counts |
| GateEffects.TagMeans | crates/an-agent-core/src/act/tool.rs:63-66 | the tag of a call is the one its first tool of that name declares, and without one unbounded under review |
| GateEffects.AgreementMeans | crates/an-agent-core/src/control/tool_contract.rs:61-121 | a comparison agrees if and only if shadow and gate allowed or refused alike; an unknown verdict never agrees |
| GateEffects.CeilingMeans | crates/an-agent-core/src/control/supervision.rs:131-160 | an approver may release a call if and only if the child has it under Ask, the approver under Go, and the approver opens every path the child would |
| GateEffects.UntaggedAsks | crates/an-agent-core/src/act/tool.rs:63-66 | a tool without a tag counts as unbounded under review, so it is never released by its own like |
| Seats.RunKeeps | crates/an-agent-core/src/seat/tree.rs:43-67 | every run of mounts and unmounts keeps a forest with mirrored links |
| Seats.UnmountUndoesMount | crates/an-agent-core/src/seat/tree.rs:43-67 | unmounting a new seat undoes the mount exactly, and a seat does not outlive its parent |
| Seats.PrunedTwice | crates/an-agent-core/src/seat/tree.rs:145-162 | removals in a row remove what they would remove at once |
| SeatTrees.Tree.Mount | crates/an-agent-core/src/seat/tree.rs:43-67 | adds one leaf with both links, or refuses a duplicate id or an unknown parent without a change |
| SeatTrees.Tree.Descendants | crates/an-agent-core/src/seat/tree.rs:89-103 | without a visited set the loop ends and lists exactly the subtree, each seat once, level by level, the children of one seat in the order of their ids |
| SeatTrees.Tree.Remove | crates/an-agent-core/src/seat/tree.rs:145-162 | the stack loop deletes exactly the subtree and unlinks it |
| RestoreRuns.RestoreIsLive | crates/an-agent-core/src/recorder/restore.rs:5-65 | after every run without a cancel by the recorder and without a kept spawn or announcement line, the seats restored from the tape are exactly the live ones, each with its parent, its kind and its sub-workspace |
| RestoreRuns.RestoredExactly | crates/an-agent-core/src/recorder/restore.rs:5-65 | over every run at all, with any line kept by a failed append: each restored seat that is mounted is restored as it was spawned, and restored equals live if and only if no mounted worker is cut and no unmounted one is restored; the fold never meets a cycle |
| RestoreRuns.RestoreIffNoneCut | crates/an-agent-core/src/recorder/restore.rs:5-65 | over every run that spawns nothing below a cut worker and leaves no kept spawn line, they are equal if and only if no worker cut by a cancel or by an unfinished announcement is still mounted |
| RestoreRuns.SpawnRestoresIff | crates/an-agent-core/src/recorder/spawn.rs:125-220 | from a state in step with nothing cut, one spawn keeps them equal if and only if it leaves no kept spawn line that no cleanup took back |
| RestoreRuns.CancelDiverges | crates/an-agent-core/src/recorder/signal.rs:6-24 | after any run, each cancel that reaches the tape makes them differ at once |
| RestoreRuns.ReleaseMends | crates/an-agent-core/src/recorder/restore.rs:37-51 | releasing a cancelled worker, with no spawn in between, makes them equal again |
| RestoreRuns.CancelOutlivesRelease | crates/an-agent-core/src/recorder/restore.rs:46-51 | without that care it fails with nothing cut: a concrete run restores a seat that is not mounted |
| RestoreRuns.ReachesIsAbove | crates/an-agent-core/src/recorder/restore.rs:84-96 | the fuel of the bounded walk always suffices |
| RestoreRuns.GrantsStayBounded | crates/an-agent-core/src/recorder/spawn.rs:125-152 | each card grant of a live worker is allowed by the charter of every worker above it, except exactly where both name different memories to forget |
| RestoreRuns.CharterWithinAncestors | crates/an-agent-core/src/recorder/spawn.rs:143-148 | each live charter is within that of every worker above it |
| RestoreRuns.EveryWorkerIsBounded | crates/an-agent-core/src/recorder/spawn.rs:149-152 | every live worker has a charter that its grants fit |
| RestoreRuns.ReleaseIsRetried | crates/an-agent-core/src/recorder/spawn.rs:42-123 | a failed release has already dropped the subtree; until it is retried to the end, other releases and all spawns are refused under its name |
| RecorderEffects.AdmissionMeans | crates/an-agent-core/src/recorder/spawn.rs:125-152 | which check refuses a spawn, in what order, and that a refusal changes nothing |
| RecorderEffects.SpawnIff | crates/an-agent-core/src/recorder/spawn.rs:125-220 | a spawn succeeds if and only if it is admitted and its steps go through; it adds exactly one seat with its charter and grants, on the tree and on the tape; a failed one adds none |
| RecorderEffects.SpawnFails | crates/an-agent-core/src/recorder/spawn.rs:154-220 | what a failed spawn leaves on the tape, and that its marker blocks the next one exactly until a spawn or release line is there |
| RecorderEffects.OpenSpawnIsReleased | crates/an-agent-core/src/recorder/spawn.rs:42-103 | a marker left by a spawn is closed by a release that changes no seat |
| RecorderEffects.SpawnLiteIff | crates/an-agent-core/src/recorder/spawn.rs:29-40 | a lite worker is refused if and only if its charter opens some read or write |
| RecorderEffects.ReleaseIff | crates/an-agent-core/src/recorder/spawn.rs:42-103 | a release succeeds if and only if it is the open one, or none is and its worker is mounted, and its steps go through; exactly the named workers lose seat, charter and card |
| RecorderEffects.ReleaseFails | crates/an-agent-core/src/recorder/spawn.rs:42-103 | where a release fails decides whether the seats are gone and whether a retry is due |
| RecorderEffects.CancelMeans | crates/an-agent-core/src/recorder/signal.rs:6-24 | only the parent cancels a mounted worker, nobody is unmounted, and only its own cancel is on the tape of the recorder |
| RecorderEffects.MarkerMeans | crates/an-agent-core/src/recorder/spawn.rs:105-123 | a marker is open if and only if it is the last record that opens or closes one |
| RecorderRuns.SpawnKeeps | crates/an-agent-core/src/recorder/spawn.rs:125-220 | a spawn, failed, kept or compensated at any step, keeps what RestoredExactly rests on: the tape and the tree agree outside the cut subtrees |
| RecorderRuns.ReleaseKeeps | crates/an-agent-core/src/recorder/spawn.rs:42-103 | so does a release |
| RecorderRuns.CancelKeeps | crates/an-agent-core/src/recorder/signal.rs:6-24 | and a cancel |
| RecorderObjects.RestoreSeats | crates/an-agent-core/src/recorder/restore.rs:5-65 | for every tape without a cycle in any prefix, as those of all runs are, the loop ends with the seats that RestoredExactly speaks of |
| RecorderObjects.RemoveSubtree | crates/an-agent-core/src/recorder/restore.rs:67-82 | growing a list while walking it ends, and removes exactly the subtree |
| RecorderObjects.ParentChainReaches | crates/an-agent-core/src/recorder/restore.rs:84-96 | the walk with fuel answers what ReachesIsAbove shows to be: the chain of parents ends at the recorder |
| RecorderObjects.PendingRelease | crates/an-agent-core/src/recorder/spawn.rs:105-123 | the last pending marker that no later spawn or release has closed |
| RecorderObjects.Recorder.SpawnChild | crates/an-agent-core/src/recorder/spawn.rs:125-220 | tape, tree, charters and seat list end as in the specified spawn of the old state, and a failure at any step leaves no seat behind |
| RecorderObjects.Recorder.Release | crates/an-agent-core/src/recorder/spawn.rs:42-103 | tape, tree, charters and seat list end as in the specified release, first try or retry, and keep the invariant of the run theorems |
| RecorderObjects.Recorder.Cancel | crates/an-agent-core/src/recorder/signal.rs:6-24 | denied for anyone but a direct child, otherwise a note on the tape of the parent and then of the child, with the seats left mounted |
| RecorderObjects.Recorder.DropSeats | crates/an-agent-core/src/recorder/spawn.rs:75-90 | unmounting the listed seats one by one removes the subtree |
| Charters.WithinIsAnOrder | crates/an-agent-core/src/act/charter.rs:72-80 | within is reflexive and transitive |
| Charters.AllowsLifts | crates/an-agent-core/src/act/charter.rs:65-166 | a grant allowed by a charter is allowed by every wider one, except exactly for differing memories to forget |
| Charters.ForgetEscapes | crates/an-agent-core/src/act/charter.rs:139-166 | that case occurs |
| Charters.WithinMeansNarrower | crates/an-agent-core/src/act/charter.rs:72-80 | for a parent that names no memory to forget, within is exactly: narrower signals, and no grant that the parent refuses |
| Charters.PermitMeans | crates/an-agent-core/src/act/charter.rs:82-92 | a permit fits another if and only if it runs freely, or at all, only where the other does |
| Charters.FileWithinIsInclusion | crates/an-agent-core/src/act/charter.rs:102-137 | a file facet is within another if and only if every read and write it opens is open there |
| Charters.AllowsMeans | crates/an-agent-core/src/act/charter.rs:65-70 | so an allowed grant opens no run, read or write that the charter does not |
| Charters.MemoryMeans | crates/an-agent-core/src/act/charter.rs:139-166 | what each memory facet admits |
| Charters.SignalMeans | crates/an-agent-core/src/act/charter.rs:72-100 | a signal completes and addresses only what its parent may |
| DeliveryRuns.ReplayIsFenced | crates/an-agent-core/src/control/settlement.rs:7-112 | two batches that both reach a body for one event: the earlier recorded its settlement under the same incarnation, whatever notes failed or stayed, wherever the process stopped, however often it resumed |
| DeliveryRuns.BlockedForGood | crates/an-agent-core/src/control/settlement.rs:15-47 | an event whose batch was interrupted or cut off is never delivered again, under any incarnation |
| DeliveryRuns.SettleLeaves | crates/an-agent-core/src/control/settlement.rs:54-112 | a batch past its first note leaves its event blocked, or settled |
| DeliveryRoutes.SettledIff | crates/an-agent-core/src/control/settlement.rs:90-112 | a batch that is not cut short is settled if and only if its route left nothing half done and the note landed; otherwise its event is blocked |
| DeliveryRoutes.CleanMeans | crates/an-agent-core/src/control/settlement.rs:54-103 | half done means: the route ends at a turn with an error, and that turn withheld an outcome or an earlier one had one, or the error is not one of three |
| DeliveryRoutes.HalfDoneIsBlocked | crates/an-agent-core/src/control/settlement.rs:96-112 | a turn that withholds an outcome, or fails after one, is never settled over |
| DeliveryRoutes.ReachMeans | crates/an-agent-core/src/control/settlement.rs:57-88 | a body was reached if and only if some turn up to the end of the route reached it |
| DeliveryRoutes.StoppedIsBlocked | crates/an-agent-core/src/control/settlement.rs:7-112 | a process that stops after the first note leaves the event blocked |
| DeliveryRoutes.RefusedIff | crates/an-agent-core/src/control/settlement.rs:7-53 | when a delivery is refused, and that nothing is noted then |
| DeliveryRoutes.FenceMeans | crates/an-agent-core/src/control/settlement.rs:15-47 | an event passes the fence if and only if it is new or was settled last by this engagement |
| DeliveryRoutes.ResumeMeans | crates/an-agent-core/src/control/session.rs:85-167 | a resume takes over no engaged session and otherwise starts afresh |
| DeliveryRoutes.SettledThenResumed | crates/an-agent-core/src/control/settlement.rs:15-47 | what one engagement settled, the next does not deliver again |
| DeliverySessions.DeliverySession.DeliverBatch | crates/an-agent-core/src/control/settlement.rs:7-112 | notes, fence and batch outcome are those of the specified delivery, the one ReplayIsFenced, SettledIff and HalfDoneIsBlocked speak of |
| DeliverySessions.DeliverySession.Invoke | crates/an-agent-core/src/control/settlement.rs:57-88 | the loop stops at the first name that ends the batch, counting ready outcomes and keeping the withheld one |
| SessionLives.IntentIsBinding | crates/an-agent-core/src/control/session.rs:85-246 | each finish carries the text of the last intent; no beat follows an unanswered intent, except one whose append failed, and that only until a resume |
| SessionLives.FinishKeeps | crates/an-agent-core/src/control/session.rs:193-246 | a finish, stopped or retried at any step, keeps that |
| SessionEffects.MarksAreOrdered | crates/an-agent-core/src/control/session.rs:85-246 | over every run: an intent that landed, or that a resume took up, is followed by no finish mark but its own answer, and no answer comes without an intent |
| SessionEffects.FinishIff | crates/an-agent-core/src/control/session.rs:193-246 | a finish succeeds if and only if the session is idle, open and unfinished and its steps go through; it leaves the intended text and a finished run without authority |
| SessionEffects.FinishFails | crates/an-agent-core/src/control/session.rs:193-246 | what a failed finish leaves: nothing, the intent mark with authority kept, or a run bound to the intended text |
| SessionEffects.IntentIsTakenUp | crates/an-agent-core/src/control/session.rs:85-246 | a finish that failed after its intent completes with the first text when asked again with any other, in the same engagement or after a stop and a resume |
| SessionEffects.ResumeIff | crates/an-agent-core/src/control/session.rs:85-167 | a resume succeeds if and only if the session is closed and its tape read and marked; it has authority if and only if the tape owes no finish |
| SessionEffects.BeginIff | crates/an-agent-core/src/control.rs:396-428 | a beat begins if and only if the run holds authority |
| SessionEffects.ReleaseIff | crates/an-agent-core/src/control/session.rs:42-83 | a session is released if and only if it is idle and finished |
| SessionObjects.AgentSession.FinishSession | crates/an-agent-core/src/control/session.rs:193-246 | intent first, then authority, closures and the finish line: tape and run end as in the specified finish at every failing step |
| SessionObjects.AgentSession.ResumeSession | crates/an-agent-core/src/control/session.rs:85-167 | a resume takes an unanswered intent up again without authority |
| EnvLedgerRuns.CiteIsSomePut | crates/an-agent-core/src/workspace.rs:216-302 | after every run, a cite is refused because the log is torn, or finds nothing, or gives a recorded generation with exactly the text of its put |
| EnvLedgerRuns.CiteAfterPut | crates/an-agent-core/src/workspace.rs:152-181 | wherever one put stops, a later cite is refused, or gives the old generation, or the new one with its text |
| EnvLedgerRuns.RetryLogsOnce | crates/an-agent-core/src/workspace.rs:152-170 | after a put that wrote anything, in any reachable directory, putting the same name and text again adds no generation, whatever events, reopens and puts come in between, as long as none puts another text under that name |
| EnvLedgerRuns.GenerationsAlternate | crates/an-agent-core/src/workspace.rs:152-170 | after every run, a log that can be read never holds one generation of a name twice without another of that name between |
| EnvLedgerRuns.PutCompletes | crates/an-agent-core/src/workspace/env.rs:66-94 | a put that returns has its digest recorded and the projection equal to the committed text |
| EnvLedgerRuns.ReopenCompletes | crates/an-agent-core/src/workspace.rs:81-110 | a completed reopen does that too |
| EnvLedgerRuns.RunGood | crates/an-agent-core/src/workspace/env.rs:24-64 | in every reachable directory each blob has its digest and each recorded digest its blob |
| EnvLedgerRuns.ReadShaped | crates/an-agent-core/src/workspace.rs:285-302 | a log reads as its records, or is refused once a line is torn or spoiled |
| EnvPuts.PutIsLogged | crates/an-agent-core/src/workspace.rs:152-181 | over every disk: a put that returns has its generation in the log, last of its name, with the digest of the text, and the next cite serves that record and text; an unchanged generation adds nothing |
| EnvPuts.PutIsServed | crates/an-agent-core/src/workspace.rs:152-302 | after any run, what a put returned is what every later cite serves until the next put, whatever else runs or stops, or the log is torn and refused |
| EnvPuts.CiteIsVerified | crates/an-agent-core/src/workspace.rs:216-302 | over every disk: a cite serves only a text with the recorded digest, and refuses exactly when log or blob do not allow that |
| EnvPuts.ReadsIff | crates/an-agent-core/src/workspace.rs:285-302 | over every file: it reads as the records of its lines exactly when each whole line decodes and nothing follows the last newline |
| EnvPuts.PutMeans | crates/an-agent-core/src/workspace.rs:152-181 | where a put of a new generation stops decides what is in the log and in the projection |
| EnvPuts.CiteAfterStop | crates/an-agent-core/src/workspace.rs:216-302 | and so what the next cite serves |
| EnvPuts.ConfirmMeans | crates/an-agent-core/src/workspace.rs:152-170 | an unchanged generation is confirmed and its projection repaired |
| EnvPuts.AlteredBlobRefuses | crates/an-agent-core/src/workspace/env.rs:24-64 | an altered blob stops every put of its text and is never replaced |
| EnvPuts.PushIsLogged | crates/an-agent-core/src/workspace.rs:112-124 | an event that returns is in the log with its name and body |
| EnvPuts.ReopenMeans | crates/an-agent-core/src/workspace.rs:81-110 | a reopen fails exactly on a torn log or at its own steps, and touches the projection only |
| EnvStores.EnvStore.PutEnv | crates/an-agent-core/src/workspace.rs:152-181 | log, blobs and projection end as in the specified put of the old state, the one PutIsLogged and PutMeans speak of, for a stop at any step |
| EnvStores.EnvStore.Read | crates/an-agent-core/src/workspace.rs:285-302 | reads all records of whole lines, or refuses at the first line that is cut off or does not decode |
| EnvStores.EnvStore.PublishBlob | crates/an-agent-core/src/workspace/env.rs:24-64 | a blob is published under its digest and never replaced |
| EnvStores.EnvStore.RefreshProjection | crates/an-agent-core/src/workspace/env.rs:66-94 | the projection is the committed text after success, and in every case that or what it was before |
| SubWorkspaces.ReplayIsLiveAndRetiring | crates/an-agent-core/src/recorder/wp.rs:136-232 | over every run in which failed log writes leave no line, the log replays to exactly the live and the retiring sub-workspaces, each worker once |
| SubWorkspaces.RegisterKeeps | crates/an-agent-core/src/recorder/wp.rs:189-216 | a registration keeps the log in step if and only if a failed write left no line |
| SubWorkspaces.UnmountKeeps | crates/an-agent-core/src/recorder/wp.rs:467-476 | the same for an unmount |
| SubWorkspaces.AbandonMeans | crates/an-agent-core/src/recorder/wp.rs:219-232 | a successful abandonment leaves nothing of the worker; a failed one has revoked it and is found again by a retry |
| SubWorkspaces.PublishMeans | crates/an-agent-core/src/recorder/wp.rs:447-476 | the view is on disk and in memory before the tree log changes; once it is logged the sub-workspace is not live, and a reopen makes it live again if and only if the unmount left no line |
| SubWorkspaces.ViewsAreNumberedIff | crates/an-agent-core/src/recorder/wp.rs:374-486 | after every run the views in the log are numbered by their places if and only if no view line was written while a line kept by a failed append had not been read back |
| SubEffects.CloseMeans | crates/an-agent-core/src/recorder/wp.rs:312-337 | each outcome of a close: empty, published, conflicted, refused or failed, with what it leaves of the entry, the log and the views |
| SubEffects.ResolveMeans | crates/an-agent-core/src/recorder/wp.rs:339-372 | only a conflict is resolved: a rejection publishes nothing, a choice among the offered names publishes, any other changes nothing |
| SubEffects.ConflictHolds | crates/an-agent-core/src/recorder/wp.rs:312-372 | a conflict refuses every later close until it is resolved; a reopen forgets it |
| SubEffects.RegisterIff | crates/an-agent-core/src/recorder/wp.rs:189-216 | a registration succeeds if and only if the worker is held nowhere and its steps go through |
| SubEffects.OneAtATime | crates/an-agent-core/src/recorder/wp.rs:189-232 | a worker gets another entry if and only if its last one has left both maps |
| SubEffects.RollbackMeans | crates/an-agent-core/src/recorder/wp.rs:374-423 | a rollback adds one view with the wanted files and changes no entry |
| Wps.Wp.constructor | crates/an-agent-core/src/recorder/wp.rs:136-187 | after opening, the views are those of the view log, the live map is what the tree log replays to, and nothing is retiring |
| Wps.Wp.Register | crates/an-agent-core/src/recorder/wp.rs:189-216 | log and maps end as RegisterKeeps requires; a worker that is still held is refused without a change |
| Wps.Wp.UnmountLocked | crates/an-agent-core/src/recorder/wp.rs:467-476 | out of the live map first, out of the retiring map only once logged |
| Wps.Wp.AbandonWorker | crates/an-agent-core/src/recorder/wp.rs:219-232 | in every state, the first live entry of the worker or else the first retiring one is unmounted, as AbandonMeans says where each worker is held once |
| Wps.Wp.Close | crates/an-agent-core/src/recorder/wp.rs:312-337 | without changes it unmounts, with a conflict it only records it, otherwise it ends as the publication of PublishMeans |
| Wps.Wp.Resolve | crates/an-agent-core/src/recorder/wp.rs:339-372 | a rejection unmounts; an accepted choice ends as the publication of PublishMeans; a bad choice changes nothing |
| Wps.Wp.Rollback | crates/an-agent-core/src/recorder/wp.rs:374-423 | a rollback adds one view to the log and then to memory, or changes nothing |
| Excerpts.MakeExcerpt | crates/an-agent-host/src/artifact_context.rs:25-68 | refused exactly outside 128..2048; otherwise within the budget, marker and count included, valid UTF-8, and cut at the character boundaries nearest to the two bounds |
| Excerpts.OneExcerpt | crates/an-agent-host/src/artifact_context.rs:25-68 | that determines the excerpt: no other text, ranges or count satisfy it |
| Excerpts.RangesAddUp | crates/an-agent-host/src/artifact_context.rs:47-68 | retained and omitted bytes add up to the source |
| Excerpts.CutsBetweenCharacters | crates/an-agent-host/src/artifact_context.rs:40-46 | the byte test for a boundary is exact: a cut is accepted if and only if both sides are valid UTF-8 (section 4 of RFC 3629) |
| Excerpts.BoundaryIsNear | crates/an-agent-host/src/artifact_context.rs:40-46 | each loop moves at most three bytes |
| Excerpts.MarkerFits | crates/an-agent-host/src/artifact_context.rs:37-38 | the reserve of 64 bytes always holds the marker with its count |
| Excerpts.Utf8Means | crates/an-agent-host/src/artifact_context.rs:25-68 | bytes are text if and only if they are the encodings of some scalar values (section 3 of RFC 3629) |

## Left out

- The sorted `pending` inbox of the supervision ledger is only a view and is not modelled.
- ReviewRuns.ApprovalsAreOneShot: a call that passes the gate is not followed into the tool that runs it; `review_closed` lines, which carry no authority, are not part of the history.
- EnvLedgerRuns.CiteIsSomePut: covers the environment; the config and register citations read the same log, but their blobs are written in place and not verified again, so the claim does not carry over to them. Blobs come from strings, so the branch for a blob that is not UTF-8 is not modelled.
- SubWorkspaces.ReplayIsLiveAndRetiring: a pending conflict lives in memory only and is ignored by the comparison. What reduction, conflict choice, edge checks and version lookup in `recorder/wp/log.rs` compute is a parameter of each close, resolution and rollback: the files of the next view, or a refusal. Writes and tombstones inside a live sub-workspace touch neither log.
- Workspaces.Workspace.WriteFile: may stop between its HEAD, ref and metadata writes; a stop between two object writes appears in a run as object writes of its own, which add the same objects and move no HEAD.
- SessionEffects.BeginIff: a raised cancel flag, which refuses one beat and is lowered by it, is not modelled.
- DeliveryRuns.ReplayIsFenced: what a body does, hooks, routes and admission are outcomes of one step each.
- ScopeRemoval.UnmountLaws: disposables that a user registers are inert; the source disclaims rollback for those that call back into the tree.
- Bytes that were written but not synced are never lost later: loss of power after a successful call is not modelled.
- Scope ids and sequence numbers are unbounded where the source counts in machine words; review epochs are bounded, because the source handles their exhaustion.
- File modes, links, locks between processes and the check of the owning process: one writer at a time is assumed.
- SHA-256, serde and JSON internals, clocks and identifiers: parameters with the laws stated in each module.
- Ref names that would leave the refs directory, and hexadecimal texts cut inside a character: the source's panic or refusal is a plain refusal here.
- `put_config`, `put_register`, session manifests and the commit of context clips: no crash law beyond those of the logs they write to.
- Cancel flags and leases of the recorder, mail and queued intents: signals that change no seat. `propagate_cancel` is a sequence of such cancels, children before parents, each of which is modelled.
- Process supervision, sandboxes, custody databases, transports, command lines, scripts, prompt composition and the causal-web viewer: foreign calls or presentation.
- Descriptor field checks and documentation tooling: they would only add easy members.
