# Verification of process custody, canonical JSON and the Codex session machines

This project models the parts of the repository whose correctness rests on more
than one function, and proves what they promise. It covers four connected areas.

**Process custody.** Two launchers, the account process and the managed process,
share one exclusive lock file per account. Any number of owners of either kind
may exist, each may crash between any two steps, and the steps of all owners and
of the native process groups interleave freely. `Custody` gives one owner's steps
and its invariant, `CustodyRuns` the shared lock file and the results about every
run, `CustodyEnds` what an owner has proved, recorded and released when its stop
is over, `CustodyClean` the stop that nothing disturbs and the one that fails,
`CustodyKnowledge` where an owner's knowledge of its process comes from, `CustodyOwner`
the same owner as an object updated in place, `CustodyLife` a complete run of each
launcher. `Leases` is the account lease table. `Journals` and
`JournalWriter` are the hash-chained journal of the task launcher, its reader, and
the stop sequence that writes the last record.

**JSON.** Strings are sequences of UTF-16 code units (`Texts`), because the program
tells apart paired and unpaired surrogates; `Utf8` relates their size in bytes to the
encoding of RFC 3629. `Json` and `Canonical` hold values, their
printed form, a reader and the canonical form; `Graphs` the object graphs on which
`CanonicalEncoder` (with its ancestor set) and `Snapshots` (with its counters) run,
`EncoderFaults` what an error code of the printer names, `CanonicalForm` what its text
looks like.
`Scanner`, `Documents` and `ApiResponse` treat texts: `Documents` is the grammar of
RFC 8259 (sections 2 to 7) as derivations that keep the white space and the raw
spelling of every name, the single-pass scan and the stack walk are proved against
it, and `Unambiguous` proves that a text has one derivation. Members are ordered as section 3.2.3 of RFC 8785 asks.

**Calls and sessions.** `Ledger` and `Session` are the managed session and its call
accounting, `Relay` and `RelayServer` the loopback relay, `Account`, `AccountLogin`
and `AccountController` the account controller. What each has taken, and what it lets
through, is told by the events before: `LedgerAccepts`, `SessionHistory` and
`SessionFrames`, `RelayHistory` and `RelayLimits`, `AccountHistory`, `AccountOutcomes`
and `AccountLimits`. `Broker` is the capability broker
with its chain of promises: each call keeps the promise it found as `tail`, and the
order of the handlers follows from the chain alone, since there is neither a lock nor
a queue.

**Streams.** `ByteLines` and `Framing` are the newline framer, `Transport` the
correlation of requests and responses (section 5 of JSON-RPC 2.0).

A module that follows imperative code has a class or a method with loops whose
contract ties it to a function of the old state; the results about all inputs and
all runs are lemmas about those functions. The classes of the state machines keep
the invariant of their runs as `Valid()`, and what the runs promise is stated on the
object too. System calls, timers, signals, the native
process and library parsers appear as the arguments of a step: a step is given how
its call ended and, where that is possible, whether a call that failed took effect
all the same.

## Where the code falls short of a stated property

- **A login completion that arrives between the response and the end of the login.**
  A single matching login-completed notification is meant to lead to the same account
  state whether it comes before or after the response. It does not when it is handled
  after the response has been taken but before the finished operation is no longer
  active (src/codex-account.ts:150): the notification then aborts a login that has
  succeeded, the caller gets an abort, and the controller ends in `recovery-required`,
  two generations on (src/codex-account.ts:204-211). `AccountLogin.NoticeInBetween`
  shows the case and `AccountLogin.CompletionTiming` the exact condition. The
  controller takes any `transportFactory`, and the case needs one that can deliver an
  event from a promise callback: with the repository's own stdio transport
  (src/codex-account-transport.ts) nothing but promise callbacks runs in that gap, so
  no frame is handled in it.
- **The last lease generation.** An acquire on a free row at generation 2^53-1 writes the
  row and then throws (src/accounts.ts:43-49): `Leases.LastGenerationIsLost` is the
  case. A refused acquire changes the table exactly when its arguments are valid and it
  finds the row free at generation 2^53-1 or more (`Leases.RefusedYetTaken`); in a run
  that is 2^53-1 exactly, after as many grants and releases
  (`Leases.RefusedYetTakenInRuns`), and a run does get there
  (`Leases.GenerationsReached`). The row then stays held and no token can release it:
  `Leases.OutOfGenerationsIsFinal`. Numbering and release order still hold.

## Model

| member | source | states |
|---|---|---|
| CustodyRuns.AtMostOneGroup | src/codex-managed-process.ts:289-347 | in every run of any number of owners of either launcher, with a crash possible at every step, two owners whose native groups have members are the same owner |
| CustodyRuns.LockCoversLaunch | src/codex-account-process.ts:255-322 | from the mark of its launch until it removes the lock, the lock file is there, whole and its own; a group with a member is covered by its owner's lock |
| CustodyRuns.RemovalsAreProven | src/codex-managed-process.ts:384-390 | every removal in every run took the remover's own whole lock; at that moment the last record was exactly what the owner knew, it told of no launch or of an exited root, an absent group and joined streams, it told of a launch exactly if there was a child, and the group was empty; no owner removes twice |
| CustodyRuns.LiveGroupIsOnRecord | src/codex-account-process.ts:296-298 | in every run, crashed owners included, a group with a member is on record: its owner's journal ends with a record of a launch whose group is not known to be absent |
| CustodyRuns.RetryLeavesSuccessor | src/codex-managed-process.ts:390-393 | after an owner has removed its lock, no step of any later stop attempt changes the lock file, whoever holds it then, and its group stays empty |
| CustodyRuns.StaleLockStays | src/codex-account-process.ts:170-174 | the lock of a crashed owner is never taken over or removed in any continuation |
| CustodyRuns.EndedMeansReleased | src/codex-managed-process.ts:394-399 | in every run a stop that is over has closed and released: its journal has not failed and is closed, what the owner knows is its last record, its group is empty, and an owner that launched has removed its lock |
| CustodyRuns.RestMeansRecovery | src/codex-managed-process.ts:396-399 | in every run a stop that has begun and rests short of its end tells of recovery; the account launcher may also rest closed |
| CustodyRuns.RecordsTellTheirPhase | src/codex-managed-process.ts:324-395 | every record of every journal tells what must be so in its phase: no launch while preparing, a running process not exited, a release or an end only with the exit, the absent group and the joined streams |
| CustodyRuns.StoppedNeverLaunches | src/codex-managed-process.ts:285-288 | an owner told to stop before its launch never launches in any continuation |
| CustodyKnowledge.KnowledgeIsTrue | src/codex-account-process.ts:305-325 | in every run an owner that takes its root for exited, or its streams for closed, is right about the root, and one that takes its group for absent is right about the group |
| CustodyKnowledge.Learns | src/codex-managed-process.ts:333-352 | what may set each flag an owner keeps: the exit event, a failed spawn's close event or a failure before the launch; for the group also the probe, which is made of an exited root whose group is its own; the group as its own only by a successful look |
| CustodyClean.CleanRelease | src/codex-account-process.ts:349-393 | a settled owner with its own whole lock, its process gone and room for two records, whose calls all succeed, ends over in either launcher, with the lock absent, the release recorded before it and, in the managed launcher, the end after it |
| CustodyClean.CleanEnd | src/codex-managed-process.ts:378-397 | a stop without a lock, or one that only owes the directory sync, ends over when its calls succeed and leaves the lock file to whoever has it |
| CustodyClean.FailedEarlyEnds | src/codex-managed-process.ts:348-395 | in every run an owner whose preparation failed before a launch can be stopped: with its whole lock it releases it, without one it leaves the file alone |
| CustodyClean.FailureRecorded | src/codex-account-process.ts:385-391 | a stop whose call fails rests in recovery, with that on record unless the journal is what failed, and gives up nothing it holds |
| CustodyRuns.ActKeeps | src/codex-managed-process.ts:359-400 | every step of every owner keeps the invariant that links lock content, journal, launch flags and child of all owners |
| Custody.StepKeeps | src/codex-account-process.ts:237-393 | an owner creates the lock only when it is free, writes only its own partial lock, and unlinks only its own whole lock with a last record that is terminal and true of it; each step keeps the owner's invariant |
| Custody.StepEvident | src/codex-account-process.ts:289-393 | each step of an owner keeps its journal truthful: a launch is on record before the child exists, and no record forgets a live group |
| Custody.PrepareKeeps | src/codex-managed-process.ts:289-352 | each step of the preparation of either launcher, failing calls with and without effect included, keeps the owner's invariant |
| Custody.StopKeeps | src/codex-managed-process.ts:364-397 | each step of a stop attempt short of the unlink keeps the owner's invariant, failed attempts and retries included |
| Custody.UnlinkKeeps | src/codex-managed-process.ts:388 | after the unlink, whether reported as done or as failed, the owner has no lock and its group is empty |
| Custody.SpawnKeeps | src/codex-account-process.ts:303-309 | a spawn that throws, returns without a process id or returns with one keeps the invariant; a thrown spawn is never read as proof that nothing started |
| CustodyOwner.OwnedCore.StopAndJoin | src/codex-managed-process.ts:359-400 | a whole undisturbed call, updating the owner in place, ends exactly where the step relation ends for the same replies, lock file included, and the lock file changes only to absent, from the owner's own whole lock; a stop that is over is closed, released and on record with a sound journal; with the lock held, the process gone and every call a success it ends over, with the lock absent and one more record in the account launcher, two in the managed one; without a lock it ends over and leaves the file alone |
| CustodyOwner.OwnedCore.Advance | src/codex-account-process.ts:349-388 | each stage of the stop updates the owner and the lock file as one step of the model |
| CustodyOwner.OwnedCore.CreateLock | src/codex-account-process.ts:252-257 | the exclusive create, marked as owned only once it has returned, is one step of the model on owner and lock file |
| CustodyOwner.OwnedCore.MarkLaunch | src/codex-managed-process.ts:323-324 | the last checks, with the second reading of the lock in the managed launcher only, are one step of the model |
| CustodyOwner.OwnedCore.RecordRunning | src/codex-account-process.ts:318-322 | the last checks fail the preparation without touching the journal, and otherwise the running process is recorded |
| CustodyOwner.StepValid | src/codex-account-process.ts:237-393 | whatever step an owner takes on the lock file of the moment leaves owner and lock file within the invariant of all runs |
| CustodyOwner.OwnedCore.PersistState | src/codex-account-process.ts:227-235 | a journal write appends the whole current state or spoils the journal; a full journal is spoiled only in the account launcher |
| CustodyOwner.ProceedsIsRun | src/codex-managed-process.ts:364-397 | an undisturbed stop is one of the interleaved runs the safety results quantify over |
| CustodyLife.Released | src/codex-account-process.ts:344-393 | for either launcher there is a run that launches a process, with its four records, and after its end removes its lock |
| Leases.NthGrant | src/accounts.ts:40-50 | in every run of acquire, renew, release and recover, the n-th grant of an account carries generation n |
| Leases.OneReleaseBetween | src/accounts.ts:63-69 | between two consecutive grants of an account lies exactly one successful release |
| Leases.OldTokensAreDead | src/accounts.ts:52-69 | a token of an earlier grant, or of one already released, changes no row: renewal is refused and release reports nothing done |
| Leases.OnlyCurrentTokenReleases | src/accounts.ts:63-69 | a release succeeds only with the token of the newest grant, and only while that grant is out |
| Leases.NewestTokenWorks | src/accounts.ts:52-69 | in every run a well-formed token renews and releases exactly if it is the newest one granted or renewed for its account and nothing was released since |
| Leases.GrantedExactly | src/accounts.ts:40-50 | in every run an acquire is granted exactly if it is well formed, as many leases were released as granted and a generation is left; it is then granted to its owner for the time asked for, and is refused as invalid or as busy for just those reasons |
| Leases.LastGenerationIsLost | src/accounts.ts:43-49 | an acquire on a free row at generation 2^53-1 is refused and leaves the row held at a generation no token can carry |
| Leases.RefusedYetTaken | src/accounts.ts:40-50 | a refused acquire changes the table if and only if its arguments are valid and it finds the row free at generation 2^53-1 or more |
| Leases.RefusedYetTakenInRuns | src/accounts.ts:40-50 | in every run the condition is generation 2^53-1 exactly, and then there have been that many grants and releases |
| Leases.GenerationsReached | src/accounts.ts:40-69 | for every generation up to 2^53-1 there is a run that leaves the row free at it |
| Leases.OutOfGenerationsIsFinal | src/accounts.ts:93-98 | once generations run out the row is held for ever and nobody is granted or releases the account |
| Leases.SqliteAccountLeases.Acquire | src/accounts.ts:40-50 | the insert-or-conditional-update and the check of the returned row are one step on the table, and a grant carries the number of grants and releases so far plus one |
| Leases.SqliteAccountLeases.Renew | src/accounts.ts:52-60 | renewal is a compare-and-set on owner, generation and expiry, and with a released generation changes nothing |
| Leases.SqliteAccountLeases.Recover | src/accounts.ts:78-82 | recovery without proof changes nothing and with proof is a release of the same token |
| JournalWriter.PrefixReads | src/codex-process.ts:39-72 | every prefix of a written journal with at least one whole line is accepted and gives the last whole record's snapshot, with an incomplete tail exactly when the prefix ends inside a record |
| JournalWriter.Launcher.ReadBack | src/codex-process.ts:39-72 | reading back any such prefix of the launcher's own file gives a snapshot it wrote |
| JournalWriter.LastLinePinsJournal | src/codex-process.ts:43-70 | with a collision-free digest the last line of an accepted journal determines all earlier lines |
| JournalWriter.Launcher.Persist | src/codex-process.ts:173-183 | a record is appended whole or a part of it, never anything else, and whole exactly if the journal is open and sound, the record fits and the write calls and the sync take it; after a failure nothing more is written; the file only grows and stays a chain |
| JournalWriter.Launcher.Append | src/codex-process.ts:179-180 | the write loop with short writes appends exactly the prefix it reports, up to the first call that takes nothing |
| JournalWriter.Launcher.StopAndJoin | src/codex-process.ts:272-311 | whatever the process does during the waits, later states evolve from earlier ones; nothing is left to signal or both signals were sent, the one to terminate first; the scratch directory is dropped only on a complete and clean proof and a missing proof leaves an error; a process that ends by itself with nothing failing leaves a clean receipt, no scratch directory and, if the record fits, the receipt as the last record |
| JournalWriter.Launcher.SignalRounds | src/codex-process.ts:277-289 | at most two rounds of signals, to terminate and then to kill, both unless nothing is left to signal, and none to a process already seen to be gone |
| JournalWriter.Launcher.PollAbsent | src/codex-process.ts:283-286 | the polling goes on only while probes find the group there, and ends with the group known absent exactly if the last probe found it gone |
| JournalWriter.Launcher.Happen | src/codex-process.ts:224-226 | whatever events come during a wait, in any order: the exit, the close and a spawn error are noted exactly if they are among them |
| JournalWriter.Launcher.Conclude | src/codex-process.ts:296-309 | the scratch directory is dropped exactly after a clean proof and a removal that succeeds; drift, a failed removal and a failed last write are each noted; the last record is the receipt or a failed write is noted |
| JournalWriter.Launcher.Ready | src/codex-process.ts:243-251 | the process is ready exactly if nothing failed before, its group was found to be its own and that was recorded; otherwise a startup failure is noted |
| JournalWriter.Launcher.ObserveAbsent | src/codex-process.ts:252-256 | absence is recorded only for an exited root whose group was proven its own, on a definite answer |
| Journals.ParseCustodyJournal | src/codex-process.ts:39-72 | the reader's loop computes the line by line verdict with its chain, order and regression checks |
| Journals.AcceptedIsSound | src/codex-process.ts:39-72 | a journal is accepted exactly when it is within its bounds and every whole line holds a sound record that is numbered, names the digest of the line before and takes nothing of it back; what is recovered is the last one's snapshot |
| Journals.RefusedForFirstFlaw | src/codex-process.ts:40-69 | a journal is refused with the fault of its first line that is not sound, unless it is too long or has no or too many lines |
| ApiResponse.ParseResponse | src/codex-api-response.ts:99-123 | a derivable text is accepted exactly when it is within the size bound and has no two equally named members, nesting at most 32, finite numbers only and at most 32768 nodes; nothing else is accepted; each rejection names its cause: a text out of bounds, a nesting or a tree too large, a repeated name, a number not finite, or a text that is not JSON |
| ApiResponse.ScanExact | src/codex-api-response.ts:105-121 | on every derivable text the scan passes exactly the texts without repeated decoded names nested at most 32 deep, and then the tree is at most 32 deep, so the walk's depth test cannot fail |
| ApiResponse.CheckTree | src/codex-api-response.ts:88-98 | the explicit-stack walk passes exactly the trees within the node and depth bounds with finite numbers |
| ApiResponse.InvalidMeansRepeated | src/codex-api-response.ts:112-114 | the scan calls a derivable text invalid only because an object repeats a name |
| Unambiguous.OneDerivation | src/codex-api-response.ts:99-123 | two derivations of one text agree in everything the text shows, and so in tree, nesting and repeated names |
| Unambiguous.DocUnique | src/codex-api-response.ts:105-121 | two values that begin the same text, each ending where a value may end, are alike and end at the same place |
| Unambiguous.LibraryParseTotal | src/codex-api-response.ts:101-102 | what is asked of the library parser can be met on every text, so it excludes none |
| Documents.ScanDoc | src/codex-api-response.ts:106-121 | wherever a value stands in a text, the scan raises that value's first fault or leaves the container stack as it was |
| Documents.VerdictExact | src/codex-api-response.ts:114-120 | a fault is raised exactly for a repeated name or a container nested too deep |
| Documents.ScanString | src/codex-api-response.ts:108-115 | a string with escapes is one token, and as a name it is looked up and recorded decoded |
| Scanner.ScanNames | src/codex-api-response.ts:105-121 | the index loop with its stack of containers computes the token by token scan |
| Canonical.CanonicalRoundTrip | src/canonical-json.ts:18-72 | reading canonical text gives back the value up to member order |
| Canonical.CanonicalTextDecidesEquality | src/canonical-json.ts:70-76 | two values have the same canonical text exactly when they are equal with members unordered |
| Canonical.MemberOrderIsInvisible | src/canonical-json.ts:60-64 | any two orders of the same members print identically |
| Canonical.SortedUnique | src/canonical-json.ts:60 | sorting by code units leaves no freedom: two sorted sequences with the same members are equal |
| CanonicalEncoder.CanonicalJsonExact | src/canonical-json.ts:18-72 | on every finite object graph, shared or cyclic, the printer succeeds exactly when the reachable part is acyclic and admissible, and returns the canonical text of the unfolded tree |
| CanonicalEncoder.CanonicalJsonDecidesEquality | src/canonical-json.ts:70-72 | two graphs print alike exactly when their unfoldings are equal with members unordered |
| CanonicalEncoder.EncodeCanonical | src/canonical-json.ts:18-68 | the recursion terminates on every heap, computes the encoding, and leaves the ancestor set as it found it on success and failure |
| CanonicalEncoder.CanonicalJson | src/canonical-json.ts:70-72 | the text of an accepted graph is the compact print of a value equal to the graph's unfolding whose members stand in the order of their names everywhere |
| CanonicalForm.CanonicalTextShape | src/canonical-json.ts:18-72 | canonical text is a derivation of the JSON grammar without white space that means the value, with the members of every object in the order of their names |
| EncoderFaults.RefusalNamesDefect | src/canonical-json.ts:18-68 | a refused graph has a chain of elements and members from the value to what the error code names: the value, hole, property, prototype or string at fault, or a value met before on the chain for a cycle |
| EncoderFaults.PrimitiveTexts | src/canonical-json.ts:19-28 | the text of every value that is not an object, and exactly which have none |
| EncoderFaults.AdmittedTexts | src/capabilities.ts:49-58 | which primitives each of the three serializers takes, and the text of each |
| Texts.LessIsBefore | src/canonical-json.ts:60 | names are compared by the first code unit in which they differ, as numbers, a beginning coming first |
| Texts.EscapeTable | src/canonical-json.ts:20-23 | how each code unit is written inside quotes, as section 25.5.4.3 of ECMA-262 has it |
| Utf8.Utf8LenExact | src/capabilities.ts:45 | the bytes counted for a string of paired surrogates are those of the one byte sequence that decodes to it as UTF-8 |
| Texts.AssertUnicodeScalarString | src/canonical-json.ts:7-16 | the index loop accepts exactly the strings in which every surrogate is half of a pair |
| Texts.UnquoteQuoted | src/canonical-json.ts:20-23 | every string survives quoting and unquoting, unpaired surrogates included |
| Json.ParsePrint | src/canonical-json.ts:18-68 | the reader inverts the printer on every value and stops where the printed value ends |
| Snapshots.Snapshot | src/capabilities.ts:41-83 | the running pass with its two counters computes the bounded copy, its text and its counts from zero, on any heap |
| Snapshots.Visit | src/codex-managed-catalog.ts:29-68 | one visit updates the counters exactly as the specification counts, for either serializer's limits |
| SnapshotExact.SnapshotAccepts | src/capabilities.ts:41-83 | on every heap a bounded serializer accepts exactly the graphs that unfold within all its limits, its byte count is the UTF-8 length of the text, and the copy is the normal form |
| SnapshotExact.CapabilityAccepts | src/capabilities.ts:7-9 | the broker's limits by number: depth 16, 8192 values, 256 members, 4096 elements, names of 1024 bytes |
| SnapshotExact.CatalogAccepts | src/codex-managed-catalog.ts:13-31 | the catalog's limits by number: depth 32, 65536 values, 256 members, 4096 elements, 4 MiB |
| SnapshotExact.SnapshotOfCopy | src/capabilities.ts:41-83 | serializing the copy again, however laid out, gives the same copy, text and counts |
| SnapshotExact.SerializersAgree | src/codex-managed-catalog.ts:23-70 | the broker's serializer, the catalog's and the canonical printer return the same text for every value that any two of them accept |
| SnapshotExact.VisitingUnfolds | src/capabilities.ts:44-81 | whatever is accepted unfolds to a finite tree, so no cycle is ever accepted |
| Framing.Pipe | src/devin-acp.ts:63-102 | however a byte stream is cut into chunks, the frames and the outcome are those of splitting the whole stream at its line feeds; told by place, the frames are exactly the lines within the bound that carry one, blank lines left out, before the first bad line, whose fault is the outcome |
| Framing.Framer.Transform | src/devin-acp.ts:81-96 | one chunk keeps the framer in step with the stream so far, and after an accepted chunk the open line is within the bound |
| Framing.Framer.Flush | src/devin-acp.ts:97-100 | at the end the open line is checked like any other |
| Framing.FollowsOverflow | src/devin-acp.ts:92-93 | an open line over the bound already decides the outcome of the whole stream, whatever follows |
| Framing.FramesDeliver | src/devin-acp.ts:66-80 | any outcome by places: no line before the end has a flaw, the frames are the lines that carry one in order, and the fault is that of the first bad line |
| ByteLines.SplitBack | src/devin-acp.ts:84-91 | the pieces hold no line feed, and written out again they are the stream |
| ByteLines.SplitAppend | src/devin-acp.ts:84-92 | splitting is local: only the piece at the seam of two parts joins |
| ByteLines.Cut | src/codex-process.ts:41 | a prefix of lines is some whole lines and a beginning of the next |
| Relay.RequestsAreCalls | src/codex-relay.ts:301-325 | without a failure and with no request in flight, requests equal issued calls, plus one once the final text exists |
| Relay.FollowUpsCarryHistory | src/codex-relay.ts:215-254 | the k-th request sent on is the initial input followed by one call and output pair for each of the first k calls in issue order, the outputs being exactly those handed back |
| Relay.FinalMeansReadBack | src/codex-relay.ts:265-288 | once the final text exists, every call has been claimed exactly once, its output written and read back |
| Relay.FailureStays | src/codex-relay.ts:303 | a failure is never forgotten and a failed relay neither counts nor forwards a request |
| Relay.StepKeeps | src/codex-relay.ts:298-374 | every event, in any order, keeps the accounting of requests, calls, claims and forwarded inputs |
| RelayHistory.FinalTextIsAnswered | src/codex-relay.ts:280-288 | in every run the final text is x exactly if an accepted final response carried x |
| RelayHistory.CallsAreIssued | src/codex-relay.ts:272-279 | every call the relay holds was brought by an accepted response, with its id, tool and arguments |
| RelayHistory.PartsAreSet | src/codex-relay.ts:338-373 | a call is claimed, written, started, completed or read back exactly if an accepted claim, write, item or follow-up of it is among the events |
| RelayHistory.PrefixIsFirstBody | src/codex-relay.ts:215-229 | the prefix every later input must repeat is that of the first accepted body |
| RelayHistory.TurnGoesThrough | src/codex-relay.ts:298-378 | a whole turn with one call goes through every step to its result |
| RelayLimits.FailsExactly | src/codex-relay.ts:213-318 | the events that fail a relay, and no others: each request, input, returned history or response that is not as it must be, with the limits by number |
| RelayLimits.HistoryGrows | src/codex-relay.ts:231-253 | a later request sent on extends every earlier one, item ids and tool names included |
| RelayLimits.LimitsKept | src/codex-relay.ts:301-337 | in every run no more requests are made than configured and fewer calls issued; nothing is sent on before the turn is bound; the binding is that of the first bind; closed means a close |
| RelayServer.LoopbackRelay.OnRequest | src/codex-relay.ts:299-305 | the admission of a request, with its counters, is one event of the model |
| RelayServer.LoopbackRelay.OnBody | src/codex-relay.ts:213-233 | the first input is bound as the prefix and a later one must extend it by two items per call |
| RelayServer.LoopbackRelay.OnCheck | src/codex-relay.ts:235-253 | one turn of the loop over the calls, after its write has settled, is one event of the model |
| RelayServer.LoopbackRelay.OnResponse | src/codex-relay.ts:256-297 | the handling of a buffered response is one event: a new call, the final text, or a failure |
| RelayServer.LoopbackRelay.ClaimCall | src/codex-relay.ts:338-355 | a claim hands out the arguments of the issued call and is recorded, exactly if the relay is open, the turn its own, and the call unclaimed with the same tool and arguments |
| RelayServer.LoopbackRelay.CompleteCall | src/codex-relay.ts:356-362 | a completion is taken exactly if it is within its bound and the first one for a claimed call, and starts the write |
| RelayServer.LoopbackRelay.OnToolItem | src/codex-relay.ts:363-373 | a tool item is taken exactly if it begins a call of the same turn, tool and arguments for the first time, or completes one begun and claimed with its recorded outcome for the first time |
| RelayServer.LoopbackRelay.Receipt | src/codex-relay.ts:332-334 | on an object without failure and with no request in flight the receipt's requests are its calls, plus one once the final text exists |
| RelayServer.LoopbackRelay.Result | src/codex-relay.ts:375-378 | a result is released only when requests are calls plus one and every call made its whole round trip; the text is that of an accepted response and of the observed final message, and each call's output is the completion the relay was given |
| Session.OutputIsTheAnswer | src/codex-managed-session.ts:196-234 | a session accepted through its turn's completion outputs the one completed final answer, or without one the last completed unphased message; no callback or tool item follows it, and every call started has been written and completed |
| Session.AnsweredOnce | src/codex-managed-session.ts:104-111 | a request answered or given up is never answered again in any continuation, and at most four are open |
| Session.NothingAfterFinal | src/codex-managed-session.ts:175-211 | once a final answer is there, any further answer, callback or tool item fails the session |
| Session.CompletionIsFinal | src/codex-managed-session.ts:228-234 | after completion no accepted frame changes the output or the calls |
| SessionHistory.CallbacksAreAnswered | src/codex-managed-session.ts:170-183 | every callback accepted was answered in writing with the broker's text, or with the denial exactly if there was none fit to send, and the answer stands in every later state |
| SessionHistory.ScopeIsAnswered | src/codex-managed-session.ts:112-166 | the thread and the turn are those of the accepted responses, and every frame accepted after them is of that scope |
| SessionHistory.SessionGoesThrough | src/codex-managed-session.ts:104-234 | a whole session with one call goes through every frame to its output |
| SessionFrames.ItemAcceptedExactly | src/codex-managed-session.ts:189-227 | an item that is no tool call is accepted exactly if it is sound, of the session's turn and before its end, new with room or now completed as the kind it began as, and, when it could be the answer, before a final one |
| SessionFrames.DeltaAcceptedExactly | src/codex-managed-session.ts:235-244 | a delta is accepted exactly if it is bounded, of the session's turn, before its end, and for an item begun as that kind and not completed |
| SessionFrames.AnnouncedExactly | src/codex-managed-session.ts:245-255 | a turn may be announced until it ends: by its own id once answered, and before that at most eight times, by one id and for the one request that could start it |
| SessionFrames.AcceptedIsSound | src/codex-managed-session.ts:133-256 | every accepted frame is by itself what its kind must be |
| SessionFrames.ItemsLive | src/codex-managed-session.ts:198-201 | an item is shown at most twice, first as begun and then as completed, and of one kind |
| SessionFrames.WithinLimits | src/codex-managed-session.ts:170-201 | at most 1024 items and 1024 callbacks, no two callbacks under one key, at most eight early announcements |
| SessionFrames.CallbackNeeds | src/codex-managed-session.ts:170-177 | a callback is accepted only under a new key, before the turn's end and before a final answer |
| Session.ManagedSession.OnRequest | src/codex-managed-session.ts:104-107 | a request takes the next number, and with four open it fails the session |
| Session.ManagedSession.OnItem | src/codex-managed-session.ts:189-227 | the handling of item frames, updating the session in place, accepts and changes exactly what the model does; a refused frame fails the session |
| Session.ManagedSession.OnCallback | src/codex-managed-session.ts:170-183 | a callback is claimed, answered in writing with what is due for the broker's answer, or fails the session |
| Session.ManagedSession.OnResponse | src/codex-managed-session.ts:147-167 | responses bind the thread and the turn once, in agreement with an early announcement |
| Session.ManagedSession.OnTurnCompleted | src/codex-managed-session.ts:228-234 | completion finishes the ledger and fixes a non-blank output within its bound |
| Session.ManagedSession.OnTurnStarted | src/codex-managed-session.ts:245-255 | an early announcement counts only for the one open request, at most eight times |
| Session.ManagedSession.Result | src/codex-managed-session.ts:228-234 | an object that has not failed gives out a text exactly when its turn is complete, and that text is the answer among the frames it heard, with every call made in full |
| Ledger.MovesInOrder | src/codex-managed-ledger.ts:34-73 | in every run a call makes each of its five moves at most once, and each only after the one before |
| Ledger.ClaimsWhatWasObserved | src/codex-managed-ledger.ts:55-62 | a claim asks for the tool and the arguments announced for the call, gets the capability that stands for the tool, and a value equal to the arguments |
| Ledger.CompletesWhatWasAnswered | src/codex-managed-ledger.ts:46-53 | the item that completes a call says whether it succeeded and the text it was answered with |
| Ledger.CycleGoesThrough | src/codex-managed-ledger.ts:34-73 | a new call announced, asked for, answered within the bound and reported as answered goes through all five moves, and nothing else changes |
| LedgerAccepts.AcceptedExactly | src/codex-managed-ledger.ts:18-77 | in every run each operation is accepted exactly when the moves made before ask for it: of the ledger's turn, in order, once, for the call as announced, within the number and size limits |
| Ledger.CountsDescend | src/codex-managed-ledger.ts:78-82 | completed, written, answered, claimed and started counts never exceed the one before, nor the limit |
| Ledger.FinishIsFinal | src/codex-managed-ledger.ts:74-77 | after finish all receipt counts agree, every operation is refused and nothing changes |
| Ledger.CodexManagedCallLedger.Bind | src/codex-managed-ledger.ts:18-21 | the scope is bound once; a bad turn id is refused with the thread already bound |
| Ledger.CodexManagedCallLedger.Observe | src/codex-managed-ledger.ts:34-54 | item notifications start and complete a call exactly as the model does, and the object keeps the invariant of all runs |
| Ledger.CodexManagedCallLedger.Claim | src/codex-managed-ledger.ts:55-62 | a claim is granted once, for the same tool and equal arguments, and parses the recorded text again |
| Ledger.CodexManagedCallLedger.Respond | src/codex-managed-ledger.ts:63-68 | a response is taken once, after the claim and within its bound |
| Ledger.CodexManagedCallLedger.Finish | src/codex-managed-ledger.ts:74-77 | finishing succeeds once, when every call is completed and written |
| Account.SignedInIsProven | src/codex-account.ts:95-186 | whenever the account shows as signed in, the generation shown is current, a check or a logout began it, a subscriber's answer and every model page were read for it after the logout if there was one, the models shown are those of the pages, and nothing has invalidated it since |
| Account.StepKeeps | src/codex-account.ts:99-263 | that invariant, which ties each stage of an operation to what the operation was begun for, is kept by every operation, reply, notification, abort, timeout, handler and close, in any order |
| AccountHistory.RequestsFollowWants | src/codex-account.ts:189-230 | in every run what is asked of the account is what the operation of that generation wanted: a logout is sent only for a logout, and before it reads the account; logins and cancels only for theirs |
| AccountHistory.SuccessIsAchieved | src/codex-account.ts:160-230 | an operation reported as done has done what it was begun for: the account read to its end, the login opened, the cancel or the logout answered |
| AccountOutcomes.CheckSignsIn | src/codex-account.ts:160-189 | a check answered by a subscriber with valid pages up to a last one shows signed in, with exactly those models |
| AccountOutcomes.CheckShows | src/codex-account.ts:160-189 | a check shows signed out, signing in or unavailable by the account's answer |
| AccountOutcomes.LogoutShows | src/codex-account.ts:225-230 | a logout logs out, then reads the account and shows it |
| AccountOutcomes.LoginShows | src/codex-account.ts:190-214 | a login answered in time waits under its id |
| AccountOutcomes.CancelShows | src/codex-account.ts:215-224 | a cancelled login leaves the account unchecked with none pending |
| AccountOutcomes.FailureShows | src/codex-account.ts:126-213 | a reply the operation cannot use shows the account unavailable in the operation's own generation, or, for a login sent, requires recovery one generation on |
| AccountOutcomes.InterruptionShows | src/codex-account.ts:138-154 | an abort or a timeout is shown at once, each as itself, while the operation's task still waits |
| AccountOutcomes.NoticeRevokes | src/codex-account.ts:99-116 | a notification that counts invalidates the account, forgets the pending login and aborts the operation |
| AccountOutcomes.CloseRevokes | src/codex-account.ts:231-261 | a close revokes the operation and the snapshot at once |
| AccountOutcomes.CloseShows | src/codex-account.ts:236-260 | a close ends closed exactly when there was nothing to stop or the stop was proven, and otherwise requires recovery |
| AccountOutcomes.ClosingIsFinal | src/codex-account.ts:135-260 | once closed, nothing is begun or shown any more |
| AccountOutcomes.LetInExactly | src/codex-account.ts:134-137 | exactly which operations are let in |
| AccountOutcomes.AbortedIsDeaf | src/codex-account.ts:126-133 | whatever reply still comes for an aborted operation, nothing is shown, recorded or sent for it |
| AccountLimits.ListsWithinLimits | src/codex-account.ts:169-185 | in every run the models shown are at most 5000 and different, no page has more than 500, no cursor is followed twice and no listing follows more than nineteen |
| AccountLimits.PageExactly | src/codex-account.ts:171-185 | exactly when a page is accepted, ends the list, or lets it go on |
| AccountLimits.IdsWithinLimits | src/codex-account.ts:101-110 | in every run at most eight early completions are kept, and login ids have 1 to 160 units |
| AccountLogin.CompletionTiming | src/codex-account.ts:99-116 | a single matching completion leads to the same final snapshot and generation exactly if it finds the operation over, or still without its response and with room among the early completions |
| AccountLogin.LoginWaits | src/codex-account.ts:190-196 | the situation the timing results speak of is reached by a first login in two steps |
| AccountLogin.NoticeInBetween | src/codex-account.ts:194-213 | handled between the response and the end of its task, the completion aborts a successful login and the account needs recovery |
| AccountLogin.EarlyNotice | src/codex-account.ts:103-107 | a completion before the response ends like a late one, unless eight others are already kept |
| AccountLogin.LateNotice | src/codex-account.ts:109-115 | a completion after the operation leaves the account unchecked, one generation on |
| AccountController.Controller.Look | src/codex-account.ts:188 | whatever has been called before, an object that shows signed in shows the current generation with the proof for it, and the models of its pages |
| AccountController.Controller.OnEvent | src/codex-account.ts:99-116 | a notification is kept, dropped or invalidates and aborts, in place, as in the model |
| AccountController.Controller.Run | src/codex-account.ts:117-147 | the start of an operation refuses or opens a new generation; a failing factory leaves the controller bound without a usable process |
| AccountController.Controller.OnModels | src/codex-account.ts:171-185 | one page is added, ends the reading, or fails it, with page, model and cursor limits |
| AccountController.Controller.OnLoginReply | src/codex-account.ts:196-203 | the login's response consults the early completions before it publishes |
| AccountController.Controller.RunHandlers | src/codex-account.ts:152-213 | the handlers behind an answer publish a failure only at its own generation and close the account over an unresolved login |
| AccountController.Controller.Close | src/codex-account.ts:231-261 | every attempt at closing, also after an unproven stop, aborts the operation and invalidates before anything else |
| AccountController.Controller.OnStopped | src/codex-account.ts:240-259 | only a proven stop, or nothing to stop, closes; otherwise recovery is required and the attempt is given up |
| Broker.OneAtATime | src/capabilities.ts:156-169 | from the chain of promises alone: two calls whose handlers run are the same call, in every run in which any callback may be tried at any time |
| Broker.HandlersInOrder | src/capabilities.ts:156-170 | handlers start in admission order, each at most once, and only after the reactions of all earlier calls |
| Broker.LimitsHold | src/capabilities.ts:142-155 | pending is the number of admitted calls whose reaction has not run, at most 32, and at most 256 calls are ever admitted |
| Broker.CloseResolvesQuiet | src/capabilities.ts:141 | once any close has resolved every admitted call is finished, and no continuation admits or starts one |
| Broker.NeverStalls | src/capabilities.ts:156-169 | while a call is pending the first unfinished one can always take its next step, so the chain never waits for itself |
| Broker.AdmittedExactly | src/capabilities.ts:142-155 | after any run an invocation is admitted exactly when nothing was revoked, the run is active, the tool known and the input valid, fewer than 256 attempts were made and fewer than 32 admitted calls are open |
| Broker.CallsAreAttempts | src/capabilities.ts:146-147 | the calls counted are the attempts made before any revocation |
| Broker.StartsExactly | src/capabilities.ts:156-164 | a handler starts exactly at the turn of a waiting call with all earlier calls finished, nothing revoked and its input parsed |
| Broker.CapabilityBroker.InvokeCall | src/capabilities.ts:142-155 | an attempt is counted exactly if the broker is active and the tool known; it is admitted exactly if besides the input is valid and both limits have room, and then hangs itself on the tail it finds and becomes the tail |
| Broker.CapabilityBroker.TakeTurn | src/capabilities.ts:156-164 | a call's callback starts its handler exactly while the broker is active before and after the input was parsed, and then no other handler is running |
| Broker.CapabilityBroker.OnReaction | src/capabilities.ts:165-169 | the reaction to a result settles the call's link and counts pending down |
| Broker.CapabilityBroker.FinishClose | src/capabilities.ts:141 | a close that returns leaves a revoked broker with nothing running or to run |
| Transport.IdsAreAccountedFor | src/codex-account-transport.ts:144-166 | pending and retired ids are disjoint and issued, at most 4 pending; while the transport lives every issued id is pending, retired or has had its one response; a failed transport is closing |
| Transport.CallersToldOnce | src/codex-account-transport.ts:93-97 | in every run each caller is told exactly once unless its call is still open, callers whose frame is too large included; each promise is settled once unless pending, and none is pending after failure or close |
| Transport.UnsentKeepsItsPlace | src/codex-account-transport.ts:144-162 | an id whose frame is too large stays pending until its timer, its caller's abort, a response with its id, a failure or the close |
| Transport.StdioTransport.Issue | src/codex-account-transport.ts:144-162 | a request is let through exactly if the transport lives, fewer than 4 are pending and ids are left; it takes the next id and is pending before its frame is measured; a frame over the bound is not sent and its caller rejected at once |
| Transport.ResponseTakesOne | src/codex-account-transport.ts:198-210 | an accepted response takes exactly one id out of those awaited and tells a caller only if it had not given up |
| Transport.SecondResponseRefused | src/codex-account-transport.ts:199-201 | a second response for an id fails the transport |
| Transport.SettledExactly | src/codex-account-transport.ts:93-162 | while the transport lives a call is settled exactly by an event that causes it, with the outcome it causes |
| Transport.OutcomesHaveCauses | src/codex-account-transport.ts:93-210 | in every run every settlement was caused by one of the events, while the call was pending |
| Transport.AllSettled | src/codex-account-transport.ts:116-120 | the end of the transport tells every pending caller the same, once, in the order of the ids |
| Transport.StdioTransport.SettleEvery | src/codex-account-transport.ts:116-120 | the loop over the pending ids tells every caller once |
| Transport.StdioTransport.OnFrame | src/codex-account-transport.ts:198-210 | a response frame is one event of the model |
| Transport.StdioTransport.GiveUp | src/codex-account-transport.ts:151-162 | an abort, a timeout or a write never made retires the id and tells the caller |
| Transport.StdioTransport.Shutdown | src/codex-account-transport.ts:286-290 | a close tells every pending caller once |

## Left out

- JSON.parse and number syntax: a number is identified with the text the printer gives it (injective on finite numbers other than negative zero), which doubles a numeral overflows is a parameter, and the library parser is taken to read exactly the derivable texts (which `Unambiguous.LibraryParseTotal` shows can be met on every text); `__proto__` names and the order in which `Object.values` lists integer-like names do not matter to the results and are not modelled.
- CanonicalForm.CanonicalTextShape: that numbers are printed in the grammar of numbers is a premise; number printing is the engine's.
- Error codes of the serializers: the bounded serializers report one kind of rejection; whether it was a limit or an inadmissible value is not distinguished. The canonical printer's codes are.
- CanonicalEncoder.CanonicalJsonExact: the engine's call stack has no bound in the model; on a graph deep enough to overflow it the recursion (src/canonical-json.ts:18-68) ends in a range error instead of the text. The same goes for CanonicalEncoder.EncodeCanonical and CanonicalEncoder.CanonicalJsonDecidesEquality; the bounded serializers have their own depth limits.
- Proxies and objects with hooks: graphs are finite heaps of plain arrays, objects and primitives; a value that runs code while it is read is not modelled, nor is a broker call made from inside the copying of another call's input.
- CustodyRuns.AtMostOneGroup: an owner's crash ends its process, not the machine; an unlink undone by a power failure, and the file-system metadata checks around each read, are not modelled. A second launcher outside the two modelled ones that ignores the lock file is outside the claim.
- CustodyRuns.LockCoversLaunch: the lock file's text is identified with its creator, because it names the creator's own run directory; what is modelled besides is whether all of it has been written.
- Custody.StepKeeps: interleavings of several owners are modelled on values; the object in `CustodyOwner` covers one owner's calls in place. Spawn, signals, process lookup and the deadline of each wait are outcomes given to the step.
- JournalWriter.Launcher.SignalRounds: how many probes the rounds make in all is left open; the last look after both rounds is in the body and not in the contract.
- JournalWriter.PrefixReads: a journal is a sequence of bytes; the JSON encoding of a record and the digest are parameters, taken to decode as written and, for the chain result, to be collision-free. Byte-order and decoding of a cut character only affect the incomplete tail and are left out. Error names are a closed list.
- Framing.Pipe: UTF-8 decoding, trimming and JSON.parse of one line are a parameter of the framer.
- Session.OutputIsTheAnswer: the order in which the session sends its own requests is left open; settings updates, usage totals, rate limits, status notices and stream framing change nothing the result speaks of and appear as notices that are allowed or not; deadlines and aborts end the run.
- Ledger.ClaimsWhatWasObserved: the shape checks of timestamps and durations are one flag; negative zero among arguments is refused by the printer and has no counterpart.
- Relay.FollowUpsCarryHistory: the envelope checks of a request (model, instructions, metadata, reasoning, tiers), event-stream parsing, body reading and joining of bodies at close are outcomes given to a step; messages are compared by meaning.
- Account.SignedInIsProven: overflow of the generation counter at 2^53 is not modelled; account plans and model fields are valid or not; the handlers behind one settled promise run as one step, and an unproven close publishes its outcome and is given up in one step.
- Transport.CallersToldOnce: a response taken before its own write has settled counts as told when it is taken; frame, byte and notification limits, the write queue and the native stop appear as a failure event; the join receipt of close is left out.
- Broker.OneAtATime: a promise is the state of the call that settles it; the order in which the engine runs enabled callbacks is left open. Schema checks and the copying of input and output are outcomes given to a step.
- Admission and policy: sandbox profiles, egress, executable and parent pins, the static catalog's model selection, credentials, configuration and the CLI.
- src/browser-session.ts: a third user of the same lock discipline, whose recovery rests on a host proof.
- src/codex-session.ts, src/codex-task-adapter.ts, src/devin-client.ts and the other adapters: variants of the machines above or glue over them.
