# Verified model of toolbench

toolbench reads the transcripts of coding agents, joins every tool call to its result, keeps a ledger of
the tokens each response was billed for, attributes those tokens to an orchestration run, and reports what
it found together with how much of the archive it looked at. This project states what those pieces promise
and proves it for every input.

`dafny verify dfyconfig.toml` checks the whole project. One file holds one module.

## What is modelled

- **Transcript join and usage ledger** (`Options`, `Transcript`, `ToolJoin`, `JoinLaws`, `JoinPositions`, `CallRecords`,
  `UsageLedger`, `Responses`, `ClaudeParser`, `CodexParser`, `ParseLaws`, `CallTraces`, `EntryStreams`,
  `CallCompleteness`, `CodexTraces`, `CodexCompleteness`, `Probe`). The parsers are one-pass machines over a `pending` dictionary.
  The machine is proved equal, on every stream and also when ids repeat, to a definition that looks at the
  whole stream at once. The one-pass `parse` methods are proved equal to separate passes over the records.
  Calls are one to one with the blocks and records that open them, and each response is charged once.
- **Attribution and counters** (`RunManifest`, `Containment`, `RunAttribution`, `RunMeanings`, `CallMarginals`,
  `CallMeanings`, `Reducer`, `OrderInvariance`, `ReorderedSessions`, `Sums`). The reducer's methods update the
  fields of a class; what they add is proved to conserve tokens over every list of transcripts, to keep all
  leaderboards in agreement, and not to depend on the order of the sessions. Each total of a run is the sum
  over the transcript entries that belong to it.
- **Lexical paths and gates** (`PosixPath`, `PathLaws`, `ShellSafety`, `Text`, `ArmAudit`, `TestGate`).
  `normpath` and `join` are string functions, described step by step; the prefix test of the read audit is
  proved to decide containment of components, and the derived test gate to fit its oracle.
- **Discovery** (`Sources`, `Passive`). AgentsView is an immutable archive whose listings are cut into pages
  arbitrarily and may fail at any page. A report's numerators and denominators are proved to describe the
  same population, and a broken listing is never spliced.
- **Corpus fingerprint** (`Sorting`, `Decimals`, `Fingerprint`, `Collisions`), **parameter strings**
  (`Params`), **complexity gate** (`ComplexityGate`), **schema detection** (`SchemaSniff`), **worktree reporter** (`Worktrees`).

Code that updates state in the source is a method here, proved against a function; the laws are lemmas about
that function. An exception is a constructor of a result type. A JSON record arrives decoded, with the fields
the code reads; a line that does not decode is `Malformed`.

## Where the code and its documentation part

- The prefix test of the read audit is the component test only when the root has a component. For the roots
  `/`, `//` and `.` it reports the plain name `a` as an escape (`ShellSafety.TestNeedsAComponent` is the exact
  condition). A component prefix means containment for absolute roots; below the relative root `..` the path
  `../..` has the prefix and lies outside.
- A manifest that lists the branch `HEAD` is accepted, and then detached usage is booked as detached and also
  folded into the run (`RunAttribution.HeadListedCountsTwice`). `RunAttribution.CandidateConserves` gives the
  exact condition for one session, `RunAttribution.RunConserves` what the totals hold for every manifest.
- `AmbiguousSchema` is documented as a programming error that data cannot cause. A record that has both a
  `sessionId` and a codex `type` with a payload raises it (`SchemaSniff.DataIsAmbiguous`;
  `SchemaSniff.WhenAmbiguous` is the exact condition).
- An annotation that holds an equals sign is read back only up to it (`Params.EqualsSignIsCut`;
  `Params.RoundTrip` is the exact condition).
- With a non-positive `warning_delta` the gate on the changed files leaves out warnings that the whole
  comparison gives for unchanged functions (`ComplexityGate.UnchangedIsWarned`;
  `ComplexityGate.RestrictedWarnings` is the exact condition).
- A failing `git rev-parse --verify` reads as "not claimed", whatever made it fail. A clean, idle tree whose
  upstream is live is then offered for removal (`Worktrees.FailedCheckOffersBackedTree`;
  `Worktrees.OfferedIffSafe` is the exact condition).
- A session id may hold a line break that ends a text another session could sign. Then two different sets of
  the same size have one fingerprint (`Collisions.LineBreakInIdCollides`). `Fingerprint.SafeId` is a test of
  the id alone, and `Collisions.SafeIdsAreExact` proves it exact.

## Model

| member | source | states |
|---|---|---|
| ToolJoin.PendingCalls.Put | src/toolbench/parsers.py:423-433 | storing a call under an id already pending replaces the call and keeps its place in the dictionary order |
| ToolJoin.PendingCalls.Pop | src/toolbench/parsers.py:318-319 | popping returns the stored call and removes its id from the order |
| ToolJoin.PendingIsOpen | src/toolbench/parsers.py:315-319 | after any stream an id is pending exactly when the latest event carrying it is a use, and what is stored is that use |
| ToolJoin.StreamIsOffline | src/toolbench/parsers.py:288-333 | on every stream, repeated ids included, the streaming machine and its drain emit exactly what the definition over the whole stream emits, in the same order |
| JoinLaws.JoinConserves | src/toolbench/parsers.py:252-269 | for every stream and every selection of uses, uses enqueued equal calls emitted plus uses overwritten while pending |
| JoinLaws.DistinctJoin | src/toolbench/parsers.py:252-333 | when no id repeats: each use is paired with the first result after it, joined calls come in result order, the unanswered ones follow in arrival order, one call for each use |
| JoinLaws.StrayResultAddsNothing | src/toolbench/parsers.py:299-317 | a result whose id is not pending where it comes leaves the emitted calls unchanged, whatever comes before and after it |
| JoinPositions.CallAtMeaning | src/toolbench/parsers.py:252-333 | when no id repeats, the call at the place computed for a use is that use with the first result after it, or without one |
| JoinPositions.CallAtOnto | src/toolbench/parsers.py:252-333 | when no id repeats, every emitted call stands at the place of some use |
| Transcript.LinesMeaning | src/toolbench/transcript.py:32-45 | wherever a line stands: a record is kept in order, a malformed line is counted, a blank one is neither |
| UsageLedger.UsageTally.AlreadyCharged | src/toolbench/parsers.py:109-118 | true exactly for a key charged before; marks a new key, never a missing one |
| UsageLedger.UsageTally.FoldIntoBuckets | src/toolbench/parsers.py:121-133 | the entry's branch bucket grows by the amount, and for a detached entry its directory bucket too; no other bucket changes |
| UsageLedger.UsageTally.AccountUsage | src/toolbench/parsers.py:136-167 | the whole new tally after one entry, unchanged when the entry carries no usage or its response was charged |
| UsageLedger.LedgerMeaning | src/toolbench/parsers.py:99-167 | totals, each branch bucket and each directory bucket are the sums over the first usage-bearing entry of each billing key and every keyless usage entry |
| UsageLedger.LedgerPartitions | src/toolbench/transcript.py:201-208 | in all five fields the branch buckets add up to the session and the directory buckets to the detached bucket, and no bucket has zero messages |
| Responses.FirstCopyIsCharged | src/toolbench/parsers.py:99-167 | an entry whose response (request id, else message id, else none) no earlier usage-bearing entry had adds its four counts and one message to the session, to its branch and, on no branch, to its directory, and to nothing else |
| Responses.LaterCopyIsFree | src/toolbench/parsers.py:109-118 | any other entry leaves the whole ledger unchanged, whatever its time, branch, directory or message id |
| Responses.CopiesDoNotMatter | src/toolbench/parsers.py:109-118 | dropping such an entry from anywhere in a transcript leaves the ledger unchanged |
| Responses.ChargedMeaning | src/toolbench/parsers.py:99-118 | the charged entries are the first copies, told from the fields of the entries |
| Responses.BucketMeaning | src/toolbench/parsers.py:121-133 | a branch has a bucket exactly when a response was first seen on it, a directory when that happened in it on no branch |
| ClaudeParser.TrackTurn | src/toolbench/parsers.py:170-200 | the turn's counters after one record, or the refusal of an assistant record without a request id |
| ClaudeParser.EnqueueToolUses | src/toolbench/parsers.py:393-433 | the pending calls after an entry are those of the machine run over the entry's uses |
| ClaudeParser.JoinResult | src/toolbench/parsers.py:314-332 | one result block finishes at most the call pending under its id and emits it |
| ClaudeParser.JoinResults | src/toolbench/parsers.py:288-333 | the entry's result blocks in order, or the top-level id when there is none |
| ClaudeParser.AbsorbEntry | src/toolbench/parsers.py:468-495 | one record, in the order usage, turn, uses, results, moves ledger, turns, pending and emitted calls to those of the longer record list; a record that cannot be keyed stops the parse |
| ClaudeParser.Parse | src/toolbench/parsers.py:435-513 | one pass computes the join, the ledger, the turns and the malformed count that separate passes over the records define |
| ParseLaws.ParseKeepsLedger | src/toolbench/transcript.py:201-208 | every parse result, also one that billed nothing, has partitioning buckets and session totals equal to the charged sum |
| ParseLaws.ParseJoins | src/toolbench/parsers.py:435-513 | conservation of the enqueued uses of a transcript, and its calls as answered then orphaned ones when no id repeats |
| ParseLaws.RefusalMeaning | src/toolbench/parsers.py:46-58 | the parse is refused exactly when turns are tracked and a record of the assistant has no request id; otherwise its malformed count is that of the lines |
| ParseLaws.DrainedHaveNoResult | src/toolbench/parsers.py:252-269 | the calls still pending at the end come out in dictionary order, each without result, characters, error and result source |
| ParseLaws.TurnMeaning | src/toolbench/parsers.py:170-200 | a turn is tracked exactly when an assistant record carries its key, and counts all tool_use blocks of such records |
| ParseLaws.CallsFitTurns | src/toolbench/parsers.py:408-433 | under turn tracking every call's key is a tracked turn, and a turn is billed for no more calls than it emitted tool_use blocks |
| CallTraces.EveryCallIsTraced | src/toolbench/parsers.py:288-433 | every call was opened by a tool_use block of some entry and, unless it has no result, answered by the same or a later entry, whose block's own id and content come before the entry's; name, lengths, error, session, usage and turn key are those the records hold |
| EntryStreams.AnsweredMeaning | src/toolbench/parsers.py:288-333 | a tool_use block is answered in the stream exactly when its own entry or a later one carries its id in a result block, or itself when it has none |
| CallCompleteness.EveryUseIsAnEvent | src/toolbench/parsers.py:408-433 | on every transcript, repeated ids included, the uses of the stream are, in order, the tool_use blocks with an id and a name (under turn tracking those of the assistant), each with its own call |
| CallCompleteness.EveryUseMakesOneCall | src/toolbench/parsers.py:288-433 | where no id repeats, such blocks and the calls are one to one: a call has its block's fields, its result comes from the first entry, from its own on, that carries its id, and it has none exactly when no entry does; answered calls come in the order of their answers, the others behind them in the order of their blocks |
| Probe.EveryCallIsAHit | src/toolbench/probe.py:205-215 | in probe mode the filter for raw input and turn key drops no call |
| Probe.IsolableTurnPricesOneCall | src/toolbench/probe.py:280-281 | a call of an isolable turn is the only call of the session billed to that turn |
| Probe.IsolableMeaning | src/toolbench/parsers.py:61-67 | a turn is isolable exactly when all blocks the assistant wrote under its request hold one tool use and no visible text or thinking |
| CodexParser.AbsorbResponseItem | src/toolbench/parsers.py:594-653 | one response item counts as unjoinable, opens a call, finishes a pending one or does nothing; it emits at most one call |
| CodexParser.AbsorbEntry | src/toolbench/parsers.py:671-712 | one record moves session id, model, unjoinable counts and pending calls to what the longer record list defines |
| CodexParser.FirstSessionWins | src/toolbench/parsers.py:678-688 | the session id is that of the first record that names one |
| CodexParser.LastModelWins | src/toolbench/parsers.py:690-694 | the model is that of the last record that names one |
| CodexParser.Parse | src/toolbench/parsers.py:655-717 | one pass with the carried context computes the join over the records taken as a whole |
| CodexParser.ParseJoins | src/toolbench/parsers.py:516-717 | the conservation and pairing laws for codex transcripts |
| CodexTraces.EveryCallIsTraced | src/toolbench/parsers.py:564-653 | every codex call was opened by a record of one of the three call shapes, measured in that shape's input field, stamped with the first session id and the last model named before it, and answered, unless it has no result, by a later record of an output shape with its call id |
| CodexCompleteness.EveryRecordMakesOneCall | src/toolbench/parsers.py:564-717 | where no call id repeats, the records of the three call shapes and the calls are one to one: a call has its record's fields, the first session named and the last model set before it, and the first later output record with its id as its result, or none exactly when there is none; answered calls come in the order of their answers, the others behind them |
| CodexCompleteness.UnjoinableMeaning | src/toolbench/parsers.py:614-619 | exactly the web searches are counted, under their own name, and none of them opens a call |
| PosixPath.NormalForm | src/toolbench/shell_safety.py:118-121 | a path and its normal form have the same leading slashes and resolve to the same components, which are proper names with `..` only as the leading run of a relative path |
| PosixPath.NormalizeIdempotent | src/toolbench/shell_safety.py:107-121 | normalising twice is normalising once |
| PosixPath.JoinAssociative | src/toolbench/shell_safety.py:239-241 | joining is associative on all strings |
| PosixPath.NormalizeComposes | src/toolbench/shell_safety.py:229-246 | normalising root, base and pattern together equals normalising the pattern joined to the normalised base, for every root, base and pattern |
| PathLaws.ParentUndoesName | src/toolbench/shell_safety.py:107-121 | for every path and every name, `..` behind the name leads back to the path |
| PathLaws.NothingAboveRoot | src/toolbench/shell_safety.py:107-121 | at a root `..` changes nothing |
| PathLaws.ParentStays | src/toolbench/shell_safety.py:107-121 | in front of a relative path, and behind a `..` that stayed, `..` stays |
| PathLaws.NameGoesBelow | src/toolbench/shell_safety.py:107-121 | a name behind any path ends its normal form, a slash between them |
| PathLaws.DotStays | src/toolbench/shell_safety.py:107-121 | `.` and the empty component change nothing |
| PathLaws.StepsOfAPath | src/toolbench/shell_safety.py:107-121 | every path is a root or ".", ends in a `..` that stays, or ends in a name behind another path |
| PathLaws.SlashesInFront | src/toolbench/shell_safety.py:107-121 | two leading slashes are kept, three or more are one |
| PathLaws.SlashBehind | src/toolbench/shell_safety.py:107-121 | a slash more behind a path changes nothing |
| PathLaws.ParentEscapes | src/toolbench/shell_safety.py:111-122 | below a normalised root that ends in a name `..` escapes, `../name` escapes exactly when the name is not the root's own, and no plain name escapes |
| ShellSafety.EscapesDecidesContainment | src/toolbench/shell_safety.py:111-122 | for every normalised root with a component and every path string, the string test reports an escape exactly when the resolved path's leading slashes differ or the root's components are no prefix of its components |
| ShellSafety.TestNeedsAComponent | src/toolbench/shell_safety.py:111-122 | the string test is right for every path exactly when the normalised root has a component |
| ShellSafety.SiblingEscapes | src/toolbench/shell_safety.py:122 | a sibling whose name continues the root's name shares the string prefix and is reported, and so is every path that resolves to a place in it |
| ShellSafety.GlobEscapes | src/toolbench/shell_safety.py:215-246 | what is reported of a Glob call: its path, and its pattern read from that path, judged after expansion |
| ShellSafety.GlobPathIsJudged | src/toolbench/shell_safety.py:215-246 | a path that escapes is reported as it stands, and a call without a path is judged by the working directory |
| ShellSafety.GlobJudgesReachedPath | src/toolbench/shell_safety.py:229-246 | the pattern is judged by the path the tool reaches from the resolved base, and reported exactly when that path is outside |
| RunManifest.FindWorktree | src/toolbench/run_manifest.py:46-62 | the scan returns the first of the longest matching worktrees |
| RunManifest.DeepestWins | src/toolbench/run_manifest.py:46-62 | the answer contains the directory and every other containing worktree is a component prefix of it; None exactly when none contains it |
| RunManifest.FirstDeepestWins | src/toolbench/run_manifest.py:46-62 | the answer is an entry of the list that lies in every worktree containing the directory, with no earlier such entry inside it; None when none contains the directory |
| RunManifest.ChosenIsAnswer | src/toolbench/run_manifest.py:46-62 | and such an entry is the answer |
| RunManifest.ContainsBelow | src/toolbench/run_manifest.py:49-57 | a worktree that contains a directory contains every name below it, a directory contains itself, and no directory below it contains it |
| Containment.ContainsOnStrings | src/toolbench/run_manifest.py:46-62 | containment on the strings: the normalised directory is the normalised worktree or continues it behind a slash; "/" holds what starts with one slash, "//" what starts with two, "." nothing |
| RunManifest.OrderDoesNotMatter | src/toolbench/run_manifest.py:46-62 | with distinct component lists the answer is the same for every order and repetition of the list |
| RunManifest.SiblingNotClaimed | src/toolbench/run_manifest.py:49-51 | a worktree claims neither a sibling whose name merely continues its own nor anything in it |
| RunAttribution.MinusLeavesUnclaimed | src/toolbench/reducer.py:354-363 | subtracting the claimed part leaves exactly the sum of the unclaimed directory buckets |
| RunAttribution.MinusNeverNegative | src/toolbench/reducer.py:354-363 | where no directory bucket is negative, the subtraction books nothing negative |
| RunAttribution.NothingNegativeBooked | src/toolbench/reducer.py:257-259 | where no charged entry of the transcript has a negative count, nothing negative is booked |
| RunAttribution.CandidateConserves | src/toolbench/reducer.py:246-279 | a candidate session's cache read (and creation) equals what it adds to run, unattributed and detached exactly when `HEAD` is not a manifest branch or its bucket holds none |
| RunAttribution.HeadListedCountsTwice | src/toolbench/reducer.py:268-276 | with `HEAD` in the manifest, a session of one detached token adds more than it spent |
| RunAttribution.OtherAddsOnlyDetached | src/toolbench/reducer.py:261-263 | a session that is no candidate adds its whole detached bucket to the blind spot and changes nothing else |
| RunAttribution.RunConserves | src/toolbench/reducer.py:246-311 | over every list of sessions and every manifest the three totals together hold what the sessions owe, plus the candidates' detached buckets once more when the manifest lists `HEAD` |
| RunAttribution.TotalsMeaning | src/toolbench/reducer.py:246-311 | over every list of sessions each total is its own sum: run branches plus claimed directories, claimed directories, unclaimed directories, spillover of candidates |
| RunAttribution.SessionsMeaning | src/toolbench/reducer.py:257-305 | the session counts of a run count the sessions that take part, those with detached spending no worktree claims, and those with a claimed directory |
| RunAttribution.SeenMeaning | src/toolbench/reducer.py:106-113 | a branch counts as seen exactly when some session billed on it, a worktree exactly when some detached directory was claimed by it |
| RunAttribution.TranscriptsConserve | src/toolbench/reducer.py:246-311 | from transcript lines to run totals: over every list of transcripts and every manifest the three totals hold the charged responses, each once, and the candidates' detached ones twice when the manifest lists `HEAD` |
| RunMeanings.ClaimedMeaning | src/toolbench/reducer.py:281-293 | a detached directory is claimed exactly when some worktree of the manifest contains it |
| RunMeanings.ParseSpends | src/toolbench/parsers.py:435-513 | totals, branch buckets and directory buckets of a parse are the costs of the first copies of its responses there; cache is measured exactly when some entry bears usage |
| RunMeanings.RunHolds | src/toolbench/reducer.py:246-311 | from transcripts to totals: the run holds what was first seen on its branches or on no branch in a worktree, the blind spot what was on no branch outside of every worktree, the spillover what participating transcripts spent elsewhere |
| RunMeanings.RunCounts | src/toolbench/reducer.py:246-311 | the session counts are the transcripts with a response of the run, with one in a worktree on no branch, and with tokens spent on no branch outside of every worktree |
| RunMeanings.RunSees | src/toolbench/reducer.py:264-293 | a manifest branch is seen exactly when a response was first seen on it, a worktree when one was, on no branch, in a directory whose first deepest worktree it is |
| CallMarginals.MarginalsAlwaysAgree | src/toolbench/reducer.py:179-244 | after every sequence of sessions, calls, tokens, errors and missing results agree over agents, tools and tools by model, and each callout equals the sum of its breakdown |
| CallMeanings.TotalsMeaning | src/toolbench/reducer.py:186-244 | the grand totals count every session, malformed line and call, and churn the calls that failed or were never answered right behind another such call of their tool in their session |
| CallMeanings.RowMeaning | src/toolbench/reducer.py:194-226 | a row of a tool, and its row by model, sums over its own calls one, the output and input characters in fours, failed, never answered, cache hit and usage missing; no model and an empty one are "unknown" |
| CallMeanings.AgentMeaning | src/toolbench/reducer.py:167-192 | an agent's row is the sum over its calls and, in the session columns, over its sessions |
| CallMeanings.RowsAlwaysRefine | src/toolbench/reducer.py:179-226 | after every sequence of sessions a tool's row is the sum of its rows by model in every column, and an agent's row the sum of the rows of its tools |
| CallMeanings.CalloutsMeaning | src/toolbench/reducer.py:206-241 | failures, oversized outputs, fan-out and churn under a tool's name, and deferrals with their tokens, count exactly the calls that are such |
| Reducer.Reducer.constructor | src/toolbench/reducer.py:136-152 | a new reducer holds nothing |
| Reducer.Reducer.Absorb | src/toolbench/reducer.py:154-177 | the whole new state after one session: counters, unjoinable records and run totals |
| Reducer.Reducer.OpenSession | src/toolbench/reducer.py:160-170 | the session-grain counters, once for a session |
| Reducer.Reducer.FoldUnjoinable | src/toolbench/reducer.py:164-166 | the counts by agent and kind grow by the session's, in whatever order its kinds are walked |
| Reducer.Reducer.AbsorbCalls | src/toolbench/reducer.py:179-244 | remembering one call back is enough to find every adjacent bad repeat |
| Reducer.Reducer.AbsorbCall | src/toolbench/reducer.py:189-241 | the counters after one call |
| Reducer.SumClaimed | src/toolbench/reducer.py:281-293 | the loop over directories adds up the claimed buckets and collects the worktrees that claimed them |
| Reducer.Reducer.ClaimDetached | src/toolbench/reducer.py:281-293 | the claimed usage, and the worktrees marked as seen |
| Reducer.Reducer.AbsorbRun | src/toolbench/reducer.py:246-279 | the run totals after one session, with the early return for sessions that take no part |
| Reducer.Reducer.FoldCandidate | src/toolbench/reducer.py:264-279 | the run totals after a session that takes part |
| Reducer.Reducer.FoldBranches | src/toolbench/reducer.py:268-279 | run branches go to the run, the detached bucket nowhere, all others to the spillover, in whatever order they are walked |
| ReorderedSessions.TotalsIgnoreOrder | src/toolbench/reducer.py:154-244 | every counter, row and callout is the same for every order of the sessions |
| ReorderedSessions.RunIgnoresOrder | src/toolbench/reducer.py:246-311 | the run totals are the same for every order of the sessions |
| ReorderedSessions.UnjoinableMeaning | src/toolbench/reducer.py:164-166 | the count of an agent and a kind is the sum over that agent's sessions |
| ReorderedSessions.UnjoinableIgnoresOrder | src/toolbench/reducer.py:164-166 | the unjoinable counts are the same for every order of the sessions |
| ArmAudit.ArmViolations | src/toolbench/shell_safety.py:258-290 | the audit by set of names and then by Bash command lists, in order, what judging call by call reports |
| ArmAudit.TwoPasses | src/toolbench/shell_safety.py:273-290 | the call-by-call violations are the forbidden names together with the Bash violations |
| ArmAudit.ViolationMeaning | src/toolbench/shell_safety.py:258-317 | listed are exactly the tools that are banned or granted neither by name nor by a rule, and under rules alone the Bash commands that cannot be read, follow no rule's prefix or hold a shell operator |
| TestGate.DeriveTestGate | src/toolbench/complex.py:155-172 | the rule for the first token and the bare words right after it; an empty command is refused |
| TestGate.GateMeaning | src/toolbench/complex.py:142-172 | the gate holds the program and all the bare words right behind it, up to the first token that is none |
| TestGate.OracleFitsItsGate | src/toolbench/complex.py:142-172 | running an argv of plain tokens under an arm whose only Bash rule is its gate breaks no rule |
| TestGate.OracleFitsEveryArm | src/toolbench/complex.py:529-543 | each of the four arms built for a gate accepts the oracle's own command |
| TestGate.AcceptedStartsWithGate | src/toolbench/shell_safety.py:293-317 | every Bash command a gated arm accepts has words that start with the gate's tokens and, once stripped of blanks and line breaks at its ends, holds no shell operator |
| Sorting.SortedIsCanonical | src/toolbench/report.py:427 | two lists sort to the same list exactly when they hold the same items equally often |
| Sorting.InOrderIs | src/toolbench/shell_safety.py:290 | sorting a set gives the one sorted list that holds each member once |
| Sorting.StringOrder | src/toolbench/report.py:427 | strings are ordered by the first character in which they part, a proper prefix first |
| Fingerprint.TakeFingerprint | src/toolbench/report.py:419-432 | what the hash is fed, the sorted lines, and the count |
| Fingerprint.TwoLinesFed | src/toolbench/report.py:427-432 | two lines reach the hash with the smaller first and a line break behind each |
| Fingerprint.SessionOnItsLine | src/toolbench/report.py:435-450 | a session written out: its id and three counts, each behind a tab |
| Fingerprint.SignatureInjective | src/toolbench/report.py:435-450 | equal signatures come from equal sessions, tabs in the id allowed |
| Fingerprint.SafeLinesAreFinest | src/toolbench/report.py:427-431 | a text made of safe lines has no other reading with as many lines or more |
| Fingerprint.FingerprintIsIdentity | src/toolbench/report.py:419-450 | text and count of a scanned set whose ids are safe equal those of any other set exactly when the two are equal as multisets |
| Collisions.UnsafeIdCollides | src/toolbench/report.py:419-450 | a session with an unsafe id, next to one whose id has no line break, has the text and count of two other sessions |
| Collisions.SafeIdsAreExact | src/toolbench/report.py:419-450 | an id is safe exactly when no set that holds it next to ids without line breaks shares text and count with a different set |
| Collisions.LineBreakInIdCollides | src/toolbench/report.py:429-432 | two different sets of two sessions with the same text and count |
| Params.ExtractParams | tools/code_analysis.py:2203-2216 | the printed signature without `self` |
| Params.MethodPrinted | tools/code_analysis.py:2203-2216 | a method's parameters written out |
| Params.ParseParams | tools/code_analysis.py:372-415 | the scan with a depth counter and a buffer reads the pieces that end at commas outside brackets |
| Params.PrintThenParse | tools/code_analysis.py:372-415 | parsing a printed signature gives every kept argument back, each annotation up to its first equals sign |
| Params.RoundTrip | tools/code_analysis.py:2203-2216 | printing then parsing returns the arguments exactly when no kept annotation holds an equals sign |
| Params.EqualsSignIsCut | tools/code_analysis.py:406-408 | the annotation `Annotated[int, Field(gt=0)]` does not come back |
| ComplexityGate.CompareComplexity | src/toolbench/complexity_gate.py:54-101 | the errors and the warnings, in the order of the sorted symbols |
| ComplexityGate.ReportMeaning | src/toolbench/complexity_gate.py:65-100 | an error is a function above the threshold that is new, crossed it or rose above it, a warning a known one within it that rose by the delta, each with its reason and its score before, and nothing else is reported |
| ComplexityGate.ReportedAlong | src/toolbench/complexity_gate.py:54-101 | each symbol of the walk adds at most one error and one warning, behind those of the symbols before it |
| ComplexityGate.ReportOrder | src/toolbench/complexity_gate.py:62-64 | the walk goes by path and in a path by name |
| ComplexityGate.GatePassesIffNoDebt | src/toolbench/complexity_gate.py:65-88 | a comparison has no error exactly when every function above the threshold was there before and at least as complex |
| ComplexityGate.Ratchet | src/toolbench/complexity_gate.py:54-101 | over every history of passing comparisons a function above the threshold was so in every earlier snapshot, with a score that never rose |
| ComplexityGate.RestrictedErrors | src/toolbench/complexity_gate.py:264-292 | restricting both snapshots to the changed files reports the same errors |
| ComplexityGate.RestrictedWarnings | src/toolbench/complexity_gate.py:264-292 | it reports the same warnings exactly when the warning delta is positive or no unchanged function is within the threshold |
| ComplexityGate.UnchangedIsWarned | src/toolbench/complexity_gate.py:89-100 | with a delta of zero an unchanged function is a warning of the whole comparison only |
| SchemaSniff.WhenAmbiguous | src/toolbench/adapters.py:101-104 | detection raises the ambiguity exactly when the first claimed line within the window has a session id and is codex-shaped |
| SchemaSniff.DataIsAmbiguous | src/toolbench/adapters.py:101-104 | a codex record that also carries a session id raises it |
| SchemaSniff.LineIterator.Next | src/toolbench/adapters.py:87 | the iterator yields the next line and keeps the rest |
| SchemaSniff.DetectParser | src/toolbench/adapters.py:58-110 | the parser is the only claimant of the first claimed line within the window and the replay is the whole input; on any outcome at most window plus one non-blank lines are consumed |
| SchemaSniff.DetectedMeaning | src/toolbench/adapters.py:58-110 | no line before the deciding one has either shape; a codex-shaped one means codex, a session-shaped one the Hermes exporter when its version says so and Claude otherwise |
| SchemaSniff.NonBlanksMeaning | src/toolbench/adapters.py:84-99 | the window counts the lines that are not blank |
| SchemaSniff.DetectionIsUnique | src/toolbench/adapters.py:58-110 | an input has one outcome, the claimants of an ambiguous line and the number of lines seen included |
| Worktrees.ParseWorktreeList | src/toolbench/worktrees.py:182-221 | the loop with its flush reads the stanzas the line-by-line reading defines |
| Worktrees.ParsePrinted | src/toolbench/worktrees.py:182-221 | every list of records is recovered in order, with any number of blank lines between them and with or without one at the end |
| Worktrees.ParseUpstreams | src/toolbench/worktrees.py:228-243 | the loop reads the upstreams the line-by-line reading defines |
| Worktrees.UpstreamsRecovered | src/toolbench/worktrees.py:228-243 | every listed branch is read with the upstream its last line records, and no other branch is |
| Worktrees.Collect | src/toolbench/worktrees.py:434-479 | every stanza but the first is classified in order; a failed listing, a failed search for the refs that hold a head or a failed status fails the whole report |
| Worktrees.VerdictMeaning | src/toolbench/worktrees.py:372-431 | locked before all, then changes in a tree that is still there, then a head in neither trunk nor remote refs, then a live remote upstream that was seen, else safe |
| Worktrees.TreeMeaning | src/toolbench/worktrees.py:372-479 | a tree cannot be judged exactly when a status or a search it needs fails; otherwise it is reported as it is, its idle days unknown when it is gone |
| Worktrees.TreeIsReclaimable | src/toolbench/worktrees.py:372-431 | a linked tree passes the reclaim test exactly when it is unlocked, not prunable, clean, its head in the trunk or a remote ref, measured idle long enough, and not backed by a live remote upstream, or backed by one whose check failed |
| Worktrees.OfferedIffSafe | src/toolbench/worktrees.py:302-310 | passing the test means being safe to remove exactly when no failed check hides a live upstream of an otherwise safe tree |
| Worktrees.FailedCheckOffersBackedTree | src/toolbench/worktrees.py:310 | a clean, idle tree with a live upstream passes the test when `rev-parse` fails |
| Worktrees.ReclaimableIsSeenSafe | src/toolbench/worktrees.py:492-510 | the report offers exactly the linked trees that pass, never the main checkout |
| Worktrees.ReclaimableIsSafe | src/toolbench/worktrees.py:492-510 | the offered linked trees are the safe ones exactly when no failed check hides a live upstream of an otherwise safe linked tree |
| Sources.ProbePass | src/toolbench/sources.py:398-420 | the parent ids and agents of the child-excluded listing for every page split, or the error of the first failing page |
| Sources.ParentsAreNotChildren | src/toolbench/sources.py:612-615 | with unique ids the probe's ids tell exactly the parents among the sessions in scope |
| Sources.TakeCensus | src/toolbench/sources.py:502-555 | one total for each agent and one for the scope, or the error of the first request that fails in the order of the agents |
| Sources.YieldRefs | src/toolbench/sources.py:558-593 | the stamped rows of the pages read, ending where the listing breaks |
| Sources.StreamIsPrefix | src/toolbench/sources.py:365-395 | however pages are cut, the refs are a prefix of one fixed list, and all of it when no page fails |
| Sources.ArchiveMeaning | src/toolbench/sources.py:558-593 | with unique ids the refs are one for each session of the agent, project and dates asked for, in the order of the archive and with the children marked, all of them when no page fails |
| Sources.DiscoverAgentsview | src/toolbench/sources.py:596-662 | a failed probe is passed on, a failed census becomes an unknown one, any other failure is passed on; otherwise census and refs are those of the archive |
| Sources.CensusMatchesRefs | src/toolbench/sources.py:642-655 | each enumerated agent's total is its number of counted refs under either setting of the flag, and no prefix of the refs exceeds it |
| Sources.RowsFitTheCensus | src/toolbench/sources.py:596-662 | the same for every page split, every failing page and every cut by a limit |
| Sources.ResidualMeaning | src/toolbench/sources.py:150-163 | the residual counts exactly the sessions of agents whose sessions in scope are all children, and is zero with subagents excluded |
| Passive.ProbeTruncation | src/toolbench/passive.py:321-358 | yes exactly when a reported ref remains and is reached, no exactly when none remains, unknown exactly when the listing failed first |
| Passive.CollectRefs | src/toolbench/passive.py:361-385 | the refs are a prefix as long as the limit allows and the truncation is the observed one; it fails exactly when the listing breaks before the limit, or behind it with an unforeseen error before any reported ref |
| Passive.IterSessions | src/toolbench/sources.py:851-905 | which listing, fallback reason and census a source policy starts from; it starts exactly when neither health check, probe listing nor census fails fatally |
| Passive.StartMeaning | src/toolbench/sources.py:760-787 | in auto, an AgentsView that is absent, hung or broken is replaced by the raw files with that reason, and the run starts unless their count fails with more than a missing root; any other health failure is fatal |
| Passive.UnhealthyNeverBlocks | src/toolbench/sources.py:880-905 | then the discovery cannot fail while the raw files can be read as far as the limit asks: no skip, the reason as fallback, and the raw refs up to the limit |
| Passive.DiscoverRefs | src/toolbench/passive.py:388-493 | every discovery ends as one whole attempt without any error, as a vanished source without refs, as a raw rescan with the cause recorded, or fails with an error nothing stands in for |
| Passive.DiscoveriesAgree | src/toolbench/passive.py:388-493 | the same sources give one discovery: refs, truncation, census, fallback and recorded cause |
| Passive.NeverBoth | src/toolbench/passive.py:388-493 | sources that give a discovery give no failure |
| Passive.BrokenAttemptIsReplaced | src/toolbench/passive.py:424-492 | whenever the first attempt fails, at any point, the report holds no ref of it: none at all for a vanished source, those of the raw files otherwise, with the cause recorded |
| Passive.FailureMeaning | src/toolbench/passive.py:424-492 | what a failing attempt comes to, error by error: a vanished source, a raw rescan after a timeout or another failure with that skip reason, or the end of the run |
| Passive.ProbeBreakIsReplaced | src/toolbench/passive.py:396-404 | a break at any page of the child-excluded listing is such a point |
| Passive.NeverSplices | src/toolbench/passive.py:388-493 | the refs are a prefix of one listing and their number depends on that listing and the limit alone |
| Passive.TruncationIsTruthful | src/toolbench/passive.py:321-385 | not truncated means the counted refs are those of the whole listing; truncated means one is missing; unknown means the listing failed |
| Passive.RowsNeverExceedTotals | src/toolbench/passive.py:388-493 | in a report with a census no agent shows more than its total, and every agent shows all of it when nothing was truncated |

## Left out

- JSON decoding, SHA-256 and UTF-8 encoding: lines arrive as decoded records or as malformed; the digest stands for the text it is taken of, and its shortening to sixteen digits is not modelled.
- Values no JSON record of these schemas holds where the code would raise: an unhashable `type`, an infinite token count.
- `ToolCall.agent`, `source`, `project` and `duration_ms`: constants of a parse that no law depends on.
- hermes databases: their results carry session cache totals without branch buckets, so `ParseLaws.KeepsLedger` and the conservation laws are not stated for them.
- Reducer.Reducer.Absorb: rows are values in the reducer's dictionaries, so the aliasing of one row object by several names is not captured; dictionaries other than `pending` are walked in arbitrary order.
- ShellSafety.GlobEscapes: takes the expansion of `~` and `$HOME` as a function; the single path argument of other tools is the same test, and the token scan of Bash commands (`shlex`) is left out.
- `expanduser` in worktree paths, and `read_run_manifest`.
- Matching probe arms by sentinel and target, profile rows, medians and the other numbers of `probe.py` and `complex.py`: one-step computations.
- `per_ticket`, `missing_branches`, `missing_worktrees`: short expressions over fields whose meaning is proved.
- `nearest_to_threshold`, ruff and git: the gate starts from two snapshots.
- Worktrees.Collect: takes the answers of git and `stat` as given; time-outs, disk use and reasons in words are left out.
- Worktrees.ParsePrinted: speaks of lines; cutting the output into lines is Python's `splitlines`.
- Sources: which sessions match an agent, project, date or exclusion filter is AgentsView's behaviour and is assumed; the exclusion banner and timeouts as such are left out.
- Passive: the raw filesystem listing is a given stream of refs that both the raw census and the raw refs read; freezing, replaying and restamping a corpus are left out.
- Rendering, argument parsing, tracing and the vendored tools other than the two parameter functions.
