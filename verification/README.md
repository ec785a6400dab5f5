# Verified models of the context-guard kit

The kit's hooks and command-line tools share a set of small stateful algorithms:
a failure nudge that several hook processes keep in one file, a bounded capture
of two output streams, transcript accounting, cost preflight, a guard for large
reads, artifact search, a JSON lint and an MCP server session. This project
models each of them in Dafny in the form the code has (classes and loops where
it updates in place, functions where it computes) and proves what the code is
for: refinement of an unbounded history, safety over every interleaving,
conservation of bytes and counts, equality of a streaming form with a simple
declarative one.

`dafny verify dfyconfig.toml` checks the whole project.

## How the modules fit together

| modules | subject |
|---|---|
| `Basics`, `Sequences`, `Counters`, `RecordTable`, `ByteSource`, `ByteLines`, `TextLines` | options and bounds, label counters and their sums, timestamped tables with expiry and eviction, a file read in arbitrary chunks, lines of bytes and of text |
| `FailureNudge`, `NudgeAccounting`, `NudgeHistory`, `NudgeExpiry`, `NudgeProtocol` | one nudge transition; what its counters mean; its refinement of the unbounded history; what lasts and what expires; many processes, one lock, crashes at any step |
| `BoundedCapture`, `LineSelection` | ticketed pass-through after overflow; one-pass head/tail selection |
| `BoundedLines`, `ToolAudit`, `ToolAttribution`, `TurnWindows`, `TurnAudit` | bounded line iteration; byte conservation by tool, class and image; which use each result answers; turn windows, the reducer's anchors and token cuts; the windows over what the audit measured in a whole file |
| `LedgerTail`, `KeyStore`, `PreflightCost`, `CacheMarking` | doubling-window tail; creating one HMAC key under a directory lock; prompt prefixes and cost bounds; which parts of a request end a breakpoint |
| `ReadRange`, `ReadGuardValve` | the streaming range proof; the one-shot escape valve over a least-recently-used table |
| `EscrowSearch`, `JsonWalk`, `JsonLint`, `McpSession`, `McpConversation` | search against retrieval; the bounded stack walk and what it reports; the MCP session and what a client gets from it |

Hashes, HMAC, regular expressions, JSON parsing, sanitizing and decoding are
function-valued parameters or opaque identities. A SHA-256 digest is a number,
because for 64 lower-case hex digits numeric and lexicographic order agree.
Costs are real numbers before rounding. Reads deliver arbitrary non-empty chunks.

## What turned out to be conditional

- The capture conserves every byte of both streams if and only if no write to a
  real stream failed during the run (`BoundedCapture.Conservation`): a failing
  write drops the rest of its ticket.
- At most one key is installed while no reclaim hits, before a key is installed,
  the lock of a process that is marking its lock, removing one it could not mark,
  past its last owner check, or moving its lock away (`KeyStore.OneKey`). Runs that
  only reclaim the locks of processes that are gone are among these
  (`KeyStore.OrderlyIsCareful`). Any other live holder may lose its lock: the owner
  checks catch that. The code judges
  staleness by age alone, and from every such run in which one of those four
  states is reached some continuation reclaims that lock and installs two keys,
  after a process has returned the one that is then gone
  (`KeyStore.CarelessReclaimInstallsTwo`), so none of the four can be left out.
- What arrives in a transcript counts exactly once, wherever it arrives, if and
  only if the responses that created tokens are anchored exactly where the scan
  opens a run (`TurnWindows.ConsumerCoversExactly`). The scan and the reducer group
  rows differently: identical rows without an id are one response and two runs
  (`TurnWindows.IdenticalRowsLoseAWindow`), a message shared by two sessions is two
  responses and one run (`TurnWindows.SharedMessageCountsTwice`), and a run whose
  response is anchored earlier, was skipped or created nothing is not read
  (`TurnWindows.UnreadRun`). A comment in the source
  (`context-guard-kit/claude_transcript_cost_audit.py:1639-1645`) knows one of these.
- A comment on the third branch of the read guard says that the valve was
  necessarily tried before any over-budget denial. It was if and only if the
  requested proof of the third recorded attempt did not end with a changed file
  (`ReadGuardValve.OverBudgetMeansTried`); two plain attempts and a third one whose
  file changes are a run that is denied as over budget with nothing ever tried
  (`ReadGuardValve.OverBudgetUntried`).
- The walk's stack is bounded by the larger of one and the node budget
  (`JsonWalk.StackIsBounded`), because the root is pushed before the budget is
  looked at.
- The predicted cost lies between the all-hit and all-miss costs for every
  pattern of hits if and only if no priced prefix is dearer to read than to write
  (`PreflightCost.PredictedBetweenExtremes`); the pricing profile is not checked for it.
- A tool result that fits the response limit is not sent when its envelope takes
  the line past the limit, and the session ends
  (`McpSession.ResultAtTheLimitEndsTheSession`); `McpSession.TurnAnswersOnce` says
  exactly when a line ends the session.

## Model

| member | source | states |
|---|---|---|
| RecordTable.EvictOldestKeepsYoungest | context-guard-kit/failed_attempt_nudge.py:1189-1211 | eviction leaves exactly min(size, cap) records, each younger (stamp, then id) than every evicted one, in their original order |
| RecordTable.SortByAgeSorts | context-guard-kit/failed_attempt_nudge.py:1191-1194 | the ordering used for eviction is sorted by stamp and id and is a permutation |
| FailureNudge.ValidateState | context-guard-kit/failed_attempt_nudge.py:964-1002 | accepts exactly the valid values, keeping every record and counter but dropping zero counters |
| FailureNudge.NudgeState.IncrementCounter | context-guard-kit/failed_attempt_nudge.py:1165-1169 | the counter saturates at 2^63-1 and a non-positive amount changes nothing |
| FailureNudge.NudgeState.PruneExpired | context-guard-kit/failed_attempt_nudge.py:1172-1186 | the new state is the old one without the expired records, with the losses counted; a record stays exactly while its stamp is at most 1800 seconds old |
| FailureNudge.NudgeState.EnforceLru | context-guard-kit/failed_attempt_nudge.py:1189-1211 | the new state is the old one without the evicted records, with the losses counted |
| FailureNudge.NudgeState.ObserveFresh | context-guard-kit/failed_attempt_nudge.py:1263-1293 | absent to tracking to emitted, reset by success, nudge exactly on the step to emitted |
| FailureNudge.ApplyPayload | context-guard-kit/failed_attempt_nudge.py:1223-1296 | rejects an invalid state or timestamp, else performs exactly the specified transition, whose result validation accepts unchanged |
| FailureNudge.ApplyKeepsValid | context-guard-kit/failed_attempt_nudge.py:1223-1296 | one transition from any valid state, even with oversized tables, is valid, bounded by 256 episodes and 512 events, and a fixed point of validation |
| FailureNudge.RunIsValid | context-guard-kit/failed_attempt_nudge.py:964-1002 | so is every state reachable from empty |
| NudgeAccounting.ReactBalances | context-guard-kit/failed_attempt_nudge.py:1234-1295 | one payload keeps the three balance equations, counting a failure exactly when its tool id is new |
| NudgeAccounting.PrunedBalances | context-guard-kit/failed_attempt_nudge.py:1172-1186 | expiry keeps the balance |
| NudgeAccounting.EvictedBalances | context-guard-kit/failed_attempt_nudge.py:1189-1211 | eviction keeps the balance |
| NudgeAccounting.RunBalances | context-guard-kit/failed_attempt_nudge.py:1165-1296 | below saturation, over every run: live = started - reset - expired - evicted; accepted failures = started + nudged + after; nudged + tracking <= started |
| NudgeHistory.StreakByKey | context-guard-kit/failed_attempt_nudge.py:1263-1266 | where episode keys tell commands apart, the streak per key is the streak per (session, protocol, command) |
| NudgeHistory.AdvanceMirrors | context-guard-kit/failed_attempt_nudge.py:1257-1293 | a fresh event keeps the tables equal to what the unbounded history says |
| NudgeHistory.NudgeIsSecondFailure | context-guard-kit/failed_attempt_nudge.py:1223-1296 | while nothing expired or was evicted, a payload nudges if and only if its tool id is new and it is exactly the second accepted failure of its command since the start or the last success |
| NudgeExpiry.ExpiryIsExact | context-guard-kit/failed_attempt_nudge.py:1172-1186 | tidying tables within their bounds keeps exactly the records whose stamp is at most 1800 seconds old |
| NudgeExpiry.RunIsTimed | context-guard-kit/failed_attempt_nudge.py:1172-1295 | over every run with at most 256 keys and 512 tool ids the event table lists exactly the fresh steps that no later step has outlasted, and the episode table exactly the keys whose last fresh step is a lasting failure, under that step's time |
| NudgeExpiry.NudgeIsSecondInTime | context-guard-kit/failed_attempt_nudge.py:1223-1296 | in all those runs, whatever the clock does, a step nudges if and only if it is a fresh failure whose episode's last fresh step is a lasting failure that opened the episode |
| NudgeExpiry.NudgeOnTime | context-guard-kit/failed_attempt_nudge.py:1223-1296 | if neighbouring events of an episode and repeated tool ids come within 1800 seconds, that is exactly the second failure of the history without expiry |
| NudgeExpiry.StaleFailureStartsAnew | context-guard-kit/failed_attempt_nudge.py:1172-1186 | a failure more than 1800 seconds after the last one does not nudge and leaves a tracked episode under its own time |
| NudgeExpiry.FailureLeaves | context-guard-kit/failed_attempt_nudge.py:1268-1293 | every fresh failure leaves its episode under its own time, tracked or emitted as it opened the episode or not |
| NudgeExpiry.TwoFailures | context-guard-kit/failed_attempt_nudge.py:1282-1287 | of two failures of one episode the second nudges if and only if it comes within 1800 seconds |
| NudgeExpiry.CountersTell | context-guard-kit/failed_attempt_nudge.py:1165-1296 | each counter but those of the losses moves by one exactly when what it counts has happened |
| NudgeProtocol.StepKeepsInv | context-guard-kit/failed_attempt_nudge.py:1299-1314 | every step of every process, crashes and failed loads and saves included, keeps exclusion, the fold on disk and one reply per commit |
| NudgeProtocol.DiskIsTheFold | context-guard-kit/failed_attempt_nudge.py:769-885 | in every interleaving the file holds the sequential fold of the committed payloads in lock order, and validation accepts it |
| NudgeProtocol.NudgeLeavesEmitted | context-guard-kit/failed_attempt_nudge.py:1268-1295 | a transaction that nudges leaves the episode in the table as emitted: its own eviction cannot take it |
| NudgeProtocol.NudgesApart | context-guard-kit/failed_attempt_nudge.py:1263-1295 | strictly between two nudges of one episode some commit removed that episode |
| NudgeProtocol.OnePrintPerEpisode | context-guard-kit/failed_attempt_nudge.py:1299-1386 | two printed nudges of one episode come from different commits, and a commit strictly between those removed the episode |
| NudgeProtocol.PrintsAreEarned | context-guard-kit/failed_attempt_nudge.py:1373-1386 | every printed nudge belongs to a committed accepted failure |
| NudgeProtocol.ReplyIsPrinted | context-guard-kit/failed_attempt_nudge.py:1373-1386 | whoever has committed can release the lock and print its own nudge |
| NudgeProtocol.TransactionCompletes | context-guard-kit/failed_attempt_nudge.py:1299-1386 | where the lock is free a new process can run its whole transaction, which commits its payload's transition from what is on disk and prints its nudge |
| BoundedCapture.Capture.Admit | context-guard-kit/context_filter.py:604-636 | the locked section: stores, or overflows once into a ticket that replays both buffers, or tickets the chunk |
| BoundedCapture.Capture.FinishTurn | context-guard-kit/context_filter.py:645-648 | the turn passes as the step that retires the ticket says, after its last write or after a failing one, and only the next ticket can then act |
| BoundedCapture.PayloadOfTicket | context-guard-kit/context_filter.py:612-633 | a ticket carries, per stream, what was buffered and then the whole chunk's own bytes |
| BoundedCapture.StepMovesAccounts | context-guard-kit/context_filter.py:604-648 | consuming appends exactly its bytes to its stream; emitting and finishing move bytes and lose none; a failing write loses exactly what its ticket still owed |
| BoundedCapture.OnlyFailuresLose | context-guard-kit/context_filter.py:641-648 | a step loses bytes if and only if it is a failing write: a ticket's last write is never empty |
| BoundedCapture.AccountedUnlessLost | context-guard-kit/context_filter.py:604-648 | per stream, conservation holds unless a failing write lost bytes of that stream |
| BoundedCapture.Conservation | context-guard-kit/context_filter.py:604-648 | in every interleaving, for both streams, written then waiting then buffered bytes are the consumed bytes in order, if and only if no write of the run failed |
| BoundedCapture.StoreIsBounded | context-guard-kit/context_filter.py:613-626 | the store stays within its bound and overflows exactly when more was produced |
| BoundedCapture.StoreIsFirstBytes | context-guard-kit/context_filter.py:613-626 | in every interleaving the store holds everything until it overflows, and from then on exactly as many of the first bytes as it has room for |
| BoundedCapture.SomeHolderCanEmit | context-guard-kit/context_filter.py:639-648 | while a ticket is outstanding the holder of the current turn can act, and no other holder can |
| BoundedCapture.Drains | context-guard-kit/context_filter.py:639-648 | once consuming stops the holders can finish, and after an overflow without failures everything consumed has been written in order |
| TextLines.IterTextLinesKeepends | context-guard-kit/context_filter.py:470-489 | the two-index splitter yields the declarative lines of the text |
| TextLines.JoinSplit | context-guard-kit/context_filter.py:470-489 | joining the lines gives the text back |
| TextLines.SplitIsProper | context-guard-kit/context_filter.py:470-489 | every line ends at its only boundary and no two neighbours meet inside a CR LF pair |
| TextLines.SplitJoin | context-guard-kit/context_escrow.py:1463-1480 | proper lines survive being joined and split again |
| TextLines.SliceSurvives | context-guard-kit/context_escrow.py:1463-1480 | any run of consecutive lines of a text survives it |
| LineSelection.CollectWindows | context-guard-kit/context_filter.py:500-525 | the head list and the bounded tail queue are the first and last kept lines read so far, and reading stops only at a full head with no tail |
| LineSelection.CollectPlain | context-guard-kit/context_filter.py:526-536 | without windows, reading stops at the line limit |
| LineSelection.StopIsHarmless | context-guard-kit/context_filter.py:513-536 | whatever was not read could not have changed the selection |
| LineSelection.SelectLinesWithStats | context-guard-kit/context_filter.py:500-543 | the one-pass selection is the simple form for every input, and input is reported incomplete exactly when reading stopped early |
| LineSelection.WindowsPickOnce | context-guard-kit/context_filter.py:528-540 | no line is picked twice, order is kept, and every line of the first head and last tail is there |
| LineSelection.KeptAre | context-guard-kit/context_filter.py:500-525 | the kept lines are exactly the capped lines that some inclusion matches, if there are any, and no exclusion does, in order |
| ByteLines.SplitAround | context-guard-kit/cost_guard.py:1231-1240 | splitting around one line feed splits both sides |
| ByteLines.LinesAreTheSplit | context-guard-kit/claude_transcript_cost_audit.py:1332-1374 | closed lines and open remainder are the pieces of splitting the whole on line feeds |
| BoundedLines.LineIterator.Feed | context-guard-kit/claude_transcript_cost_audit.py:1343-1368 | a chunk yields exactly the lines it closes, and the buffer stays within the line bound |
| BoundedLines.LineIterator.Finish | context-guard-kit/claude_transcript_cost_audit.py:1369-1374 | the end of the file yields the unterminated line |
| BoundedLines.IterBoundedLines | context-guard-kit/claude_transcript_cost_audit.py:1332-1374 | for every chunking the numbered lines are those of the whole input, with nothing in place of exactly the lines longer than the bound |
| Counters.SumAdd | context-guard-kit/claude_transcript_cost_audit.py:732-733 | adding to one label adds to the sum of the table |
| ToolAudit.ToolResultClassBytes | context-guard-kit/claude_transcript_cost_audit.py:554-590 | the classes of a result sum to its size and the correction branch is never reached |
| ToolAudit.LabelStaysBounded | context-guard-kit/claude_transcript_cost_audit.py:539-551 | folding keeps the ordinary labels of a table within the limit |
| ToolAudit.BoundedTableSize | context-guard-kit/claude_transcript_cost_audit.py:539-551 | so a table never exceeds the limit plus the reserved labels |
| ToolAudit.ToolResultBytesAudit.ObserveToolUse | context-guard-kit/claude_transcript_cost_audit.py:694-709 | remembers the use or marks attribution truncated |
| ToolAudit.ToolResultBytesAudit.ObserveToolResult | context-guard-kit/claude_transcript_cost_audit.py:711-769 | the whole new state: attribution, labels, classes, images and the turn's volume |
| ToolAudit.TablesConserve | context-guard-kit/claude_transcript_cost_audit.py:711-750 | after any blocks, turns and files the per-tool bytes and results sum to the totals |
| ToolAudit.TranscriptConserves | context-guard-kit/claude_transcript_cost_audit.py:711-791 | after any blocks, turns and files the class bytes sum to the total, correlated + uncorrelated = results, image payloads = parsed + unavailable |
| ToolAudit.TablesStayBounded | context-guard-kit/claude_transcript_cost_audit.py:711-750 | and both label tables stay within their limits |
| ToolAudit.ToolResultBytesAudit.StartFile | context-guard-kit/claude_transcript_cost_audit.py:665-683 | a file forgets the pending uses, the last label and the turn, and no total |
| ToolAudit.BlockGrows | context-guard-kit/claude_transcript_cost_audit.py:711-762 | what a turn has seen grows exactly as the non-image bytes and the results do, and a result always leaves its label |
| ToolAttribution.FindsOwnUse | context-guard-kit/claude_transcript_cost_audit.py:719-730 | the use found for a result is the one of its id last announced in the same file and not answered since |
| ToolAttribution.AttributionIsExact | context-guard-kit/claude_transcript_cost_audit.py:694-750 | while there is room for the labels, each label's row holds exactly the bytes and the number of the results whose own use has that name, every other result is unattributed, each extension's row its own, and the last label is that of the file's last result |
| ToolAttribution.TotalsAreExact | context-guard-kit/claude_transcript_cost_audit.py:554-791 | every total is the sum of what the results say themselves: bytes, image and text bytes block by block, image payloads, those parsed and their tokens |
| TurnAudit.ScansAgree | context-guard-kit/claude_transcript_cost_audit.py:1593-1656 | the scan over the audit, turns and all, is the window scan over the volumes that the audit measures |
| TurnAudit.TurnsCoverFile | context-guard-kit/claude_transcript_cost_audit.py:1593-1656 | over a whole file the stored windows of the runs plus the current turn are all non-image bytes, all results and all assistant bytes |
| TurnAudit.LabelIsOfThisTurn | context-guard-kit/claude_transcript_cost_audit.py:1616-1623 | the label stored with a window that has results is that of the window's own last result |
| TurnWindows.RowObserver.ObserveRow | context-guard-kit/claude_transcript_cost_audit.py:1593-1656 | snapshot of volume and last label on accept, reset on a group change, then add the row's own volume and label |
| TurnWindows.WindowsPartition | context-guard-kit/claude_transcript_cost_audit.py:1616-1656 | the windows at the first row of each run plus what is pending are everything observed in the file |
| TurnWindows.SnapshotIsStored | context-guard-kit/claude_transcript_cost_audit.py:1616-1623 | the snapshot stored for an accepted row is what was pending before it and the last label |
| TurnWindows.WindowsWeighRows | context-guard-kit/claude_transcript_cost_audit.py:1616-1656 | for every set of rows at which windows are read, the windows add up each row as often as they hold it |
| TurnWindows.CountedOnceIffReadAtRuns | context-guard-kit/claude_transcript_cost_audit.py:1639-1650 | for every set of rows, each row counts exactly once if and only if the windows are read at the rows that open a run |
| TurnWindows.UsageReducer.Observe | context-guard-kit/transcript_usage_reducer.py:261-319 | an accepted row joins the group of its session and id, or of its session and digest |
| TurnWindows.UsageReducer.Finalize | context-guard-kit/transcript_usage_reducer.py:333-372 | a group's selection is its row of highest precedence, anchored at its lowest ordinal |
| TurnWindows.BestWins | context-guard-kit/transcript_usage_reducer.py:240-246 | the selected row beats every other row of its group: a time beats none, then the later time, then the later row |
| TurnWindows.AnchorIsFirst | context-guard-kit/transcript_usage_reducer.py:365-367 | a row is its group's anchor if and only if no earlier accepted row is of the group |
| TurnWindows.ReadInsideRun | context-guard-kit/claude_transcript_cost_audit.py:1624-1650 | a row that is read inside a run shares its message id and `sessionId` with an earlier row of another session |
| TurnWindows.UnreadRun | context-guard-kit/transcript_usage_reducer.py:333-372 | a run is unread if and only if its response is anchored earlier, was skipped, or created nothing |
| TurnWindows.ConsumerCoversExactly | context-guard-kit/claude_transcript_cost_audit.py:1486-1531 | whatever arrives counts once in what is read at the anchors and what is pending, if and only if the responses that created tokens are anchored exactly where runs open; and then the sums agree |
| TurnWindows.IdenticalRowsLoseAWindow | context-guard-kit/transcript_usage_reducer.py:297-307 | of identical rows a, t, a without an id, what t brings is never read |
| TurnWindows.SharedMessageCountsTwice | context-guard-kit/transcript_usage_reducer.py:80-85 | a message of two sessions is two responses and one run: what arrives between them counts twice |
| TurnWindows.UnreadRunIsNotCovered | context-guard-kit/claude_transcript_cost_audit.py:1639-1645 | a run that is not read leaves some row that does not count once |
| TurnWindows.LabelIsOfThisWindow | context-guard-kit/claude_transcript_cost_audit.py:1496-1503 | the label kept for a window that brings results is that of its own last result |
| TurnWindows.ThreeKinds | context-guard-kit/claude_transcript_cost_audit.py:1506-1518 | cold, rewrite and incremental are all the created tokens and turns, each once |
| TurnWindows.ApplyUsageReduction | context-guard-kit/claude_transcript_cost_audit.py:1486-1519 | both cuts are exact row by row and complete: each tool's row holds the tokens and turns of its own responses, each of cold, rewrite and incremental its own, and both sum to everything created |
| LedgerTail.WindowIsSuffix | context-guard-kit/cost_guard.py:1229-1241 | the rows of any window are a suffix of the rows of the whole file |
| LedgerTail.RowsAre | context-guard-kit/cost_guard.py:1220-1245 | the rows of some lines are what each line that parses says, in order |
| LedgerTail.TailRecentLedgerRows | context-guard-kit/cost_guard.py:1220-1245 | for every content and initial window the result is the last `maxRows` valid rows of the whole file, and the loop terminates |
| KeyStore.StepKeepsInv | context-guard-kit/cost_guard.py:989-1180 | each step of an orderly run keeps one owner and what every process knows of the key |
| KeyStore.OneKey | context-guard-kit/cost_guard.py:1096-1180 | in every careful interleaving at most one key is installed and every process that returns a key returns that one |
| KeyStore.CarefulStep | context-guard-kit/cost_guard.py:989-1180 | each careful step keeps: only the process the lock names is past its last owner check, and none is once a key is installed |
| KeyStore.ReadReturns | context-guard-kit/cost_guard.py:1096-1107 | in every careful run a process that reads returns the one installed key |
| KeyStore.ReaderReturns | context-guard-kit/cost_guard.py:1096-1107 | once a key is installed, a process that is starting, contending or reading can return it, and nothing else changes |
| KeyStore.EndsWithTheKey | context-guard-kit/cost_guard.py:1008-1180 | once a key is installed every process that stands anywhere but in a failure ends, in every careful continuation, with that key, unless it crashes or takes a step that can fail |
| KeyStore.CarelessReclaimInstallsTwo | context-guard-kit/cost_guard.py:989-1005 | from every careful run that ends with a fragile process counting on its lock, some continuation reclaims it, two different keys are installed and a process has returned the one that is gone |
| KeyStore.OneOwner | context-guard-kit/cost_guard.py:1008-1093 | where reclaims only hit the locks of processes that are gone, at most one process is in its critical section |
| PreflightCost.Prompt.AppendUnit | context-guard-kit/cost_guard.py:423-441 | appends one unit and, if it is marked, a breakpoint with the prefix up to it |
| PreflightCost.ExtractCacheBreakpoints | context-guard-kit/cost_guard.py:470-567 | units and breakpoints are those of the request's marked units, in order, and every unsupported marker is counted |
| PreflightCost.BreakpointsFollowUnits | context-guard-kit/cost_guard.py:432-441 | each breakpoint is numbered in order, and its prefix is the units up to its own section |
| PreflightCost.PrefixesNest | context-guard-kit/cost_guard.py:432-441 | each prefix strictly extends every earlier one |
| PreflightCost.OneBreakpointPerMarkedUnit | context-guard-kit/cost_guard.py:432-441 | there is one breakpoint for each marked unit |
| CacheMarking.RequestIsParsed | context-guard-kit/cost_guard.py:408-551 | each explicit object, tool, system block and message part of a request has exactly one unit, in that order, a message with parts counts itself only if it is marked and none of them is, and a unit ends a breakpoint of a time to live if and only if its own control is a provider's with that one |
| CacheMarking.EachWrongMarkerCounts | context-guard-kit/cost_guard.py:416-421 | the unsupported markers are counted once each: entries that are no object and controls that are no provider's, wherever they stand |
| PreflightCost.TokenProxyRoundsUp | context-guard-kit/cost_guard.py:1560-1594 | four characters to a token, rounded up |
| PreflightCost.BuildFingerprints | context-guard-kit/cost_guard.py:1560-1594 | whatever the sizes are, the deltas of any number of breakpoints sum to the largest size among them, in tokens and in bytes |
| PreflightCost.SizesRise | context-guard-kit/cost_guard.py:1560-1594 | on a parsed request token sizes never fall and byte sizes strictly rise |
| PreflightCost.ClampsNeverBind | context-guard-kit/cost_guard.py:1560-1594 | so each delta is exactly what its prefix adds and the largest size is the last prefix's, in tokens and in bytes |
| PreflightCost.PricePreflight | context-guard-kit/cost_guard.py:1708-1724 | the three sums, and the tokens they price total max(full prompt, cacheable) |
| PreflightCost.CostOrdered | context-guard-kit/cost_guard.py:1713-1724 | when reads are no dearer than writes, all hit <= predicted <= all miss |
| PreflightCost.CostByRates | context-guard-kit/cost_guard.py:1708-1724 | a cost is that of all tokens read and of all tokens written for each time to live, each at its own rate |
| PreflightCost.MillionCostsTheRate | context-guard-kit/cost_guard.py:1506-1507 | a million tokens cost the rate |
| PreflightCost.PredictedBetweenExtremes | context-guard-kit/cost_guard.py:1482-1492 | that holds for every pattern of hits if and only if no priced prefix is dearer to read than to write |
| ReadRange.ProveRawReadRange | context-guard-kit/guard_large_read.py:496-546 | for every chunking the verdict is the declarative one, with the charged and scanned counts, stopping at the first deciding byte |
| ReadRange.AllowedShrinks | context-guard-kit/guard_large_read.py:496-546 | an allowed range stays allowed with a smaller limit |
| ReadRange.AllowedIsSmall | context-guard-kit/guard_large_read.py:496-546 | an allowed range selects at most the content budget plus one line feed per line |
| ReadRange.AllowedExactly | context-guard-kit/guard_large_read.py:496-546 | a file that holds still and fits the proof budget is allowed if and only if the lines of the range, as the file splits on line feeds, fit the content budget |
| ReadGuardValve.AttemptTable.Peek | context-guard-kit/guard_large_read.py:915-925 | the default entry for an absent key, the normalized stored entry for a present one |
| ReadGuardValve.AttemptTable.Record | context-guard-kit/guard_large_read.py:928-950 | counts, merges, moves the entry to the end and evicts from the front |
| ReadGuardValve.KeysAreMostRecent | context-guard-kit/guard_large_read.py:928-950 | from an empty table the keys are always the at most 128 most recently recorded fingerprints, in recency order |
| ReadGuardValve.RecencyOrdersByLastRecording | context-guard-kit/guard_large_read.py:943-947 | recency order is the order of last recordings, each fingerprint once |
| ReadGuardValve.EntryCounts | context-guard-kit/guard_large_read.py:935-942 | an entry's count and valve flag are those of the recordings since it last entered the table |
| ReadGuardValve.HandleCall | context-guard-kit/guard_large_read.py:1107-1206 | the response and the new table are those of the decision |
| ReadGuardValve.ValveOpensExactlyOnThird | context-guard-kit/guard_large_read.py:1104-1131 | the valve opens if and only if this is the third attempt since entry, the request was denied on a steady file and the default range passes the proof |
| ReadGuardValve.OfferedRangeIsSmall | context-guard-kit/guard_large_read.py:1120-1131 | the offered range passed the proof and selects at most the content limit plus one line feed per line |
| ReadGuardValve.ValveOpensOncePerStay | context-guard-kit/guard_large_read.py:1161-1178 | between two offers to one fingerprint it left the table |
| ReadGuardValve.OverBudgetMeansTried | context-guard-kit/guard_large_read.py:1185-1206 | whichever attempt is denied as over budget, the valve's one chance was the third recording of the stay, and there it was tried and failed if and only if the requested proof did not end with a changed file |
| ReadGuardValve.OverBudgetUntried | context-guard-kit/guard_large_read.py:1184-1204 | for every configuration and large file there is a run of three attempts whose last is denied as over budget although the valve was tried at none of them |
| ReadGuardValve.ThirdDenialIsOverBudget | context-guard-kit/guard_large_read.py:1192-1204 | a third attempt that is denied is denied as over budget |
| ReadGuardValve.EveryResponse | context-guard-kit/guard_large_read.py:1086-1206 | the whole answer to a call on an opened file: what is small or proven small passes, else the third attempt is offered the default range if that is proven small, else the denial's count and reason follow from the attempts since entry and whether one was offered a range |
| ReadGuardValve.EveryRecording | context-guard-kit/guard_large_read.py:1107-1188 | a call leaves a recording exactly when it is offered a range or denied |
| EscrowSearch.SearchArtifactContent | context-guard-kit/context_escrow.py:1415-1451 | the matches are the first hits up to the limit and the count is all hits |
| EscrowSearch.SearchCommand | context-guard-kit/context_escrow.py:1571-1662 | across artifacts, returned = min(total, limit), the first hits in order, and truncation = total - returned; the hits are exactly those lines that contain the literal in the first `maxArtifacts` candidates that are first of their id and have verified content, in candidate and line order |
| EscrowSearch.HitsAreOccurrences | context-guard-kit/context_escrow.py:1427-1433 | a hit is an occurrence of the literal in the line, after folding if case is ignored |
| EscrowSearch.DisplayedIsWindow | context-guard-kit/context_escrow.py:1375-1412 | a match displays exactly the lines of its selector around its own line |
| EscrowSearch.RetrievalIsExact | context-guard-kit/context_escrow.py:1375-1481 | querying a match's selector returns exactly the lines it displays |
| EscrowSearch.HitsComeFromCandidates | context-guard-kit/context_escrow.py:1606-1644 | every hit of a scan is a hit in the content of the first candidate with its id |
| EscrowSearch.EveryMatchRetrieves | context-guard-kit/context_escrow.py:1375-1662 | so every match that a search returns retrieves exactly the lines it displays from its artifact's content |
| EscrowSearch.BareHasNoLineFeed | context-guard-kit/context_escrow.py:1391-1397 | stripping line feeds for display removes nothing |
| JsonWalk.CuttingShows | context-guard-kit/cache_score.py:276-278 | cutting at a depth removes nothing if and only if the whole value has no container to cut |
| JsonWalk.CuttingDrops | context-guard-kit/cache_score.py:276-278 | cutting leaves nodes out and keeps the order of the others |
| JsonWalk.ObjectWithin | context-guard-kit/cache_score.py:279-308 | stopping among an object's members reports no key and no disorder that the whole object does not have |
| JsonWalk.LintWithin | context-guard-kit/cache_score.py:261-317 | fewer nodes report fewer findings, in the same order |
| JsonWalk.ScanMembers | context-guard-kit/cache_score.py:279-308 | the member loop pushes the members that find a slot and reports the keys it looked at, order included |
| JsonWalk.Visit | context-guard-kit/cache_score.py:274-327 | what one node reports and pushes; when the budget stops it among its children, only findings of the node |
| JsonWalk.StepPending | context-guard-kit/cache_score.py:268-327 | one turn keeps visited plus stack within the node budget, and visited then stacked nodes the preorder until the budget cuts |
| JsonWalk.StackIsBounded | context-guard-kit/cache_score.py:268-327 | after any number of visits the stack holds at most what is left of the larger of one and the node budget |
| JsonWalk.VisitAll | context-guard-kit/cache_score.py:268-327 | the loop visits the preorder if it fits the node budget, else exactly as many nodes as the budget allows, in the order of the preorder and each from the top of the bounded stack |
| JsonWalk.LintIsGenuine | context-guard-kit/cache_score.py:261-317 | no lint finding is the truncation warning |
| JsonWalk.WalkJson | context-guard-kit/cache_score.py:248-344 | at most `maxWarnings` warnings; they are the whole lint in order exactly when nodes, depth and lint fit, and otherwise end in the truncation warning, before which they are some of the whole lint, in order, and nothing else |
| JsonLint.PreorderIsRoutes | context-guard-kit/cache_score.py:268-327 | the preorder visits every route into the value once, outer before inner and siblings in order, at the depth of the route |
| JsonLint.ObjectReports | context-guard-kit/cache_score.py:276-308 | an object above the depth limit reports its dynamic keys in order and then, exactly if some key precedes the one before it, its disorder |
| JsonLint.ArrayReports | context-guard-kit/cache_score.py:309-317 | a list reports exactly if its path ends in `.tools`, all items are named and some name precedes the one before it |
| JsonLint.LessIsPrecedes | context-guard-kit/cache_score.py:284-286 | texts are ordered by their first difference, a prefix first |
| McpSession.Server.Result | context-guard-kit/context_guard_mcp.py:615-626 | an error is counted once, exactly when an error is what goes out |
| McpSession.Server.Handle | context-guard-kit/context_guard_mcp.py:862-918 | the new session state and the reply of every method in every phase |
| McpSession.AnswerIsValid | context-guard-kit/context_guard_mcp.py:825-918 | a request gets a reply under its own id that passes the final schema check unless the tool raised; a notification gets none |
| McpSession.OnlyReadyCallsTouchCounters | context-guard-kit/context_guard_mcp.py:893-918 | tools take effect only in the ready phase |
| McpSession.PhaseAdvances | context-guard-kit/context_guard_mcp.py:872-894 | the phase stays or takes its one next step, for one kind of message each |
| McpSession.PastTheLimit | context-guard-kit/context_guard_mcp.py:907-910 | past a thousand attempts a call is answered with an error and runs nothing |
| McpSession.Emit | context-guard-kit/context_guard_mcp.py:921-932 | writes exactly the valid responses that fit |
| McpSession.ServeLine | context-guard-kit/context_guard_mcp.py:935-977 | one line of input: the answer written and whether the loop exits |
| McpSession.Serve | context-guard-kit/context_guard_mcp.py:935-977 | the loop's session, output and exit code are those of the specified run |
| McpSession.TurnAnswersOnce | context-guard-kit/context_guard_mcp.py:937-977 | a line ends the session if and only if it is no line or its answer does not fit, and is otherwise answered as due |
| McpSession.OneAnswerEach | context-guard-kit/context_guard_mcp.py:935-977 | while the loop runs, every line but a notification has exactly one response, in order and under its own id |
| McpSession.EveryOutputIsValid | context-guard-kit/context_guard_mcp.py:921-932 | everything written passes the final check and fits |
| McpSession.RunIsSound | context-guard-kit/context_guard_mcp.py:907-917 | over every run calls sum to attempts, errors never exceed calls, and nothing is called before ready |
| McpSession.ErrorsAreAnswers | context-guard-kit/context_guard_mcp.py:615-626 | the error counters count the error results written |
| McpSession.ExecutionsAreLimited | context-guard-kit/context_guard_mcp.py:907-917 | no run executes more than a thousand calls |
| McpSession.ReadyIffHandshaken | context-guard-kit/context_guard_mcp.py:872-889 | the session is ready if and only if an initialize request was followed by an initialized notification |
| McpSession.ResultAtTheLimitEndsTheSession | context-guard-kit/context_guard_mcp.py:622-626 | a result that fits alone but not in its envelope goes unanswered and ends the session |
| McpConversation.ConversationIsServed | context-guard-kit/context_guard_mcp.py:862-977 | after a handshake each of any number of well-formed requests with at most a thousand calls gets the reply that it is due, in order, and nothing else is written |
| McpConversation.RequestIsServed | context-guard-kit/context_guard_mcp.py:872-918 | what is due to a ping, a listing, a call of each tool with each outcome, and an unknown method |
| McpConversation.RefusalCodes | context-guard-kit/context_guard_mcp.py:867-918 | a request is refused under one of four codes, each if and only if its own reason holds |
| McpConversation.BrokenLines | context-guard-kit/context_guard_mcp.py:937-965 | a line that is no request is answered under no id with the code of its kind |

## Left out

- File descriptors, no-follow opens, permissions, fsync and path normalization: only atomic rename, atomic mkdir and mutual exclusion are assumed. The lock's poll timeout is an action that may happen at any time.
- Subprocesses, timeouts, process groups and pipe draining: only the data handed to the capture and to the server is modelled.
- `classify_terminal_event`, `command_identity` and payload parsing: the nudge starts from an already classified payload; the classifier is a chain of shape checks.
- The byte limit of the nudge's state file: exceeding it is one of the save failures.
- BoundedCapture.Conservation: a failing write loses its whole payload and the rest of its ticket; a write that fails half way is not modelled.
- The incremental decoders and `text()` of the capture.
- Case folding, sanitizing, per-line character capping and snippet capping: parameters, or properties stated before display capping.
- ReadRange.ProveRawReadRange: the bytes that the descriptor delivers are fixed during one proof; a changed file shows as delivering fewer bytes.
- ReadGuardValve.HandleCall: a call begins where the file has been opened; what the path policy answers before that is not modelled; stat comparisons around a proof are an input of the call; malformed persisted entries and lost saves are not modelled; sequential runs only, as the code takes no lock there.
- KeyStore.OneKey: marking a lock is one atomic step; judging a lock stale by its age is an action that may happen at any time, and the reclaim itself is one atomic step; renamed lock directories that are never removed are not kept.
- ToolAudit.ToolResultBytesAudit.ObserveToolResult: size samples, large-result, bounded-read, repeat-read and duplicate counters, per-class result counts and extension result counts are not kept.
- TurnWindows.RowObserver.ObserveRow: one file at a time with ordinals from zero; whether the reducer accepts a row is a member of the row.
- TurnWindows.UsageReducer.Finalize: token totals, conflicts and models are left out; which responses are skipped for overflow is an arbitrary predicate, because it depends on other files.
- TurnWindows.ConsumerCoversExactly: the condition is on where the windows are read, for every volume; whether sums agree by chance for particular volumes is not characterized.
- TurnWindows.ApplyUsageReduction: the selections are arbitrary input; per-turn samples, multi-result turns and the token calibration are left out.
- ToolAttribution.AttributionIsExact: stated for transcripts with fewer than 20000 ids, at most 500 tool names and at most 200 extensions; past those the labels are folded as `ToolAudit.LabelStaysBounded` says.
- NudgeExpiry.NudgeIsSecondInTime: stated for runs with at most 256 episode keys and 512 tool ids; past those the oldest records are evicted as `RecordTable.EvictOldestKeepsYoungest` says.
- PreflightCost.ExtractCacheBreakpoints: stripping markers and shape checks are in the input.
- PreflightCost.PricePreflight: which prefixes hit is an arbitrary pattern; budgets, uncertainty ranges and reports are left out.
- JsonWalk.WalkJson: the stack is written with its top first; the out-of-order test of tool names is an adjacent inversion.
- McpSession.Server.Handle: parameter shapes are flags of the message, and what a tool's own code does is an input of the turn; argument checks, helpers, storage scans and byte counters are left out.
- `max_profitable_read_premium_reuses`, pricing tables, recommendations, report dictionaries, argument parsing and printing.
- `context_compress.py`, `context_guard_diet.py`, `bash_reference_policy.py`, the context pack helpers, the dispatcher, manifests and scripts.
