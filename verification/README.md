# Pionir: proofs about its state machines

Pionir is a local server that routes tasks to specialists, keeps a tamper-evident ledger of what
they did, asks its owner to approve what is privileged - on Discord, and once a day in a digest -
and keeps the bots' conversations and lessons in one memory store. This project models its most
delicate parts in Dafny and proves what they promise over every run. Check it all with
`dafny verify dfyconfig.toml`.

Where the source changes state step by step, the model does too: a class with the source's
fields, loops where it loops, and every method proved equal to a function or an allowed step of a
machine; the properties of whole runs are lemmas about those functions and machines. Clocks,
crashes, the network, other processes and the owner are parameters or free choices of the model;
nothing is assumed of them unless a lemma says so.

| file | what it is about |
|---|---|
| `Wrappers.dfy` | an optional value |
| `Reliability.dfy`, `Runtime.dfy` | the circuit breaker; the executive around it, alone and with any number of calls in flight |
| `LedgerBytes.dfy`, `AuditLedger.dfy`, `AuditSink.dfy` | the hash-chained ledger as bytes, several processes appending to it and dying at any byte |
| `DigestRecord.dfy`, `DigestMachine.dfy`, `DigestGate.dfy` | the daily digest: what must hold of its log and record, every step that can happen, and the gate that takes those steps |
| `DigestPages.dfy`, `PageMeaning.dfy`, `MessageText.dfy`, `TextMeaning.dfy` | packing items into digest cards; splitting a long text into messages; what fits, in characters |
| `Approvals.dfy`, `ApprovalRuns.dfy`, `ApprovalDeadlines.dfy`, `ApprovalStore.dfy` | the approval queue: its operations, every run of them, how long an approval can be claimed, the class |
| `Quotes.dfy`, `QuotesLive.dfy`, `QuotesCrash.dfy`, `QuotesNewest.dfy`, `QuoteDesk.dfy`, `QuoteApprovals.dfy`, `Price.dfy` | the owner's replies to quote cards, on top of the queue: one live quote, when a crash is safe, which reply wins, the class and what it leaves of replies and approvals; the price grammar and printer |
| `TurnStore.dfy`, `Consolidation.dfy`, `ConsolidationProgress.dfy`, `ConversationMeaning.dfy`, `Conversations.dfy` | folding conversations into memory: tables, conservation of turns, progress, what each rule means in rows and log, the classes |
| `Lessons.dfy`, `LessonMeaning.dfy` | lesson counting and the duplicate migration, and what they say of the sightings |
| `Ranking.dfy`, `RankingMeaning.dfy` | rank fusion and its read-only twin, and what a recall answers |
| `Replay.dfy` | replay protection of signed requests |

## Where the code falls short of its own words

Each of these is proved, with an input that shows it and the exact condition under which the code
does what it promises:

- A specialist that raises `CircuitOpen` itself, or an exception that nothing catches, while it is
  the recovery probe wedges its circuit (`Interleaving.KeptSlotWedges`): a quiet circuit is wedged if
  and only if its last probe ended so and no call has recorded an outcome since
  (`Interleaving.WedgedExactlyBy`, `Interleaving.LaterVerdictFrees`).
- A trip is not always one lesson: two calls that fail together teach it twice, and a success in
  between loses it (`Interleaving.TwoLessonsForOneTrip`, `Interleaving.LessonLost`). There are as
  many lessons as trips if and only if these two kinds are equally many
  (`Interleaving.LessonsAgainstTrips`).
- An event with U+0085, U+2028 or U+2029 in a field makes an untouched ledger fail verification: it
  verifies if and only if no field of any event holds one (`AuditLedger.LedgerVerifies`,
  `AuditLedger.SeparatorFails`).
- A message cut right after the line that opened its code block may be four characters over its
  cap (`MessageText.BoundIsReached`), and a line alone in a block with an opener longer than 35 is
  over it if line, opener and fence together are (`MessageText.LongOpenerRunsOver`). No other message
  is over its cap (`MessageText.SizeBound`).
- A process that dies while it handles a reply may leave an order two live quotes - two replies
  submitted, two approvals waiting (`QuotesLive.TwoAfterACrash`, `QuotesLive.TwoAfterALaterCrash`).
  It leaves neither, now or later, if and only if what it would have done next is neither a
  withdrawal nor the record of an approval that is in the file (`QuotesCrash.CrashIsSafeExactly`):
  each order keeps one in every run whose crashes are such (`QuotesCrash.OneQuotePerOrder`).
- The newest of several replies does not always win, crash or no crash (`QuotesNewest.OlderWins`):
  of those that were quoted it does if and only if no older one was quoted after it
  (`QuotesNewest.NewestStandsExactly`).
- The lesson migration keeps the count of sightings if and only if every member of a duplicate group
  had been seen once (`Lessons.DedupedKeepsTotal`, `Lessons.RecurredThenMigrated`); and undone, the
  kept rows go on counting for the others (`Lessons.UndoCountsTwice`, `Lessons.UndoneCountsThree`).
- The library picks the same candidates as the server if and only if no filter is the empty string
  (`Ranking.SameCandidatesExactly`) and cuts alike if and only if k is not negative or leaves nothing
  (`Ranking.SameCut`); then it ranks alike if and only if no two candidates tie in words and no two
  in meaning (`Ranking.AgreeExactlyWithoutTies`, `Ranking.WordTieShows`, `Ranking.MeaningTieShows`).
- The nonce cache accepts no request twice if and only if no request waits as long as twice the
  window between its first look at the clock and the lock (`Replay.BoundedCacheSuffices`).
- A request may be accepted once more after a restart (`Replay.AcceptedByBoth`): if and only if the
  second it was signed for is not over when the new process starts (`Replay.AcceptedAgainExactly`).

## Model

| member | source | states |
|---|---|---|
| Reliability.AdmissionIsClosedOrTimedProbe | src/pionir/reliability.py:48-91 | every breaker step keeps the slot taken exactly while half open and a closed circuit below its threshold; so a call is admitted exactly when closed or open for the recovery time, and then nobody else is |
| Reliability.CircuitBreaker.constructor | src/pionir/reliability.py:30-46 | a fresh circuit is closed, without failures, and sound |
| Reliability.CircuitBreaker.BeforeCall | src/pionir/reliability.py:48-61 | admits by that rule and takes the breaker where the rule says |
| Reliability.CircuitBreaker.RecordSuccess | src/pionir/reliability.py:63-67 | closes the circuit and forgets its failures |
| Reliability.CircuitBreaker.RecordUnattempted | src/pionir/reliability.py:69-83 | a probe that was never made gives the slot back and re-opens the circuit without counting a failure |
| Reliability.CircuitBreaker.RecordFailure | src/pionir/reliability.py:85-91 | one more failure; open from the threshold on, or at once when half open |
| Reliability.CircuitBreaker.TakeSnapshot | src/pionir/reliability.py:93-102 | `retry_after` is how long an open circuit still refuses, to the instant |
| Runtime.AloneReturnsTheSlot | src/pionir/runtime.py:137-220 | whichever of eight ways a call ends, the probe slot is given back and the failure count moves as it should, but for an adapter that raises CircuitOpen itself or an exception that `except Exception` does not catch |
| Runtime.OutcomeMeans | src/pionir/contracts.py:204-296 | a result is failed if `ok` is false or one of three return codes is an integer other than zero; it is then a refusal if a refusal key is in it or in its `output`, or "Refused:" was printed with code 2 |
| Runtime.OutputDecides | src/pionir/runtime.py:178-247 | so, of a call that is let through and answered: a failure counts one and opens the circuit at the threshold or at a probe, from then on, with one trip lesson; a refusal counts nothing and opens nothing, with its own lesson; anything else closes it |
| Runtime.NoOutputDecides | src/pionir/runtime.py:122-176 | and of every other call: what a refusal by the circuit, a deferral, a lease that is not there, a fault, a wrong answer, a CircuitOpen and an uncaught exception leave of circuit, events and lessons |
| Runtime.BrokenSpecialistTrips | src/pionir/runtime.py:203-216 | a fresh circuit opens with its threshold-th failed result in a row and not before |
| Runtime.RefusalsTripNothing | src/pionir/runtime.py:181-202 | refusals, however many, leave a closed circuit closed and its count alone |
| Runtime.Executive.Register | src/pionir/runtime.py:105-108 | a fresh circuit for one specialist, every other one untouched |
| Runtime.Executive.CountFailure | src/pionir/runtime.py:222-247 | counts the failure, and teaches a lesson exactly when this failure tripped the circuit |
| Runtime.Executive.Settle | src/pionir/runtime.py:163-220 | lease refusals, wrong answers, refusals, failures and successes settle the circuit as the outcome rule says |
| Runtime.Executive.Execute | src/pionir/runtime.py:110-220 | one task: its ending, the circuit after it, exactly one closing event in order, and its lessons |
| Interleaving.EveryRunKeepsInv | src/pionir/runtime.py:137-220 | every interleaving of any number of calls: slot taken exactly while half open, closed below the threshold, and a half-open circuit's probe still unresolved |
| Interleaving.QuietCircuitsRecover | src/pionir/runtime.py:137-220 | no circuit is wedged: with no call in flight a call after the recovery time is admitted, if no adapter raises CircuitOpen or an uncaught exception |
| Interleaving.WedgedExactlyBy | src/pionir/runtime.py:163-176 | a quiet circuit is wedged if and only if its last probe ended by raising CircuitOpen itself or an uncaught exception and no call has recorded an outcome since that probe was let through |
| Interleaving.KeptSlotWedges | src/pionir/runtime.py:163-176 | for any limits and either such ending there is a run that leaves the circuit wedged |
| Interleaving.LaterVerdictFrees | src/pionir/runtime.py:163-220 | and one in which an older call's verdict frees it again: the second half of the condition is needed |
| Interleaving.AloneIsARun | src/pionir/runtime.py:110-220 | `Execute` is these lock sections with nothing in between |
| Interleaving.LessonsAgainstTrips | src/pionir/runtime.py:222-247 | in every interleaving gone quiet, lessons and trips are equally many if and only if as many counts taught without tripping as tripped without teaching |
| Interleaving.OneLessonPerTrip | src/pionir/runtime.py:222-247 | so they are when no call moves between the two snapshots of a count |
| Interleaving.TwoLessonsForOneTrip | src/pionir/runtime.py:222-247 | two calls failing together teach one trip twice |
| Interleaving.LessonLost | src/pionir/runtime.py:222-247 | a success between a failure and its second snapshot leaves the trip without its lesson |
| LedgerBytes.TailOfSuffix | src/pionir/audit.py:78-118 | any end of the file that holds two newlines shows the same last line and partial length as the whole file |
| LedgerBytes.SplitRendered | src/pionir/audit.py:240-253 | lines free of other breaks come out of `splitlines` as they went in |
| LedgerBytes.MidFileSplit | src/pionir/audit.py:198-216 | splitting from any byte on, even inside a character or between CR and LF, gives after its first line the lines the whole file ends with |
| AuditLedger.TailOfChain | src/pionir/audit.py:78-118 | what is read from a ledger's end is its event count, its last digest and the exact partial length |
| AuditLedger.AttemptKeepsChain | src/pionir/audit.py:120-160 | a process that dies before, at or after any byte leaves the chain of completed events and at most one partial line; the next record heals it; nothing complete is touched |
| AuditLedger.JudgeOn | src/pionir/audit.py:257-279 | verification walks a chain of any length and goes on from its head |
| AuditLedger.CutLineFails | src/pionir/audit.py:252-263 | a ledger in which some event's field holds U+0085, U+2028 or U+2029 fails verification, whatever follows |
| AuditLedger.LedgerVerifies | src/pionir/audit.py:240-285 | a ledger that lost nothing verifies if and only if no field of any event holds one of those characters, and then as (number of events, last digest) |
| AuditLedger.SeparatorFails | src/pionir/audit.py:135-160 | one event whose detail is U+2028: its untouched ledger is reported broken |
| AuditLedger.PartialIsReported | src/pionir/audit.py:247-284 | a partial line is never passed over, and is reported at its line when no field holds such a break |
| AuditLedger.VerdictMeans | src/pionir/audit.py:240-285 | each verdict on any file, if and only if: accepted, when every line is a record numbered from one that names the digest stored on the line before and stores its own; broken, with a line and a fault, when the lines before hold and this is what is wrong with that one; a partial line only after all others hold |
| AuditLedger.ReplacedLineIsFound | src/pionir/audit.py:257-279 | a ledger with any one line replaced by any line with a fault is broken at exactly that line with exactly that fault |
| AuditLedger.EditedEventIsFound | src/pionir/audit.py:274-277 | so an event edited in place under a digest that is not its own is reported at its line, as its digest failing - the last line included |
| AuditLedger.JudgedIsChain | src/pionir/audit.py:240-279 | any accepted file is a chain: sequences from 1, each record bound to the one before, the head the last hash |
| AuditLedger.EqualHeadsEqualLedgers | src/pionir/audit.py:240-285 | any two accepted files with one head hold the same records in the same order, unless the hash was broken |
| AuditSink.JsonlAuditSink.constructor | src/pionir/audit.py:45-70 | starts from the file as it is and has verified nothing yet |
| AuditSink.JsonlAuditSink.ReadEnd | src/pionir/audit.py:88-104 | the chunk grows, from any first size, until it holds two newlines or the whole file, and the loop ends |
| AuditSink.JsonlAuditSink.Tail | src/pionir/audit.py:78-118 | the backwards reader agrees with reading the whole file, for every file of non-blank lines and a partial tail |
| AuditSink.JsonlAuditSink.Resync | src/pionir/audit.py:120-133 | re-reads the head and cuts exactly the partial line off |
| AuditSink.JsonlAuditSink.Record | src/pionir/audit.py:135-160 | appends the event chained to what the disk says, as far as the process gets; refuses without a trace when the last line is no record |
| AuditSink.JsonlAuditSink.TailLines | src/pionir/audit.py:198-216 | for any file at all, exactly the last `limit` lines that splitting the whole of it gives |
| AuditSink.JsonlAuditSink.VerifyAll | src/pionir/audit.py:240-285 | the verdict, line by line, with the fault and the line it is at |
| AuditSink.JsonlAuditSink.Verify | src/pionir/audit.py:218-238 | the cached verdict is the one a full verification would give |
| AuditSink.CacheSurvives | src/pionir/audit.py:229-238 | no record by any process makes a cached verdict wrong, though only size and time are compared and the time need not move |
| AuditSink.NoneLost | src/pionir/audit.py:135-160 | over every run of many processes the ledger holds exactly the completed events, in order |
| AuditSink.TakeTurns | src/pionir/audit.py:72-76 | any number of sinks taking turns on one file, with deaths and cached checks: the file is that ledger and every check told the truth |
| DigestMachine.ApprovalIsJustified | src/pionir/discord_gate.py:2483-2544 | an approval from a card follows a re-read of its preview without the owner's refusal, on the newest cards, of an item he had picked on that card when it was last read and whose whole preview was up before the card |
| DigestMachine.StepKeepsInv | src/pionir/discord_gate.py:2184-2627 | every step of the gate or of the world around it keeps the record and the log sound |
| DigestMachine.EveryRunIsSafe | src/pionir/discord_gate.py:2184-2627 | in every run of polls, reactions, refusals, deletions, crashes and restarts nothing is approved or denied but on the configured owner's own reactions as last read, nothing is approved blind, one run posts at a time, each card goes up once, plus once per interruption and once for each time Discord answers that it is gone, and all live cards belong to one run |
| DigestRecord.NeverBlindGrows | src/pionir/discord_gate.py:2407-2412 | no further event takes the justification of an approval or a denial away, if it brings its own |
| DigestRecord.PicksMeans | src/pionir/discord_gate.py:2546-2590 | an item is picked on a card if the owner's ❌ is nowhere on it and his ✅, or one of the keycaps one to ten at the item's place, is - counted without the gate's own |
| DigestRecord.AnswersMean | src/pionir/discord_gate.py:2098-2127 | a preview is denied by the owner's ❌ and approved by his ✅ alone |
| DigestRecord.PostedOnceGrows | src/pionir/discord_gate.py:2445-2472 | how each event counts towards the postings of a card |
| DigestRecord.PostingsAreBounded | src/pionir/discord_gate.py:2041-2057 | that count, from the rules the log keeps: all postings of a card, first and repeated, against its interruptions and its 404s |
| DigestRecord.TriesFall | src/pionir/discord_gate.py:2306-2329 | the tries left over all parts of a plan fall when one of them is refused once more and none is undone |
| DigestRecord.AtMostThreeEach | src/pionir/discord_gate.py:2306-2329 | a plan has at most three tries for each of its parts |
| DigestRecord.ListParts | src/pionir/discord_gate.py:2236-2304 | the parts of a run are finitely many, whatever its cards |
| DigestRecord.StillOwed | src/pionir/discord_gate.py:2236-2304 | what one stage of a pass leaves owed is still owed when the pass ends |
| DigestGate.CardDecision | src/pionir/discord_gate.py:2546-2590 | the approved items are exactly those open ones the owner, nobody else, marked - and none at all after his refusal |
| DigestGate.DiscordGate.constructor | src/pionir/discord_gate.py:1573-1700 | a new gate stands at the start of the machine |
| DigestGate.DiscordGate.Reload | src/pionir/discord_gate.py:2593-2625 | after a restart the memory is the saved record |
| DigestGate.DiscordGate.Save | src/pionir/discord_gate.py:2627-2645 | the record is replaced whole, or the process died before |
| DigestGate.DiscordGate.Post | src/pionir/discord_gate.py:1951-2058 | a preview counts as complete only after its last chunk is up; posted without a failure it is recorded as complete, and its image as missing exactly if it is |
| DigestGate.DiscordGate.Follow | src/pionir/discord_gate.py:2060-2127 | the approval is read; if it waits and the preview's reactions are read, the owner's ❌ there denies it, his ✅ approves it if all of it reached him, and nothing else decides anything; one that is settled is not followed again |
| DigestGate.DiscordGate.Edit | src/pionir/discord_gate.py:2041-2057 | an edit, too, posts a message again only when Discord has just answered that it is gone |
| DigestGate.DiscordGate.Answer | src/pionir/discord_gate.py:2129-2156 | the decision reaches the approval exactly as the step that justified it |
| DigestGate.DiscordGate.PreviewDenied | src/pionir/discord_gate.py:2531-2544 | whether the owner's refusal is on a preview now, or that it cannot be read |
| DigestGate.DiscordGate.AnswerChosen | src/pionir/discord_gate.py:2483-2529 | exactly the chosen items' previews are looked at, one by one; one read as refused is denied, one read otherwise approved, at once, and one that cannot be read is left |
| DigestGate.DiscordGate.FollowDigestCard | src/pionir/discord_gate.py:2483-2529 | the rows are read; if one waits and the card counts, it is read with its reactions, or found gone and posted again; of the items open to approval exactly those the owner picked on it are looked at and decided, and nothing else is |
| DigestGate.DiscordGate.PostCard | src/pionir/discord_gate.py:2445-2472 | a card goes up with its page's items, of which exactly those whose whole preview is up may be approved, and is saved as posted, or the attempt counts as an interruption; one posted before is left alone |
| DigestGate.DiscordGate.TryPart | src/pionir/discord_gate.py:2306-2329 | a part is done, given up at its third refusal, or owed with one try less; a page done is a card posted, a preview done is one posted whole; a part already settled is not worked on again |
| DigestGate.DiscordGate.SupersedeOlder | src/pionir/discord_gate.py:2249-2257 | afterwards no card of an earlier run counts any more |
| DigestGate.DiscordGate.ReportExpired | src/pionir/discord_gate.py:2258-2274 | the report's chunks in order, a later one only after the one before |
| DigestGate.DiscordGate.PostPreviews | src/pionir/discord_gate.py:2275-2291 | of the items read as pending each has its whole preview up, or its part done or given up, or - and then the pass ends owing - was refused once more |
| DigestGate.DiscordGate.PostPages | src/pionir/discord_gate.py:2292-2296 | so has every page's card |
| DigestGate.DiscordGate.ContinueRun | src/pionir/discord_gate.py:2236-2304 | a pass ends complete, with every page and every pending item served, or owing only parts of which one was refused once more in this pass, or cut short by a failure that was no refusal |
| DigestGate.DiscordGate.FinishRun | src/pionir/discord_gate.py:2236-2329 | a planned run finishes: the tries left strictly fall on every pass that leaves it owing |
| DigestGate.DiscordGate.StartRun | src/pionir/discord_gate.py:2213-2234 | a run is planned and saved before anything of it is posted: of exactly the pending approvals that wait for the digest, in order, on cards as full as they go |
| DigestGate.DiscordGate.DigestTick | src/pionir/discord_gate.py:2184-2198 | every open card has its turn; then the planned run goes on if it is not complete, and otherwise a new one is planned when one is due |
| DigestGate.DiscordGate.RunOnce | src/pionir/discord_gate.py:1909-1949 | one poll leaves the gate sound, whatever went wrong in it |
| DigestGate.DiscordGate.Lifetime | src/pionir/discord_gate.py:1909-2627 | polls, deaths and restarts for ever: the gate only ever takes steps of the machine, so every rule of it holds, the owner's part and the bound on a card's postings included |
| DigestPages.Pack | src/pionir/discord_gate.py:2378-2398 | non-empty pages of at most ten items that concatenate to the input in order, every page of two or more fits, and none could take the next one's first item |
| DigestPages.SegmentFits | src/pionir/discord_gate.py:2378-2398 | what fits still fits when items are taken away at either end, though the numbering changes width |
| DigestPages.StaysAhead | src/pionir/discord_gate.py:2378-2398 | the first k greedy pages hold at least what any other k allowed pages hold |
| DigestPages.GreedyIsOptimal | src/pionir/discord_gate.py:2378-2398 | no in-order split into allowed pages uses fewer |
| DigestPages.FullIsUnique | src/pionir/discord_gate.py:2378-2398 | the pages are the only full ones there are |
| PageMeaning.FitsExactly | src/pionir/discord_gate.py:1396-1432 | a card fits if and only if it has at most ten items and frame, count, plural, items, newlines and keycaps come to at most 2000 characters |
| MessageText.LinesJoin | src/pionir/discord_gate.py:1454 | splitting into lines and joining is the identity |
| MessageText.PiecesConcat | src/pionir/discord_gate.py:1454-1458 | hard-splitting a line loses none of it |
| TextMeaning.PieceMaxIs | src/pionir/discord_gate.py:1452 | a piece's length is the lower of the two limits less forty |
| TextMeaning.AllPiecesMean | src/pionir/discord_gate.py:1452-1458 | every line is there in order, whole if it is short enough, otherwise in pieces all of full length but the last |
| TextMeaning.WholeLine | src/pionir/discord_gate.py:1455-1458 | a line cut up so that is no longer than a piece is one piece |
| MessageText.JoinLines | src/pionir/discord_gate.py:1463-1474 | joined lines split into the same lines |
| MessageText.HardSplit | src/pionir/discord_gate.py:1452-1458 | the two nested loops give every line's pieces in order |
| MessageText.SplitMessage | src/pionir/discord_gate.py:1446-1475 | the chunks are the pieces of the text, each cut as late as its cap allows, with the block closed and reopened; none is more than four over its cap if no opener is longer than 35 |
| MessageText.CutIsUnique | src/pionir/discord_gate.py:1459-1475 | that rule decides every cut |
| MessageText.NothingDropped | src/pionir/discord_gate.py:1446-1475 | taking the inserted fence lines away gives the text's own pieces, all of them, in order |
| MessageText.OnlyFencesAdded | src/pionir/discord_gate.py:1465-1468 | what was put in are the open block's own opener in front and a bare fence behind |
| MessageText.Balanced | src/pionir/discord_gate.py:1465-1471 | every chunk but the last closes every block it opens; the last ends as the text does |
| MessageText.SizeBound | src/pionir/discord_gate.py:1462-1474 | of any pieces: a chunk over its cap was cut right after its own opener, and is at most four over, or is one piece in a block whose opener is longer than 35, and then is as long as opener, piece and fence together; no other chunk is over |
| MessageText.EveryChunkFits | src/pionir/discord_gate.py:1446-1475 | so, of any text whose openers are at most 35 long, every chunk is within four of its cap |
| TextMeaning.ChunksFit | src/pionir/discord_gate.py:1462-1474 | the first chunk is held to the first limit and the others to the other, within those four, and none but the last could have taken the next line |
| TextMeaning.TakesExactly | src/pionir/discord_gate.py:1464-1465 | a chunk takes one more line if and only if opener, lines and newlines, and four more inside a block, are no more than its cap |
| TextMeaning.FenceMeans | src/pionir/discord_gate.py:1471-1472 | a block is open after an odd number of lines that begin with three backticks, and the last of them opened it |
| MessageText.BoundIsReached | src/pionir/discord_gate.py:1462-1474 | a text whose first chunk is four over |
| MessageText.LongOpenerRunsOver | src/pionir/discord_gate.py:1452-1474 | a text with an opener of 60 whose second chunk is 121 long for a cap of 100 |
| ApprovalRuns.StepKeepsInv | src/pionir/approvals.py:77-267 | every operation, with any clock readings, moves each approval's story only by a legal chapter and keeps one row for each that is not settled |
| ApprovalRuns.EveryRun | src/pionir/approvals.py:77-267 | in every run each story is legal: leaves pending once, claimed at most once and before its deadline, settled at most once, expired only past it |
| ApprovalRuns.NeverLost | src/pionir/approvals.py:111-124 | what waits or runs is in the file with the status its story tells |
| ApprovalRuns.SettledForEver | src/pionir/approvals.py:226-267 | a terminal status never changes again |
| ApprovalRuns.ClaimedOnce | src/pionir/approvals.py:226-244 | over any run two claims of one approval are not both won |
| ApprovalRuns.WinningClaim | src/pionir/approvals.py:226-244 | a won claim is the first thing that happens to its approval |
| ApprovalRuns.WonFromTheStart | src/pionir/approvals.py:126-145 | ... and only before the deadline, by the reading of its sweep |
| ApprovalDeadlines.WaitsExactly | src/pionir/approvals.py:126-170 | in every run: an approval that nobody claims or resolves waits until the first sweep that reads a time at or past its stamp and what it was enqueued with - a day, if with nothing or zero - and not a sweep longer |
| ApprovalDeadlines.ClaimWonExactly | src/pionir/approvals.py:226-244 | so a claim of it is won if and only if no sweep since, the claim's own included, has read such a time |
| ApprovalDeadlines.LapseIsDenied | src/pionir/approvals.py:135-145 | and the first sweep that does denies it as expired, at the time it read |
| ApprovalDeadlines.LapsesExactly | src/pionir/approvals.py:126-145 | a row lapses at its own expiry, or a day after it was made if it has none, or never if it says neither |
| ApprovalDeadlines.RetainedExactly | src/pionir/approvals.py:111-124 | a save drops exactly what was settled more than a week before |
| ApprovalDeadlines.EnqueueWrites | src/pionir/approvals.py:147-170 | what a new row says |
| ApprovalDeadlines.ClaimWrites | src/pionir/approvals.py:226-244 | what a won claim writes, and that it touches no other row |
| ApprovalDeadlines.ResolveWrites | src/pionir/approvals.py:246-267 | what a resolution writes, and that it touches no other row |
| ApprovalDeadlines.NoteWrites | src/pionir/approvals.py:186-201 | a posted digest moves the date of the batched approvals it names that still wait, and nothing else |
| ApprovalDeadlines.RestartWrites | src/pionir/approvals.py:77-95 | a restart denies what was running as interrupted, and changes nothing else |
| ApprovalRuns.RestartSettles | src/pionir/approvals.py:77-95 | after a restart every claimed approval is settled exactly once, by the restart if it was still running |
| ApprovalRuns.RetainedIsPart | src/pionir/approvals.py:111-124 | the retention drops rows in place and never one that waits or runs |
| ApprovalStore.SweepRows | src/pionir/approvals.py:135-145 | the loop denies exactly the pending rows past their deadline and says whether any changed |
| ApprovalStore.RetainRows | src/pionir/approvals.py:111-124 | the loop keeps exactly the rows the rule keeps, in order |
| ApprovalStore.ApprovalQueue.constructor | src/pionir/approvals.py:77-95 | running rows of the process before are denied as interrupted |
| ApprovalStore.ApprovalQueue.Enqueue | src/pionir/approvals.py:147-170 | parks one row with its deadline, and sweeps |
| ApprovalStore.ApprovalQueue.Waiting | src/pionir/approvals.py:179-184 | the rows that wait after the sweep, in order; saved only if something changed |
| ApprovalStore.ApprovalQueue.NoteDigest | src/pionir/approvals.py:186-201 | moves the digest date of still-pending batched rows and no status, and says how many it moved |
| ApprovalStore.ApprovalQueue.Claim | src/pionir/approvals.py:226-244 | the row to run, exactly when it waits and is not past its deadline |
| ApprovalStore.ApprovalQueue.Resolve | src/pionir/approvals.py:246-267 | settles the first row of the given status, whatever the two statuses, or says that there was none |
| ApprovalStore.ApprovalQueue.Find | src/pionir/approvals.py:213-220 | every row for one request, newest first |
| Quotes.ParkedOnce | src/pionir/quotes.py:434-566 | over any crashes and retries, what was parked for a reply is what is in the file, never more than one, plus what the retention dropped; and only a claimed reply parks |
| Quotes.TakeKeepsInv | src/pionir/quotes.py:434-566 | every durable action and every move of the queue in between keeps that |
| Quotes.DoneRefs | src/pionir/quotes.py:486-490 | no operation of the queue makes a second approval for a ref |
| QuotesLive.TakeKeepsLive | src/pionir/quotes.py:434-566 | every step but a crash keeps this: with the handling under way done, one submitted reply for an order, each waiting approval that of a submitted reply, nothing parked for a reply still to be handled |
| QuotesLive.FoundSkipsWithdrawal | src/pionir/quotes.py:486-490 | handled to its end, a reply leaves one submitted reply for its order if and only if its approval was not found already parked or the order had no other |
| QuotesLive.CrashLeavesTwo | src/pionir/quotes.py:483-490 | from any state with a reply to quote, at any time: after a crash between the parked approval and its record it is submitted, its approval is in the file, every other reply is as it was and every approval that waited still waits unless it lapsed |
| QuotesLive.LaterCrashLeavesTwo | src/pionir/quotes.py:522-558 | from the same states, a crash right after the record and before any withdrawal comes to the same |
| QuotesLive.TwoAfterACrash | src/pionir/quotes.py:483-558 | a run from the start that dies before the record: two submitted replies and two waiting approvals for one order |
| QuotesLive.TwoAfterALaterCrash | src/pionir/quotes.py:483-558 | and one that dies after it |
| QuotesLive.Withdrawn | src/pionir/quotes.py:548-558 | the withdrawals write and deny exactly the order's other submitted replies |
| QuotesCrash.CrashKeepsLive | src/pionir/quotes.py:483-558 | at every point of handling a reply: a crash keeps that state if and only if what comes next is neither a withdrawal nor the record of an approval that is in the file |
| QuotesCrash.TakeKeepsPhase | src/pionir/quotes.py:483-558 | every step, and every such crash, leaves the handling at one of its points, the list of withdrawals part done included |
| QuotesCrash.OneQuotePerOrder | src/pionir/quotes.py:434-566 | in every run whose crashes are all such, whenever no reply is being handled, each order has at most one submitted reply and one quote approval that waits |
| QuotesCrash.HalfDoneLeadsToTwo | src/pionir/quotes.py:483-566 | any other crash has a way on, without a further one, to two submitted replies for one order |
| QuotesCrash.UnrecordedAndAlone | src/pionir/quotes.py:483-546 | and to two waiting approvals, if the one not recorded waits and its order has no submitted reply: by any other reply quoted before the deadline |
| QuotesCrash.CrashIsSafeExactly | src/pionir/quotes.py:434-566 | after every run so far without such a crash: dying now can bring no order two live quotes, whatever follows but another crash, if and only if nothing is half done |
| QuotesNewest.LastRecordedStands | src/pionir/quotes.py:522-558 | in those runs a reply is submitted in the end if and only if its quote is the last one recorded for its order |
| QuotesNewest.NewestStandsExactly | src/pionir/quotes.py:522-566 | so the newest quoted reply stands if and only if no older one was quoted after it |
| QuotesNewest.OlderWins | src/pionir/quotes.py:501-566 | a run without a crash in which the older reply is retried after the newer one was quoted, and the newer one is withdrawn |
| QuoteDesk.ActIsOneAction | src/pionir/quotes.py:327-333 | a step of the reply machine is one durable action of the desk |
| QuoteDesk.QuoteReplies.Consider | src/pionir/quotes.py:434-469 | a reply to an open card is claimed before anything is done, and never twice |
| QuoteDesk.QuoteReplies.Handle | src/pionir/quotes.py:483-546 | does exactly the planned actions, in order |
| QuoteDesk.QuoteReplies.Supersede | src/pionir/quotes.py:548-558 | the loop denies and marks every other submitted reply of the order |
| QuoteDesk.FoundIsRecorded | src/pionir/quotes.py:486-490 | handled to its end, a reply whose approval is in the file is recorded with the newest such approval, whatever else it says |
| QuoteDesk.NotQuotedIsRecorded | src/pionir/quotes.py:491-521 | any other that is not quoted is recorded by the first thing in its way - no content, no price, the order not read (failed at the fifth time), not quotable (which may close the card), not taken - and nothing else changes |
| QuoteDesk.TakenIsSubmitted | src/pionir/quotes.py:522-558 | one that is taken is submitted with its approval, each other submitted reply of its order is superseded, and no other reply or card changes |
| QuoteDesk.HandlingApprovesNothing | src/pionir/quotes.py:483-558 | and of the approvals it parks the one and denies some that waited, and does nothing else |
| QuoteApprovals.TakenWaits | src/pionir/quotes.py:522-558 | the new approval then waits for a day from its stamp, and no approval of a superseded reply waits any longer, if no sweep meanwhile reads a time past that |
| Price.Unambiguous | src/pionir/quotes.py:128-160 | the reply grammar gives a text at most one price and one delivery time |
| Price.PriceRoundTrip | src/pionir/quotes.py:141-160 | every amount of cents as printed reads as itself and as nothing else |
| Price.QuoteRoundTrip | src/pionir/quotes.py:141-197 | and so does it with one to three digits of days |
| Price.WhatIsAccepted | src/pionir/quotes.py:146-160 | a reply is accepted exactly when the grammar reads it and price and days are in range |
| Price.ReparseIsIdentity | src/pionir/quotes.py:141-197 | printing an accepted reply and reading it again changes nothing |
| Consolidation.ChunkIsUnique | src/pionir/consolidate.py:102-111 | the budget decides the chunk: as many of the oldest turns as fit, at least one |
| Consolidation.TakeKeepsInv | src/pionir/consolidate.py:123-206 | writes, reads, folds cut short after any transaction, purges and crashes keep every turn in its place |
| Consolidation.EveryTurnHasAPlace | src/pionir/consolidate.py:102-206 | in every run each turn waits, is folded into an episode that exists, empty, poisoned, or deleted after such a mark and past retention; the waiting ones are a namespace's newest |
| Consolidation.PurgeKeeps | src/pionir/cortex.py:1022-1060 | however the clock jumps, retention deletes no waiting turn |
| ConsolidationProgress.AttemptOutcome | src/pionir/consolidate.py:123-206 | an attempt, wherever a death cuts it off, takes exactly its chunk out of its namespace's backlog, or records one more failure of the chunk, or changes nothing but the log; other namespaces keep theirs |
| ConsolidationProgress.AttemptsProgress | src/pionir/consolidate.py:123-206 | (waiting turns, failures the oldest chunk has left) falls on every attempt that is not merely unavailable and not cut off; an unavailable one changes neither |
| ConsolidationProgress.BacklogDrains | src/pionir/consolidate.py:95-206 | in every run, with any writes, purges, deaths and other namespaces in between: at most four attempts for each turn waiting or written, and one for each that a death cut off, however often the model was away; with so many, nothing is left |
| ConsolidationProgress.EveryRunIsOrderly | src/pionir/consolidate.py:95-206 | every run from the empty store is one to which that applies: only the oldest waiting turn ever has failures on record, and a fold under way has the first waiting turns in hand |
| ConversationMeaning.BackoffMeans | src/pionir/consolidate.py:95-100 | a minute after the first failure, twice as long after each further one, six hours at most |
| ConversationMeaning.FailuresMean | src/pionir/cortex.py:974-987 | the failures counted are the attempts on record at that chunk that failed, and those that count towards poisoning are these without the model's absences |
| ConversationMeaning.DueMeans | src/pionir/consolidate.py:113-121 | a fold is due if and only if enough turns wait and, since each failed attempt at the oldest, the backoff after that many failures has passed |
| ConversationMeaning.WaitingMeans | src/pionir/cortex.py:776-792 | the turns that wait are the namespace's active messages, in the order they were written |
| ConversationMeaning.ChunkMeans | src/pionir/consolidate.py:102-111 | the chunk's text, a line for each turn, is at most four characters for each token, unless it is one turn; one turn more is over that |
| ConversationMeaning.AttemptMeans | src/pionir/consolidate.py:138-206 | what each answer of the distiller leaves in rows and log, wherever a death cuts it off: absences and failures are noted, the fourth that counts marks the turns poisoned, an empty summary marks them, any other is written down with its facts first |
| ConversationMeaning.WholeAttempt | src/pionir/consolidate.py:123-192 | one that nothing cuts off is that, whole, on the oldest turns the budget allows |
| ConversationMeaning.FoldMeans | src/pionir/cortex.py:545-605 | one episode, one row for each fact with the time it lasts, the waiting turns among the ids marked with the episode, no other row touched |
| ConversationMeaning.PurgeMeans | src/pionir/cortex.py:1022-1060 | a row goes if and only if it is a marked turn or an expired fact whose time is past both by the clock and by some time the store recorded and a day more |
| Conversations.Cortex.Messages | src/pionir/cortex.py:776-792 | the waiting turns of a namespace, oldest first |
| Conversations.Cortex.ChunkFailures | src/pionir/cortex.py:974-987 | all failures of a chunk, the last one's time, and how many were not transient |
| Conversations.Cortex.FoldTurns | src/pionir/cortex.py:545-605 | one episode, its facts, and exactly the still-waiting turns among the ids retired into it |
| Conversations.Cortex.Purge | src/pionir/cortex.py:1022-1060 | deletes exactly the marked turns and expired facts past a time no later than a day after the store's newest write |
| Conversations.Consolidator.Oldest | src/pionir/consolidate.py:102-111 | the loop takes the oldest turns that fit the budget, and always one |
| Conversations.Consolidator.IsDue | src/pionir/consolidate.py:113-121 | enough turns wait and their oldest chunk is not backing off; with none waiting and none asked for, an IndexError |
| Conversations.Consolidator.Consolidate | src/pionir/consolidate.py:123-192 | the distiller is called exactly when a fold is due, and the store is then as its answer says; otherwise nothing changes |
| Conversations.Consolidator.Fail | src/pionir/consolidate.py:194-206 | a failure is noted, and the chunk poisoned at the fourth |
| Lessons.DedupedIsOneEach | src/pionir/cortex.py:1165-1204 | after the migration no two active lessons have one key |
| LessonMeaning.MigrationMeans | src/pionir/cortex.py:1182-1201 | the oldest of several copies is seen as often as there were copies, last when the newest was written, in a burst of those written within a day of it; each other copy is retired into it; every other row is as it was |
| Lessons.EverySightingCounts | src/pionir/cortex.py:877-937 | after it and any number of sightings still none have, and the counts have grown by exactly the sightings |
| Lessons.SightingsGoWhereTheyBelong | src/pionir/cortex.py:877-937 | of a table without duplicates: any sightings are counted on their own lesson's row, each once, and touch nothing else |
| LessonMeaning.SightingMeans | src/pionir/cortex.py:926-937 | a sighting adds one to the first row that has the lesson, joins the burst that began at most a day before or begins one, and changes nothing else |
| LessonMeaning.NewLessonMeans | src/pionir/cortex.py:907-924 | a lesson that no active row has is written as seen once, at the start of an empty burst |
| LessonMeaning.RowsTell | src/pionir/cortex.py:877-937 | after any series of sightings each lesson sighted has one row, which tells how often, first and last it was seen, and since when and how often in its burst |
| Lessons.DedupedLoses | src/pionir/cortex.py:1182-1193 | the migration loses exactly the recurrences on record within the groups it collapses |
| Lessons.DedupedKeepsTotal | src/pionir/cortex.py:1182-1193 | so the total survives if and only if each member of such a group had been seen once |
| Lessons.RecurredThenMigrated | src/pionir/cortex.py:877-937 | a table that loses one |
| Lessons.UndoRestores | src/pionir/cortex.py:1241-1254 | an undo after any sightings: each retired row is back to the last field, each kept row differs in its counts only - its group's size and its own sightings since - and what was written since stays |
| LessonMeaning.UndoMeans | src/pionir/cortex.py:1241-1254 | an undo makes exactly the merged rows active and forgets what they were merged into |
| Lessons.UndoRestoresActives | src/pionir/cortex.py:1241-1254 | the active lessons among the former rows are the former ones if and only if no earlier migration had retired any |
| Lessons.UndoRestoresDuplicates | src/pionir/cortex.py:1241-1254 | after the undo keys are duplicated again exactly if they were before the migration |
| Lessons.UndoCountsTwice | src/pionir/cortex.py:1182-1254 | and the total is the former one, the sightings since, and for each group its size less what its kept row had counted itself |
| Lessons.UndoneCountsThree | src/pionir/cortex.py:1182-1254 | two copies seen once each, migrated and put back, count three |
| Lessons.NoLessonIsLost | src/pionir/cortex.py:1145-1254 | in every run of openings, failing or not, sightings and undos from a store never migrated: the migration finds nothing merged, no row goes, and an undo at any time makes active exactly what was active at first and what was written since |
| Lessons.LessonBook.Record | src/pionir/cortex.py:877-937 | counted on the first active row with its key, or written new; returns that row's id |
| Lessons.LessonBook.Dedupe | src/pionir/cortex.py:1165-1204 | group by group, in any order, the oldest row gets the group's count and the others are retired into it; returns how many |
| Lessons.LessonBook.Undo | src/pionir/cortex.py:1241-1254 | re-activates exactly the retired duplicates; returns how many |
| Ranking.Fuse | src/pionir/cortex.py:325-336 | the two loops over a map give the reciprocal-rank scores, weighed and stably sorted |
| Ranking.FusedIsSound | src/pionir/cortex.py:325-336 | each row of either list exactly once, with its score, highest first |
| RankingMeaning.FusedScores | src/pionir/cortex.py:325-336 | of two lists without repeats: a row's score is its weight times a sixty-first for the first place in a list, a sixty-second for the next, and so on, of both lists |
| RankingMeaning.RecallMeans | src/pionir/cortex.py:648-678 | a recall answers nothing to a query without words, and else the first k rows, best first, of all active rows of the namespace and kind that score in words or in meaning: fused scores, or scores in words weighed when none is close in meaning |
| RankingMeaning.LibraryMeans | src/pionir/library.py:234-268 | the library answers the same, but that an empty name is no name and a negative k drops from the end |
| Ranking.AheadInBothComesFirst | src/pionir/cortex.py:325-336 | a row ahead of another in both lists, weighing no less, comes out before it |
| Ranking.SortedKeepsOrder | src/pionir/cortex.py:318-336 | the sort is stable: the rows of any one score are the same, in the same order |
| Ranking.TwinsAgree | src/pionir/library.py:234-268 | `Cortex.recall` and the library, each with its own candidate scan, vector scan, filter and cut, rank one store alike, whatever they scan first, when no two candidates tie in words and no two in meaning |
| Ranking.AgreeExactlyWithoutTies | src/pionir/library.py:234-268 | they agree for all scans, weights and cuts if and only if there are no such ties |
| Ranking.MeaningTieShows | src/pionir/library.py:254-267 | two rows with one cosine, scanned the other way round, give another result |
| Ranking.WordTieShows | src/pionir/cortex.py:648-678 | and so do two with one BM25 score |
| Ranking.SameCandidatesExactly | src/pionir/library.py:243-251 | the two WHERE clauses pick the same rows of every store if and only if neither filter is the empty string |
| Ranking.SameCut | src/pionir/library.py:268 | one cut at k and the other are the same exactly when k is not negative or leaves nothing |
| Replay.AcceptedOnce | src/pionir/auth.py:372-410 | one signed request is accepted once, for ever, whatever is pruned or overwritten between |
| Replay.BoundedCacheSuffices | src/pionir/auth.py:372-410 | the cache stands in for an unbounded one if and only if no request waits twice the window for the lock |
| Replay.NeverOverfull | src/pionir/auth.py:376-384 | the cache never exceeds its limit |
| Replay.RefusedOnlyIfSeenOrFull | src/pionir/auth.py:372-385 | a valid request is refused as a replay only if its nonce is live or as many nonces are live as the cache holds |
| Replay.AnswerMeans | src/pionir/auth.py:387-410 | each answer, if and only if, from the request's own fields: accepted means complete, signed, within half a minute of the first reading, for no second over when the server started, its nonce not live and fewer than 20000 live; of several reasons to refuse the first is given |
| Replay.AcceptedMeans | src/pionir/auth.py:387-410 | so whatever a process accepts was complete, current and signed |
| Replay.AcceptedAgainExactly | src/pionir/auth.py:403 | a later process can accept a copy of an accepted request if and only if the second it was signed for is not over when that process starts |
| Replay.AcceptedByBoth | src/pionir/auth.py:403 | a request signed half a minute ahead is accepted before a restart and after it |
| Replay.AcceptedOnceInALife | src/pionir/auth.py:372-410 | if each process starts after the seconds signed for in what earlier ones accepted, one signed request is accepted once, restarts and all |
| Replay.ClientAuth.NonceFresh | src/pionir/auth.py:372-385 | answers and updates the cache by that rule |
| Replay.ClientAuth.FromSigned | src/pionir/auth.py:387-410 | the refusals in their order; only a valid signature spends a nonce |
| Replay.ClientAuth.Serve | src/pionir/auth.py:387-410 | any series of requests is answered as the run says, and none of them twice if they are timely |

## Left out

- Discord's REST interface, rate limits, multipart bodies and the wording of cards: a call is accepted, refused, or fails without an answer, and a card's text is a length.
- Digest state that no proved rule reads: message ids and the text of edits, pruning of old entries, entries recorded before previews had a `complete` flag, and which expired rows a report lists. Run ids are counted, where the source draws uuids.
- DigestGate.DiscordGate.RunOnce: previews and the digest only, not the ticks for quotes, Fiverr and builds, nor pruning.
- DigestGate.DiscordGate.Save: a save that fails without ending the process is modelled as a crash before it.
- DigestGate.DiscordGate.FinishRun: an exception that is not Discord's, raised by the same part on every pass, ends each pass without counting a try; the source then keeps the run owing for ever, and so does the model.
- SHA-256, JSON and UTF-8: a codec whose records read back, no proper beginning of a record's line is JSON, and text after text is text. Verification compares JSON numbers by value.
- AuditSink.JsonlAuditSink.Tail: states agreement with the whole file for files without empty lines; with empty lines at its end the source's answer depends on the chunk.
- `recent`, file permissions, fsync, and lock time-outs of the ledger.
- Cross-process sharing of the approval queue's file and the fallbacks for unreadable files, which the source's own locking does not cover. Uuids are taken to be new.
- Quotes.ParkedOnce: one reply is handled at a time, nothing but the reply desk parks `client.quote` (any other producer may park anything else), and a card's record is kept (the source forgets cards after sixty days, replies and all).
- Price.Unambiguous: replies in ASCII; the source's regular expression also takes other scripts' digits and spaces.
- QuoteDesk.QuoteReplies.Consider: who wrote a reply and which card it answers are parameters.
- The provenance check and the email text of a quote.
- Consolidation.EveryTurnHasAPlace: one consolidator for each namespace, and no `forget`.
- Past about a thousand failures in a row the source's backoff overflows a float, where the model's stays at six hours.
- Text that cannot be encoded (lone surrogates), which the source's record refuses.
- Embeddings and their vectors, BM25's formula, recency's exponential: positive real scores and weights, with real arithmetic for floats. Floors, budgets and link expansion of a recall.
- Redaction and length capping of lessons; the backup file of the migration.
- Dashboard sessions, bearer tokens, grants, and the HMAC itself.
- Other parts of the repository - placement and the GPU scheduler, adapters, configuration, the web views, the doctor - are not part of this model.
