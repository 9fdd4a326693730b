# The intent plane, verified

This project models the intent plane as one system and proves what it promises.

An agent declares an intent under an idempotency key. The gate decides it: it
scores the criteria of an attested spec, mirrors every event of the decision to
a durable feed, claims the key in a durable reservation file, and emits a single
ACHIEVED record when, and only when, everything holds. Independent verifiers
re-read the feed from its bytes. Clients act on the outcome, settle from the
feed, and reconcile it with what they executed.

## How it is modelled

- **Stores** (`Lines`, `Feed`, `Idempotency`) are files of bytes plus the fields
  kept in memory. A crash leaves any prefix of the write in flight, and opening
  rescans the file. What recovery needs of a line (one non-empty line, read back
  exactly, no proper prefix of it is JSON) is proved for the concrete printer and
  parser of `Json`, `JsonProofs` and `FeedRecord`, following RFC 8259.
- **The gate** (`Gate`) is a program that asks its environment one thing at a
  time: append a record, score a criterion, consult revocation, reserve the key.
  `GateSpec` describes it without program points: a decision table in the order
  of CONTRACT.md section 4.2, and a grammar for the log. `Authorization` is
  `Authorize` as the source writes it, over the log, feed and store objects, and
  `GateRecords` says, in the words of the contract, what every call writes.
- **What the bytes are** is said apart from the code that reads and writes them:
  `WireText` spells out the lines and the hashed encoding, `StoreFile` and
  `FeedFile` what opening and examining an arbitrary file make of each line.
- **The plane** (`Plane`) runs any number of these programs at once over one
  feed and one reservation file, with crashes at any byte of either write,
  restarts, and revocations in between. `Clients` adds callers whose responses
  arrive, are lost, or turn into a 500 followed by a feed consult.
- **The verifiers** (`VerifierInput`, `Verifier`, `PyVerifier`) are the Go and
  Python examiners; **the clients** are `Declarant`, `GateClasses`, `Vocabulary`,
  `Reporting`, `Settlement` and `EndToEnd`; **the spec store** is `Envelopes` and
  `SpecStore`, and `Revocation` runs it beside the plane. `ReusedIds` proves what
  holds by key alone, over the same steps, for calls that may share intent ids.
- **The tier-2 normalizer** is `Tier2`, its numbers `Doubles` (binary64 rounding
  of unbounded integers, both zeros, infinities and NaN) and `Tier2Numbers`, and
  `Tier2Depth` says when its recursion ends by itself. `Tier2Forms` says schema
  form by schema form what becomes of a value.
- **The randomized loop** is `Oracle`, the independent predictor, with the loop's
  own classification in `LoopClasses` and `LoopAgreement`.
- SHA-256 is an unknown function into 64 hexadecimal characters. Where two
  inputs must be told apart by their digest, the conclusion is "equal, or a
  collision". Signature checking, base64, strict payload parsing, Unicode
  normalization and the canonical dump of a tool call are parameters.
- Scorer answers are arbitrary integers, out-of-domain ones included; revocation
  answers are arbitrary except where a theorem says the signal is honest.

## What the code needs to be true

- Intent ids are distinct across runs, for what the verifiers and the feed consult
  say: `ID()` keeps 16 hex characters (core/internal/intent/types.go:87-90), so
  these results are about executions whose calls go by their intent ids
  (`Plane.Named`). At most once per key needs no such thing: `ReusedIds.OncePerKey`.
- An attested intent names a non-empty spec hash. The gate never checks this;
  `SpecStore.BuildIntent` proves it of every intent the server builds.
- A failed write or sync ends the process: crashes are modelled, not I/O errors
  that a process survives. `Reserve` is fault-free in the same sense.
- The ref of a revocation found at resolution is non-empty: the gate reads an
  empty one as no revocation (core/internal/gate/gate.go:224).
- Text is valid UTF-8 and one character stands for one byte (in `PyJson`, for one
  Unicode scalar value). Integers are unbounded where the source has 64 bits.
- The tier-2 recursion ends by itself on a schema with the ranks of
  `Tier2Depth.Ranked`; otherwise the interpreter's depth limit refuses the call,
  as `Tier2Depth.EndlessDefault` shows.
- The revocation signal of a run answers from the spec store of the moment
  (`Revocation.ConsultsStore`), where revocation is said to be effective.

## Where code and documents differ, or a promise needs a condition

- The classification is total but the vocabulary is not closed over every spec:
  a failed criterion whose name is empty or contains a colon can be surfaced as
  UNKNOWN. `GateClasses.ColonNameIsUnknown` gives an input,
  `GateClasses.UnknownExactly` the exact condition on one outcome, and
  `Vocabulary.UnknownPossible` the exact condition on the intent, before any call.
- One number spelled in two ways does not always give one key. Under a declared
  `number`, `0` becomes `0.0` while `-0.0` stays `-0.0`
  (declarant/pydeclarant/mcp_adapter.py:194-195), and the two are dumped
  differently: `Tier2Numbers.ZeroSignForks`. This is the only such pair:
  `Tier2Numbers.NumbersExactly` and `Tier2Numbers.CallNumbers`.
- Two integers declared as a `number` share a key when they round to one float,
  which happens beyond 2 to the 53, and one too large for a float is refused:
  `Tier2Numbers.IntegersExactly` and `Tier2Numbers.LargeIntegers`.
- The randomized loop's `classify` is not the declarant's: a failed criterion
  named `limit:daily` is policy-denied for the one and UNKNOWN for the other.
  `LoopClasses.FailedAgrees` says exactly on which reasons they agree,
  `LoopAgreement.PlainNamesAgree` for which criterion names they always do.
- An unscored criterion with a reserved name such as `absent-key` is reported
  under that other class; `GateClasses.OutcomeClass` says exactly when.
- An out-of-domain score at the dispatch edge is refused without the distinct
  UNEVALUABLE event that an unevaluable one gets (core/internal/gate/gate.go:363).
- A key does not tell scopes and runs apart when they hold colons
  (`Reporting.RunsShareKeys`), so `reconcile`, which says it ignores the records of
  other runs, can read them. `Reporting.SameKeyExactly` and
  `Reporting.PrefixSelects` are the exact conditions, `Reporting.KeysSeparateRuns`
  and `Reporting.OwnRunOnly` what colon-free scopes and runs guarantee.
- VERIFIED says nothing about the lifecycle graph, which the examiners never
  consult; lifecycle facts are proved on the gate's side.

## Model

| member | source | states |
|---|---|---|
| FeedRecord.UnmarshalMarshal | core/internal/durable/store.go:35-50 | every record is read back exactly from its own JSON line |
| FeedRecord.LineShape | core/internal/durable/store.go:118-131 | a record's line is one non-empty line ending in a brace, and no proper prefix of it is JSON |
| WireText.FeedLineText | core/internal/durable/store.go:35-50 | the line of a record is this text: four members always, six more exactly when they are not empty |
| WireText.EscapeForms | core/internal/durable/store.go:122-131 | quotes, backslashes, line breaks, tabs and the three HTML characters, as json.Marshal writes them |
| JsonProofs.ObjectParses | core/internal/durable/store.go:122-131 | the printed object is parsed back member for member by a full RFC 8259 parser |
| JsonProofs.ObjectPrefixFails | core/internal/durable/store.go:98-99 | no proper prefix of a printed object parses, so a torn write is never mistaken for a record |
| Lines.RecoverTorn | core/internal/durable/store.go:66-112 | a prefix of a write leaves the old content plus the new line exactly when all of its bytes but the newline are there |
| Feed.AppendSound | core/internal/durable/store.go:118-142 | after an append the memory equals what a reopen would recover, and the record is numbered n+1 on its own line |
| Feed.TornSound | core/internal/durable/store.go:66-112 | a crash inside an append loses nothing acknowledged and gains at most the record in flight |
| Feed.RefinesLog | core/internal/durable/store.go:71-142 | over any history of appends, crashes at any byte and restarts, memory and file are one log numbered 1..n |
| Feed.AsOfImmutable | core/internal/durable/store.go:147-161 | what is visible as of a reached cursor never changes afterwards |
| Feed.SinceNumbered | core/internal/durable/store.go:147-161 | past a reached cursor, Since returns exactly the rest of the log |
| Feed.FeedStore.Open | core/internal/durable/store.go:71-112 | the recovery scan computes the recovered records, their maximum number and the newline flag |
| Feed.FeedStore.Append | core/internal/durable/store.go:118-142 | one append changes file, index, number and flag as stated and keeps the store sound |
| Feed.FeedStore.Since | core/internal/durable/store.go:147-161 | exactly the records past the cursor and of the type asked for, in order |
| Feed.FeedStore.ByIntent | core/internal/durable/store.go:165-176 | exactly one intent's records, sorted by intent_seq, equal ones in file order |
| StoreFile.OpenedExactly | core/internal/durable/store.go:71-112 | whatever a file holds, opening it yields the records of exactly the lines that hold one, in order, numbers on from the greatest, and notes an unterminated last line |
| StoreFile.RecordIs | core/internal/durable/store.go:35-50 | an object decodes exactly when its known members fit their fields, and each field is the last value under its name that is not null |
| Idempotency.ReserveSound | core/internal/idempotency/store.go:134-164 | what is reserved in memory is exactly what a restart recovers |
| Idempotency.TornSound | core/internal/idempotency/store.go:70-110 | a crash inside Reserve either reserved the key or changed nothing, and no earlier reservation is lost |
| Idempotency.IdemStore.Open | core/internal/idempotency/store.go:50-110 | recovery loads the last id of every non-empty key and the newline flag |
| Idempotency.IdemStore.Reserve | core/internal/idempotency/store.go:134-164 | true exactly on a non-empty free key, which becomes reserved; otherwise nothing changes |
| StoreFile.ReservedExactly | core/internal/idempotency/store.go:70-110 | whatever a file holds, the keys reserved after opening it are those of the lines that reserve one, each for the intent of its last such line, and never the empty key |
| WireText.KeyLineText | core/internal/idempotency/store.go:24-27 | the line of a reservation is this text |
| Audit.DecodeEncode | core/internal/audit/eventlog.go:53-83 | a parser recovers the exact list of events from the encoding, whatever colons, digits or newlines it holds |
| Audit.EncodeInjective | core/internal/audit/eventlog.go:64-68 | equal encodings come from equal logs |
| Audit.HashCommits | core/internal/audit/eventlog.go:53-83 | equal hashes mean equal logs or a collision of the digest |
| WireText.EncodeText | core/internal/audit/eventlog.go:53-83 | the hashed bytes of one event and of two, spelled out |
| Audit.EventLog.Append | core/internal/audit/eventlog.go:35-43 | the event appended carries the next clock value, without a gap |
| Audit.EventLog.TrajectoryHash | core/internal/audit/eventlog.go:69-83 | the loop hashes exactly the canonical encoding of the log |
| GateInvariant.NextInv | core/internal/gate/gate.go:139-191 | every step keeps: DECLARED first, consecutive clocks, known types, a hash only on the last record and only when done |
| Intents.SameIdExactly | core/internal/intent/types.go:87-90 | two intents share an id exactly when their seeds' digests agree in their first sixteen characters |
| GateSpec.FollowsTable | core/internal/gate/gate.go:207-464 | whatever it is answered, a call asks exactly the word of the grammar and ends as the first table row that applies says |
| GateTheorems.AchievedExactly | core/internal/gate/gate.go:207-464 | ACHIEVED if and only if the key is free, the spec attested, enforced and unrevoked at both checks, nothing awaits a human, and all criteria pass, volatile ones twice |
| GateTheorems.NoScoringOnRefusal | core/internal/gate/gate.go:202-301 | a refusal before scoring never calls the scorer |
| GateTheorems.GrantCalls | core/internal/gate/gate.go:310-373 | grants and shadows score each criterion once at declaration and each volatile one once more; stable ones never again |
| GateTheorems.RecordsFollowWord | core/internal/gate/gate.go:139-154 | the whole feed footprint of a call is the mirror of its word |
| GateRecords.Accounted | core/internal/gate/gate.go:202-464 | for every intent and every answer, the type and text of every record a call leaves, in order, its terminal and its reason, in the words of the contract |
| GateRecords.RecordsAnswer | core/internal/scoring/scorer.go:32-42 | every SCORED or RECHECK record names a criterion and says PASS, FAIL or UNEVALUABLE exactly as the scorer answered for it in that phase |
| GateRecords.GrantSays | core/internal/gate/gate.go:310-464 | a granted call has recorded PASS of every criterion and PASS again of every volatile one, FAIL of none, and ends in the reservation and the grant |
| GateRecords.ColumnsExactly | core/internal/gate/gate.go:139-191 | every record carries the intent and its place, scores alone the scorer, a grant or shadow alone key, rule and spec, the last alone the hash of the whole log |
| GateTheorems.LifecyclePath | core/internal/lifecycle/transitions.go:11-32 | the lifecycle events of every call form a path of the transition graph |
| GateTheorems.GraphExactly | core/internal/lifecycle/transitions.go:11-32 | a transition is valid exactly if it is one of the nine edges, by name |
| GateTheorems.TerminalsEnd | core/internal/lifecycle/states.go:21-31 | a state is terminal exactly when no transition leaves it |
| GateTheorems.TransitionValid | core/internal/gate/gate.go:156-191 | every logged transition is an edge from the current state, so the invalid-transition errors are unreachable |
| Authorization.Authorizer.Authorize | core/internal/gate/gate.go:126-465 | the imperative call: its result, the feed, the reservations and the achieved number are those of the program's run, its records and verdict those of the literal account, and it never reports an invalid transition |
| Authorization.Authorizer.Admit | core/internal/gate/gate.go:202-249 | steps 1 to 1a3b refuse as the program does or reach the spec checks |
| Authorization.Authorizer.CheckSpec | core/internal/gate/gate.go:251-301 | posture, human judgment and thin-spec refusals, the first bad volatility deciding |
| Authorization.Authorizer.Score | core/internal/gate/gate.go:310-347 | the declaration loop follows the program, collecting failed names in order |
| Authorization.Authorizer.Recheck | core/internal/gate/gate.go:349-373 | the dispatch loop rescores volatile criteria only and stops at the first that does not pass |
| Authorization.Authorizer.Dispatch | core/internal/gate/gate.go:375-464 | revocation, shadow, reservation and grant, in that order, with the achieved number of the record appended |
| VerifierInput.SeenParses | verifier/verify.go:107-171 | the verifier's own declaration reads the gate's lines field for field |
| VerifierInput.ParseFeed | verifier/verify.go:173-204 | records and feed findings of a file: one finding for each faulty line, the last line alone being allowed to be torn, and the records of the lines that carry one |
| FeedFile.FindingsExactly | verifier/verify.go:173-204 | in line order: UNVERIFIABLE unparseable-line:n exactly for a line that is not the last and is neither blank nor a JSON object or null, REFUTED bad-record:n exactly for a null or an object of the wrong shape, nothing else |
| FeedFile.RecordsExactly | verifier/verify.go:107-171 | the records read are those of exactly the lines that carry one, in order |
| FeedFile.GarbledReported | verifier/verify.go:188-196 | a garbled line before the last is reported at its number and keeps the report from VERIFIED |
| FeedFile.TornReported | core/internal/durable/store.go:118-142 | so a torn fragment that a later append terminated makes the report abstain at that line |
| VerifierInput.TornLegible | verifier/verify.go:173-204 | after a crash at any byte the verifier still reads exactly the store's records and no badly shaped line |
| VerifierInput.AppendLegible | verifier/verify.go:173-204 | appends keep the file legible, and without crashes free of torn lines |
| VerifierInput.FindingsAbstain | verifier/verify.go:178-204 | findings of a file without badly shaped lines only abstain; without torn lines there are none |
| Verifier.VerifyIntent | verifier/verify.go:209-289 | the Go checks, in their fixed order: the verdict and the reason the contract gives the sorted records, word for word |
| Verifier.ExaminedAsExpected | verifier/verify.go:206-289 | the finding of sorted records in literal types and reasons: gaps, declaration, vocabulary, hashes, end, provenance fields of ACHIEVED and SHADOW_RECORDED, and the recomputed hash |
| Verifier.Verify | verifier/verify.go:292-345 | the Go report over raw bytes: feed findings of the lines, numbers and keys, one finding per intent in first-appearance order, worst verdict overall |
| FeedFile.NumbersExactly | verifier/verify.go:301-307 | no finding if the numbers run 1, 2, ... in file order, else the first that does not, with the number expected |
| FeedFile.KeysExactly | verifier/verify.go:308-318 | one finding for every ACHIEVED record whose non-empty key an earlier one holds, in order |
| FeedFile.OrderExactly | verifier/verify.go:320-332 | intents are reported once each, in the order of their first records |
| FeedFile.ReportExactly | verifier/verify.go:292-345 | the whole report on a file: findings of lines, an empty finding exactly if nothing could be read, numbers, keys, then the contract's finding on exactly the records of each intent; REFUTED if any finding is, VERIFIED if all are |
| Verifier.VerifiedExactly | verifier/verify.go:206-289 | VERIFIED if and only if the records rearrange into a contiguous, declared-first list of the thirteen types, hashed only at one of six legal ends, with key and spec hash on ACHIEVED and SHADOW_RECORDED and a matching hash |
| Verifier.ExamineInvariant | verifier/verify.go:206-222 | the whole finding is the same for any order of the same records, gaps and duplicates included |
| Verifier.TamperEvident | verifier/verify.go:283-288 | records that verify and end in a log's committed hash are that log, or a collision |
| PyVerifier.VerifyIntent | verifier/pyverifier/verify.py:101-145 | on corresponding records the Python twin gives the same finding as the Go one, with the contract's verdict and reason |
| PyVerifier.Verify | verifier/pyverifier/verify.py:148-182 | on the same parsed records and findings the whole report is the same |
| PyVerifier.TrajectoryHash | verifier/pyverifier/verify.py:38-52 | the second encoder hashes the same bytes |
| GateVerified.CompletedVerifies | core/internal/gate/gate.go:170-191 | everything a completed run leaves in the feed is VERIFIED |
| GateVerified.IncompleteAbstains | verifier/verify.go:243-247 | a run without its last record in the feed is UNVERIFIABLE no-terminal-hash |
| GateVerified.SameEvents | verifier/verify.go:87-105 | the verifier recomputes the log's own encoding from the feed records |
| GateVerified.CommitmentHolds | core/internal/gate/gate.go:165-180 | no edit, insertion, deletion or renumbering of an intent's records survives against the hash the gate committed |
| Plane.StepInv | core/internal/gate/gate.go:126-465 | every step of the concurrent plane, crashes included, keeps the system invariant and loses no reservation |
| Plane.ExecutionInv | core/internal/gate/gate.go:126-465 | the invariant holds in every reachable state |
| Plane.ReservationsPersist | core/internal/idempotency/store.go:134-164 | a reserved key stays reserved by the same intent through every later step and restart |
| PlaneTheorems.GrantReserved | core/internal/gate/gate.go:424-464 | the key of every ACHIEVED record is in the recoverable reservation file, claimed by that intent |
| PlaneTheorems.OneGrantPerKey | core/internal/gate/gate.go:424-464 | no two ACHIEVED records share a key |
| PlaneTheorems.NeverRefuted | verifier/verify.go:291-345 | in every reachable state the examiner never answers REFUTED: completed intents VERIFIED, the others abstain, feed findings only abstain |
| PlaneRuns.SafeExecution | verifier/verify.go:291-345 | all of it over whole executions with any interleaving and any crashes, with one finding for every recorded intent and no key granted twice |
| PlaneRuns.AllVerified | verifier/verify.go:291-345 | without crashes, once every run has finished, the report is VERIFIED with no feed finding |
| PlaneRuns.GrantsDeserved | core/internal/gate/gate.go:207-464 | under any interleaving and crashes, only an intent that meets every condition of a grant has an ACHIEVED record |
| PlaneRuns.RevocationEffective | core/internal/gate/gate.go:375-390 | once a spec is revoked, a run under it that has not passed its dispatch-edge check never reserves, achieves or shadows |
| Revocation.StoreIsRevoke | plane/store.go:82-102 | a store call is one revocation step of the plane, or nothing to it |
| Revocation.StoreAnswers | plane/store.go:108-129 | after any publishes and revokes beside any runs and crashes, RevokedRef answers as the plane's tombstones say |
| Revocation.StoreRevocationEffective | core/internal/gate/gate.go:375-390 | once the store answers that a spec is revoked it always does, and a run under it that has not passed its dispatch-edge check never reserves, achieves or shadows |
| PlaneRuns.AuthorizeIsARun | core/internal/gate/gate.go:126-465 | the outcome proved of the method is reached by moves of the step system from any state |
| Declarant.TerminalPosition | declarant/client.go:152-169 | the first record of greatest intent_seq, and only if it carries the commitment |
| Declarant.ClassifyTable | declarant/declarant.go:101-147 | nothing but ACHIEVED proceeds, a retry is safe in every class but the granted, the reserved and the unread, and a foreign terminal is UNKNOWN |
| Declarant.FailedTable | declarant/declarant.go:112-132 | each class of a failure, by exactly the reasons it is for |
| Declarant.EdgeTable | declarant/declarant.go:134-147 | each class of a refusal at the edge, by exactly its reasons |
| Declarant.RecordTable | declarant/declarant.go:149-178 | the class of a last record of every type and detail the gate writes, UNKNOWN for a type that ends no call |
| Declarant.Declare | declarant/client.go:107-150 | the consult precedes the decision: it happens exactly on a status other than 200 and 400, classifies the committed last record, and an unreachable feed or one without such a record means INDETERMINATE and no retry |
| Declarant.OnlyReplyProceeds | declarant/pydeclarant/gating.py:58-83 | the door to execution opens exactly on the call's own synchronous ACHIEVED |
| GateClasses.PathsAgree | declarant/declarant.go:149-178 | for every completed run, the synchronous result and the last feed record classify alike |
| GateClasses.OutcomeClass | declarant/declarant.go:101-147 | every completed call gets the class and retry advice of the row that decided it |
| GateClasses.UnknownExactly | declarant/declarant.go:128-132 | UNKNOWN exactly when failed criteria join to names the vocabulary cannot place |
| GateClasses.ColonNameIsUnknown | declarant/declarant.go:128-132 | a concrete spec and outcome that is surfaced as UNKNOWN |
| GateClasses.WellNamedNeverUnknown | declarant/declarant.go:128-132 | non-empty colon-free criterion names never yield UNKNOWN, and failed criteria are then policy denials |
| Vocabulary.UnknownPossible | declarant/declarant.go:128-132 | some answers of the scorer surface an intent as UNKNOWN if and only if it can reach the scorer and has an empty criterion name, or a colon in a name where it or an earlier name starts as no reason does |
| GateClasses.SafeRetryReservedNothing | declarant/declarant.go:101-105 | a same-key retry is advised only after calls that left the reservations as they found them |
| GateClasses.ReservesExactly | core/internal/gate/gate.go:424-434 | a call reserves its key exactly when it achieves |
| Clients.ConsultDecides | declarant/client.go:134-149 | the 500-edge consult classifies a completed run as its lost response would, and an interrupted one as INDETERMINATE |
| Clients.SafeRetryOwnsNothing | declarant/client.go:134-149 | when the feed says a retry is safe, that call owns no reservation, whatever ran or crashed meanwhile |
| Clients.FiresAtMostOnce | declarant/pydeclarant/gating.py:58-83 | over any callers, retries, lost responses, answers that arrive after the process died, 500s and restarts, the gated body fires at most once per key, each time with a durable ACHIEVED record |
| ReusedIds.OncePerKey | core/internal/idempotency/store.go:134-164 | even if calls share intent ids: no two ACHIEVED records share a key, each key is recoverable from the reservation file, and the body fires at most once per key |
| ReusedIds.StaysReserved | core/internal/idempotency/store.go:134-164 | a reserved key stays reserved, whatever the ids |
| PyJson.DumpsSplit | declarant/pydeclarant/reporting_adapter.py:161 | a string dumped with ASCII escapes is read back, with what follows it, in one way only |
| PyJson.DumpsParses | declarant/pydeclarant/reporting_adapter.py:161 | what is dumped is read by a full JSON parser as the UTF-8 bytes of exactly this string |
| PyJson.ShortForms | declarant/pydeclarant/reporting_adapter.py:161 | the seven escapes with a letter or a sign of their own |
| PyJson.LongForms | declarant/pydeclarant/reporting_adapter.py:161 | every other character that is not plain is its four digits, or the two times four of its surrogates |
| Reporting.CanonicalIdentity | declarant/pydeclarant/reporting_adapter.py:104-161 | keys an identity exactly when its base fields are given and clean and the discriminators are those of its action, row by row by the action's name, and returns its bytes as text; refuses all others |
| Reporting.CanonicalText | declarant/pydeclarant/reporting_adapter.py:155-161 | the keyed bytes, member by member in sorted order |
| Reporting.DatesExactly | declarant/pydeclarant/reporting_adapter.py:85-101 | a date is four digits, two and two with hyphens, naming a day of the Gregorian calendar, and nothing else |
| Reporting.LeapDays | declarant/pydeclarant/reporting_adapter.py:85-101 | 29 February 2024 and 2000 are dates, of 2023 and 2100 not |
| Reporting.MonthEnds | declarant/pydeclarant/reporting_adapter.py:85-101 | 31 December is a date, 31 April and the year 0 are not, nor is another spelling |
| Reporting.CanonicalInjective | declarant/pydeclarant/reporting_adapter.py:104-161 | two keyable identities have equal canonical bytes exactly when all their fields are equal |
| Reporting.KeysSeparate | declarant/pydeclarant/declare.py:72-76 | within one scope and run, equal keys mean one report or a collision |
| Reporting.SameKeyExactly | declarant/pydeclarant/declare.py:72-76 | two declarations derive one key if and only if scope, run and tool have the same colon-separated pieces and the arguments one digest |
| Reporting.KeysSeparateRuns | declarant/pydeclarant/declare.py:72-76 | with colon-free scopes and runs, one key means one scope, one run and one report, or a collision |
| Reporting.RunsShareKeys | declarant/pydeclarant/declare.py:72-76 | two runs with colons in their names that share every key |
| Reporting.PrefixSelects | declarant/pydeclarant/reporting_adapter.py:273-287 | the prefix test selects exactly the keys whose pieces begin with those of this scope, run and tool |
| Reporting.OwnRunOnly | declarant/pydeclarant/reporting_adapter.py:273-287 | with colon-free scopes and runs, those of this run only |
| Reporting.GateSubmission | declarant/pydeclarant/reporting_adapter.py:193-216 | a report that is not keyable or whose action has no spec is refused before any declaration, the submission runs only on a fresh ACHIEVED, under the key spelled out, and a transport error or an exception of the submission propagates |
| Reporting.GateBatch | declarant/pydeclarant/reporting_adapter.py:230-253 | one outcome per record, in order, each decided by its own exchange; an exception that propagates ends the batch without outcomes, and exactly the granted submissions up to it have run |
| Reporting.Reconcile | declarant/pydeclarant/reporting_adapter.py:273-298 | each class of the reconciliation holds exactly the keys with the matching counts |
| EndToEnd.OnlyLostSubmissions | declarant/pydeclarant/reporting_adapter.py:256-298 | against the plane's feed, only "achieved without submission" can be reported, and every logged submission is matched |
| EndToEnd.SettledOverPlane | core/internal/gate/acceptance_test.go:118-162 | over every execution of the plane, crashes included, any schedule of polls, consumer crashes and rewinds leaves one unchanging event per granted key, and all of them once nothing is left |
| EndToEnd.FeedOnlyGrows | core/internal/durable/store.go:52-64 | over every execution the feed only grows, through crashes too, and its grants stay tracked |
| Settlement.ReferenceAdapter.OnAchieved | core/internal/adapter/adapter.go:47-59 | idempotent on the key: the first event stays; a fresh key gets an event of its intent's id, key and payload |
| Settlement.ReferenceAdapter.Recorded | core/internal/adapter/adapter.go:63-69 | one event per key in first-recorded order |
| Settlement.PayloadCommits | core/internal/adapter/adapter.go:71-85 | payloads are equal exactly when intent id, key, action class, scope, rule hash and spec hash are, or the digest collides, for lengths the 8-byte prefix can hold |
| Settlement.ByteAt | core/internal/adapter/adapter.go:87-95 | byte j of a length prefix is the length over 256 to the j, modulo 256 |
| Settlement.PayloadBytes | core/internal/adapter/adapter.go:74-85 | the bytes hashed are the six fields in order, each behind its length |
| Settlement.HandleEvents | core/cmd/server/main.go:245-266 | the page past the cursor and the next cursor |
| Settlement.CollectedOnce | core/cmd/server/main.go:258-264 | pages chained by next_since over a growing feed neither skip nor repeat a record |
| Settlement.FeedConsumer.Poll | core/internal/gate/acceptance_test.go:146-162 | one poll settles exactly its page and moves the cursor to its end, which is one full turn of the schedules below; over tracked intents it never fails |
| Settlement.SettledOnce | core/internal/gate/acceptance_test.go:118-162 | after any schedule of polls, crashes, rewinds and growth the ledger holds one unchanging event per achieved key, and all of them once nothing is left |
| Envelopes.PAEInjective | plane/envelope.go:56-60 | the signed bytes determine payload type and payload |
| Envelopes.PAEShape | plane/envelope.go:56-60 | the signed bytes, part by part |
| Envelopes.TypesSeparate | plane/envelope.go:27-32 | no signed message is both a spec and a revocation |
| Envelopes.ChecksExactly | plane/envelope.go:121-147 | an envelope verifies to a payload and a key exactly when its type is the wanted one, it decodes to that payload, and that key made the first valid signature of a trusted key over this type and payload |
| Envelopes.Verify | plane/envelope.go:124-147 | the scan returns the first signature that verifies, skipping unknown keys and undecodable ones |
| SpecStore.Store.Publish | plane/store.go:47-68 | only a verified, parseable envelope enters, under its own content address, which is pinned |
| SpecStore.PublishedExactly | plane/store.go:47-68 | a published envelope that verifies and parses is stored and pinned under the hash of its payload and nothing else changes; any other changes nothing |
| SpecStore.Store.Revoke | plane/store.go:82-102 | only a verified tombstone naming a hash is written |
| SpecStore.BuriedExactly | plane/store.go:82-102 | a verified tombstone is stored under the hash it names and nothing else changes; any other changes nothing |
| SpecStore.Store.RevokedRef | plane/store.go:108-129 | the ref of a verified tombstone for exactly this hash |
| SpecStore.Store.Resolve | plane/store.go:155-195 | the hybrid rule: revoked, else stored, else pinned wire, else unattested |
| SpecStore.ResolvedExactly | plane/store.go:149-195 | a spec resolves exactly when its hash is unrevoked and the stored file vouches for it or, none being stored, the hash is pinned and the wire envelope does; the answer says which |
| SpecStore.RevokedExactly | plane/store.go:108-129 | a hash is answered as revoked, with a ref, exactly when it is well formed and a verified tombstone for this very hash says so |
| SpecStore.HashesExactly | plane/store.go:31-31 | a hash is sixty-four lower-case hexadecimal digits |
| SpecStore.ResolveRefines | plane/store.go:149-195 | after any accepted and rejected calls, Resolve is a lookup in two maps and the wire changes nothing |
| SpecStore.RevokedForever | plane/store.go:82-129 | once revoked, always revoked |
| SpecStore.OthersUntouched | plane/store.go:42-102 | a call about one hash never affects another |
| SpecStore.OnlyAddressed | plane/store.go:149-195 | whatever litter is there, only an unrevoked, verified envelope hashing to the claim resolves, from the wire only for a pinned hash |
| SpecStore.SameAddressSamePayload | plane/store.go:180-193 | store and wire payloads under one address are one payload, or a collision |
| SpecStore.BuildIntent | core/cmd/server/main.go:180-217 | the intent carries only what resolved, and is attested exactly when something did, with a non-empty hash |
| Tier2.ResolveRefs | declarant/pydeclarant/mcp_adapter.py:144-169 | reference following ends, the seen set growing within the finitely many that resolve |
| Tier2.Tier2Value | declarant/pydeclarant/mcp_adapter.py:172-200 | the schema-directed recursion computes the normal form of a value or refuses |
| Tier2.Tier2Object | declarant/pydeclarant/mcp_adapter.py:203-246 | the loops compute the normal form of an object, refuse a withheld property, and keep exactly the spelled and the defaulted members |
| Tier2.FieldsMembers | declarant/pydeclarant/mcp_adapter.py:203-246 | a declared property that is neither spelled nor given a default refuses the object if it is required or arguments are strict; what is keyed holds exactly the spelled and the defaulted members |
| Tier2.ArgsMembers | declarant/pydeclarant/mcp_adapter.py:249-261 | the same for the arguments of a call: under strict arguments a keyed call holds every declared property |
| Tier2Forms.NumberForms | declarant/pydeclarant/mcp_adapter.py:194-200 | what becomes of a value declared a number or an integer, by the value's own form |
| Tier2Forms.OthersStay | declarant/pydeclarant/mcp_adapter.py:186-200 | a value its schema says nothing of stays as spelled |
| Tier2Forms.OptionalForm | declarant/pydeclarant/mcp_adapter.py:174-185 | a union of null and one other branch is that branch |
| Tier2Forms.AmbiguousStays | declarant/pydeclarant/mcp_adapter.py:174-185 | under two branches that are not null a value stays as spelled |
| Tier2Forms.BranchesExactly | declarant/pydeclarant/mcp_adapter.py:174-181 | the branches of a schema stand under anyOf unless that counts for nothing, and then under oneOf |
| Tier2Forms.ObjectForm | declarant/pydeclarant/mcp_adapter.py:186-187 | an object is taken member by member where its schema says object or lists properties, and refused where its required names cannot form a set |
| Tier2Forms.ReferenceForm | declarant/pydeclarant/mcp_adapter.py:144-169 | a reference means its definition, overridden by the keys beside it |
| Tier2Forms.ReferenceRefused | declarant/pydeclarant/mcp_adapter.py:144-169 | a reference that leads nowhere refuses |
| Tier2Forms.DefinitionsAre | declarant/pydeclarant/mcp_adapter.py:128-141 | definitions are those of "$defs" and "definitions" that are objects |
| Tier2Forms.ListForm | declarant/pydeclarant/mcp_adapter.py:188-193 | a list is normalized item by item, or refused |
| Tier2.NormExactly | declarant/pydeclarant/mcp_adapter.py:172-246 | two keyable values share a normal form if and only if they are spellings of one value: defaults spelled or omitted at any depth, declared numbers that are one float, declared integers that are one integer |
| Tier2.NormIdempotent | declarant/pydeclarant/mcp_adapter.py:172-246 | a normal form normalizes to itself |
| Tier2.DepthIrrelevant | declarant/pydeclarant/mcp_adapter.py:172-246 | a result never depends on the recursion limit |
| Tier2Depth.Settles | declarant/pydeclarant/mcp_adapter.py:172-246 | under a rank on schema nodes, every value has a depth from which on neither a result nor a refusal depends on the limit |
| Tier2Depth.CallSettles | declarant/pydeclarant/mcp_adapter.py:249-261 | the same for a whole call |
| Tier2Depth.ListRanked | declarant/pydeclarant/mcp_adapter.py:174-185 | a schema that refers to itself through an optional branch has such a rank |
| Tier2Depth.EndlessDefault | declarant/pydeclarant/mcp_adapter.py:213-218 | a default that recurses through its own reference is refused at every limit |
| Tier2.CallExactly | declarant/pydeclarant/mcp_adapter.py:249-261 | spellings of one call are both refused or get one canonical value, and nothing else shares it |
| Tier2.DefaultSpelled | declarant/pydeclarant/mcp_adapter.py:213-222 | spelling out a discoverable default changes neither the canonical value of a call nor a refusal |
| Tier2.CallIdempotent | declarant/pydeclarant/mcp_adapter.py:249-261 | canonical arguments are their own canonical form |
| Doubles.NearestNearest | declarant/pydeclarant/mcp_adapter.py:194-195 | no float is nearer to an integer than the one it becomes |
| Doubles.NearestExact | declarant/pydeclarant/mcp_adapter.py:194-195 | rounding an integer gives a float and leaves floats alone |
| Doubles.TiesToEven | declarant/pydeclarant/mcp_adapter.py:194-195 | halfway between two floats the one with the even mantissa is taken |
| Doubles.FirstTies | declarant/pydeclarant/mcp_adapter.py:194-195 | 9007199254740993 goes down, 9007199254740995 up |
| Tier2Numbers.NumbersExactly | declarant/pydeclarant/mcp_adapter.py:194-197 | two spellings of one number get one canonical value under "number" exactly when both or neither is the negative zero, under "integer" always |
| Tier2Numbers.CallNumbers | declarant/pydeclarant/mcp_adapter.py:194-197 | respelling one declared number of a keyable call keeps its canonical value exactly when the zero signs agree |
| Tier2Numbers.IntegersExactly | declarant/pydeclarant/mcp_adapter.py:194-195 | two integers merge under "number" exactly when they round to one float, within 2 to the 53 never |
| Tier2Numbers.ZeroSignForks | declarant/pydeclarant/mcp_adapter.py:194-195 | 0 and -0.0 under a declared number: one number, two canonical values |
| Tier2Numbers.LargeIntegers | declarant/pydeclarant/mcp_adapter.py:194-195 | 9007199254740993 and 9007199254740992 merge, and an integer past the range of floats is refused |
| Tier2Numbers.KeysExactly | declarant/pydeclarant/mcp_adapter.py:264-326 | two keyable calls of one tool share a key exactly when they are spellings of one call, or the digest collides |
| Tier2.GateCall | declarant/pydeclarant/mcp_adapter.py:299-351 | every refusal to key precedes the declaration, a call with a withheld property declares and executes nothing, the key is spelled out, a transport error executes nothing, and a gated body runs only on a fresh ACHIEVED |
| Oracle.Predict | treasury/randomized_loop.py:339-406 | the second implementation, with its own words and its own score, decides one intent as the gate's table does |
| Oracle.ScoresAgree | treasury/randomized_loop.py:186-194 | the oracle's score is what proxy, scorer service and client answer the gate, on every question the gate asks |
| Oracle.Predictions | treasury/randomized_loop.py:328-409 | over a whole stream it predicts every terminal, reason and reservation of the gate; its class stands for the declarant's exactly when a failure's reason is aligned |
| LoopClasses.Classify | treasury/randomized_loop.py:75-106 | the loop over the tags finds the first that the reason starts with, after the earlier cases |
| LoopClasses.FailedAgrees | treasury/randomized_loop.py:75-106 | the loop's bucket of a failure stands for the declarant's class if and only if the reason is aligned |
| Oracle.ClassesAgree | treasury/randomized_loop.py:75-106 | over every outcome of the gate, only a failure with a reason that is not aligned is read differently |
| LoopAgreement.PlainNamesAgree | treasury/randomized_loop.py:75-106 | plainly named criteria make the two classifications agree on every outcome |
| LoopAgreement.LoopDiffers | treasury/randomized_loop.py:75-106 | an outcome of the gate that is policy-denied for the loop and UNKNOWN for the declarant |

## Left out

- GateSpec.FollowsTable: the scorer and the revocation signal answer each question once per call, as the code asks it; what computes the answers (the scorer service, its resolver, HTTP) is not part of this model.
- Settlement.PayloadCommits: stated for fields shorter than 2^64 bytes, the range of the length prefix.
- Tier2.GateCall: the JSON bytes of a canonical value are a parameter, so what separates keys is stated for a dump that writes no two canonical values alike; the interpreter's limit on the digits of an integer is not modelled.
- Doubles.FromInt: a float with a fraction is any real number, since only the integers among floats are compared with integers.
- Tier2Depth.Settles: the rank is a sufficient condition on the schema; that no weaker one suffices is not claimed.
- Reporting.Reconcile: the classes are sets; the order of the sorted lists is not modelled. Letter-case forks of identity fields remain the residual CONTRACT.md records.
- PyVerifier.Verify: agreement is on parsed records; the JSON readers of the two languages differ on nulls, huge integers and undecodable bytes.
- SpecStore.Store.Publish: a stored file is the envelope it decodes to or litter, not its JSON bytes; a partly written store file counts as litter.
- Idempotency.IdemStore.Open: the 4 MiB line limit of the scanner and the in-memory constructor are not modelled.
- Feed.FeedStore.Open: Go's case-insensitive match of JSON field names is not modelled.
- Disk errors a process survives, the mutexes themselves (each append and reservation is one atomic step), HTTP transport, redirects, timeouts, configuration and command lines.
- The rendered text of the verifier reports, and tier-1 canonicalization and the LangChain wrapper, whose behaviour is pydantic's and the framework's.
- Trust-root parsing, source pins and named unknowns of a spec payload, and the authoring, control and CDM adapters, which would add only field copying.
