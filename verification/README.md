# A verified model of the legislative platform

The platform lets citizens of a jurisdiction draft laws, collect signatures for them,
debate and vote on them, and change the very rules of the process by vote. Its data
keeps redundant state on purpose (counters next to rows, results next to ballots,
package statuses next to outcomes, a cached chain head next to the log), and its
deadlines are applied by a ticker long after the requests that set them. This project
models that logic and proves that the redundant state always agrees with the plain
definitions, and what follows from that for whole runs.

`dafny verify dfyconfig.toml` checks everything.

## How the model is laid out

The legislative engine

- `Electoral.dfy`: lifecycle, setup parameters, the exact electoral arithmetic.
- `Territory.dfy`, `Tables.dfy`: the hierarchy of jurisdictions and the stored rows.
- `Transactions.dfy`: every write transaction as a function from stored rows to new
  rows or an error. It is the specification: the use cases below are proved against it
  and the theorems are about it.
- `Engine.dfy`: the use cases as the program runs them, a class whose methods change the
  rows of an open transaction step by step and commit or drop it.
- `Integrity.dfy`: the invariant. It contains the stored integrity check and what is
  needed to make it inductive, among it that replaying the public trail gives back the
  stored status, signatures and ballots of every proposal.
- `Preservation.dfy`, `Decisions.dfy`, `Drafting.dfy`, `Closing.dfy`, `Deadlines.dfy`:
  every transaction keeps the invariant, and deadline transactions never fail.
- `Faults.dfy`: the errors only inconsistent data could cause are unreachable.
- `Steps.dfy`, `Ledger.dfy`, `Runs.dfy`: what one request may do, and runs of requests.
- `Theorems.dfy`, `Retries.dfy`, `Timing.dfy`, `Passes.dfy`: the promises over all runs.
- `Acts.dfy`, `Effects.dfy`, `Refusals.dfy`: exactly when each act is accepted, what it
  writes column by column, and what each refusal means.
- `Terms.dfy`, `Quotas.dfy`, `Verdicts.dfy`: the terms of each kind of proposal parameter by
  parameter, yearly quotas counted over runs, and how ballots become law.

Around it

- `AuditChain.dfy`, `AuditLog.dfy`, `Checkpoint.dfy`: the hash chain, its paged and
  cached verification under interleaved appends, and signed checkpoints.
- `Iam.dfy`, `IamGuard.dfy`: the policy evaluator and the lockout guard.
- `RateLimit.dfy`, `Debate.dfy`, `ThreadView.dfy`: comment placement, sliding windows
  and the display order.
- `Notify.dfy`: scheduled notices, passes that overlap with cancelling, and the set-based
  delivery.
- `Session.dfy`: session renewal.
- `CatalogImport.dfy`: the import that builds the hierarchy.

## Modelling choices

- A write transaction is atomic: it commits or leaves the committed rows as they were
  (src/infrastructure/db.rs:81-91). Requests interleave in any order between
  transactions; a run is any finite sequence of them.
- Instants are integers in milliseconds. The clock is read after the writer is acquired
  (src/application/proposals.rs:58-63), so each transaction brings its own instant, while a
  ticker pass reads it once. No theorem of the engine needs the clock to go forward in
  commit order. A pass promises that nothing is due at its instant beside requests and
  passes that read the clock less than a day before it, the shortest phase there is.
- Ids are numbers from a counter and never reused.
- The eligible accounts of a jurisdiction, the flags, the caller's permissions and
  territory come with each request and may differ from one request to the next. The
  only assumption on them is that no electorate reaches 2^64 accounts.
- 64-bit truncation in the electoral arithmetic is modelled and proved to have no effect
  for validated parameters.
- The table constraints that can fail are modelled: those between status and the
  publication and archiving instants, a positive target, archived rows being final, one
  snapshot per proposal and phase, one ballot per account and proposal, one result per
  proposal. A violation is an internal error that drops the transaction.
- The digest of the audit chain is a constructor, so equal digests come from equal
  inputs, and a signature is valid exactly when it was made with that key over those
  fields. The signed message is a tuple of its fields.

## Findings

- A draft cannot be withdrawn. The use case and the lifecycle allow it
  (src/application/proposals.rs:503-537), but archiving a draft leaves it without a
  publication instant, which the table refuses (migrations/0200_setup_proposals.sql:130),
  so the request always ends in an internal error. `Theorems.WithdrawIff` states exactly
  when withdrawal works.
- The signature that completes an urgent law opens its vote in the same transaction. If
  nobody is eligible at that instant it is refused with a conflict, although the signer was
  in the collection electorate (src/application/signatures.rs:143-171); `Acts.SignIff`
  states this as the only extra condition.
- For a broken audit chain the restricted kind filter is read before the public one; a
  restricted event of a new kind appended in between is missing from that answer
  (src/application/audit.rs:283-291). `AuditLog.BrokenKindsIff` gives the exact condition.
- A catalog file that names a code twice (`CatalogImport.RepeatedCodeLoops`), or a changed
  file imported over stored rows (`CatalogImport.ChangedFileLoops`), can close a cycle of
  parents (src/infrastructure/catalog.rs:69-77). `CatalogImport.LineKeepsForestIff` and
  `CatalogImport.FileKeepsForestIff` give the exact condition on lines and files. On a
  cycle the search for the effective setup runs for ever exactly when no jurisdiction on
  its way has an adopted setup (`CatalogImport.SearchEndsIff`).
- A session that renews at most once a minute can end long before one that renews on every
  touching request: a request that falls after the stored limit and before the other one is
  refused, and the other session goes on (`Sessions.LostRequest`, src/application/session.rs:96-98).
  `Sessions.LagIsBoundedIff` shows that nothing else makes the limits differ by a minute.
  Measured from the last request that was served, the minute always holds
  (`Sessions.LagsTheLastRequest`).
- The sliding window is open at its start: an interval that counts both its ends can hold
  twice the limit. Every half-open window holds at most the limit, and for that the clock
  need not even go forward.

## Model

| member | source | states |
|---|---|---|
| `Electoral.MinCountExact` | src/domain/proposals.rs:135-138 | a share of up to 100% of an electorate gives the exact ceiling, never more than the electorate, so the 64-bit truncation never shows |
| `Electoral.MajorityExact` | src/domain/proposals.rs:142-144 | for shares below 100% the requirement is the least count strictly above the share of valid votes, and the valid votes can reach it |
| `Electoral.ApprovalIff` | src/domain/proposals.rs:204-234 | approval if and only if participation meets the quorum over the electorate and yes votes exceed the majority share of valid votes; the branches for no valid votes and for a tie never change it |
| `Electoral.RejectionIff` | src/domain/proposals.rs:204-234 | quorum failure depends on participation alone; a vote not supported by more than it was refused never passes; at 50% passing is exactly more yes than no |
| `Electoral.YesIsMonotone` | src/domain/proposals.rs:204-234 | one more yes vote within the electorate never undoes an approval |
| `Electoral.ResultFits` | src/domain/proposals.rs:217-218 | both stored requirements lie within the electorate, hence in 64 bits |
| `Electoral.FiguresAreLeast` | src/domain/proposals.rs:217-218 | the stored requirements are the least counts that meet the quorum over the electorate and exceed the share of yes and no votes |
| `Electoral.OutcomeIs` | src/domain/proposals.rs:204-234 | the outcome and its reason in exact arithmetic: no quorum, approval, no valid votes, a tie, or too few yes votes |
| `Electoral.ParamsInRange` | src/domain/setup.rs:179-200 | a package is valid exactly when each of its 22 values lies in its range, in numbers |
| `Electoral.EdgeRises` | src/domain/proposals.rs:120-132 | every lifecycle edge, the archiving of an emptied debate included, goes up in the order draft, collecting, debate, voting, terminal, archived |
| `Electoral.OutcomeRoundTrip` | src/application/voting.rs:301-327 | the two stored columns are read back as an outcome exactly when they are the columns that outcome was stored as |
| `Territory.UpCompose` | src/application/setup.rs:74-102 | ancestors of an ancestor are ancestors, for the walk up the hierarchy |
| `Tables.VotersCount` | src/application/voting.rs:580-600 | with one ballot per account and proposal the ballots of a proposal are as many as its voters |
| `Tables.ChoicesSum` | src/application/voting.rs:91-110 | the three choice counts add up to the ballots of the proposal |
| `LegislativeEngine.Engine.FindSetup` | src/application/setup.rs:74-102 | the loop ends on a hierarchy without cycles and finds the adopted version of the nearest ancestor that has one, none if none has |
| `LegislativeEngine.Engine.AdoptedVersion` | src/application/setup.rs:81-91 | the row the query picks is the one adopted version of the jurisdiction |
| `LegislativeEngine.Engine.LastVersion` | src/application/setup.rs:154-161 | the loop computes the greatest version number of the jurisdiction, zero when there is none |
| `LegislativeEngine.Engine.Adopt` | src/application/setup.rs:142-190 | a proposed package becomes the next version and supersedes the adopted one; unknown and no longer proposed packages fail without change |
| `LegislativeEngine.Engine.Propose` | src/application/setup.rs:106-134 | valid parameters become a proposed package without a number, invalid ones are refused |
| `LegislativeEngine.Engine.Reject` | src/application/phases.rs:353-362 | only a package still proposed is rejected |
| `Closing.VersionsAreOneToK` | src/application/setup.rs:142-190 | version numbers of a jurisdiction are exactly 1 to k and the adopted version is k |
| `Closing.AdoptionSetups` | src/application/setup.rs:142-190 | adoption keeps numbers gapless and unique with one adopted version |
| `Closing.AdoptionCover` | src/application/setup.rs:142-190 | an adoption takes coverage from no jurisdiction and, where a setup already applied, gives it to none that lacked it |
| `LegislativeEngine.Engine.constructor` | src/infrastructure/db.rs:83-91 | an empty database over an acyclic hierarchy satisfies the invariant |
| `LegislativeEngine.Engine.Begin` | src/infrastructure/db.rs:83-91 | whatever a dropped transaction left, the next one starts from the committed rows |
| `LegislativeEngine.Engine.Commit` | src/infrastructure/db.rs:127-130 | the writer's rows become the committed ones |
| `LegislativeEngine.Engine.ConsumeGrant` | src/application/reauth.rs:35-56 | the oldest matching unexpired grant is marked consumed, or nothing changes |
| `LegislativeEngine.Engine.Reauthenticate` | src/application/reauth.rs:16-30 | a new unconsumed grant valid for five minutes |
| `LegislativeEngine.Engine.MaterializeElectorate` | src/application/phases.rs:84-123 | the eligible accounts of the instant, or a conflict without change when there are none |
| `LegislativeEngine.Engine.OpenVote` | src/application/phases.rs:215-260 | a vote opens as specified; a conflict leaves the transaction as it was, which the ticker relies on |
| `LegislativeEngine.Engine.EndCollection` | src/application/phases.rs:164-210 | debate or vote, by kind, exactly as specified |
| `LegislativeEngine.Engine.AdvanceOne` | src/application/phases.rs:297-347 | one due candidate in its own transaction commits exactly its specification and keeps the invariant |
| `LegislativeEngine.Engine.AdvanceDue` | src/application/phases.rs:291-351 | a ticker pass succeeds from every valid state, whatever requests and other passes commit between its transactions: nothing is due at its instant when it ends, each row it moved is reported once with the status it gave, and it reports nothing when nothing was due; alone it moves exactly the due rows |
| `LegislativeEngine.Engine.Others` | src/infrastructure/db.rs:83-130 | requests of others, each in its own transaction, leave the rows of that run |
| `LegislativeEngine.Engine.CloseDueVotes` | src/application/voting.rs:401-418 | the same for votes: no vote due at its instant is left, only votes due at its start are reported, each once; alone it closes exactly the due votes |
| `LegislativeEngine.Engine.CountBallots` | src/application/voting.rs:91-110 | the loop over ballots computes the tally of the proposal |
| `LegislativeEngine.Engine.CloseBallot` | src/application/phases.rs:407-451 | the vote closes with the computed outcome and its package is adopted or rejected; `Terms.DueVerdict` says which outcome that is for each kind |
| `LegislativeEngine.Engine.CloseOne` | src/application/voting.rs:333-396 | a due vote closes with its result row, as `Terms.DueVerdict` spells out; nothing happens when it is not due |
| `LegislativeEngine.Engine.CloseCandidate` | src/application/voting.rs:408-414 | one candidate commits when it closed and is rolled back when nothing was due any more |
| `LegislativeEngine.Engine.Adjust` | src/application/signatures.rs:49-73 | the stored count moves by one only if it is still the value read |
| `LegislativeEngine.Engine.Sign` | src/application/signatures.rs:93-180 | commits exactly the specified signature, closing the collection at the target; any error leaves the committed rows alone |
| `LegislativeEngine.Engine.WithdrawSignature` | src/application/signatures.rs:184-238 | commits exactly the specified withdrawal, of which `Acts.UnsignIff` and `Effects.UnsignAnswers` state the guard, the rows and the answer, or nothing |
| `LegislativeEngine.Engine.PublishDraft` | src/application/proposals.rs:367-498 | commits exactly the specified publication, of which `Acts.PublishIff` and `Faults.PublishedAsPromised` state the guard and the rows, or nothing |
| `LegislativeEngine.Engine.SaveOwnDraft` | src/application/proposals.rs:243-336 | commits exactly the specified draft, of which `Effects.SaveDraftIff` and `Acts.DraftIsAsGiven` state the guard and the rows, or nothing |
| `LegislativeEngine.Engine.WithdrawProposal` | src/application/proposals.rs:503-537 | commits exactly the specified withdrawal or nothing |
| `LegislativeEngine.Engine.ArchiveProposal` | src/application/proposals.rs:541-608 | commits exactly the specified archiving, of which `Effects.ArchiveIff` states the guard and the row, or nothing |
| `LegislativeEngine.Engine.CastBallot` | src/application/voting.rs:122-227 | commits exactly the specified ballot, counter and grant, of which `Acts.CastIff` and `Acts.CastCounts` state the guard and the rows, or nothing |
| `LegislativeEngine.Engine.StartInitialSetup` | src/application/phases.rs:457-538 | commits exactly the specified plebiscite or nothing |
| `Preservation.SignKeeps` | src/application/signatures.rs:93-180 | signing, and the phase it may open, keeps the whole invariant |
| `Preservation.UnsignKeeps` | src/application/signatures.rs:184-238 | withdrawing a signature keeps the whole invariant |
| `Preservation.PublishKeeps` | src/application/proposals.rs:367-498 | publishing keeps the whole invariant |
| `Preservation.CastKeeps` | src/application/voting.rs:122-227 | casting keeps the whole invariant |
| `Preservation.TargetWithin` | src/application/proposals.rs:425-426 | a target is at least one and at most the electorate |
| `Integrity.OthersKept` | src/application/voting.rs:580-625 | a transaction about one proposal keeps the invariant of all others, so only the touched row has to be shown |
| `Decisions.AdvanceKeeps` | src/application/phases.rs:291-347 | expiry, the opening of a vote and the archiving of an emptied debate keep the whole invariant |
| `Decisions.WithdrawKeeps` | src/application/proposals.rs:503-537 | withdrawal keeps the whole invariant |
| `Decisions.ArchiveKeeps` | src/application/proposals.rs:541-608 | archiving keeps the whole invariant |
| `Drafting.SaveDraftKeeps` | src/application/proposals.rs:243-336 | saving a draft keeps the whole invariant |
| `Drafting.StartKeeps` | src/application/phases.rs:457-538 | starting the plebiscite keeps the whole invariant |
| `Closing.ClosedKeeps` | src/application/voting.rs:333-396 | closing a vote with either fate of its package keeps the whole invariant |
| `Deadlines.TallyWithin` | src/domain/proposals.rs:213-215 | the tally never exceeds the electorate, so that error cannot occur |
| `Deadlines.CloseSucceeds` | src/application/phases.rs:407-451 | a due vote always closes: the electorate is not empty, the tally fits and the package is still proposed |
| `Deadlines.CloseKeeps` | src/application/voting.rs:333-396 | closing acts exactly on due votes and keeps the invariant |
| `Deadlines.AdvanceSucceeds` | src/application/phases.rs:308-345 | a due phase never fails: collections expire, debates open their vote or, exactly when nobody is eligible, are archived |
| `Faults.PublishedAsPromised` | src/application/proposals.rs:367-498 | the whole published row, snapshot, event and answer: setup and electorate of the instant, the civil year for laws, and as target the least positive count reaching the share the setup asks of a national, state or municipal electorate |
| `Faults.OpensUnderCurrentSetup` | src/application/phases.rs:215-260 | a vote opens under the setup effective then, for exactly the accounts eligible then, and the row changes in nothing else |
| `Faults.SignHasNoFaults` | src/application/signatures.rs:93-180 | on valid data signing never ends in an internal error |
| `Faults.UnsignHasNoFaults` | src/application/signatures.rs:184-238 | on valid data withdrawing a signature never ends in an internal error |
| `Faults.CastHasNoFaults` | src/application/voting.rs:122-227 | on valid data casting never ends in an internal error |
| `Faults.PublishHasNoFaults` | src/application/proposals.rs:367-498 | on valid data publishing never ends in an internal error |
| `Faults.StartHasNoFaults` | src/application/phases.rs:457-538 | on valid data starting the plebiscite never ends in an internal error |
| `Runs.ApplyKeeps` | src/application/voting.rs:551-625 | every request, failed ones included, keeps the invariant |
| `Runs.RunIsValid` | src/application/voting.rs:551-625 | the invariant holds after every run of requests |
| `Runs.ApplyMoves` | src/application/phases.rs:164-351 | every request is one step: one proposal, one edge inside its time window with the next deadline from the rules in force, ballots only while the vote is open, signatures only during collection, results immutable |
| `Runs.ApplyRecords` | src/application/reauth.rs:35-56 | every request either does nothing critical or its one critical act, paid with one grant of the session it came from; keys and trail only grow |
| `Runs.RunKeeps` | src/application/phases.rs:378-451 | over every run statuses only rise, terms are fixed at publication, the rules, voters and deadline of a vote at its opening, archived rows are final and coverage by a setup is never lost |
| `Theorems.ValidIsHealthy` | src/application/voting.rs:569-625 | the invariant implies that every mismatch count of the stored check is zero |
| `Theorems.AlwaysHealthy` | src/application/voting.rs:569-625 | from an empty database the stored check is healthy after every run |
| `Theorems.OneEdge` | src/domain/proposals.rs:120-132 | a request changes the status of at most one proposal, along one edge of the lifecycle, listed status by status |
| `Theorems.FirstStatus` | src/application/phases.rs:494-526 | a proposal appears as a draft, or as the initial plebiscite already in voting |
| `Theorems.ClosedIsFinal` | src/application/voting.rs:333-396 | after a vote is closed no run adds a ballot to it or changes its result, which stays the tally of its ballots |
| `Theorems.VoteRulesAreFixed` | src/application/phases.rs:381-400 | electorate, quorum and majority of a vote never change once it is open |
| `Theorems.TargetClosesCollection` | src/application/signatures.rs:143-171 | a signature leaves collection exactly when the count equals the stored target, an urgent law for its vote and any other for debate, and answer and event carry the stored count |
| `Theorems.CollectionBounds` | src/application/signatures.rs:94-180 | while collecting, count equals active signers, below a target of at most the electorate, and every active signer belongs to it |
| `Theorems.WithdrawIff` | src/application/proposals.rs:503-537 | withdrawal succeeds exactly for the author of a collecting proposal; the author's draft always fails against the table constraint |
| `Theorems.PackageFollows` | src/application/phases.rs:436-441 | a package is proposed while its proposal is open, numbered exactly when the vote approved it, rejected otherwise |
| `Theorems.GovernanceAlwaysHolds` | src/application/phases.rs:466-483 | in every reachable state laws exist only under a setup, at most one plebiscite is open and only where no setup applies, at most one is ever approved for a jurisdiction, and versions are 1 to k with k adopted |
| `Theorems.PublishWithinQuota` | src/application/proposals.rs:397-414 | the publication of a normal or an urgent law takes at most one unit of its author's rows of that kind and civil year and stays within the limit of its setup for that kind |
| `Quotas.QuotaIsCount` | src/application/proposals.rs:397-414 | after every run the rows a quota counts are as many as the requests of the run that published a law of that author and kind in that civil year |
| `Quotas.PublishedBelowLimit` | src/application/proposals.rs:397-414 | over every run a law is published only while its author has published fewer of the kind in that civil year than the setup then in force allows |
| `Quotas.AtMostLimit` | src/application/proposals.rs:397-414 | if no setup in force during a run allows more than n a year, no author publishes more than n laws of a kind in any civil year |
| `Quotas.RefusedAtLimit` | src/application/proposals.rs:397-414 | a publication refused for its quota is of a law whose author has already published as many of the kind that year as the setup in force allows |
| `Acts.PublishIff` | src/application/proposals.rs:367-498 | a draft is published exactly by its author, in one of the author's three places, with fewer of the author's laws of that kind in that civil year than the setup in force allows its kind, with a grant, when somebody is eligible; a setup is always in force for a draft |
| `Acts.DraftIsAsGiven` | src/application/proposals.rs:243-336 | a saved draft is the author's, of the kind and package given, in the country, state or municipality of the author as its level says, which has that level in the catalog when the places of the author have theirs; a package it replaces is rejected; nothing else changes |
| `Acts.SignIff` | src/application/signatures.rs:93-180 | a new signature is accepted exactly from a member of the collection electorate in one of its three places who does not sign already, with a grant, before the deadline; the last one of an urgent law also needs an electorate for its vote |
| `Acts.UnsignIff` | src/application/signatures.rs:184-238 | a signature is withdrawn exactly while it is active and the collection open, and needs no grant |
| `Acts.UnsignUndoes` | src/application/signatures.rs:184-238 | signing and then withdrawing restores every proposal row and every set of signers |
| `Acts.CastIff` | src/application/voting.rs:122-227 | a new ballot is accepted exactly from a member of the electorate who has not voted, while the vote is open: on a normal or urgent law with the proposal permission and a proposal grant, on a setup change or plebiscite with those for setups; never without the confirmation |
| `Acts.CastCounts` | src/application/voting.rs:122-227 | an accepted ballot adds its choice once to the tally of its proposal, to no other, and is confirmed as cast at that instant |
| `Acts.OneBallotForEver` | src/application/voting.rs:170-200 | after an account has voted, no run of requests lets it cast a second ballot on that proposal |
| `Acts.StartIff` | src/application/phases.rs:457-538 | a plebiscite starts exactly where no setup applies and none is being voted, with valid parameters and somebody eligible |
| `Effects.SaveDraftIff` | src/application/proposals.rs:243-336 | a draft is saved exactly with the permission, for a kind citizens may propose, with valid parameters for a setup change, where a setup applies to the author's place of that level; a stored one only by its author and while a draft |
| `Effects.UnsignAnswers` | src/application/signatures.rs:184-238 | a withdrawn signature takes one signer and one count from its collection and from no other, and answers with that count, the stored target and not signed |
| `Effects.StartedAsGiven` | src/application/phases.rs:457-538 | a started plebiscite stores the package as proposed, the eligible accounts, and a row already in voting under its own package for the days that package gives |
| `Effects.ArchiveIff` | src/application/proposals.rs:541-608 | archiving works exactly with the permission and for an approved, rejected, inquorate or expired proposal; the first closing instant stays and a package still proposed is rejected |
| `Effects.WithdrawnRow` | src/application/proposals.rs:503-537 | a withdrawn proposal is archived and closed at that instant and its package rejected |
| `Effects.AdvancedRow` | src/application/phases.rs:291-347 | a due collection expires, a due debate without eligible accounts is archived, any other due debate opens its vote; a package that ends with its proposal is rejected |
| `Effects.AdoptionIs` | src/application/setup.rs:142-190 | an adopted package gets the number after every other of its jurisdiction, the version in force there is superseded, and no other row changes |
| `Effects.EffectiveIs` | src/application/setup.rs:74-102 | the setup of a jurisdiction is its own adopted version, otherwise that of its parent, otherwise none |
| `Effects.GrantLasts` | src/application/reauth.rs:16-30 | a new grant opens exactly its act on its resource for its session, for five minutes |
| `Effects.OldestIsTaken` | src/application/reauth.rs:35-56 | the grant taken is the oldest of those that open the act, and nothing else changes |
| `Refusals.SignRefused` | src/application/signatures.rs:93-180 | every refusal of a signature names a condition that does hold |
| `Refusals.UnsignRefused` | src/application/signatures.rs:184-238 | every refusal of a withdrawal names a condition that does hold |
| `Refusals.CastRefused` | src/application/voting.rs:122-227 | every refusal of a ballot names a condition that does hold |
| `Refusals.PublishRefused` | src/application/proposals.rs:367-498 | every refusal of a publication names a condition that does hold |
| `Refusals.SaveRefused` | src/application/proposals.rs:243-336 | every refusal of a draft names a condition that does hold |
| `Refusals.EndRefused` | src/application/proposals.rs:503-608 | every refusal of a withdrawal or an archiving names a condition that does hold, and the internal error is that of the author's draft |
| `Refusals.StartRefused` | src/application/phases.rs:457-538 | every refusal of a plebiscite names a condition that does hold |
| `Terms.StoredVerdict` | src/application/phases.rs:407-451 | a stored result approves exactly when 10000 times the voters reach the quorum of its kind times the electorate and 10000 times the yes votes exceed the majority of its kind times yes and no, with the four kinds and their eight parameters written out; the row holds the ballots' counts and those parameters |
| `Terms.DueVerdict` | src/application/voting.rs:333-396 | a vote past its end always closes, with that verdict of the ballots cast and with that row |
| `Terms.DeadlinesByKind` | src/domain/setup.rs:87-115 | whatever the request, a phase it enters ends after the collection, debate or voting days of the kind, in the setup the proposal was published under or, for voting, the one its vote opened under |
| `Verdicts.ApprovedApplies` | src/application/setup.rs:142-190 | from the closing of its vote an approved setup is the effective one of its jurisdiction, with the parameters it was proposed with |
| `Verdicts.OthersKeepTheirSetup` | src/application/phases.rs:436-441 | closing a vote that approves no setup changes the effective setup of no jurisdiction |
| `Verdicts.UnanimousPasses` | src/domain/setup.rs:179-199 | whatever the validated rules, a unanimous vote of the whole electorate passes |
| `Verdicts.FirstSetup` | src/application/phases.rs:457-538 | from an empty database, for any valid parameters, a run of four requests gives the country its first setup |
| `Retries.SignRetried` | src/application/idempotency.rs:37-76 | a signature retried with its key after any run, from any session of the account, gives the first answer and changes nothing |
| `Retries.UnsignRetried` | src/application/idempotency.rs:37-76 | the same for a withdrawn signature |
| `Retries.PublishRetried` | src/application/idempotency.rs:37-76 | the same for a publication |
| `Retries.CastRetried` | src/application/idempotency.rs:37-76 | the same for a ballot with the same choice |
| `Retries.ReusedKeyConflicts` | src/application/idempotency.rs:53-57 | a recorded key with another act, proposal or choice is a conflict, with no tables to commit |
| `Retries.EveryActIsPaid` | src/application/reauth.rs:35-56 | every publication, signature and ballot of a run consumed a grant of its own, given to the session the request came from, for that act on that proposal, before it expired |
| `Timing.PacedOnTime` | src/application/phases.rs:164-351 | when no clock reads more than a gap after the start of the latest completed pass, nor a day before it, every open phase has a deadline after that start and within the bound of its rules; instants need not rise in commit order |
| `Timing.OpenLawsAreYoung` | src/domain/setup.rs:179-199 | under the same pace an open law is younger, at every instant read so far, than its collection, debate and voting days plus two gaps, so than 635 days plus two gaps |
| `Passes.AdvanceClears` | src/application/phases.rs:304-347 | after its turn a candidate is no longer due and no other row moved |
| `Passes.CloseClears` | src/application/voting.rs:333-396 | after its turn a vote is decided and no other row moved |
| `Passes.ApplyFewerDue` | src/application/phases.rs:164-351 | no request makes a row due at an instant less than a day after its own clock: the rows due then only get fewer |
| `Passes.PassIsBeat` | src/application/phases.rs:543-556 | a pass that started at an instant, with everything that ran beside it, continues a paced run |
| `AuditChain.ScanAppend` | src/application/audit.rs:149-205 | verifying a log in two parts is verifying it whole |
| `AuditChain.HeadFixesHistory` | src/application/audit.rs:68-117 | two histories that verify to the same count and head are equal row by row |
| `AuditChain.AppendedVerifies` | src/application/audit.rs:75-117 | a log written only by appending verifies, with its length and last hash |
| `AuditChain.ReadStays` | src/application/audit.rs:158-162 | rows appended later never fall inside a range already read |
| `AuditLog.Log.Append` | src/application/audit.rs:75-117 | the new row continues the last one; every cached or pending verdict stays true |
| `AuditLog.Log.Walk` | src/application/audit.rs:149-205 | for every page size and whatever others append between pages, the verdict and kinds are those of one scan of the log as it is at the end |
| `AuditLog.Log.Summary` | src/application/audit.rs:253-293 | status and head equal a fresh walk of the log at that moment; kinds too when it verifies, and the two queries otherwise |
| `AuditLog.Log.RecheckWalk` | src/application/audit.rs:299-306 | the walk without the lock keeps a verdict that stays true until it is stored |
| `AuditLog.Log.RecheckStore` | src/application/audit.rs:307-316 | storing a verdict late, over anything cached meanwhile, keeps the cache true |
| `AuditLog.IncrementalIsFresh` | src/application/audit.rs:260-264 | continuing from a sound cached head gives the verdict and the kinds of a walk from the start |
| `AuditLog.CollectedIsDistinct` | src/application/audit.rs:228-236 | kinds collected while verifying are the distinct kinds of the rows in each scope |
| `AuditLog.ValidKindsAreDistinct` | src/application/audit.rs:402-414 | on a log whose sequence starts at one, the kinds of a valid answer are those of the distinct queries |
| `AuditLog.BrokenKindsIff` | src/application/audit.rs:283-291 | for a broken chain the public filter is always exact and the restricted one exactly when no kind first appended between the two queries is restricted only |
| `AuditLog.BrokenKindsMissOne` | src/application/audit.rs:283-291 | an append between the two queries that the restricted filter misses |
| `AuditLog.BrokenStays` | src/application/audit.rs:189-191 | appending after a break never repairs it |
| `Checkpoints.ConfirmedIff` | src/application/checkpoint.rs:90-122 | a checkpoint is confirmed exactly by logs whose rows up to its number are, row by row, those present when it was signed |
| `Checkpoints.StaysConfirmed` | src/application/checkpoint.rs:23-122 | a signed checkpoint stays confirmed after any number of appends |
| `Checkpoints.RewritesAreNamed` | src/application/checkpoint.rs:104-117 | on a log that verifies, a shorter one is reported missing and a different one a mismatch, exactly |
| `Checkpoints.CreateIff` | src/application/checkpoint.rs:23-65 | a checkpoint is made exactly over a chain that verifies and has rows, with the key, instance and instant given; a broken or an empty chain is named as such |
| `Checkpoints.VerdictOrder` | src/application/checkpoint.rs:90-122 | the signature is judged first, then the instance, then the chain |
| `Checkpoints.Notary.Sign` | src/application/checkpoint.rs:23-65 | signs exactly the verified head of a non-empty valid chain and records it |
| `Checkpoints.Notary.Verify` | src/application/checkpoint.rs:90-122 | the verdict of the specification on the log as the walk left it |
| `Iam.Evaluate` | src/domain/iam.rs:355-385 | allowed if and only if some Allow applies and no Deny does; the reported statement is the first of the deciding effect; `Iam.ActionPrefix`, `Iam.ResourcePrefix` and `Iam.ExactPattern` say what applies |
| `Iam.ActionPrefix` | src/domain/iam.rs:226-231 | an Allow for a prefix and a star allows every action that starts with the prefix and no other; a Deny for it refuses exactly those |
| `Iam.ResourcePrefix` | src/domain/iam.rs:234-236 | the same for resources |
| `Iam.ExactPattern` | src/domain/iam.rs:226-236 | a pattern without a final star stands for itself only, in actions and resources, allowed and denied |
| `Iam.AppliesToAny` | src/domain/iam.rs:355-385 | a statement applies when one of its actions and one of its resources match |
| `Iam.OrderIsIrrelevant` | src/domain/iam.rs:355-385 | the decision depends only on which statements are held, not on their order or repetition |
| `Iam.UnscopedIsUniform` | src/domain/iam.rs:393-398 | without scoped statements every resource gets the same decision |
| `Iam.UnscopedIff` | src/domain/iam.rs:393-398 | access is unscoped exactly when every resource of every statement held is the star |
| `Iam.CanInJurisdiction` | src/application/iam.rs:125-143 | the fast path gives the answer of the full check on `jurisdiction:` and the code for every known jurisdiction |
| `Iam.MayActIff` | src/application/iam.rs:161-167 | the pre-check passes exactly on an unscoped permission or on any scoped statement held |
| `Iam.MayActIsWeaker` | src/application/iam.rs:161-167 | the pre-check never refuses a caller the full check accepts |
| `Iam.MayActIsStrictlyWeaker` | src/application/iam.rs:161-167 | it accepts a caller whose only statement is for another jurisdiction |
| `IamGuard.NeverLockedOut` | src/application/iam.rs:187-259 | over every run of changes, an instance with an active AdministratorAccess holder able to manage IAM keeps one, and managed policies are untouched |
| `IamGuard.HolderIsManagerUnlessDenied` | src/application/iam.rs:187-210 | a holder can manage IAM exactly when no Deny in force applies |
| `IamGuard.UnattachedChangesAreSafe` | src/application/iam.rs:417-532 | creating a policy or group and deleting a policy can never lock anybody out, so the guard never refuses them |
| `IamGuard.LastManagerStays` | src/application/iam.rs:234-245 | the only manager cannot detach the policy that makes it one |
| `IamGuard.AttachmentUndone` | src/application/iam.rs:677-777 | an attachment change is written exactly when the group, policy and account it names exist and its row is not yet as asked; then it is, and the opposite change restores every table |
| `IamGuard.HeldIs` | src/application/iam.rs:71-90 | what an account holds: nothing when blocked, its profile and the public policy when pending, and what is attached to it or to its groups when active |
| `IamGuard.ManagerIff` | src/application/iam.rs:187-210 | a manager is an active account attached to AdministratorAccess directly or through a group, with no Deny in force on managing IAM |
| `IamGuard.ChangeIff` | src/application/iam.rs:218-259 | a change is committed exactly with the permission, an open grant, rows it can write, and a manager left if there was one; then its rows are written and one grant is spent |
| `IamGuard.DefinitionsWritten` | src/application/iam.rs:417-674 | what creating, rewriting and deleting policies and groups needs and leaves, everything else untouched |
| `IamGuard.UpdateInForce` | src/application/iam.rs:453-493 | the new statements of a policy are in force at once for every account that has it, and nothing else is added |
| `IamGuard.Directory.PrincipalAccess` | src/application/iam.rs:71-90 | the loaded documents hold exactly the baseline, the public policy and the attachments of an active account |
| `IamGuard.Directory.HasIamManager` | src/application/iam.rs:187-210 | the search through both attachment tables finds a manager exactly when there is one |
| `IamGuard.Directory.Begin` | src/application/iam.rs:218-231 | permission, one grant, and whether a manager existed |
| `IamGuard.Directory.Finish` | src/application/iam.rs:234-259 | commits unless the change took the last manager |
| `IamGuard.Directory.CreatePolicy` | src/application/iam.rs:417-450 | commits the specified change under the guard, or leaves policies, attachments and grant untouched |
| `IamGuard.Directory.UpdatePolicy` | src/application/iam.rs:453-493 | commits the specified change under the guard, or leaves policies, attachments and grant untouched |
| `IamGuard.Directory.DeletePolicy` | src/application/iam.rs:497-532 | commits the specified change under the guard, or leaves policies, attachments and grant untouched |
| `IamGuard.Directory.CreateGroup` | src/application/iam.rs:617-647 | commits the specified change under the guard, or leaves groups, attachments and grant untouched |
| `IamGuard.Directory.DeleteGroup` | src/application/iam.rs:650-674 | commits the specified change under the guard, or leaves groups, attachments and grant untouched |
| `IamGuard.Directory.SetGroupPolicy` | src/application/iam.rs:677-721 | commits the specified change under the guard, or leaves attachments and grant untouched |
| `IamGuard.Directory.SetGroupMember` | src/application/iam.rs:725-769 | commits the specified change under the guard, or leaves members and grant untouched |
| `IamGuard.Directory.SetUserPolicy` | src/application/iam.rs:858-902 | commits the specified change under the guard, or leaves attachments and grant untouched |
| `RateLimit.EveryWindowIsWithin` | src/application/debate.rs:175-188 | no window of the limit's width, open at its start, ever holds more than the limit, wherever it lies and however the clock moved |
| `RateLimit.ClosedWindowHoldsTwice` | src/application/debate.rs:175-188 | an interval counting both its ends can hold a full allowance at each |
| `Debate.StoredIsTrue` | src/application/debate.rs:270-298 | stored depth and root are the depth and root of the reply tree, at most two replies deep |
| `Debate.PhaseOpenIff` | src/application/debate.rs:82-99 | on valid engine data comments are open exactly in the published phases that are not due, amendments not while voting |
| `Debate.TakesIff` | src/application/debate.rs:82-165 | a debate takes a post exactly when comments are on, the caller is permitted and takes part, and the proposal is published, unlocked and before the end of a phase that takes it |
| `Debate.LockedRefuses` | src/application/debate.rs:101-165 | a locked debate takes nothing |
| `Debate.PostIff` | src/application/debate.rs:256-313 | a comment is accepted exactly when the debate takes it, the comment it answers is a visible one of the debate at most one reply deep, and its author wrote fewer than ten in ten minutes; each refusal names its cause |
| `Debate.EditIff` | src/application/debate.rs:317-359 | an edit is accepted exactly from the author of a visible comment while the debate takes comments, a new text only below ten writes in ten minutes; each refusal names its cause |
| `Debate.Board.PostComment` | src/application/debate.rs:256-313 | accepted exactly when the flag and permission allow it, the phase is open, the debate is not locked, the caller takes part in the jurisdiction, the parent is a visible comment of the debate not too deep, and the window has room; then one comment and one revision are added; each refusal has its error |
| `Debate.Board.EditComment` | src/application/debate.rs:317-359 | changes only the author's visible comment while the caller may write to the debate, and counts as one write; the same text writes nothing; each refusal has its error |
| `Debate.Board.Moderate` | src/application/debate.rs:488-567 | hides exactly a visible comment or restores exactly a hidden one, in place, moving nothing |
| `Debate.Board.ProposeAmendment` | src/application/debate.rs:882-934 | accepted exactly when the debate takes amendments of the caller, who made fewer than five in the last 24 hours, so that every 24 hours hold at most five |
| `Debate.Board.WindowsHold` | src/application/debate.rs:175-188 | on every board, every ten minutes hold at most ten comment writes of an account and every 24 hours at most five of its amendments |
| `ThreadView.PreorderListsOnce` | src/application/debate.rs:790-801 | the recursive order of a page's threads lists every comment of the page exactly once |
| `ThreadView.Flatten` | src/application/debate.rs:789-801 | the loop with the explicit stack ends and shows the page's comments in the recursive preorder, each once |
| `ThreadView.Index` | src/application/debate.rs:748-788 | the maps filled row by row hold every comment by id and the replies of each in row order |
| `ThreadView.SelectedIsPage` | src/application/debate.rs:690-725 | on every board built by posting, the rows the page query selects, in any order, are such a page |
| `Notify.ColumnFindsAll` | src/application/territory.rs:11-31 | the one column of a jurisdiction's kind finds the accounts the three-way test finds |
| `Notify.MisplacedIsMissed` | src/application/territory.rs:11-31 | with a jurisdiction of another kind in an account's column it does not |
| `Notify.OwedIs` | src/application/notify.rs:40-63 | a delivered row owes one copy to its account, or to each active account of the jurisdiction, and none to who disabled one of the five categories |
| `Notify.CancelledIsNeverSent` | src/application/notify.rs:243-339 | whatever is scheduled, cancelled and delivered in between, a cancelled row is never delivered, a delivered one keeps its row and is not delivered again |
| `Notify.Notifier.Schedule` | src/application/notify.rs:208-239 | added exactly when the key is new, as given and under an id never used before |
| `Notify.Notifier.Cancel` | src/application/notify.rs:243-251 | drops exactly the undelivered row of the key, whose id is cancelled for ever; every other row stays |
| `Notify.Notifier.Deliver` | src/application/notify.rs:40-63 | stored exactly when the category is not muted |
| `Notify.Notifier.FanOut` | src/application/notify.rs:260-292 | one statement stores one copy for every active participant who did not mute the event |
| `Notify.Notifier.DeliverOneByOne` | src/application/notify.rs:40-63 | the loop over accounts tested on all three columns stores the same |
| `Notify.Notifier.DeliverRow` | src/application/notify.rs:308-336 | a row delivered or cancelled since it was listed is passed over; any other is delivered and marked in one transaction |
| `Notify.Notifier.Others` | src/application/notify.rs:208-339 | what others schedule, cancel and deliver between two rows keeps the books, and makes nothing due that they did not schedule |
| `Notify.Notifier.RemindDue` | src/application/notify.rs:297-339 | a pass lists the earliest due rows, at most a hundred; whatever others do between its rows each listed row ends delivered or cancelled, those it delivered were due and are told apart, and the count is what they store; alone it delivers exactly the listed rows |
| `Notify.Notifier.Drain` | src/application/notify.rs:297-339 | a pass for every hundred rows due at an instant, at any later instants, ends the backlog, while others cancel, deliver and schedule for later: every row due then ends delivered or cancelled |
| `Sessions.LagIsBoundedIff` | src/application/session.rs:62-109 | the stored idle limit is never later than that of a session renewing on every touching request it resolves itself, and neither passes the absolute limit; it stays earlier by less than a minute exactly when no request is lost |
| `Sessions.LostBetween` | src/application/session.rs:62-109 | with an idle time of a minute or more a lost request is a touching one between the two limits, unless the stored limit is within a minute of the absolute one |
| `Sessions.LostRequest` | src/application/session.rs:62-109 | a touching request just after a limit left unmoved by less than a minute is lost: the ideal session lives on for 930 seconds more |
| `Sessions.LagsTheLastRequest` | src/application/session.rs:96-98 | the stored idle limit is earlier than the last touching request served plus the idle time by less than a minute, and never later |
| `Sessions.RevokedForEver` | src/application/session.rs:112-124 | a revoked session never resolves again |
| `Sessions.Store.Create` | src/application/session.rs:40-56 | a new session ends after the idle time, never past its absolute limit |
| `Sessions.Store.Resolve` | src/application/session.rs:62-109 | a revoked or ended session is refused, a missing account gives nothing and a blocked one is forbidden; the limit moves only for a touching request that gains a minute |
| `Sessions.Store.Revoke` | src/application/session.rs:112-124 | the first revocation stays |
| `CatalogImport.Import` | src/infrastructure/catalog.rs:24-87 | all lines or none |
| `CatalogImport.LineIsWritten` | src/infrastructure/catalog.rs:47-78 | a line stores its level and the row of its parent code under its own code, new or already stored, and nothing else changes; it is refused exactly when malformed or under an unknown parent |
| `CatalogImport.ReparentIff` | src/infrastructure/catalog.rs:69-77 | writing a parent keeps the hierarchy acyclic exactly when the row is not that parent or above it |
| `CatalogImport.LineKeepsForestIff` | src/infrastructure/catalog.rs:47-78 | importing a line keeps the hierarchy acyclic exactly when it does not give a stored row a parent at or below that row |
| `CatalogImport.FileKeepsForestIff` | src/infrastructure/catalog.rs:24-87 | the hierarchy is acyclic after every line of a file exactly when no line does that; then the committed one is |
| `CatalogImport.FreshFileKeepsForest` | src/infrastructure/catalog.rs:24-87 | a file whose codes are new and distinct leaves an acyclic hierarchy |
| `CatalogImport.RepeatedCodeLoops` | src/infrastructure/catalog.rs:69-77 | a file naming a code twice can close a cycle |
| `CatalogImport.ChangedFileLoops` | src/infrastructure/catalog.rs:69-77 | a file without repeated codes over stored rows can too, and where no setup is adopted the search for the effective setup then never ends |
| `CatalogImport.SearchEndsIff` | src/application/setup.rs:74-102 | on any hierarchy, cycles included, the search ends exactly when the walk up leaves a root or meets an adopted setup, and then it has found the effective setup |

## Left out

- Texts, titles, hashes of proposals, duplicate warnings, revisions' bodies and all field cleaning: they never decide a transition.
- The notifications that engine transactions write, and the call that cancels a reminder when a vote closes: `Notify.dfy` models the scheduler on its own, with cancellations at any point.
- The audit events of the engine in full: the trail keeps the event kinds and counts that replay needs, and `AuditChain.dfy` models the log with arbitrary payloads; the uniqueness constraint on stored hashes is left out.
- Fixtures and demonstration data that write rows directly, and the synthetic mark of setups.
- The SQL engine, write-ahead logging, busy retries and the pool of readers.
- Account status changes, enrolment and the operator's bootstrap of an administrator: the lockout property is about IAM changes only, and eligibility enters the engine as input.
- JSON policy documents: policies are parsed statements, and the validation of patterns is left out; a stored document that fails to parse is not modelled.
- `IamGuard.Directory.PrincipalAccess`: lists documents in some order instead of by name, because the decision does not depend on it (`Iam.OrderIsIrrelevant`).
- `LegislativeEngine.Engine.MaterializeElectorate`: takes the eligible accounts as given and does not derive them from status, policy and place, because every theorem holds for any such set.
- `AuditLog.Log.Append`: payloads are not searched for forbidden keys before they are appended, because a refused event leaves the log as it was.
- `Checkpoints.Notary.Verify`: the byte format of messages and keys is not modelled; two texts with line breaks in a field are taken to differ when the fields do.
- `Sessions.LagIsBoundedIff`: requests follow one another; two that read the same row before either writes are not modelled.
- `Debate.Board.Moderate`: the moderator's permission and the dismissal of reports are not modelled, because the first refuses before anything is written and the second changes no comment.
- Comment reports, the moderation queue, amendment changes and the read models of every page.
- The three grants of reauthentication by face and one-time code: a grant appears when the identity use case records it.
- Views, labels, exports, statistics, configuration, the user interface and its server functions, face matching, addresses and passwords.
