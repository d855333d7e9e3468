# Proofs about the assessment executor

A Dafny model of what the scanner may request, how often it requests it, and how
it accounts for what happened. Each module follows one component:

| modules | component |
|---|---|
| `Paths`, `Globs`, `Hosts`, `Origins`, `NormalForms`, `RowOrders`, `ScopeOrder`, `AppScopes`, `TargetScopes`, `ScopeRebuild` | the application scope matcher: path cleaning, glob exclusions, the origin printer and parser, canonical order, the scope of a target, the JSON round trip |
| `WriteJournals`, `WriteMachine`, `WriteSafety`, `ApiPaths`, `ApiWrites` | the write protocol: the journal on a disk that may fail, a machine of many processes with crashes, and the runner of `apichecks_writes.go` proved to be a run of that machine |
| `JobLoops`, `TimeSlices`, `StagePlans` | the job loop with its guards, dependency gate, resume and lost checkpoints; the time slices; the stage prerequisites that drive the gate |
| `Budgets`, `Dispatches`, `DispatchScopes`, `Inventories` | the shared endpoint budget, the dispatch gate, what the application scope makes of it, and the inventory with its index |
| `Leases`, `BrowserStates` | the tool lease manager and the browser session that holds a lease |
| `BoundedArtifacts`, `BoundedXml`, `CoverageProofs` | bounding of scanner reports and the coverage proof |

`Text` and `Wrappers` hold shared string operations and `Option`.

Answers of the network, of the disk, of the clock and of the scanners are
parameters or fields of an environment value, so that each theorem speaks of
every run. Where the program changes state in place (the journal, the job loop,
the budget, the surfaces, the lease manager, the browser session, the decoded
report) the model has a class or a loop, and its contract ties the new state to
a function of the old one; the lemmas are about those functions.

`WriteMachine.Do` is the step relation of the write protocol: opening a journal
(with the import of older ones), the checks, the intent, the waits, both
requests, their answers, both journal updates, the death of a process and a loss
of power. A disk holds what is visible and what is synced; a commit can fail
before, between and after these. `WriteSafety.Inv` is the invariant.
`ApiWrites.RunApprovals` carries a ghost state of that machine through the
sequential runner, so that `AtMostOnce` speaks about the runner itself.

## Where the code and its promises differ

The code was kept as it is; each entry names the lemma that gives the failing
input and, where there is one, the exact condition.

- A decoded newline in a path escapes every exclusion whose pattern holds none,
  pattern "/" included: in the expression "." does not match it (`RootExclusion`).
  Below an excluded request exactly the paths without a newline are excluded
  (`ExcludedBelowExactly`; for patterns that hold one, `PathRegexExact`).
- `canonicalHost` is not idempotent: two trailing dots lose one at a time
  (`DottedHostChanges`; `CanonicalTwiceExactly` is the exact condition). So an
  origin or a scope does not always come back from its text; `OriginRoundTrip` and
  `RebuildsExactlyWhenSettled` say by the stored text when it does.
- `scopedAPIPath` looks for backslashes before it unescapes; "/..%5Cname" leaves
  the application path, and only the scope stands behind it (`BackslashClimbs`).
  A request stays below exactly when its path names again the segments it leaves
  (`StaysBelowExactly`).
- A journal that is not shared does not stop a second send: outside the expanded
  workflow each attempt opens a journal of its own, and a write goes out once for
  every journal that takes the intent (`EachJournalSends`).
- A stage deadline can pass the web deadline when the first clock reading is past
  that already; `StageWithinWeb` has the condition on both readings. The count of
  pending jobs leaves out a job whose stored run verifies although the session
  rule runs it again (`UncountedJob`; `MissedExactly` and `FairExactly` say when).
- Merging a fresh endpoint twice is not always merging it once: a blank source or
  an untrimmed route is cleaned by the second merge (`MergeOneTwice`,
  `FreshIsMerged`).
- A blank line before the limit lets a record that the limit cuts into the
  retained JSON lines, or makes the file invalid, unless what is cut is blank
  (`CutRecord`; `CompleteRecordsOnly` is the exact condition). Records nested in
  records make bounding of an XML report fail (`CutsAreBalanced`).
- The unknown counter can be below its list (`UnknownExactly`), and the counter
  of enabled templates is that of the last scope while its list holds all
  (`TemplatesExactly`).
- A port written as zero is read as the port of the scheme in an origin and refused
  in a request, so the URL that approves an origin need not be allowed by it
  (`ReadOriginNamed`).
- The floors of 256 and 128 megabytes let a lease exceed a smaller configured
  limit (`LimitRange`); a limit below one megabyte is the one that refuses heavy
  tools for good (`TooLittleExactly`).

## Main results

- Scope: `AllowedExactly`, `ExcludedExactly` and `ExcludedByGiven` decide a URL by
  its own parts; `ExcludedBelowExactly`, `NewAppScopeCanonical`,
  `RebuildsExactlyWhenSettled`, `AllowsOnlyOwn`, and for paths and patterns
  `CleanPathIsRemoveDotSegments` and `PathRegexExact`.
- Writes: `AtMostOnce` over all runs of the machine, carried to the runner by
  `RunApprovals`, `RunnerSendsAtMostOnce`, `CompletedIsFullCycles` and
  `EventsStayInScope`; `Exchange` with `WireStatus` for one approval;
  `ResolvedMeansCleaned` and `PastTheGuards` for the resume guard;
  `StaysBelowExactly` for the request path.
- Jobs: `UpstreamCompleted`, `NothingAfterLostCheckpoint`; `CalledExactly`,
  `TestedExactly`, `TestSessionExactly`, `LoginExactly` and `CrawledExactly` say
  which runs are made and which rows are completed; `PlanJobs` with
  `WorkflowByName` for the plan; `FairExactly` and `Fair` for time.
- Endpoints: `DispatchedExactly`, `CampaignCapped`, `TargetsExactly`,
  `UrlsInScope`, `MergeAllFaithful`, `OrderDoesNotWiden`.
- Resources: `TryAcquire` with `AdmittedExactly`, `LimitExactly`, `NoStall` and
  `SlotsMonotone`; `Conservation`.
- Reports: `BoundDocument`, `CompleteRecordsOnly`, `BoundXmlArtifact` with
  `RecordsExactly`, `BuildCoverageProof` with `SurfaceMarksExactly`,
  `RunMarksExactly`, `UnknownExactly` and `TemplatesExactly`.

## Model

| member | source | states |
|---|---|---|
| `Paths.CleanPathCanonical` | internal/assessment/scope.go:332-338 | Whatever the input, the cleaned path is rooted, has no backslash, no empty, "." or ".." segment, and no trailing slash unless it is "/" |
| `Paths.CleanPathIdempotent` | internal/assessment/scope.go:332-338 | Cleaning a cleaned path changes neither the text nor its segment list |
| `Paths.CleanPathIsRemoveDotSegments` | internal/assessment/scope.go:332-338 | On every absolute path without empty segments cleaning is the rule loop of section 5.2.4 of RFC 3986, up to the trailing slash |
| `Paths.EmptySegmentsDiffer` | internal/assessment/scope.go:332-338 | The condition is needed: "/a//.." cleans to "/", and the RFC makes it "/a/" |
| `Paths.PathWithinRooted` | internal/assessment/scope.go:340-342 | On canonical segment lists the string test (equal, or prefix followed by "/") holds exactly when one list is a prefix of the other |
| `Paths.PathWithinIsSegmentPrefix` | internal/assessment/scope.go:330-342 | The same for the cleaned texts of any two paths |
| `Globs.PathRegexExact` | internal/assessment/scope.go:246-253 | The emitted expression matches a path exactly when the glob matches it up to a boundary and no newline follows |
| `Globs.PathRegexIsGlob` | internal/assessment/scope.go:242-253 | On paths without a newline the expression matches exactly when the path or one of its ancestors matches the case-insensitive glob in which "*" is any run |
| `Globs.PathRegexWithoutLines` | internal/assessment/scope.go:242-253 | For a pattern without a newline: the expression matches a path exactly when the path has no newline and the path or one of its ancestors matches the glob |
| `Globs.MatchedBelow` | internal/assessment/scope.go:246-253 | A pattern that matches a cleaned path matches every path below it that adds no newline |
| `Globs.RootPattern` | internal/assessment/scope.go:246-253 | Pattern "/" matches exactly the cleaned paths without a newline |
| `Origins.SerializeInjective` | internal/assessment/scope.go:137-146 | Two origin texts are equal exactly when scheme, host and port are (section 6.2 of RFC 6454), whatever the hosts, brackets and default ports included |
| `Origins.ParsePrinted` | internal/assessment/scope.go:114-146 | Parsing a printed origin reads its parts back exactly when net/url takes the characters of the host |
| `Origins.AdmitsExactly` | internal/assessment/scope.go:346-384 | An origin is admitted exactly for http or https, a host without URL characters and with a colon only in an address, a port from 1 to 65535 or left to the scheme, and a rooted prefix without query and fragment; with that scheme, host and port |
| `Origins.ParsedUser` | internal/assessment/scope.go:114-124 | A parsed URL has credentials exactly when an at sign stands before the first slash and question mark, and a port of digits only |
| `Hosts.FixedHost` | internal/assessment/scope.go:320-328 | canonicalHost leaves exactly these texts as they are: lower case, nothing to strip at either end, and in canonical form if an IP literal |
| `Hosts.CanonicalTwiceExactly` | internal/assessment/scope.go:320-328 | canonicalHost is idempotent on a host if and only if what is left of the text after one stripping is plain, or is an IP literal without a zone |
| `Origins.OriginRoundTrip` | internal/assessment/scope.go:114-146 | Printing and parsing gives the origin back, with the root path, if and only if its host is made of host characters, in lower case, plain, and in canonical form if an IP literal |
| `NormalForms.SortDedupe` | internal/assessment/scope.go:386-414 | The sort-and-skip loop returns the normal form: increasing, of the input only, every class represented by its least element |
| `NormalForms.NormalFormCorrect` | internal/assessment/scope.go:448-478 | The normal form of any list is increasing, holds input elements only, one for every class, and that the least |
| `NormalForms.NormalFormUnique` | internal/assessment/scope.go:386-414 | Two lists with the same elements have at most one normal form |
| `NormalForms.NormalFormCanonical` | internal/assessment/scope.go:448-478 | Neither order nor repetition of the input changes the normal form |
| `NormalForms.NormalFormIdempotent` | internal/assessment/scope.go:386-478 | Normalizing twice is normalizing once |
| `ScopeOrder.OriginOrder` | internal/assessment/scope.go:391-413 | The field-by-field comparison of origins is a total order whose ties are equal origins |
| `ScopeOrder.ExclusionOrder` | internal/assessment/scope.go:453-477 | The comparison of exclusions is a total order in which the exclusions with one key lie together, the reason deciding last |
| `AppScopes.BuildAppScope` | internal/assessment/scope.go:31-44 | The constructor as it runs returns the specified scope; an origin is stored exactly when some input is admitted as it |
| `AppScopes.StoredOrigin` | internal/assessment/scope.go:346-384 | A stored origin is valid and its prefix is a cleaned path |
| `AppScopes.LeastReasonKept` | internal/assessment/scope.go:446-478 | Every exclusion key given is stored, with the least of its reasons |
| `AppScopes.NewAppScopeCanonical` | internal/assessment/scope.go:31-44 | A scope depends on the sets of origins and exclusions, not on their order or repetition |
| `AppScopes.Allows` | internal/assessment/scope.go:171-194 | A URL that cannot be read is refused; any other is allowed exactly when a stored origin contains it |
| `AppScopes.AllowsDestination` | internal/assessment/scope.go:176-193 | The scan is that decision, and its reason is true of the scope: the origin found, no origins, right origin but wrong path, or unknown origin |
| `AppScopes.RefusedExactly` | internal/assessment/scope.go:285-306 | A URL is refused unread exactly for credentials, an empty host, a scheme other than http and https, or a port that is no number from 1 to 65535 |
| `AppScopes.NamedExactly` | internal/assessment/scope.go:285-306 | The destination of a URL has the origin of a stored one exactly when the URL names its scheme, host and port; its path is the cleaned path |
| `AppScopes.PrintedDestination` | internal/assessment/scope.go:137-146 | A printed origin with any path is read as the destination with that scheme, host and port and the cleaned path |
| `AppScopes.ReadOriginNamed` | internal/assessment/scope.go:114-133 | An origin read from a URL without credentials is named by that URL if and only if its port is not written as zero |
| `AppScopes.AllowsIsSegmentPrefix` | internal/assessment/scope.go:171-194 | The same on a destination: an origin of the same scheme, host and port has a prefix whose segments lead those of the decoded path after dot resolution |
| `AppScopes.AllowedExactly` | internal/assessment/scope.go:171-194 | From the URL itself: allowed exactly when a stored origin has its scheme in lower case, its canonical host and its port, written or left out for the default one, no credentials are given, and the segments of the prefix of the origin lead those of the path |
| `AppScopes.Excluded` | internal/assessment/scope.go:201-231 | Without exclusions nothing is excluded; with some, what cannot be read is; otherwise exactly what an exclusion covers |
| `AppScopes.ExcludedExactly` | internal/assessment/scope.go:201-253 | From the URL itself: excluded exactly when a stored exclusion has its method or none, the text of its origin or none, a target that owns it or none, and a pattern that globs its cleaned path up to a boundary with no newline after it |
| `AppScopes.ExcludedByGiven` | internal/assessment/scope.go:201-253 | The same from the exclusions as given to the constructor: method in any case, blank or "*" for all; origin read as an origin; target by its approved origins |
| `AppScopes.ExcludedDestination` | internal/assessment/scope.go:206-230 | The decision and the reason of the first exclusion that covers the request |
| `AppScopes.ExcludedBelow` | internal/assessment/scope.go:201-253 | What is excluded takes along everything below it that adds no newline, target-bound exclusions included |
| `AppScopes.ExcludedBelowExactly` | internal/assessment/scope.go:201-253 | When no pattern of the scope holds a newline: of what lies below an excluded request exactly the paths without a newline are excluded |
| `AppScopes.ExcludedHasNoLine` | internal/assessment/scope.go:201-253 | Such a scope excludes no path with a newline |
| `AppScopes.RootExclusion` | internal/assessment/scope.go:201-253 | Under the unbound exclusion "/" a request is excluded exactly when its decoded path has no newline |
| `AppScopes.BindingIsSameOrigin` | internal/assessment/scope.go:181-240 | For every destination the text comparison that binds an exclusion to an origin agrees with the field comparison of Allows and targetOwns |
| `TargetScopes.AppScopeForTarget` | internal/assessment/scope.go:50-78 | The scope of the first target with the ID, built from its own approved or derived origins and the exclusions that concern it; an unknown ID gives an empty scope |
| `TargetScopes.OriginsAreOwn` | internal/assessment/scope.go:46-78 | Every origin in the scope of a target carries its ID |
| `TargetScopes.AllowsOnlyOwn` | internal/assessment/scope.go:46-78 | When a target has approved origins its scope allows exactly what lies in one of them: approving for one target approves nothing for another |
| `TargetScopes.BoundIsUnbound` | internal/assessment/scope.go:50-78 | In the scope of its own target a bound exclusion binds as an unbound one |
| `TargetScopes.DerivedAreOwned` | internal/assessment/scope.go:84-109 | Origins derived from a target carry its ID |
| `TargetScopes.DerivedHost` | internal/assessment/scope.go:80-109 | A domain, IP or host is reached under both schemes on the port of its value, or on 80 and 443 without one, on any path and nowhere else; not at all when the port is no number or out of range or the host is no host |
| `TargetScopes.DerivedUrl` | internal/assessment/scope.go:80-109 | The scope of a URL target allows exactly what names the origin of that URL and lies below its path, segment by segment |
| `TargetScopes.DerivedNothing` | internal/assessment/scope.go:80-109 | A target of any other kind is reached nowhere |
| `ScopeRebuild.RebuildsExactlyWhenSettled` | internal/assessment/scope.go:255-274 | A scope comes back unchanged from its own serialization if and only if its hosts and the hosts of its bindings are plain and no prefix and no pattern ends in white space |
| `ScopeRebuild.SettledIsFixed` | internal/assessment/scope.go:255-274 | Of a stored scope that text condition holds exactly when every normalization leaves every stored value as it is |
| `ScopeRebuild.FixedRebuilds` | internal/assessment/scope.go:260-274 | A scope of fixed points comes back |
| `ScopeRebuild.ReturningIsFixed` | internal/assessment/scope.go:260-274 | What comes back consists of fixed points, although normalizing permutes the entries: by descent on lengths |
| `ScopeRebuild.BindingFixedExactly` | internal/assessment/scope.go:418-436 | A stored origin binding is normalized to itself exactly when it is no origin, has a path, or its host is plain |
| `ScopeRebuild.BindingShrinks` | internal/assessment/scope.go:418-436 | Normalizing a stored binding once more leaves it, shortens it or settles it |
| `ScopeRebuild.DottedHostChanges` | internal/assessment/scope.go:320-328 | canonicalHost is not idempotent: a host given with two trailing dots keeps one and loses it on the way through |
| `WriteJournals.JournalFile.Write` | internal/scanner/write_journal.go:221-252 | What a commit leaves on the disk, now and after a power loss, for each way it can fail |
| `WriteJournals.WriteJournal.Open` | internal/scanner/write_journal.go:93-124 | A journal that cannot be read, or has another schema, is refused; another one holds what the file shows |
| `WriteJournals.WriteJournal.CommitLocked` | internal/scanner/write_journal.go:221-252 | Memory follows the disk only after a commit that succeeded |
| `WriteJournals.WriteJournal.RecordIntent` | internal/scanner/write_journal.go:151-177 | Refuses an operation that is journaled; success means the intent is on the disk |
| `WriteJournals.WriteJournal.MarkSent` | internal/scanner/write_journal.go:179-184 | Moves an intent, and only an intent, to sent |
| `WriteJournals.WriteJournal.MarkCleanup` | internal/scanner/write_journal.go:186-195 | Moves a sent entry, and only that, to the outcome of its cleanup |
| `WriteJournals.WriteJournal.Transition` | internal/scanner/write_journal.go:197-215 | Both as one: the entry in the expected state moves, every other entry stays |
| `WriteJournals.WriteJournal.ImportPrior` | internal/scanner/write_journal.go:275-331 | The import loop and its commit: nothing is written when nothing is missing |
| `WriteJournals.ImportKeeps` | internal/scanner/write_journal.go:275-331 | Importing keeps every entry, adds every missing operation and invents no state |
| `WriteJournals.UnresolvedWrites` | internal/scanner/write_journal.go:126-142 | Returns exactly the entries that are not settled, that is without a cleanup outcome unless sent with no cleanup declared, and one placeholder for a journal that cannot be read; none exactly when it can be read and all are settled |
| `WriteSafety.StepKeeps` | internal/scanner/apichecks_writes.go:152-219 | Every step of any process, a crash of one or of the power included, keeps the protocol invariant |
| `WriteSafety.RunKeeps` | internal/scanner/apichecks_writes.go:152-219 | So does every run |
| `WriteSafety.AtMostOnce` | internal/scanner/apichecks_writes.go:152-219 | Over every run of any number of processes on one journal, with crashes, restarts, power losses and disk faults: each write goes out at most once, each cleanup at most once, never for an operation of an older journal, and no cleanup before its write was answered and marked sent |
| `WriteSafety.SentIsDurable` | internal/scanner/apichecks_writes.go:152-169 | A write that was sent is on the synced disk: no crash forgets it |
| `WriteSafety.ResolvedMeansAnswered` | internal/scanner/assessment_jobs.go:60-66 | When every journal entry is settled, every write ever sent was answered |
| `WriteSafety.ResolvedMeansCleaned` | internal/scanner/assessment_jobs.go:60-66 | And the entry of each was sent with no cleanup declared, or says that the cleanup failed, or that it is done, and then the cleanup went out and was answered with 200 to 299 |
| `WriteSafety.FreshIsSent` | internal/scanner/apichecks_writes.go:31-169 | An undisturbed run of a process sends its write if and only if its journal takes the intent |
| `WriteSafety.EachJournalSends` | internal/scanner/apichecks_writes.go:31-75 | Over any number of attempts with a journal each, as in the workflow that is not expanded, a write is sent exactly once for every journal that takes the intent |
| `ApiPaths.JoinedSegments` | internal/scanner/apichecks_writes.go:244-264 | Joining on a slash resolves the rest, backslashes included, after the front |
| `ApiPaths.ResolveNet` | internal/assessment/scope.go:332-338 | Resolving segments does to any stack what their net effect says: drop so many, then add these |
| `ApiPaths.StaysBelowExactly` | internal/scanner/apichecks_writes.go:244-264 | Every accepted operation path leads to the application path without the segments it goes up, followed by those it goes down; it stays below the application if and only if the segments it leaves come again |
| `ApiPaths.StaysBelow` | internal/scanner/apichecks_writes.go:244-264 | So an operation path that decodes to no backslash lies below the application path |
| `ApiPaths.BackslashClimbs` | internal/scanner/apichecks_writes.go:244-264 | The operation "/..%5Cname" is accepted and leaves the last segment of any application path: the check for backslashes comes before the unescaping |
| `ApiPaths.ScopedExactly` | internal/scanner/apichecks_writes.go:244-264 | A request is formed exactly for an application with a host, without credentials, over http or https, and a rooted operation without query, fragment, backslash and braces that unescapes to no dot segment |
| `ApiPaths.EscapeExactly` | internal/scanner/apichecks_writes.go:252-255 | An escape is a percent sign with two hexadecimal digits of either case |
| `ApiPaths.EscapedByte` | internal/scanner/apichecks_writes.go:252-255 | and stands for the byte they write |
| `ApiWrites.Checks` | internal/scanner/apichecks_writes.go:81-151 | The checks before the journal pass exactly when the approval is permitted and the environment gives its fixtures |
| `ApiWrites.Exchange` | internal/scanner/apichecks_writes.go:152-218 | What goes out and is confirmed follows exactly from the journal on disk and the answers: nothing unless the intent was taken and granted, the cleanup exactly after an answer that was stored and a second grant; and the status is the one those events call for |
| `ApiWrites.WireStatus` | internal/scanner/apichecks_writes.go:152-218 | Which status that is: completed exactly when write and cleanup were both answered with 200 to 299, all was stored and the cleanup was granted |
| `ApiWrites.CompletedExactly` | internal/scanner/apichecks_writes.go:189-217 | A status of completed is a full cycle of six events, and no answer outside 200 to 299 is among them |
| `ApiWrites.RunOne` | internal/scanner/apichecks_writes.go:80-219 | One approval, checks included: the events are those of the exchange if the checks pass and the write goes out, none otherwise, and the result is the one they call for |
| `ApiWrites.Loop` | internal/scanner/apichecks_writes.go:79-219 | One result and one group of events for each approval, in order; no failures exactly when all completed |
| `ApiWrites.RunApprovals` | internal/scanner/apichecks_writes.go:31-232 | The whole runner ends in a state the write machine reaches; completed means every approval has a full cycle, and nothing is sent outside a typed, permitted test environment |
| `ApiWrites.ReachableClosed` | internal/scanner/apichecks_writes.go:31-232 | The reachable states are closed under the steps: what the runner does refines the machine |
| `ApiWrites.InvClosed` | internal/scanner/apichecks_writes.go:31-232 | So are the states that keep the protocol invariant |
| `ApiWrites.RunnerSendsAtMostOnce` | internal/scanner/apichecks_writes.go:152-219 | After any history of processes and crashes, a run of the runner still sends each write and each cleanup at most once over the whole log |
| `ApiWrites.CompletedIsFullCycles` | internal/scanner/apichecks_writes.go:220-231 | A completed run grew the log by exactly six events for each approval, in order: sent, answered 200 to 299, stored, cleanup sent, answered 200 to 299, stored |
| `ApiWrites.EventsStayInScope` | internal/scanner/apichecks_writes.go:79-151 | An approval that has any event has a POST, PUT, PATCH or DELETE and a PUT, PATCH or DELETE to clean up, and leads with both below the prefix of a stored origin and under no exclusion, to the application path as its operation moves it; they stay below the application if and only if the segments left come again |
| `JobLoops.LastTerminal` | internal/scanner/assessment_jobs.go:148-153 | For each key the last terminal stored run, and nothing else |
| `JobLoops.FailedJobs` | internal/scanner/assessment_jobs.go:1021-1028 | One failed row for each job, in order, with the reason given |
| `JobLoops.RefusedJobs` | internal/scanner/assessment_jobs.go:44-98 | The rows of a refusal: fingerprint, reason and gap as its guard says |
| `JobLoops.DependencyFailed` | internal/scanner/assessment_jobs.go:1044-1052 | Fails exactly when some prerequisite has no completed outcome |
| `JobLoops.Guarded` | internal/scanner/assessment_jobs.go:44-98 | The guards in their order, each with its reason |
| `JobLoops.Loop.AppendOutcome` | internal/scanner/assessment_jobs.go:159-185 | A row, its outcome and its checkpoint; a checkpoint that was lost turns the row to failed and stays lost |
| `JobLoops.Loop.PrepareSurface` | internal/scanner/assessment_jobs.go:210-410 | Preparing a surface visits web targets only; what it crawls, what it takes over from an earlier call and what rows it adds is decided by the inventory, the crawler and the session |
| `JobLoops.Loop.Crawl` | internal/scanner/assessment_jobs.go:244-304 | The crawler runs exactly when no usable inventory is left, it is available, and a bound session was verified; the answer of a session that ended meanwhile is failed |
| `JobLoops.Loop.TakeOver` | internal/scanner/assessment_jobs.go:305-324 | The crawl becomes the run of the katana job of the target if the plan has one, otherwise a row |
| `JobLoops.Loop.Turn` | internal/scanner/assessment_jobs.go:412-606 | One turn of the loop: refused without reaching the target when a gate is closed, otherwise the branch of its scanner |
| `JobLoops.Loop.Login` | internal/scanner/assessment_jobs.go:492-522 | A login completes exactly for an identity that was refreshed or a session that was verified |
| `JobLoops.Loop.Katana` | internal/scanner/assessment_jobs.go:523-545 | A crawl job ends completed only when it is selected and a completed crawl of its target is at hand; it visits the target exactly when it is selected and a web target |
| `JobLoops.Loop.Test` | internal/scanner/assessment_jobs.go:546-892 | A scanner job: its runner is called exactly when its state, its session, a stored run and the resource gates leave it to be run |
| `JobLoops.Loop.Scan` | internal/scanner/assessment_jobs.go:599-892 | The runner is called exactly when the stored run cannot be reused and nothing refuses the job; status and session follow from the stored run or the answer |
| `JobLoops.RunLoop` | internal/scanner/assessment_jobs.go:412-893 | The loop over the plan keeps the rows, the index and the gates |
| `JobLoops.RunAssessmentJobs` | internal/scanner/assessment_jobs.go:44-906 | Behind the guards nothing runs; past them the rows are those of the loop, one for each job in plan order among the discovery rows, with the last row failed if the final save fails |
| `JobLoops.RowsKept` | internal/scanner/assessment_jobs.go:159-185 | Each turn adds exactly one outcome row for its job, after those of the jobs before |
| `JobLoops.IndexedKept` | internal/scanner/assessment_jobs.go:159-185 | With unique IDs the outcomes by ID are exactly the rows |
| `JobLoops.GatedKept` | internal/scanner/assessment_jobs.go:412-606 | Each turn keeps the gates and the account: calls in plan order, only past completed prerequisites, never after a lost checkpoint, exactly when the job is run; rows completed and authenticated exactly when earned; crawls exactly as the preparation decides |
| `JobLoops.CalledExactly` | internal/scanner/assessment_jobs.go:412-662 | From the runs given: past checkpoints and prerequisites a scanner is run exactly when its gates are open and there is no stored run of the same work that is completed, the last that ended, intact, and made in the session where one is bound and used |
| `JobLoops.TestedExactly` | internal/scanner/assessment_jobs.go:546-892 | Exactly these scanner rows are completed: checkpoint stored, gates passed, and such a stored run, or a runner that was called, answered so, was not stopped and kept its session |
| `JobLoops.TestSessionExactly` | internal/scanner/assessment_jobs.go:599-892 | Exactly these scanner rows count as made in a session: such a stored run that was, or a completed run that used the session and kept it |
| `JobLoops.SessionExactly` | internal/scanner/assessment_jobs.go:492-545 | A login never does; a crawl job exactly when selected and the last crawl left so far was made in a session |
| `JobLoops.LoginExactly` | internal/scanner/assessment_jobs.go:492-522 | A login row is completed exactly for a refreshed identity, or when some turn so far verified the session of the target and none since lost it |
| `JobLoops.CrawledExactly` | internal/scanner/assessment_jobs.go:523-545 | A crawl row is completed exactly when the job is selected and the last crawl of its target is whole: an earlier one that completed, or a new one that completed, was not stopped and kept its session |
| `JobLoops.VisitedOnce` | internal/scanner/assessment_jobs.go:546-598 | Of two visits to one target the later is that of a crawl job |
| `JobLoops.CrawlRows` | internal/scanner/assessment_jobs.go:305-324 | A crawl is a row of its own exactly when the plan has no crawl job for its target |
| `JobLoops.RowOf` | internal/scanner/assessment_jobs.go:159-185 | The row of a job has its scanner, scope, variant, plan, stage and identity, after the rows of the jobs before |
| `JobLoops.DependenciesAreRows` | internal/scanner/assessment_jobs.go:1044-1052 | The dependency gate on outcomes is a gate on rows of earlier jobs |
| `JobLoops.UpstreamCompleted` | internal/scanner/assessment_jobs.go:1044-1052 | A job that reached its target has every transitive prerequisite earlier in the plan and completed in the final results |
| `JobLoops.NothingAfterLostCheckpoint` | internal/scanner/assessment_jobs.go:425-430 | After the first lost checkpoint no later job reaches a target or completes, even if later saves succeed |
| `JobLoops.PastTheGuards` | internal/scanner/assessment_jobs.go:51-66 | A call that passes the guards finds, over all histories of its journal: every write ever sent was answered, and has an entry without a cleanup, with a failed one, or with one that was sent and answered with 200 to 299 |
| `TimeSlices.CountPending` | internal/scanner/assessment_jobs.go:760-770 | The count is one more than the later jobs of the target that wait |
| `TimeSlices.PendingDrops` | internal/scanner/assessment_jobs.go:760-770 | Of two jobs of a target the later counts fewer, if the earlier counted it |
| `TimeSlices.WebClock.Admit` | internal/scanner/assessment_jobs.go:690-700 | The deadline of a target is set once; a job is in time exactly before it |
| `TimeSlices.WebClock.Slice` | internal/scanner/assessment_jobs.go:757-777 | The deadline of a job, with both clock readings and truncating division |
| `TimeSlices.StageWithinWeb` | internal/scanner/assessment_jobs.go:771-774 | With both clock readings: a stage deadline stays within the web deadline if and only if the first reading does, or the second is so much later that the negative share takes the difference back |
| `TimeSlices.NeverShrinksExactly` | internal/scanner/assessment_jobs.go:757-777 | Of two slices of one target the second is never smaller, whatever the clock says, if and only if fewer jobs wait for it |
| `TimeSlices.ShareGrows` | internal/scanner/assessment_jobs.go:757-777 | A slice that starts by the stage deadline before it, with fewer jobs waiting, is no smaller |
| `TimeSlices.MissedExactly` | internal/scanner/assessment_jobs.go:599-770 | Of the later jobs that run again the count misses exactly those whose stored run is complete and verifies but was not made in the session that is bound now |
| `TimeSlices.FairExactly` | internal/scanner/assessment_jobs.go:599-777 | Of two slices with nothing that waits in between, the second is never smaller if and only if the count did not miss its job |
| `TimeSlices.Fair` | internal/scanner/assessment_jobs.go:757-777 | Over any run of slices of one target, fresh or resumed, none of which the count missed: shares never shrink, no deadline passes the web deadline, and each of n jobs gets at least the n-th part of what was left at the first |
| `TimeSlices.UncountedJob` | internal/scanner/assessment_jobs.go:599-770 | A plan of two jobs that shows it: both may claim all of the time |
| `StagePlans.Visit` | internal/scanner/planner.go:408-424 | The depth-first search collects exactly the nearest workflow jobs above a stage |
| `StagePlans.DependenciesOf` | internal/scanner/planner.go:403-428 | The prerequisites of one job: sorted, distinct, exactly those |
| `StagePlans.AssignStages` | internal/scanner/planner.go:388-429 | In place, only stage and prerequisites change, each as specified on the jobs before |
| `StagePlans.AssignedAfter` | internal/scanner/planner.go:388-429 | The jobs afterwards satisfy their own prerequisites |
| `StagePlans.AssignedShuffled` | internal/scanner/planner.go:369-378 | Prerequisites depend on the jobs, not on their order: a sort keeps what was assigned |
| `StagePlans.PlanJobs` | internal/scanner/planner.go:369-378 | Assigning and then sorting gives a plan of the same jobs, in the order of the ladder and by ID within a stage, all assigned, in which every prerequisite is an earlier job of the workflow |
| `StagePlans.ChainTo` | internal/scanner/descriptor.go:107-124 | A chain of prerequisites leads to every workflow job on every ancestor stage, over stages that have no job |
| `StagePlans.NearestIsEarlier` | internal/scanner/descriptor.go:85-87 | A prerequisite lies on a strictly earlier stage, in the same workflow |
| `StagePlans.StageOrderIsTopological` | internal/scanner/planner.go:370-378 | In a plan sorted by stage every prerequisite is an earlier job |
| `Text.StrLessExactly` | internal/scanner/planner.go:370-378 | The order of IDs: a proper beginning, or the smaller character where two texts first differ |
| `StagePlans.StagesInOrder` | internal/scanner/descriptor.go:107-124 | Plan and loop together: when a workflow job reaches its target every job of its workflow on every ancestor stage has completed |
| `StagePlans.RankIsPlace` | internal/scanner/descriptor.go:85-105 | The ladder itself, stage by stage |
| `StagePlans.AncestorByName` | internal/scanner/descriptor.go:107-156 | Which scanners come before which, by their names: the stage of one is an ancestor of that of the other exactly if named so |
| `StagePlans.WorkflowByName` | internal/scanner/descriptor.go:107-156 | When a workflow job reaches its target, every job of its workflow that comes before it by name stands earlier and has completed: no test before the login and the crawl, no check before the tests, no write before the checks |
| `StagePlans.PrerequisiteByName` | internal/scanner/planner.go:403-428 | Every prerequisite is a workflow job that comes before by name |
| `StagePlans.RunsInOrder` | internal/scanner/planner.go:370-378 | In a sorted plan jobs stand in the order that their names call for, among the tests: recorded assets, templates, certificates, the others, checks, writes |
| `Leases.SlotCaps` | internal/resources/resources.go:768-891 | Whatever the statistics, heavy slots are at most light slots and the parallel cap, light slots at most the square of the cores |
| `Leases.SomeSlot` | internal/resources/resources.go:768-798 | With memory above the critical floor there is a slot of each kind |
| `Leases.TooLittleExactly` | internal/resources/resources.go:655-664 | The refusal for memory is met exactly for a configured limit below one megabyte, never for whole megabytes |
| `Leases.NoStall` | internal/resources/resources.go:643-693 | An idle machine above the floor admits a tool of either kind, at any load and level, unless the limit is below a megabyte |
| `Leases.SlotsMonotone` | internal/resources/resources.go:768-881 | More load never adds a slot, more memory never takes one away |
| `Leases.LimitRange` | internal/resources/resources.go:816-851 | A lease gets between the floor of its kind and what is configured or spare, the floors of 256 and 128 megabytes apart |
| `Leases.EstimateExactly` | internal/resources/resources.go:390-406 | The estimate of a heavy tool is the largest of 256 megabytes and what is within a quarter of the memory, 4096 megabytes and a budget of 256 or more; a light tool takes the share of one core |
| `Leases.HeavySlotsExactly` | internal/resources/resources.go:768-798 | There are n heavy slots exactly when n heavy tools fit: memory above the floor, and beyond the first tool the estimates of all, the processors for all at rest and at the present load, and a core left over on more than two |
| `Leases.LightSlotsExactly` | internal/resources/resources.go:768-798 | There are n slots in all exactly when n tools fit by the estimate of light ones, or n heavy ones do |
| `Leases.AdmittedExactly` | internal/resources/resources.go:683-693 | So a tool is admitted by its slots exactly when one more of its kind, and one more in all, fits |
| `Leases.LimitExactly` | internal/resources/resources.go:816-851 | The limit of a lease, megabyte by megabyte: zero below a configured megabyte, 256 without spare memory, otherwise its floor or what is configured and its share of the spare memory allow, three quarters of it under caution |
| `Leases.LeaseManager.TryAcquire` | internal/resources/resources.go:643-681 | Granted exactly when a slot is free and memory suffices; the counters stay the numbers of outstanding leases and stay under the caps |
| `Leases.LeaseManager.Release` | internal/resources/resources.go:696-714 | Releasing returns the lease once; a second release changes nothing |
| `BrowserStates.BrowserState.SetLease` | internal/scanctx/browserstate.go:68-90 | The first lease is cached, another one is released at once |
| `BrowserStates.BrowserState.DropLease` | internal/scanctx/browserstate.go:105-124 | The cached lease is forgotten, not released |
| `BrowserStates.BrowserState.ReleaseLease` | internal/scanctx/browserstate.go:126-142 | The cached lease is given back, the first time only |
| `BrowserStates.BrowserState.Close` | internal/scanctx/browserstate.go:144-169 | The same; the session is no longer launched and its path is forgotten |
| `BrowserStates.StepConserves` | internal/scanctx/browserstate.go:74-169 | Every allowed step keeps each lease handed over either cached or released |
| `BrowserStates.ReturnedOnce` | internal/scanctx/browserstate.go:74-169 | Over any run, disciplined or not, a lease is given back exactly once if it is released and never otherwise |
| `BrowserStates.Conservation` | internal/scanctx/browserstate.go:74-169 | Over every run that releases before it drops and hands nothing over after the close, every lease handed over is given back exactly once when the session was closed |
| `BrowserStates.RulesAreNeeded` | internal/scanctx/browserstate.go:105-169 | Both rules are needed: a lease dropped unreleased or handed over after the close stays outstanding for good |
| `BrowserStates.CountersReturn` | internal/resources/resources.go:696-714 | Then the global counters are back where the other sessions leave them |
| `Budgets.AssessmentBudget.constructor` | internal/scanner/budget.go:45-55 | Nothing asked for yet; a deadline exactly for a positive duration |
| `Budgets.AssessmentBudget.Reserve` | internal/scanner/budget.go:110-118 | One request extends the history; it is granted exactly when its ID is among the first distinct ones |
| `Budgets.ReserveEndpoints` | internal/scanner/budget.go:94-122 | A call returns the IDs it mentions, trimmed and once each, that belong to the first maxEndpoints distinct IDs of the whole history; without a budget all of them |
| `Budgets.NeverFlips` | internal/scanner/budget.go:89-122 | An ID once asked for is granted now exactly when it is after any later requests |
| `Budgets.DistinctMentions` | internal/scanner/budget.go:101-109 | The distinct IDs are exactly the non-blank ones mentioned |
| `Budgets.DistinctUnique` | internal/scanner/budget.go:101-109 | Each once |
| `Budgets.AssessmentBudget.Exhausted` | internal/scanner/budget.go:141-158 | Exhausted exactly past the deadline or when more than the cap of distinct IDs were requested |
| `Budgets.AssessmentBudget.Remaining` | internal/scanner/budget.go:132-139 | None without a deadline; otherwise never negative, zero exactly from the deadline on, and before it what ends on the deadline |
| `Dispatches.EligibleExactly` | internal/scanner/attack_surface.go:853-919 | An endpoint is eligible exactly when its state is empty or in_scope, its path is allowed and complete, its method is GET, HEAD or OPTIONS or a replayable read-only POST of the expanded ZAP, and it has the input surface the scanner needs, whatever the order of the tests |
| `Dispatches.DispatchableExactly` | internal/scanner/attack_surface.go:760-799 | With the identity of the pass: exactly this is neither passed over nor barred |
| `Dispatches.DispatchedExactly` | internal/scanner/attack_surface.go:760-799 | An endpoint is dispatched exactly when it is that, the call has room, counted in endpoints or in URLs, and the budget holds a place for it |
| `DispatchScopes.EligibleInScope` | internal/scanner/attack_surface.go:853-936 | The same with the application scope and the parsed URL in place of looked-up answers: allowed, under no exclusion, no placeholder in either form of the path |
| `Dispatches.SetEndpointCoverage` | internal/scanner/attack_surface.go:972-980 | The update loop computes the specified rows |
| `Dispatches.WithRowCorrect` | internal/scanner/attack_surface.go:972-980 | One row for each scanner stays one row for each, the new one among them, the others untouched |
| `Dispatches.DecideOne` | internal/scanner/attack_surface.go:760-799 | The decision on one endpoint, in the order limit, eligibility, known URL, budget |
| `Dispatches.DispatchTargets` | internal/scanner/attack_surface.go:760-799 | The loop over the inventory, in place, refines the specified scan and leaves a budget that holds every ID sent; a missing surface or budget is harmless |
| `Dispatches.TargetsExactly` | internal/scanner/attack_surface.go:760-799 | The URLs given out have no repeats, are at most the limit, and are exactly those of the endpoints sent |
| `Dispatches.UrlsAreDispatched` | internal/scanner/attack_surface.go:760-799 | A URL is given out exactly when an endpoint that has it is marked dispatched |
| `Dispatches.SentIsAllowed` | internal/scanner/attack_surface.go:760-799 | What is sent meets every one of these conditions and holds a reserved place of the budget |
| `DispatchScopes.UrlsInScope` | internal/scanner/attack_surface.go:760-799 | Every URL a pass with a scope hands out was handed out for an endpoint of the inventory that is new or in scope and has a harmless method, holds no placeholder, lies segment by segment below a stored origin of the same scheme, host and port, and under no exclusion for that method |
| `DispatchScopes.CompleteExactly` | internal/scanner/attack_surface.go:921-936 | No placeholder: no brace in either form of the path, nor an escaped one in any case |
| `Dispatches.RowsAfter` | internal/scanner/attack_surface.go:760-799 | Every considered endpoint has exactly one row of the scanner, which says whether it was dispatched; nothing else changes |
| `Dispatches.SentAreReserved` | internal/scanner/attack_surface.go:760-799 | Over any calls on one budget, each on what the calls before and other requests in between have left, the IDs sent are reserved |
| `Dispatches.CampaignCapped` | internal/scanner/attack_surface.go:760-799 | However many scanners share the budget, the distinct endpoints dispatched by all calls never exceed the cap |
| `Dispatches.CompleteEndpointCoverage` | internal/scanner/attack_surface.go:941-970 | The same over the surface, in place |
| `Dispatches.SettledOnce` | internal/scanner/attack_surface.go:941-970 | A waiting row is settled once with one entry of history, other scanners are untouched, and settling again changes nothing |
| `Dispatches.SettledExactly` | internal/scanner/attack_surface.go:941-970 | What it becomes: completed only by a completed whole run with evidence for each endpoint, failed by a cancelled or inapplicable one; with the attempt, the time and the reason of the run |
| `Inventories.MergeStrings` | internal/scanner/attack_surface.go:635-648 | What both lists mention, trimmed, once each, in order |
| `Inventories.MergeParameters` | internal/scanner/attack_surface.go:611-633 | The loop and the sort return the merged parameters |
| `Inventories.MergedExactly` | internal/scanner/attack_surface.go:611-633 | They are the named parameters, each once, increasing |
| `Inventories.ProvenanceExactly` | internal/scanner/attack_surface.go:594-609 | Of the provenance nothing is lost: the old rows first, each new one with its tool, source, artifact and session, none of those added twice |
| `Inventories.MergeFields` | internal/scanner/attack_surface.go:555-592 | One merge, field by field |
| `Inventories.Inventory.Merge` | internal/scanner/attack_surface.go:555-592 | The merge through the index is the merge by linear search |
| `Inventories.IndexedAfter` | internal/scanner/attack_surface.go:555-592 | The index agrees with the linear search after any merge |
| `Inventories.MergeRefuses` | internal/scanner/attack_surface.go:580-586 | A merged endpoint is refused exactly when one of the two was: a merge never widens what may be dispatched |
| `Inventories.MergeAllFaithful` | internal/scanner/attack_surface.go:404-406 | Over any run of merges IDs stay unique, and an entry may be dispatched exactly when every observation of it may |
| `Inventories.OrderDoesNotWiden` | internal/scanner/attack_surface.go:555-592 | So the order of the observations does not matter for what may be dispatched |
| `Inventories.MergeAgain` | internal/scanner/attack_surface.go:555-592 | Merging an observation into an entry a second time changes nothing |
| `Inventories.MergeSelf` | internal/scanner/attack_surface.go:555-592 | Merging an entry into itself changes nothing exactly when it is in merged form |
| `Inventories.MergeOneTwice` | internal/scanner/attack_surface.go:555-592 | Merging twice in a row is merging once exactly when the ID was known or the entry is in merged form |
| `Inventories.FreshIsMerged` | internal/scanner/attack_surface.go:408-436 | A fresh endpoint is in merged form exactly when its source is not blank and its route is trimmed |
| `BoundedArtifacts.TakeIsPrefix` | internal/scanner/bounded_artifact.go:134-145 | What is kept of the groups is the first records of their concatenation |
| `BoundedArtifacts.EncodeGrows` | internal/scanner/bounded_artifact.go:138-145 | The report never shrinks when it keeps more records |
| `BoundedArtifacts.Document.EncodeFirst` | internal/scanner/bounded_artifact.go:138-145 | Rewriting the groups in place, in the order they were collected, and encoding them in the order of their keys gives the report of the first records |
| `BoundedArtifacts.BoundDocument` | internal/scanner/bounded_artifact.go:134-169 | Keeps the largest number of leading records whose report fits, fails exactly when the empty report does not, with at most 1 + bitlength(total) encodings |
| `BoundedArtifacts.GroupReadsBack` | internal/scanner/bounded_artifact.go:134-145 | A group is written in the brackets of an array or the braces of an object, and its rows can be read back |
| `BoundedArtifacts.BitLengthExactly` | internal/scanner/bounded_artifact.go:146-169 | The bound on the encodings is the binary logarithm |
| `BoundedArtifacts.BoundLines` | internal/scanner/bounded_artifact.go:40-66 | The line loop computes the specified retained text |
| `BoundedArtifacts.CutRecord` | internal/scanner/bounded_artifact.go:40-66 | What becomes of a piece that the limit cuts: dropped when it is blank or no blank line came before, otherwise refused or kept although incomplete |
| `BoundedArtifacts.WholeLine` | internal/scanner/bounded_artifact.go:40-66 | When the limit ends a line: that line is dropped when no blank line came before, otherwise all fits |
| `BoundedArtifacts.CompleteRecordsOnly` | internal/scanner/bounded_artifact.go:18-66 | A file of valid records is cut to complete records if and only if no blank line comes before the limit or what the limit cuts is blank; then to all that were read, unless those are one byte too many |
| `BoundedXml.TagTokens` | internal/scanner/bounded_artifact.go:195-221 | The scan tags each token with its record and counts the records |
| `BoundedXml.CutsAreBalanced` | internal/scanner/bounded_artifact.go:172-236 | Of a well-formed report every cut is well formed if no record is nested in another; if one is, already the first cut fails |
| `BoundedXml.SizeGrows` | internal/scanner/bounded_artifact.go:222-236 | A cut with more records is no smaller |
| `BoundedXml.SearchCuts` | internal/scanner/bounded_artifact.go:237-258 | The search keeps the largest cut that fits, with few encodings |
| `BoundedXml.BoundXmlArtifact` | internal/scanner/bounded_artifact.go:174-259 | The largest well-formed cut that fits; fails exactly for more than a million tokens, a record that begins inside another, or when nothing fits |
| `BoundedXml.RecordsExactly` | internal/scanner/bounded_artifact.go:195-221 | The records are the elements "result" right below an element "results": the scan counts them, and finds nesting exactly when one begins inside another |
| `BoundedXml.KeptExactly` | internal/scanner/bounded_artifact.go:222-236 | A cut keeps a token unless it belongs to a record after the first so many; the tags of a record belong to it |
| `CoverageProofs.LatestRuns` | internal/scanner/coverage_proof.go:212-223 | The index holds for each scanner and scope the run that is latest |
| `CoverageProofs.OneLatest` | internal/scanner/coverage_proof.go:212-223 | Every scanner and scope with a run has exactly one latest run |
| `CoverageProofs.UnionMembers` | internal/scanner/coverage_proof.go:192-208 | What is marked for a list is what some element of it marks |
| `CoverageProofs.AddSurface` | internal/scanner/coverage_proof.go:120-210 | One surface keeps every counter the length of its list |
| `CoverageProofs.AddRuns` | internal/scanner/coverage_proof.go:224-313 | Only latest runs add marks |
| `CoverageProofs.AddRows` | internal/scanner/coverage_proof.go:314-360 | One row for each scanner, in order of names |
| `CoverageProofs.BuildCoverageProof` | internal/scanner/coverage_proof.go:93-378 | Every inventory counter and every per-scanner count is the length of its list, the counter of TLS services is that of the services whose ID is met first with TLS, the sets are exactly what surfaces and latest runs mark |
| `CoverageProofs.CountsExactly` | internal/scanner/coverage_proof.go:161-191 | What an endpoint counts as: approved in the two states that may be dispatched, eligible when one of the four scanners may be given it with the scope left aside |
| `CoverageProofs.SurfaceMarksExactly` | internal/scanner/coverage_proof.go:192-208 | A surface marks a key as each row of its endpoints says, status by status, and nothing else |
| `CoverageProofs.RunMarksExactly` | internal/scanner/coverage_proof.go:240-313 | A run marks the keys of its manifest rows, submissions and events as each says, status by status, and nothing else |
| `CoverageProofs.KeyExactly` | internal/scanner/coverage_proof.go:240-273 | A key of a run has the scope of the last manifest row of the endpoint, else that of the run |
| `CoverageProofs.UnknownExactly` | internal/scanner/coverage_proof.go:319-327 | The unknown count never exceeds its list, and equals it exactly when the exercised keys are among the selected ones or the other way round |
| `CoverageProofs.TemplatesExactly` | internal/scanner/coverage_proof.go:229-239 | Over any latest runs the template counter is at most its list, and equal exactly when of several lists all but the last are empty |

## Left out

- net/url, netip and Go regexp: a URL is a structured value with a decoded path
  and a small parser for `scheme://host[:port]`; printing the URL of an
  operation and reading it again is taken to give the same URL. Address
  canonicalization is a table that keeps zones and reads its own results as
  themselves. The regular expressions are a datatype of the operators that are
  emitted, and the match results enter the exclusion loop as values.
- Unicode folding and trimming: letters and white space are ASCII.
- The journal file format, redaction, timestamps and locks: whether the file can
  be read is an input, and a journal operation is one step of the machine.
- HTTP, DNS, TLS and the retries of the HTTP client: an answer or its absence is
  an input.
- The lease manager under its lock is one step per call; live statistics are
  inputs, load is a real number, and 64-bit overflow is not modelled.
- Run keys joined with a zero byte are records; values that hold that byte are
  not modelled.
- The contents of prepared surfaces, and the browser, identity and proxy runs
  they add, are given; so are the comparison rows of reconcileNextjsEvidence.
- Events, log lines and the reason texts of single turns of the job loop; coverage side effects of a
  resumed job.
- The table of jobs by stage in assignStages: members of a stage are computed
  from the jobs.
- The rate limiter and its waits: granted or not is an input.
- JSON decoding of a report: a document is the text between its record groups;
  encoder errors, file sizes and the atomic rename are outside.
- CoverageProofs.BuildCoverageProof: of an item in a list only its key is specified,
  not the attempt, the state and the reason it shows; they decide no number.
- The final stable sort of proof items, identity discovery, authorization
  results, definitions and discovery gaps, SafeTelemetryURL and evidence
  references of the coverage proof.
- internal/assessment/validate.go, the finding classifiers, catalogs, report
  layout, command line, service installation and web interface: constants, or
  settled by reading one branch.
