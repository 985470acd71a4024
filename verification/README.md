# Verified model of the agent gates, the audit log, the seed planners and the worker roles

This project models, in Dafny, the parts of the suite whose behaviour spans several calls, and proves what they promise:

- **The approval coordinator** (`Approval`, `ApprovalRuns`). Create, Approve, Revoke and Submit share one ledger under a mutex, and Approve and Submit let go of it for an outside call. Every locked region is one step; a run is any interleaving of the steps of any number of calls.
- **The connection console** (`ConnectionConsole`, `ConsoleState`, `ConsoleSteps`, `ConsoleEdits`, `ConsoleRuns`, `ConsoleService`). Numbered revisions of what a connection exposes, a second administrator, rollback, a memory copy over a durable store, failing writes and restarts.
- **The audit log and persona provenance** (`AuditChain`, `PersonaTrace`, `PersonaReading`, `PersonaRoundTrip`). A hash chain for each tenant with an index by event; a run request printed into entry fields and resolved back from views.
- **The document planner** (`LinkPlan`, `LibraryPlan`, `LinkText`, `TenantText`, `RelatedSection`, `Relink`). The widen-or-drop fixpoint over audiences, the text rewriter that must not touch links, and the relink pass over an existing library.
- **Office time** (`Timeline`, `OfficeHours`). Spans of weekday office hours, three walks over them, and the histories they date.
- **The account linker** (`Linker`, `LinkerRuns`). The authorization-code flow of section 4.1 of RFC 6749 with PKCE S256, sections 4.1 to 4.6 of RFC 7636.
- **The worker** (`Sweep`, `SweepRuns`, `Repair`, `RepairRuns`). Outbox settlement behind a compensation fence, and dual-control repair.

`Ordering`, `Text`, `Substrings` and `Wrappers` hold what several of them share.

How it is laid out: a region that changes state is a pure function of the state it finds; a class with the source's fields has one method for each region, whose contract is that function; and a machine over the same functions gives the runs. The theorems are about every run. SHA-256 over JSON is an injective symbol, except in `AuditChain`, where the hash is a parameter and collisions are made explicit. Clocks, random draws, map iteration orders, store answers and provider answers are inputs, so what is proved holds for all of them. Integers are unbounded.

## What the code does and does not do

These are proved, with a concrete input where the code falls short of its own comments:

- `SetTier` writes the tiers through the shared slice before the store is asked (`internal/agentaccess/agent2019_console.go:363-375`), although `agent2019_store.go:61-63` says memory changes only afterwards. `ConsoleSteps.ExecKeeps` shows that memory stops mirroring the store exactly when such a call changes a tier and its write fails; `ConsoleRuns.SpoiledRun` is such a run. The approval theorem `ConsoleRuns.LiveWasApproved` holds regardless.
- A revision whose connection id contains `#` can never be found again by the id its page shows (`ConnectionConsole.IdLeadsBack`; `ConsoleRuns.UnreachableRun` is a run).
- The relink pass does not converge at once on a text that ends in a bare `## Related documents` line without a line break: the break it appends turns that line into a heading, and the next pass cuts it. `RelatedSection.RewrittenCarries` and `Relink.SecondPassIsQuiet` give the exact condition, `Relink.BareDocumentIsWrittenTwice` a document.
- `ExecuteRepair` tests the observation after the effect against the clock it read before it, so a receipt needs an observation that is not later than that (`RepairRuns.ReceiptNeedsEarlyVerification`), and a plan whose effect ran without a kept receipt never gets one (`RepairRuns.LostReceiptStaysLost`). Receipts are found by plan id and idempotency key alone (`RepairRuns.ReplayNamesItsOwnPlan`, `RepairRuns.ReplayForAnotherPlan`). Plan ids tell tenants apart, but two resources of one tenant that differ only in spaces and underscores share an id under one key (`Repair.PlanIdsTellTenants`, `Repair.SharedPlanId`). An effect that changes nothing runs again on the next call (`RepairRuns.IdleEffectRunsTwice`).
- In a window without office time every chat message gets Go's zero time (`Timeline.RoomHistory`).

## Model

| member | source | states |
|---|---|---|
| `ApprovalRuns.SubmittedOnceAsApproved` | internal/agentapproval/uxblind_b2_approval.go:294-512 | In every interleaving the submitter is invoked at most once for an approval, whose card has, field by field, what its Create was asked for (people, task, origin, expiries, and the items up to order, nothing added): after a call of Approve whose caller was the assigned user, from the product surface, with that human and no agent in its chain, presenting the digest fixed at Create and the items in their order, stepped up if an item's risk is HIGH or CRITICAL; after a call of Submit by the same user for that digest, accepted by the revalidator; both before both expiries; with the items and digest fixed at Create; and never on an approval that was revoked |
| `ApprovalRuns.RevokedStaysUnsubmitted` | internal/agentapproval/uxblind_b2_approval.go:411-434 | A revoked approval is never claimed, handed over or answered with a receipt |
| `ApprovalRuns.ReceiptsAgree` | internal/agentapproval/uxblind_b2_approval.go:454-467 | Every successful Submit was asked for by the assigned user under the same key and digest and returns the same digest, key and time; all but the first are marked as replays |
| `ApprovalRuns.ApprovedCanBeSubmitted` | internal/agentapproval/uxblind_b2_approval.go:476-512 | From every reachable state an approved, unexpired, revalidated card can be claimed, handed over and settled: the submitter gets the card's own items and digest, the receipt names them, the key and the time, and nothing else in the ledger changes |
| `ApprovalRuns.ValidRequestIsCreated` | internal/agentapproval/uxblind_b2_approval.go:294-327 | From every reachable state a valid request under an unused id is recorded as one pending card made from it, and nothing else changes |
| `ApprovalRuns.PendingCanBeApproved` | internal/agentapproval/uxblind_b2_approval.go:346-409 | From every reachable state the assigned user's own request, made and finished in time, approves a pending card and changes nothing else |
| `ApprovalRuns.StepUpIsRequired` | internal/agentapproval/uxblind_b2_approval.go:383-390 | Where the risk asks for it, a failed step-up ends the call and changes nothing |
| `ApprovalRuns.OpenCanBeRevoked` | internal/agentapproval/uxblind_b2_approval.go:414-434 | A pending or approved card can be revoked for any reason given, which is kept |
| `ApprovalRuns.FailedSubmissionIsFinal` | internal/agentapproval/uxblind_b2_approval.go:499-505 | When the submitter fails the approval is spent: it is never claimed again |
| `ApprovalRuns.SubmittedIsReplayed` | internal/agentapproval/uxblind_b2_approval.go:454-467 | From every reachable state a submitted approval answers the same ask with its receipt, marked as a replay |
| `ApprovalRuns.NormalizedRows` | internal/agentapproval/uxblind_b2_approval.go:682-708 | Normalising keeps every row and adds none; each row keeps its fields, its subjects, fields and sources up to order |
| `ApprovalRuns.RunsKeepInv` | internal/agentapproval/uxblind_b2_approval.go:294-512 | Every step keeps: each record has the one history its phase allows, at most one call executes an approval, and calls that let go of the lock still hold the stored card and the caller's checked request |
| `Approval.NormalizeTwice` | internal/agentapproval/uxblind_b2_approval.go:682-708 | Normalising rows twice is normalising once, so the stored card's recomputed digest is the original |
| `Approval.DigestIgnoresOrder` | internal/agentapproval/uxblind_b2_approval.go:515-556 | Rows sent in another order give the same digest |
| `Approval.DigestPinsMaterial` | internal/agentapproval/uxblind_b2_approval.go:515-556 | Equal digests of stored cards mean the same people, expiries and rows |
| `Approval.SameIds` | internal/agentapproval/uxblind_b2_approval.go:670-680 | True exactly when the presented ids are the items' ids in order |
| `Approval.ValidateHumanDecision` | internal/agentapproval/uxblind_b2_approval.go:641-658 | Accepts exactly a chain that holds the deciding human and no agent |
| `Approval.ApprovalNeedsStepUp` | internal/agentapproval/uxblind_b2_approval.go:660-668 | True exactly when the risk of some item, trimmed and upper-cased, is HIGH or CRITICAL |
| `Approval.Service.constructor` | internal/agentapproval/uxblind_b2_approval.go:285-290 | Starts with no records |
| `Approval.Service.Reserve` | internal/agentapproval/uxblind_b2_approval.go:306-311 | The numbered id, and the counter moved by one |
| `Approval.Service.Insert` | internal/agentapproval/uxblind_b2_approval.go:320-326 | Stores the card, or refuses an id in use and changes nothing |
| `Approval.Service.BeginApprove` | internal/agentapproval/uxblind_b2_approval.go:346-381 | The checks before step-up, in their order, and the card presented for proof; changes nothing |
| `Approval.Service.FinishApprove` | internal/agentapproval/uxblind_b2_approval.go:392-409 | Checks again and moves the state in one region |
| `Approval.Service.Revoke` | internal/agentapproval/uxblind_b2_approval.go:414-434 | Revokes a pending or approved card, with the error for every other phase |
| `Approval.Service.BeginSubmit` | internal/agentapproval/uxblind_b2_approval.go:440-497 | Replay, refusal or the single EXECUTING claim, in the order of the checks |
| `Approval.Service.FinishSubmit` | internal/agentapproval/uxblind_b2_approval.go:500-512 | The receipt and the settled or failed record |
| `LinkPlan.WidenOrDrop` | cmd/migrate/document_seed.go:540-564 | The fixpoint loop ends (remaining links plus readers still missing go down) and leaves every link readable by its whole audience, having only widened shared documents of the same owner, never to the viewer, or dropped links |
| `LinkPlan.SettleLinks` | cmd/migrate/document_seed.go:545-563 | One document's turn: its links end up settled for its audience, or the measure has gone down |
| `LinkPlan.AudiencesAreLeast` | cmd/migrate/document_seed.go:540-564 | The audiences reached are the least ones closed under the links to shared documents of the same owner that do not bring the viewer in; no such link and no readable link is lost |
| `LinkPlan.OutcomeIsUnique` | cmd/migrate/document_seed.go:540-564 | Who ends up reading what does not depend on the order of the visits |
| `LinkPlan.WideningShrinks` | cmd/migrate/document_seed.go:551-557 | Widening strictly lowers the measure |
| `LinkPlan.AudienceCovered` | cmd/migrate/document_seed.go:622-637 | True exactly when every reader of the source reads the target |
| `LinkPlan.MissingReaders` | cmd/migrate/document_seed.go:640-653 | Lists exactly the readers of the source who cannot read the target |
| `LibraryPlan.PlanLinks` | cmd/migrate/document_seed.go:500-583 | The whole plan, for any random draws: stage by stage each document drew its links, exactly as many as asked for or as there were targets; these were settled into the least audiences; the first eligible documents, exactly two or as many as there are, got a restricted link. So links lead to earlier documents, audiences only grow, the viewer reads nothing new, private documents stay private, and a link is closed to some reader exactly when it is a restricted one |
| `LibraryPlan.DrawLinks` | cmd/migrate/document_seed.go:501-539 | One document's draw: exactly the asked number of links or as many as there are targets, ascending, readable targets before those to be widened; each chosen target to be widened gains exactly the missing readers, and nothing else changes |
| `LibraryPlan.Candidates` | cmd/migrate/document_seed.go:505-516 | Exactly the earlier related documents the whole audience can read |
| `LibraryPlan.WidenPool` | cmd/migrate/document_seed.go:524-530 | Exactly the earlier related documents of the same owner, shared but not covering, whose missing readers leave out the viewer |
| `LibraryPlan.WidenFor` | cmd/migrate/document_seed.go:531-536 | Each chosen target gains exactly the readers of the document who lacked it, as viewers; no other document and no link changes |
| `LibraryPlan.Restrict` | cmd/migrate/document_seed.go:565-583 | The first two eligible documents, or as many as there are, and no others, get a link to the last earlier private draft of their owner; the answer is their number |
| `LibraryPlan.FindDraft` | cmd/migrate/document_seed.go:574-581 | The last earlier private draft of the document's owner, or none if there is none |
| `LibraryPlan.DrawnLinksStay` | cmd/migrate/document_seed.go:540-583 | A drawn link is in the final plan if its target may be widened or was readable by the final audience |
| `LibraryPlan.LinksAreOfAKind` | cmd/migrate/document_seed.go:565-583 | Adding restricted links to settled ones leaves every link open to its whole audience, or restricted and leading to a private draft of the same owner |
| `LibraryPlan.SharedWith` | cmd/migrate/document_seed.go:694-701 | True exactly when some share of the document names the person |
| `LibraryPlan.LinkCoverage` | cmd/migrate/document_seed_links.go:38-48 | The first count is all links of the plan, the second those their whole audience can open, and the two differ by the links closed to some reader |
| `TenantText.TextForWorker` | cmd/migrate/document_seed.go:738-771 | For any text without the placeholder marker, the closed links afterwards are the same strings in the same order, and the text between them is rewritten word by word |
| `TenantText.ProtectAndRestore` | cmd/migrate/document_seed.go:773-795 | Restoring undoes protecting |
| `LinkText.ProtectLinks` | cmd/migrate/document_seed.go:773-788 | The loop ends, and returns the text with every closed link numbered away and the links in order |
| `TenantText.RestoreLinks` | cmd/migrate/document_seed.go:790-795 | Puts every link back in the place of its own placeholder, although placeholders share prefixes |
| `TenantText.ReplaceWords` | cmd/migrate/document_seed.go:743-769 | Each replacement leaves the placeholders alone and makes no new link or marker |
| `TenantText.ReplacementsAreSafe` | cmd/migrate/document_seed.go:743-767 | No word of the table, old or new, can meet a placeholder or a link |
| `TenantText.LinksOfAssembled` | cmd/migrate/document_seed.go:773-788 | The closed links of a text put together from link-free segments and links are those links |
| `LinkText.TextIsAssembled` | cmd/migrate/document_seed.go:773-788 | Every text is its segments with its closed links between them |
| `RelatedSection.RewrittenCarries` | cmd/migrate/document_seed_links.go:29-34 | Replacing the section again changes nothing exactly when the body does not end in a bare heading |
| `RelatedSection.BareBodies` | cmd/migrate/document_seed_links.go:25-34 | The body ends in a bare heading exactly when the text has no section and ends in one itself |
| `RelatedSection.BareExample` | cmd/migrate/document_seed_links.go:25-34 | A text that is rewritten for any links, whose rewriting is rewritten again; the third time nothing changes |
| `RelatedSection.RewrittenText` | cmd/migrate/document_seed_links.go:29-34 | On stored text the result is the body, a line break and the normalised section, and is itself normalised |
| `RelatedSection.NormalizeAfter` | internal/data/documenthubstore/versions.go:35-40 | Normalisation leaves text without carriage returns alone and works on what follows it |
| `RelatedSection.SectionOpens` | cmd/migrate/document_seed_corpus.go:375-385 | A section is empty or opens with the heading, also after normalisation |
| `RelatedSection.SectionReadsBack` | cmd/migrate/document_seed_corpus.go:375-385 | A section, read line by line, gives back its links, each title with its own id, in order, for titles and ids without the brackets around them |
| `RelatedSection.RewrittenReadsBack` | cmd/migrate/document_seed_links.go:29-34 | The rewritten text is the old body, the heading and the lines that read back as the planned links |
| `RelatedSection.SameInk` | cmd/migrate/document_seed_links.go:224-231 | Texts that compare equal have the same amount of visible text |
| `Relink.SecondPassIsQuiet` | cmd/migrate/document_seed_links.go:55-133 | A second pass writes no version and adds no share exactly when nothing the first one rewrote ended in a bare heading; then the newest version carries the section, and so does the live one where anyone but the owner reads it |
| `Relink.BareDocumentIsWrittenTwice` | cmd/migrate/document_seed_links.go:98-125 | A document on which the first pass writes a version, the second writes another, and the third is quiet |
| `Relink.LibraryConverges` | cmd/migrate/document_seed_links.go:55-133 | The same for the whole library and its counters |
| `Relink.UpToDateIffClean` | cmd/migrate/document_seed_links.go:98-125 | What was rewritten is up to date exactly when it did not end in a bare heading |
| `Relink.QuietIffUpToDate` | cmd/migrate/document_seed_links.go:66-103 | A pass leaves a document alone exactly when it is up to date and shared as planned |
| `Relink.DraftStaysOnTop` | cmd/migrate/document_seed_links.go:104-125 | A pending draft keeps its title and body and stays above the published fix; no earlier version is touched |
| `Relink.TitlesAndBodiesStay` | cmd/migrate/document_seed_links.go:98-125 | What is rewritten keeps its title and body, no earlier version is touched, and the published fix becomes the live version |
| `Relink.PassCounts` | cmd/migrate/document_seed_links.go:66-130 | The counters are the versions added, whether any was, and the readers added; the readers afterwards are the old ones and the planned ones |
| `Relink.SharesReach` | cmd/migrate/document_seed_links.go:135-160 | Every planned recipient reads the document afterwards, nobody else is added, and the first share publishes the newest version |
| `Relink.Hub.ConvergeShares` | cmd/migrate/document_seed_links.go:135-160 | Shares with exactly the recipients who lack access, and counts them |
| `Relink.Hub.RelinkOne` | cmd/migrate/document_seed_links.go:66-130 | The new state of one document and what it counts |
| `Relink.Hub.RelinkSeedDocuments` | cmd/migrate/document_seed_links.go:55-133 | Every reused document is relinked, no other is touched, and the counters are the sums |
| `Relink.Hub.CreateVersion` | cmd/migrate/document_seed_links.go:107-119 | Appends one version and touches nothing else |
| `Relink.Hub.Deploy` | cmd/migrate/document_seed_links.go:189-193 | Makes one version the live one |
| `ConsoleRuns.LiveWasApproved` | internal/agentaccess/agent2019_console.go:339-536 | At every point of every run, through edits, rollbacks, failing writes and restarts, a published or superseded revision that needs a second administrator was created by one command, asked for by a later one and approved with step-up by a third, whose actor is neither of the first two, on exactly its skills, grants, mode and snapshot |
| `ConsoleRuns.AnnouncedWasApproved` | internal/agentaccess/agent2019_console.go:443-498 | The same for every revision the publisher was ever given |
| `ConsoleRuns.PublishingTells` | internal/agentaccess/agent2019_console.go:443-536 | From every reachable state: a Publish or Rollback that may not happen changes nothing; if the publisher refuses, its error is answered and nothing changes; otherwise it was told exactly one revision, the named one as it stood or the superseded one's content under the next number, and the store's answer decides whether that revision becomes live and the trail gets its event |
| `ConsoleRuns.OthersTellNothing` | internal/agentaccess/agent2019_console.go:242-438 | No other command calls the publisher |
| `ConsoleEdits.EditDoes` | internal/agentaccess/agent2019_console.go:285-438 | When an import, a tier, new grants, a request or an approval is accepted, exactly, and what it leaves in the place of the revision, field by field |
| `ConsoleEdits.EditingReplaces` | internal/agentaccess/agent2019_console.go:285-438 | From every state such a command replaces that one revision, in memory and store, or changes nothing; a write that fails leaves all but SetTier's tiers as they were |
| `ConsoleEdits.CreateSucceeds` | internal/agentaccess/agent2019_console.go:242-283 | A draft is created exactly when its author may, it is complete, and the store can be read and written |
| `ConsoleEdits.ImportAdds` | internal/agentaccess/agent2019_console.go:314-327 | The tools that are not skills yet come in, in order, each under its own name, T0 if it only reads and T4 otherwise |
| `ConsoleEdits.ImportedWritesNeedSecondAdmin` | internal/agentaccess/agent2019_console.go:314-327 | An imported tool that may write needs the second administrator as soon as it is granted |
| `ConsoleRuns.MemoryIsTheStore` | internal/agentaccess/agent2019_store.go:37-73 | While no SetTier since the last restart loses its write, a console that starts now and loads the store, in any order, sees the lists in memory; while none ever did, each revision stands under its recomputed digest |
| `ConsoleRuns.CleanRunsMirror` | internal/agentaccess/agent2019_store.go:61-73 | Such runs keep memory and store equal and all digests current |
| `ConsoleRuns.RestartsMirror` | internal/agentaccess/agent2019_store.go:39-73 | A restart brings memory and store back together, and they stay so until a SetTier loses its write |
| `ConsoleRuns.SpoiledRun` | internal/agentaccess/agent2019_console.go:339-378 | A run of one creation and one SetTier whose write fails, after which memory and store hold different tiers |
| `ConsoleRuns.UnreachableRun` | internal/agentaccess/agent2019_console.go:216-231 | A run that creates a revision of a connection whose id holds `#`, after which no command can name that revision |
| `ConsoleRuns.ListsStayProper` | internal/agentaccess/agent2019_console.go:242-536 | In every run numbers strictly increase along each list and at most one revision of it is published |
| `ConsoleRuns.TrailIsComplete` | internal/agentaccess/agent2019_store.go:64-73 | The store's trail is one event for each command that succeeded, in order; memory's is the part since the last restart |
| `ConsoleRuns.ApprovedCanBePublished` | internal/agentaccess/agent2019_console.go:443-498 | In a clean run an approved revision can be published when publisher and store answer: the publisher is told that very revision, it is live in memory and store, what was live before is retired, nothing else changes, and the trail has one more event |
| `ConsoleRuns.GateSound` | internal/agentaccess/agent2019_console.go:462-466 | What the publishing gate lets through was approved on exactly its current content |
| `ConsoleSteps.ExecKeeps` | internal/agentaccess/agent2019_console.go:242-536 | Every command keeps the state valid, and memory equal to the store exactly when it is not a SetTier that changes a tier and cannot write it |
| `ConsoleSteps.SpoiledOutcome` | internal/agentaccess/agent2019_console.go:363-375 | What such a SetTier leaves: an error, the store as it was, the new tiers in memory |
| `ConsoleSteps.EditResetsApproval` | internal/agentaccess/agent2019_console.go:337-378 | Changing tiers or grants drops request and approval, reseals the digest and keeps everything else; the result cannot pass the publishing gate |
| `ConsoleSteps.CreateStartsOver` | internal/agentaccess/agent2019_console.go:271-283 | A created revision is its author's unapproved draft with the given content, last in its list and numbered above all others |
| `ConsoleSteps.PublicationOrderly` | internal/agentaccess/agent2019_console.go:470-498 | Publishing writes exactly what it changes, retires what was live and loses no revision |
| `ConsoleState.FreshSeesMemory` | internal/agentaccess/agent2019_store.go:39-59 | Sorting and grouping any faithful answer of the store gives back the lists |
| `ConsoleState.SortedFetch` | internal/agentaccess/agent2019_store.go:47-52 | The sorted answer holds the tenant's rows, with increasing numbers on each connection |
| `ConnectionConsole.DigestPinsContent` | internal/agentaccess/agent2019_console.go:96-115 | Equal digests mean the same skills, grants, mode, snapshot and number |
| `ConnectionConsole.SecondAdminIsFor` | internal/agentaccess/agent2019_console.go:74-90 | The condition the model tests is: a brokered credential, or some skill of tier T3 or T4 in some grant |
| `ConnectionConsole.ContentDecidesSecondAdmin` | internal/agentaccess/agent2019_console.go:71-94 | Whether a second administrator is needed depends on the content alone |
| `ConnectionConsole.IdLeadsBack` | internal/agentaccess/agent2019_console.go:216-231 | The id of a revision finds it exactly when the connection id has no `#` |
| `ConsoleService.RequiresSecondAdmin` | internal/agentaccess/agent2019_console.go:74-90 | True exactly for a brokered credential or a skill of tier T3 or T4 that some grant gives out |
| `ConsoleService.CheckDraft` | internal/agentaccess/agent2019_console.go:246-265 | Accepts exactly the complete drafts whose grants name known skills |
| `ConsoleService.CheckGrants` | internal/agentaccess/agent2019_grants.go:34-54 | Accepts exactly complete grants with distinct ids over known skills, unchanged |
| `ConsoleService.ImportedSkills` | internal/agentaccess/agent2019_console.go:314-327 | Appends the tools not yet known, read-only ones as T0 and all others as T4 |
| `ConsoleService.RetierSkills` | internal/agentaccess/agent2019_console.go:362-367 | Sets the tier of every skill of that id and says whether there was one |
| `ConsoleService.CollectPublished` | internal/agentaccess/agent2019_console.go:475-482 | The published revisions, retired, in order |
| `ConsoleService.ReplaceAll` | internal/agentaccess/agent2019_console.go:489-495 | Replacing by number retires exactly the published revisions |
| `ConsoleService.TakenBack` | internal/agentaccess/agent2019_console.go:528-534 | A rollback that fails leaves the list as it was |
| `ConsoleService.Console.LoadTenant` | internal/agentaccess/agent2019_store.go:39-59 | Loads a tenant once, grouped by connection in order |
| `ConsoleService.Console.Persist` | internal/agentaccess/agent2019_store.go:64-73 | Writes rows and audit event together, or changes nothing |
| `ConsoleService.Console.FindRevision` | internal/agentaccess/agent2019_console.go:216-231 | The revision with that connection and number, or none |
| `ConsoleService.Console.Create` | internal/agentaccess/agent2019_console.go:242-283 | The whole new state of the console, for every answer of store and authorizer |
| `ConsoleService.Console.ImportSnapshot` | internal/agentaccess/agent2019_console.go:289-335 | The same for an import |
| `ConsoleService.Console.SetTier` | internal/agentaccess/agent2019_console.go:339-378 | The same, with the tiers already changed when the write fails |
| `ConsoleService.Console.SetGrants` | internal/agentaccess/agent2019_grants.go:16-63 | The same for new grants, which reset the approval |
| `ConsoleService.Console.RequestApproval` | internal/agentaccess/agent2019_console.go:382-406 | The same for a request |
| `ConsoleService.Console.Approve` | internal/agentaccess/agent2019_console.go:411-438 | The same for an approval by someone else, with step-up, on the current digest |
| `ConsoleService.Console.PublishLocked` | internal/agentaccess/agent2019_console.go:470-498 | Tells the publisher the revision as it stood, or returns its error with nothing changed; then writes, and only then changes the list |
| `ConsoleService.Console.Publish` | internal/agentaccess/agent2019_console.go:443-468 | The whole new state after Publish |
| `ConsoleService.Console.Rollback` | internal/agentaccess/agent2019_console.go:503-536 | The whole new state after Rollback |
| `AuditChain.TamperEvident` | internal/agentaudit/uxblind_a7_agent_audit.go:508-548 | Under an injective hash two non-empty verified chains end in the same hash exactly when they hold the same canonical entries |
| `AuditChain.SameHeadSameChain` | internal/agentaudit/uxblind_a7_agent_audit.go:508-548 | Under any hash they hold the same entries, or two of their records are a collision |
| `AuditChain.StoresVerify` | internal/agentaudit/uxblind_a7_agent_audit.go:425-455 | Every reachable store verifies for every tenant and its index agrees with its chains |
| `AuditChain.ChainsOnlyGrow` | internal/agentaudit/uxblind_a7_agent_audit.go:405-455 | Later chains extend earlier ones |
| `AuditChain.RetryOrConflict` | internal/agentaudit/uxblind_a7_agent_audit.go:438-444 | A recorded id again: rearranged fields and edges are a retry that changes nothing, anything else is refused |
| `AuditChain.NewIsAppended` | internal/agentaudit/uxblind_a7_agent_audit.go:425-455 | A valid entry under a new event id is recorded last in its tenant's chain at that time, and nothing else changes; an invalid one is refused |
| `AuditChain.RecordedIsJoined` | internal/agentaudit/uxblind_a7_agent_audit.go:239-310 | In every reachable store each event is joined to its own task, and to the approval, intent, workflow run or connector operation its kind reports |
| `AuditChain.CanonicalMeansRearranged` | internal/agentaudit/uxblind_a7_agent_audit.go:524-538 | Canonical forms agree exactly when entries differ in order only |
| `AuditChain.SealedIsAppended` | internal/agentaudit/durable.go:30-37 | A chain built by sealing entries one after the other is the chain Append builds |
| `AuditChain.SealedChainVerifies` | internal/agentaudit/durable.go:30-37 | Such a chain verifies |
| `AuditChain.VerifyChain` | internal/agentaudit/uxblind_a7_agent_audit.go:508-517 | Accepts exactly chains whose every record has its place, its predecessor's hash and its own |
| `AuditChain.Validate` | internal/agentaudit/uxblind_a7_agent_audit.go:239-292 | Accepts exactly the entries with complete identity, distinct classified fields and the edges their kind asks for |
| `AuditChain.CheckFields` | internal/agentaudit/uxblind_a7_agent_audit.go:258-267 | Accepts exactly named, classified fields of distinct names |
| `AuditChain.AnswerShows` | internal/agentaudit/uxblind_a7_agent_audit.go:477-490 | The answer holds exactly the projections of the records the query may see |
| `AuditChain.QuerySelects` | internal/agentaudit/uxblind_a7_agent_audit.go:460-491 | From any store a proper viewer asking for known kinds, and no other, gets exactly the tenant's records of its user, task and kinds, in chain order, each with all of its own data; a field's value is shown if public or allowed and is its digest otherwise |
| `AuditChain.AnswerSelects` | internal/agentaudit/uxblind_a7_agent_audit.go:477-490 | The same of any chain, with the places of the records shown |
| `AuditChain.AnswersRespectViewer` | internal/agentaudit/uxblind_a7_agent_audit.go:550-565 | A user sees only their own events, and a value only where it is public or allowed |
| `AuditChain.MemoryStore.constructor` | internal/agentaudit/uxblind_a7_agent_audit.go:418-420 | Starts as the empty store |
| `AuditChain.MemoryStore.Append` | internal/agentaudit/uxblind_a7_agent_audit.go:425-455 | The whole new state and the answer |
| `AuditChain.MemoryStore.Query` | internal/agentaudit/uxblind_a7_agent_audit.go:460-491 | The refusals, or the records asked for, projected in chain order |
| `AuditChain.MemoryStore.Verify` | internal/agentaudit/uxblind_a7_agent_audit.go:494-504 | Whether the tenant's chain verifies |
| `PersonaRoundTrip.StoreRoundTrip` | internal/agentaudit/persona_provenance.go:52-249 | Entries of one run appended among any others, queried by anyone allowed to see them, for all or for one task or kind of event, and resolved, give back the run's identity, its context in order (post, digest, taint, attachment) and the sorted set of ids of those of its events that the store holds and the query asks for |
| `PersonaRoundTrip.HeldIsFirst` | internal/agentaudit/uxblind_a7_agent_audit.go:425-455 | What the store holds under an event id is the first valid entry it was offered for it |
| `PersonaRoundTrip.ViewsRoundTrip` | internal/agentaudit/persona_provenance.go:52-158 | The same from any views that show the run, among views that do not expose its invocation, for any order of the maps |
| `PersonaRoundTrip.ResolvesOnlyAgreement` | internal/agentaudit/persona_provenance.go:48-158 | From any views: a trace is answered only if all views that expose the invocation agree on one identity and none of them hides, garbles or contradicts a piece of the context; the context is, by ascending index, what those views say and nothing else; each item is complete, and the events are exactly those of these views |
| `PersonaRoundTrip.PrintedExactlyWhenPrintable` | internal/agentaudit/persona_provenance.go:179-219 | An entry is built exactly when run, operation and context pass their checks; the final validation refuses nothing but a blank grant id. It is bound, field by field, to the invoker, the grant of that invoker and tenant, the invocation, step and skill, the digests and the time; every field is confidential; and only the invoker's own post counts as instruction |
| `PersonaRoundTrip.CollectFull` | internal/agentaudit/persona_provenance.go:121-158 | Collecting the fields of a run in any order, after any of its other views, gives its whole context |
| `PersonaTrace.ParsePrintedName` | internal/agentaudit/persona_provenance.go:129-138 | A printed context name is read back as its index and suffix |
| `PersonaTrace.PersonaFieldsTell` | internal/agentaudit/persona_provenance.go:229-249 | The printed fields have distinct names and tell every piece of the context once |
| `PersonaTrace.ValidateContext` | internal/agentaudit/persona_provenance.go:280-310 | Accepts exactly contexts whose entries are digested and tainted as the invoking post demands |
| `PersonaReading.ResolvePersonaTrace` | internal/agentaudit/persona_provenance.go:52-99 | Answers what scanning the views in the given map orders and assembling the context allows |
| `PersonaReading.CollectPersonaContext` | internal/agentaudit/persona_provenance.go:121-158 | Learns field after field, or stops at the first that contradicts |
| `PersonaReading.Indices` | internal/agentaudit/persona_provenance.go:84-88 | The context indices, ascending, each once |
| `PersonaReading.BuildMap` | internal/agentaudit/persona_provenance.go:61-64 | The fields by name, the later of two winning |
| `Timeline.WalksAgree` | cmd/migrate/chatseed003_timeline.go:69-107 | Two steps forward are one; a step adds exactly its length or what is left; stepping forward by what Back took returns to the end |
| `Timeline.ElapsedOfPosition` | cmd/migrate/chatseed003_timeline.go:50-67 | Position and elapsed working time are inverse |
| `Timeline.PositionIsMonotone` | cmd/migrate/chatseed003_timeline.go:50-67 | Positions increase strictly with the offset until the end of the window |
| `Timeline.PositionOfElapsed` | cmd/migrate/chatseed003_timeline.go:69-90 | The position of the time elapsed at a working moment is that moment, and never earlier for any other |
| `Timeline.PositionWorks` | cmd/migrate/chatseed003_timeline.go:50-67 | Every position is a working moment or the closing one |
| `Timeline.At` | cmd/migrate/chatseed003_timeline.go:51-67 | The position at an offset |
| `Timeline.Advance` | cmd/migrate/chatseed003_timeline.go:71-90 | The position at the elapsed time plus the step |
| `Timeline.Back` | cmd/migrate/chatseed003_timeline.go:94-107 | The position at the total less the step |
| `Timeline.NewTimeline` | cmd/migrate/chatseed003_timeline.go:24-45 | Ordered, disjoint, non-empty spans that cover exactly the weekday office time of the window, and their sum, on days of 23 to 25 hours |
| `Timeline.RoomHistory` | cmd/migrate/chat_seed.go:514-592 | For any random choices each post is dated where it was drawn, or a minute after the newest message if that is not later; each of its replies, in the drawn number, the drawn minutes of working time after the message before it; so all lie in the window's office time, closing moment included, and never go back in write order |
| `Timeline.Thread` | cmd/migrate/chat_seed.go:536-580 | One post and its replies, in the drawn number, each dated as drawn after what was written before |
| `Timeline.PostTime` | cmd/migrate/chat_seed.go:539-543 | A post is dated at the offset it was drawn at, or a working minute after the newest message, or at the end of the window |
| `Timeline.ReplyAfter` | cmd/migrate/chat_seed.go:571-579 | A reply is dated its minutes of working time after the message before it, or at the end of the window |
| `OfficeHours.LatestOfficeMoment` | cmd/migrate/chat_seed_moderation.go:363-380 | The greatest office moment not after now |
| `OfficeHours.ReplyTime` | cmd/migrate/chat_seed_hours_s18.go:36-53 | Ends on an open moment no earlier than its input, on the first weekday, with the hour carried over |
| `OfficeHours.After` | cmd/migrate/chat_seed_moderation.go:396-408 | With a positive delay, an office moment between its input and the latest, later than the input unless that is the latest |
| `OfficeHours.Workday` | cmd/migrate/chat_seed_moderation.go:384-391 | The last weekday, that many days ago or before, on which the wall time is not after the latest moment |
| `LinkerRuns.ExchangedAsMinted` | internal/agentaccess/agent2018_link.go:118-203 | In every interleaving an exchange follows the minting of its state by a caller of Start and its spending within the time to live by a caller of Complete who is that tenant's user; Start published the client id, redirect and scopes of the connection's provider, the state and an S256 challenge; the exchange trades that caller's code for that connection with the verifier of that challenge; and the link is made for that caller and connection |
| `LinkerRuns.EachAtMostOnce` | internal/agentaccess/agent2018_link.go:168-203 | A state is minted, spent, exchanged and linked at most once each |
| `LinkerRuns.StaysUsable` | internal/agentaccess/agent2018_link.go:174-187 | Whatever others try, a pending state stays usable for its owner until it expires |
| `LinkerRuns.StartIssues` | internal/agentaccess/agent2018_link.go:118-156 | From every reachable state Start, for a named user and a usable provider, publishes the provider's client id, redirect and scopes with the state and challenge, and leaves the state pending for ten minutes; only expired states go |
| `LinkerRuns.ClaimIsLinked` | internal/agentaccess/agent2018_link.go:188-203 | A claimed state whose provider is published and accepts the code is linked for its caller |
| `LinkerRuns.FailedExchangeLinksNothing` | internal/agentaccess/agent2018_link.go:188-203 | A provider that is gone or refuses the code links nothing |
| `LinkerRuns.RunsKeepInv` | internal/agentaccess/agent2018_link.go:118-203 | Every step keeps one story for each state and at most one call at work on it |
| `Linker.Links.constructor` | internal/agentaccess/agent2018_link.go:88-99 | Nothing pending |
| `Linker.Links.Store` | internal/agentaccess/agent2018_link.go:147-154 | Expired entries go, the new one comes |
| `Linker.Links.Take` | internal/agentaccess/agent2018_link.go:168-191 | Spends the state for its own user before expiry; anyone else leaves it |
| `SweepRuns.CompensationComesAfter` | cmd/worker/sweep.go:108-139 | However workers interleave, a compensation is handled only after its original was handled successfully and acked |
| `SweepRuns.SettledAsSwept` | cmd/worker/sweep.go:106-157 | A finished claim made exactly the calls of the sweep: an ordinary message was handled, then acked or failed as its handler said; a compensation was failed without a fence, and with one looked up first and handled only if its original was delivered; one settlement, last |
| `SweepRuns.UnsettledSoFar` | cmd/worker/sweep.go:106-157 | A claim still in hand has not been settled |
| `SweepRuns.OrdinaryRowIsDelivered` | cmd/worker/sweep.go:106-157 | From every reachable state an open ordinary row can be taken, handled and acked, and is then done |
| `SweepRuns.FailedRowIsOpenAgain` | cmd/worker/sweep.go:139-152 | One whose handler fails is open again |
| `SweepRuns.CompensationIsDelivered` | cmd/worker/sweep.go:108-157 | An open compensating row whose original was delivered can be taken, looked up, handled and acked |
| `SweepRuns.RunsKeepInv` | cmd/worker/sweep.go:90-160 | Every step keeps each claim on the sweep's track and each call backed by what it needs |
| `Sweep.SweepSettlesEachClaim` | cmd/worker/sweep.go:99-159 | A sweep makes exactly one settlement call for each claim of its batches and none for anything else |
| `Sweep.CallsPromise` | cmd/worker/sweep.go:106-157 | What the calls for one message look like: an ordinary one is handled and acked or failed as the handler says; a compensation is failed at once exactly without a fence, and with one looked up first, then handled, deferred or failed by the answer; one settlement, last, and every answer is the port's own |
| `Sweep.SweepOnce` | cmd/worker/sweep.go:90-160 | The calls of a sweep, and whether any tenant had work |
| `Sweep.ProcessBatch` | cmd/worker/sweep.go:106-157 | The calls of a batch |
| `Sweep.Process` | cmd/worker/sweep.go:106-157 | The calls for one message |
| `RepairRuns.EffectAtMostOnce` | cmd/worker/roles.go:550-604 | Over any sequence of calls the effect of a plan runs at most once, whatever fails and whatever digest it leaves, as long as nothing from that effect on leaves the resource at the observed digest |
| `RepairRuns.IdleEffectRunsTwice` | cmd/worker/roles.go:571-590 | A run in which an effect that reports success and changes nothing runs on two calls |
| `RepairRuns.BuiltUnderDualControl` | cmd/worker/roles.go:554-599 | Whatever digests effects leave, every receipt built had a distinct approver bound to the plan's own digest, the observed digest before and the expected one after, and the effect that left it in between |
| `RepairRuns.LostReceiptStaysLost` | cmd/worker/roles.go:561-598 | Once the effect ran, left anything but the observed digest and no receipt was kept, every later call refuses |
| `RepairRuns.ReceiptNeedsEarlyVerification` | cmd/worker/roles.go:589-604 | A receipt is replayed, or built from an effect that left the expected digest and a current observation no later than the clock read before it |
| `RepairRuns.EffectNeedsFreshObservation` | cmd/worker/roles.go:550-590 | A call that changes anything ran the effect first, on a resource currently seen as the plan observed it, under an approval given by then, with no receipt on file |
| `RepairRuns.RepairGoesThrough` | cmd/worker/roles.go:550-600 | A valid, approved plan whose ports answer in time and whose effect leaves the expected digest gets its receipt, which is kept and replayed |
| `RepairRuns.ReplayNamesItsOwnPlan` | cmd/worker/roles.go:561-567 | After any calls, a receipt answered names this plan exactly when no receipt of another plan was kept earlier under the same id and key |
| `RepairRuns.ReceiptsAreStoredOnce` | cmd/worker/roles.go:561-598 | What the store holds under an id and key is the one receipt ever kept there |
| `RepairRuns.ReplayForAnotherPlan` | cmd/worker/roles.go:561-567 | A run in which a second drift, diagnosed under the first one's key, is answered with the first receipt and left as it is |
| `Repair.NewPlanIsValid` | cmd/worker/roles.go:463-489 | A plan is made exactly from a complete observation of drift that has not expired, carries its tenant, resource and digests, the requester, key and time, and is valid from then on |
| `Repair.PlanIdsTellTenants` | cmd/worker/roles.go:474 | Plans of different tenants, printed at one length without spaces, have different ids |
| `Repair.PlanIdsOfOneTenant` | cmd/worker/roles.go:474 | Within a tenant two ids agree exactly when resource and key read the same with spaces as underscores |
| `Repair.SharedPlanId` | cmd/worker/roles.go:474 | Two resources that share an id under any key |
| `Repair.Ports.ExecuteRepair` | cmd/worker/roles.go:550-600 | The new state of resources and receipts and the answer, for every failure of a port and every digest an effect leaves |

## Left out

- SQL, HTTP, providers, SHA-256 and JSON: stores, ports and injective symbols stand for them; invalid UTF-8, which JSON would replace, and the difference between a missing and an empty list in JSON are not modelled.
- Integer widths: revision numbers, sequence numbers and counters are unbounded; only Atoi and ParseUint have their limits.
- Unicode upper-casing of risk classes: only ASCII letters are folded.
- Keys joined with a NUL byte: pairs stand for them, so a NUL inside a part is not modelled.
- Aliasing with callers: slices that a caller keeps after handing them in or getting them back are not modelled; the one aliasing that matters inside, in SetTier, is.
- Timeline.At: takes an offset into the working time instead of a float fraction of it, because rounding is not the point.
- ConsoleService.Console: one console over its store, with restarts; two consoles caching the same tenant at once are not modelled.
- PersonaReading.ResolvePersonaTrace: which of several errors is reported when more than one identity field is at fault is not modelled, because the map order decides it.
- Relink.Hub.RelinkOne: store calls are taken to succeed, and review, roles of shares and backdating of versions are left out, because none of them decides what is written.
- SweepRuns.CompensationComesAfter: takes it as given that a delivered row is never reopened and that a lookup answers from the rows.
- RepairRuns.EffectAtMostOnce: calls follow one another; drift happens between calls, not inside one, and that a repair eventually succeeds is not claimed.
- Linker.Links.Store: reads its clock once for the purge of expired entries, where the source reads it for each entry.
- CapabilityActivity, AuthorizeWorkerRole, Diagnose and the role matrix: single checks beside the repair protocol.
- Folders, stars, corpora, assets, reactions and media of the seeds: data and rendering.
- Page projections, the user's access page and the agent-connection registry: shallow next to the console.
- Command wiring, flags, telemetry spans and logging.
