# Conduit API: protocols and text algorithms, in Dafny

A model of the stateful protocols and the exact algorithms of the Conduit NestJS API, with proofs about them.

| files | part of the system |
|---|---|
| `RefreshTokens`, `TokenRotation`, `TokenTheorems`, `TokenCollapse`, `TokenEffects`, `TokenService` | refresh-token rotation |
| `ProviderLinks`, `LinkProtocol`, `LinkSteps`, `LinkTheorems`, `LinkAlone`, `LinkEffects`, `LinkService` | provider sign-in, pending links and their confirmation |
| `LinkShadow`, `LinkCleanup`, `LinkAnswers`, `LinkPunctual`, `LinkCooldown`, `LinkExamples` | what the daily cleanup of pending links changes, and what interleaving does to the cooldown |
| `Avatars`, `AvatarEffects`, `AvatarService` | avatar replacement over an object store and a row-locked column |
| `Slugs`, `SlugAllocator` | the slug normal form and the search for a free slug under concurrent writers |
| `Pagination`, `HtmlEscape`, `ContentPreview`, `Usernames` | page arithmetic, HTML escaping, word counting, generated user names |
| `Options`, `Cardinality`, `Decimals`, `Rounding`, `TextRuns` | shared definitions |

The three protocols have the same shape. A `datatype State` holds the tables, the clock, and for every call in
flight the point between two awaits at which it stands, with the locals it still needs. `Enabled` and `Apply` give
the steps: one database statement or committed transaction, one call to the object store or the queue, one cleanup,
one tick of the clock, one failure. A `Run` is any sequence of steps, so calls interleave freely and in any number.
An inductive invariant is preserved by every step, and the main results are about all runs from an initial state.

Beside each machine stands a class with the service's own methods and control flow, over repository classes whose
fields are the tables (`TokenService`, `ProviderSignIn`, `AvatarReplacementService`). A ghost field `world` records
the run, `Valid` ties every table to it, and `At(start, p, pc)` says that call `p` stands at `pc` in a world reached
from `start`, the state in which the call began. Before each await the method calls `Interfere`, whose contract promises
only that some run took place that left the own call alone. So each method is proved to answer what some run of its
machine answers, with its effects on the real tables being those of that run, and what is proved of runs holds of it.
A call outside may fail (`Breaks`); with `reliable` none does, and then no run behind a contract contains a failing
step: an answer that stands for an error has another cause, which the contract names.

What the steps do to the tables is also told row by row and in the words of the columns, apart from the functions that
define them (`TokenEffects`, `LinkEffects`, `AvatarEffects`).

Some properties one might expect do not hold of the code. Each has a concrete failing run, and the exact condition
under which it does hold.

- A revocation does not stop a `rotate` that had already read its row: `RevocationMissesReaders` reaches such a state
  from an empty table, and `RotationCanSucceedIff` says exactly which calls can still win.
- The cleanup of pending links is not invisible to calls in flight. `CleanupIsNoticedIffCaught` compares a run that
  has cleanups with the same run without them, step for step: the calls stand alike throughout if and only if no step
  is `Caught`. A `confirm` is caught at its read when a cleanup took its row after it had expired but the
  `now` it had read was before that, and at its look-up when a cleanup took the row before its claim and the account is
  unlinked. A request is caught at its first read when a cleanup took the only row still cooling down for it, at its
  commit when a cleanup took the row in its way, and at its second read when a cleanup took all that matched.
  A caught call is then answered differently: `FirstCaughtIsAnsweredOtherwise` lets either run go on by itself to any
  end in which the call is over, and its two answers agree if and only if the call also lost a race that no cleanup
  before decided (the row it had found was taken, or a row in the way of its own was found on the second read).
  `CaughtIsLate` bounds how late such a call is, `CleanupCatchesConfirm` and `CleanupCatchesRequest` are runs from an
  empty database, and `CleanupIsInvisible` gives conditions on cutoffs and on other calls that rule all of this out.
- The cooldown does not bind two interleaved requests. `ReplacesCoolingIff` says by which commits of other requests an
  issue comes to remove a row too early, and `CooldownMissed` is a run in which it removes a row of age zero.
- The revocation of all sessions is not only for replays. `CommitCollapsesIff` says when a `rotate` turns to it at its
  commit: its row was replaced, or the cron removed it since the read; in `RevokedWithoutReplay` a user loses a live
  session in this way.
- A name with an injected time or random suffix may not be told from others: `DistinctiveIffRoomForBase` says when it
  is, and `InjectedIsNot` gives an input. With `Date.now` and two random bytes it always is (`DefaultIsDistinctive`).

Comments that the code does not bear out: src/auth/providers/verified-identity.interface.ts:18-21 says that linking
clears the password, and no code path does; the model follows the code.
src/users/avatar-replacement.service.ts:69-73 claims that exactly one object is left unreferenced by two concurrent
writers and that it is the right one; `CommitSwapsOwners` and `QuiescentStore` state this for any number of writers.

## Model

| member | source | states |
|---|---|---|
| `RefreshTokens.RefreshTokenRepository.MarkAsUsed` | src/auth/token/refresh-token.repository.ts:40-51 | compare-and-set: the row is marked exactly when it is stored and unreplaced, revoked or not |
| `TokenRotation.ProgressIsLater` | src/auth/token/token.service.ts:66-118 | no step of any call changes a row's identity, undoes a replacement or a revocation, or reuses an id or a hash |
| `TokenRotation.ChainExtended` | src/auth/token/token.service.ts:88-94 | linking a row to its new successor keeps `replacedById` injective, id-increasing, within one user and between stored rows |
| `TokenRotation.ReapKeepsChain` | src/auth/token/refresh-token.repository.ts:70-76 | the cron never leaves a `replacedById` dangling: a successor does not expire before its predecessor |
| `TokenRotation.StepKeepsInv` | src/auth/token/token.service.ts:60-141 | every step of `rotate`, `issueTokens`, `revoke`, the cron, the clock or a failure keeps the whole invariant |
| `TokenTheorems.RunKeepsInv` | src/auth/token/token.service.ts:60-141 | so does every run |
| `TokenTheorems.Head` | src/auth/token/token.service.ts:86-101 | following `replacedById` ends, at an unreplaced row of the same user |
| `TokenTheorems.FamilyIsAPath` | src/auth/token/token.service.ts:86-101 | two rows end at the same head if and only if one leads to the other: a token family is one path and never branches |
| `TokenTheorems.ChainsInEveryRun` | src/auth/token/token.service.ts:86-101 | the chain invariant holds in every reachable state, so the two results above apply there |
| `TokenTheorems.OutcomeIsFinal` | src/auth/token/token.service.ts:66-108 | an answered call is never answered again |
| `TokenTheorems.SingleSuccess` | src/auth/token/token.service.ts:87-107 | in every run each raw token yields a pair from at most one `rotate`; stored heads plus heads the cron removed are exactly the sessions opened |
| `TokenTheorems.AnswerStoresRow` | src/auth/token/token.service.ts:88-100 | an answer with a pair has stored one new row, for that very token, live and at the end of its chain |
| `TokenTheorems.NoAnswerNoRow` | src/auth/token/token.service.ts:66-118 | no other step adds a row |
| `TokenTheorems.FailedRotationAddsNoRow` | src/auth/token/token.service.ts:95-107 | over a whole run, a `rotate` that ends without a pair never added a row |
| `TokenTheorems.LiveBefore` | src/auth/token/token.service.ts:71-82 | a stored token that the read rejects is rejected by every later read |
| `TokenTheorems.CanWinBefore` | src/auth/token/token.service.ts:66-108 | no step of anyone gives a `rotate` in flight a chance it did not have |
| `TokenTheorems.RotationCanSucceedIff` | src/auth/token/token.service.ts:71-101 | a `rotate` in flight can still end with a pair if and only if its token would pass the read, or it has passed it and the row is unreplaced; revocation after the read does not matter |
| `TokenTheorems.LateReaderIsReachable` | src/auth/token/token.service.ts:66-118 | a session opened on an empty table, a `rotate` that has read and checked its row, and a log-out about to revoke it: reachable |
| `TokenTheorems.RevocationMissesReaders` | src/auth/token/token.service.ts:80-101 | from that state the log-out revokes the row and the `rotate` can end with a pair all the same |
| `TokenTheorems.ReplayIsNoticed` | src/auth/token/token.service.ts:75-78 | over a run: a `rotate` that reads a replaced row and answers Unauthorized has revoked the owner of that row in between |
| `TokenTheorems.CollapseNamesTheFamily` | src/auth/token/token.service.ts:95-104 | the user revoked after a lost race owns the replaced row, the winner's successor and the head of the chain |
| `TokenCollapse.CommitCollapsesIff` | src/auth/token/token.service.ts:87-104 | at its commit a `rotate` turns to revoke all sessions if and only if the row it had read is replaced by then or was removed by the cron since |
| `TokenCollapse.ReapedBeforeCheckIsRejected` | src/auth/token/token.service.ts:80-82 | in the second case the removal came after the check: before it, the check rejects |
| `TokenCollapse.RevokedWithoutReplay` | src/auth/token/token.service.ts:90-104 | a state reached from an empty table in which a live session is revoked though no token was presented twice |
| `TokenTheorems.CollapseBars` | src/auth/token/token.service.ts:75-105 | right after the revocation no row of that user can be exchanged by a `rotate` still to read |
| `TokenTheorems.BarredForever` | src/auth/token/token.service.ts:71-82 | and that stays so in every later state |
| `TokenTheorems.ReplayCollapse` | src/auth/token/token.service.ts:75-78 | replay collapse: after the revocation that a replay triggers, no token of the user stored by then is ever exchanged by a `rotate` that reads later |
| `TokenEffects.CollapseRevokes` | src/auth/token/refresh-token.repository.ts:60-68 | the revocation stamps the user's unrevoked rows with the time, and changes no other row, column or stamp |
| `TokenEffects.CollapseSparesOthers` | src/auth/token/refresh-token.repository.ts:60-68 | so another user's token that a read would let through still passes after it |
| `TokenEffects.LogoutFinds` | src/auth/token/token.service.ts:110-118 | a log-out goes on exactly with the unrevoked row of its own token |
| `TokenEffects.LogoutRevokes` | src/auth/token/refresh-token.repository.ts:53-58 | and stamps that row alone |
| `TokenEffects.LogoutSparesOthers` | src/auth/token/token.service.ts:110-118 | so every other session that was live stays live |
| `TokenEffects.LogoutNamesItsRow` | src/auth/token/token.service.ts:110-118 | over a run, the row a log-out is about to revoke is never another token's |
| `TokenEffects.CheckAnswers` | src/auth/token/token.service.ts:75-82 | the check revokes exactly for a replaced row, rejects exactly a row not replaced that is revoked or has expired, and passes all others |
| `TokenEffects.ReadRejectsIff` | src/auth/token/token.service.ts:67-73 | the read rejects exactly a token no row carries |
| `TokenEffects.FailureAnswers` | src/auth/token/token.service.ts:102-107 | an error is answered as an error and not as a rejection |
| `TokenEffects.ExchangeStores` | src/auth/token/token.service.ts:88-94 | a won exchange adds the successor, marks the row it replaces and nothing else of it, and leaves all others alone |
| `TokenEffects.OthersChangeNothing` | src/auth/token/token.service.ts:60-118 | no other step of a call changes the table |
| `TokenEffects.CronKeeps` | src/auth/token/refresh-token.repository.ts:70-76 | the cron keeps exactly the rows with `expiresAt` at or after its cutoff, unchanged |
| `TokenEffects.RotateStores` | src/auth/token/token.service.ts:84-107 | over a run: a `rotate` that answers a token has, in one step, marked the row it had read and stored one for the same user, for that token, with the whole lifetime from some moment after the read |
| `TokenEffects.IssueStores` | src/auth/token/token.service.ts:120-141 | over a run: a call that opens a session for a user and answers a token has, in one step, stored one row of that user for that token, with the whole lifetime, and changed no other |
| `TokenServices.TokenService.IssueTokens` | src/auth/token/token.service.ts:60-64 | the method is the machine's `issueTokens` for that user, with every interleaving and failure, and answers a token unless the database fails |
| `TokenServices.TokenService.Mint` | src/auth/token/token.service.ts:120-141 | a fresh token and `now` plus the lifetime, read before the insert |
| `TokenServices.TokenService.Rotate` | src/auth/token/token.service.ts:66-108 | read, check, transaction, and revocation after a lost race: the method answers what the machine's `rotate` of that token answers, and an error only if the database fails |
| `TokenServices.TokenService.Exchange` | src/auth/token/token.service.ts:87-101 | the transaction: the tables change exactly when the compare-and-set succeeds; on a lost race the insert is undone |
| `TokenServices.TokenService.Collapse` | src/auth/token/token.service.ts:102-107 | the revocation never ends in a pair; when it rejects it has stamped the unrevoked rows of that user and left every other row as it was, and when it fails it has changed none |
| `TokenServices.TokenService.Revoke` | src/auth/token/token.service.ts:110-118 | the method is the machine's log-out: read, then revoke the row if it was unrevoked |
| `TokenServices.TokenService.RevokeRow` | src/auth/token/refresh-token.repository.ts:53-58 | stamps the one row, or none if it is gone, and leaves all others as they were |
| `TokenServices.TokenService.CommitOpening` | src/auth/token/token.service.ts:133-138 | stores exactly one row, for the given user, token and expiry |
| `TokenServices.TokenService.RemoveExpiredTokens` | src/auth/token/expired-token-cleanup.service.ts:15-29 | the cron is one step of the machine and touches no call |
| `ProviderLinks.AtMostTwoMatch` | src/auth/account-linking/pending-provider-link.repository.ts:31-41 | under the unique keys at most two rows match the two composite keys of a request |
| `LinkEffects.MatchesIff` | src/auth/account-linking/pending-provider-link.repository.ts:31-41 | a row competes with a request exactly if it is of the same provider and of the same provider account or the same user |
| `LinkEffects.UniqueInEveryRun` | src/generated/prisma/internal/class.ts:23 | in every run no two pending rows share a token, a provider account, or a user and provider |
| `LinkEffects.RowOfRequest` | src/auth/account-linking/provider-link.service.ts:42-53 | a request stores its account, provider account and token, for 900 000 ms from its stamp |
| `LinkEffects.CleanupKeepsUnexpired` | src/auth/account-linking/pending-provider-link.repository.ts:124-135 | the cleanup keeps exactly the rows with `expiresAt` after its cutoff, unchanged |
| `ProviderLinks.PendingProviderLinkRepository.FindExisting` | src/auth/account-linking/pending-provider-link.repository.ts:137-150 | answers a newest matching row, and none only when none matches |
| `ProviderLinks.PendingProviderLinkRepository.ReplaceRows` | src/auth/account-linking/pending-provider-link.repository.ts:28-60 | delete-then-create commits exactly when no other row holds one of the three unique keys, and changes nothing otherwise |
| `ProviderLinks.PendingProviderLinkRepository.FindValid` | src/auth/account-linking/pending-provider-link.repository.ts:79-90 | finds the row of the token if it has not expired at `now` |
| `LinkProtocol.CreateAccountKeeps` | src/auth/account/account-resolver.service.ts:59-73 | the account transaction, stopped by either unique index or not, keeps the invariant and all that is recorded |
| `LinkProtocol.CommitIssueKeeps` | src/auth/account-linking/pending-provider-link.repository.ts:28-69 | the commit of an issue, blocked or not, keeps the unique keys, the invariant and all that is recorded |
| `LinkProtocol.CommitLinkKeeps` | src/auth/account-linking/provider-link.service.ts:153-156 | so does the commit of a confirmation, lost race or not |
| `LinkProtocol.StepKeepsInv` | src/auth/account-linking/provider-link.service.ts:39-171 | every step of any `resolve`, `requestLink` or `confirm`, registration, cleanup, tick or failure keeps the invariant and every recorded user, link and answer |
| `LinkTheorems.RunKeepsInv` | src/auth/account/account-resolver.service.ts:19-73 | so does every run |
| `LinkTheorems.ConfirmOutcomesHold` | src/auth/account-linking/provider-link.service.ts:112-170 | `confirmed` and `already-confirmed` mean the provider account is linked to the pending row's user, Conflict that it is linked to another, then and in every later state |
| `LinkTheorems.ConfirmedOnce` | src/auth/account-linking/provider-link.service.ts:153-155 | at most one `confirm` answers `confirmed` for a provider account in any run |
| `LinkEffects.FindsIff` | src/auth/account-linking/pending-provider-link.repository.ts:79-90 | `confirm` finds a row exactly if one carries the token and expires after its stamp |
| `LinkEffects.ClaimsIff` | src/auth/account-linking/pending-provider-link.repository.ts:107-122 | the claim takes it exactly if it is still there |
| `LinkEffects.LooksUp` | src/auth/account-linking/provider-link.service.ts:133-151 | what the look-up answers and leaves, for an unlinked key, the same user and another user |
| `LinkEffects.ConfirmIsOfItsToken` | src/auth/account-linking/provider-link.service.ts:95-171 | over a run, every answer of `confirm` is about an unexpired row of its own token |
| `LinkEffects.ConfirmFailsOnlyByFailure` | src/auth/account-linking/provider-link.service.ts:157-170 | where no external call fails, `confirm` does not end in an error |
| `LinkTheorems.ConfirmChangesOnlyOnSuccess` | src/auth/account-linking/provider-link.service.ts:112-170 | a step of `confirm` changes a table only with the answer: `confirmed` trades the row for the link, `already-confirmed` from the transaction removes the row it claimed; after a lost race, a conflict or an error the row stays |
| `LinkTheorems.FailedConfirmChangesNothing` | src/auth/account-linking/provider-link.service.ts:112-170 | over a whole run, a `confirm` that throws has changed neither table, the claimed row included |
| `LinkTheorems.LinkProvenance` | src/auth/account/account-resolver.service.ts:19-73 | every link was created with its account, or by confirming an unexpired row requested for that account by an identity whose provider verified the account's e-mail |
| `LinkTheorems.ResolveIsStable` | src/auth/account/account-resolver.service.ts:19-25 | once `resolve` has returned an account for a provider account, every later `resolve` returns the same one |
| `LinkEffects.ResolveAlone` | src/auth/account/account-resolver.service.ts:19-73 | a sign-in that nothing interrupts: a linked provider account gets its account, an unknown e-mail a new one with its link, a known e-mail that is not verified is refused, any other asks to be linked |
| `LinkEffects.ResolveIsOfItsIdentity` | src/auth/account/account-resolver.service.ts:19-57 | over a run, what a sign-in answers and asks is about its own identity, and it is refused as unverified only if it is |
| `LinkEffects.CreatingLoses` | src/auth/account/account-resolver.service.ts:62-72 | a sign-up whose e-mail or provider account was taken meanwhile fails and leaves nothing |
| `LinkEffects.FailedMeansLostKey` | src/auth/account/account-resolver.service.ts:19-73 | where no external call fails, a sign-in ends in an error only after losing such a race, or when what blocked its request is gone at the second read |
| `LinkTheorems.IssueOwnsKeys` | src/auth/account-linking/pending-provider-link.repository.ts:28-60 | after an `issued` commit exactly one row matches either composite key: the new one |
| `LinkEffects.IssueLeavesNoRival` | src/auth/account-linking/pending-provider-link.repository.ts:28-60 | every other row left after the commit is of another provider, or of another provider account and another user |
| `LinkEffects.IssueRemovesOnlyRivals` | src/auth/account-linking/pending-provider-link.repository.ts:31-41 | over a run, the commit removes only rows of its provider that are of its provider account or of its user |
| `LinkTheorems.ReplacedTokenIsDead` | src/auth/account-linking/pending-provider-link.repository.ts:31-41 | the token of every replaced row is carried by no stored row and no call in flight |
| `LinkTheorems.DeadForever` | src/auth/account-linking/pending-provider-link.repository.ts:79-90 | and no run ever brings it back |
| `LinkTheorems.ReplacedTokensAreRefused` | src/auth/account-linking/provider-link.service.ts:114-119 | so a `confirm` that looks such a token up later is refused |
| `LinkTheorems.CompensationIsOwn` | src/auth/account-linking/provider-link.service.ts:78-92 | compensation removes the row its own call created, or nothing |
| `LinkEffects.EnqueueEnds` | src/auth/account-linking/provider-link.service.ts:61-92 | over a run: a request that has stored its row answers with that row's id exactly if its e-mail is queued; otherwise it is unavailable, and its row is gone for good unless the delete failed as well |
| `LinkTheorems.CooldownIff` | src/auth/account-linking/pending-provider-link.repository.ts:19-26 | a request is refused if and only if some matching row, not just the newest, is younger than 60 000 ms |
| `LinkTheorems.IssueAlone` | src/auth/account-linking/pending-provider-link.repository.ts:15-60 | an uninterrupted issue replaces at most two rows, all at least 60 000 ms old, and is not blocked |
| `LinkCooldown.ReplacesCoolingIff` | src/auth/account-linking/pending-provider-link.repository.ts:18-60 | an issue that may be interrupted removes a row still cooling down for it if and only if, between its first read and its delete, another request committed that row, stamped less than 60 000 ms before it, or later |
| `LinkCooldown.PromptReplacesCoolingIff` | src/auth/account-linking/pending-provider-link.repository.ts:18-60 | when every request commits within 60 000 ms of its stamp: if and only if the row was committed after the issue's first read |
| `LinkCooldown.AskedInThePast` | src/auth/account-linking/provider-link.service.ts:42-44 | a request has looked at the clock in the past, in every reachable state, as the last result needs |
| `LinkAlone.ConfirmAlone` | src/auth/account-linking/provider-link.service.ts:95-171 | a `confirm` that nothing interrupts: which answer it gives and what it leaves in the two tables |
| `LinkAlone.IssueAloneRuns` | src/auth/account-linking/provider-link.service.ts:39-57 | a request that nothing interrupts: refused with nothing changed, or its row in the place of all that matched |
| `LinkShadow.MoveInStep` | src/auth/account-linking/pending-provider-link.repository.ts:15-150 | two runs, one with cleanups and one without, stay in step through every step that is not caught: same calls, links, accounts and unexpired rows |
| `LinkShadow.CaughtParts` | src/auth/account-linking/pending-provider-link.repository.ts:15-150 | after a caught step the two runs have answered the call differently, or only one can still answer it |
| `LinkCleanup.CleanupIsNoticedIffCaught` | src/auth/account-linking/expired-provider-link-cleanup.service.ts:16-31 | two interleaved runs step for step, one with cleanups anywhere and one without: all calls stand alike if and only if no step is caught, and then all links, accounts and unexpired rows are the same |
| `LinkAnswers.FirstCaughtIsAnsweredOtherwise` | src/auth/account-linking/expired-provider-link-cleanup.service.ts:16-31 | from the first caught step on, each run going on by itself to any end: the call's two answers are the same, but for which row a cooldown names, if and only if a `confirm` caught at its read looks up in vain in the run without cleanups, or a request caught at its first read finds a row on its second in the run with them; caught at a look-up, a commit or a second read they always differ |
| `LinkAnswers.BadTokenIff` | src/auth/account-linking/provider-link.service.ts:121-151 | a `confirm` that has found its row is told that its token is bad if and only if its claim missed the row and its key is unlinked at its look-up, over every continuation |
| `LinkAnswers.RowLostMeansTaken` | src/auth/account-linking/provider-link.service.ts:121-151 | and then another call, or a cleanup after the row had expired, took the row in between |
| `LinkAnswers.CooldownIffRival` | src/auth/account-linking/pending-provider-link.repository.ts:28-69 | a request past its first read is refused for cooling down if and only if its second read finds a row |
| `LinkAnswers.RivalMeansRace` | src/auth/account-linking/pending-provider-link.repository.ts:28-69 | and it reads a second time only after its commit was blocked by a unique key |
| `LinkAnswers.LostClaimIsFelt` | src/auth/account-linking/provider-link.service.ts:121-151 | a `confirm` caught after its claim is told that its token is bad; without the cleanup it never is, whatever runs from there on |
| `LinkAnswers.LostReadIsFelt` | src/auth/account-linking/provider-link.service.ts:114-119 | so is one caught at its read; without the cleanup it ends, left alone, with `confirmed`, `already-confirmed` or Conflict |
| `LinkCleanup.CaughtIsLate` | src/auth/account-linking/pending-provider-link.repository.ts:79-135 | a `confirm` is caught only if its row expired after the `now` it read and by a cutoff; a request at its first read only more than 14 minutes late, later only by the cleanup of an expired row |
| `LinkPunctual.CleanupIsInvisible` | src/auth/account-linking/expired-provider-link-cleanup.service.ts:16-31 | if no cutoff is after the `now` of a call in flight, requests commit within the lifetime of their rows, and no call takes a row in the way of a request about to read a second time, cleanups change no call, link, account or unexpired row |
| `LinkPunctual.TwinExists` | src/auth/account-linking/expired-provider-link-cleanup.service.ts:16-31 | every such run has a twin without cleanups |
| `LinkExamples.CleanupCatchesConfirm` | src/auth/account-linking/provider-link.service.ts:114-151 | a run from an empty database in which a cleanup between read and claim makes a token bad that would have confirmed |
| `LinkExamples.CleanupCatchesRequest` | src/auth/account-linking/pending-provider-link.repository.ts:18-26 | a run from an empty database in which a cleanup lets a request through that would have been refused |
| `LinkExamples.CooldownMissed` | src/auth/account-linking/pending-provider-link.repository.ts:18-60 | a run from an empty database in which an issue replaces a row of age zero |
| `LinkServices.ProviderSignIn.Resolve` | src/auth/account/account-resolver.service.ts:19-57 | the method answers what the machine's `resolve` of that identity answers, branch by branch; an unavailable request was undone or failed twice, and without failures an error means a lost race on a key |
| `LinkServices.ProviderSignIn.CommitAccount` | src/auth/account/account-resolver.service.ts:62-72 | the transaction: user and link are stored together, exactly when e-mail and provider account are both free |
| `LinkServices.ProviderSignIn.RequestLink` | src/auth/account-linking/provider-link.service.ts:39-93 | issue, enqueue and compensate: when it is unavailable its row, for that identity and account, is gone, or the queue and the delete both failed |
| `LinkServices.ProviderSignIn.Issue` | src/auth/account-linking/pending-provider-link.repository.ts:28-69 | the transaction, then the second read after a unique-key violation |
| `LinkServices.ProviderSignIn.Enqueue` | src/auth/account-linking/provider-link.service.ts:61-92 | answers the row's id, always if nothing fails; or unavailable, and then the row is gone, or the queue and the delete both failed |
| `LinkServices.ProviderSignIn.Confirm` | src/auth/account-linking/provider-link.service.ts:95-171 | the method answers what the machine's `confirm` of that token answers, about a row of that token, and an error only if a call outside fails |
| `LinkServices.ProviderSignIn.LookUp` | src/auth/account-linking/provider-link.service.ts:133-151 | the claim is committed only when the link already belongs to the user, and rolled back otherwise |
| `LinkServices.ProviderSignIn.CommitLink` | src/auth/account-linking/provider-link.service.ts:153-155 | the link and the removal of the row are committed together, or neither |
| `LinkServices.ProviderSignIn.Reread` | src/auth/account-linking/provider-link.service.ts:157-170 | the read after the rollback decides between `already-confirmed` and Conflict |
| `LinkServices.ProviderSignIn.RemoveExpiredLinks` | src/auth/account-linking/expired-provider-link-cleanup.service.ts:16-31 | the cleanup is one step of the machine and touches no call |
| `Avatars.CommitSwapsOwners` | src/users/avatar-replacement.service.ts:69-89 | a commit hands the user's row from the locked image to the new one, and the superseded object, the right one, to the committing call alone |
| `AvatarEffects.CommitWrites` | src/users/users.repository.ts:16-26 | a commit writes one user's image, appends it to that user's history, and leaves all others and the store alone |
| `AvatarEffects.OthersWriteNothing` | src/users/avatar-replacement.service.ts:21-127 | no other step writes an image |
| `AvatarEffects.StoreChanges` | src/users/avatar-replacement.service.ts:35-39 | objects come only by uploads, under fresh keys, and go only by deletes of the key held; failures are logged under it |
| `AvatarEffects.WritingCommits` | src/users/avatar-replacement.service.ts:55-89 | over a run: a call about to write succeeds if and only if it commits, exactly once, its image for its user |
| `AvatarEffects.ReplacingCommits` | src/users/avatar-replacement.service.ts:21-53 | over a run: `replace` succeeds if and only if it commits, exactly once, for its user, an object it uploaded under a key that was fresh |
| `AvatarEffects.SmoothFailureGaveUp` | src/users/avatar-replacement.service.ts:43-48 | where no external call fails, a call fails only because its row stays locked or there is no such user |
| `AvatarEffects.AloneSucceeds` | src/users/avatar-replacement.service.ts:74-89 | left alone with a free row, a call writes its image, removes the superseded object and succeeds |
| `Avatars.StepKeepsInv` | src/users/avatar-replacement.service.ts:21-127 | every step of any `replace` or `clear`, failing or not, keeps the ownership, lock and history invariants |
| `Avatars.Conservation` | src/users/avatar-replacement.service.ts:21-127 | in every run a stored object is one user's image, held by exactly one call, or named in an error entry, and only one of these; no key is deleted twice |
| `Avatars.NoDanglingAvatar` | src/users/avatar-replacement.service.ts:35-50 | in every run each image names an object that is in the store |
| `Avatars.QuiescentStore` | src/users/avatar-replacement.service.ts:69-127 | when all calls have ended, each superseded image had exactly one delete attempt and is gone unless logged, and the store holds only current and logged objects |
| `AvatarServices.AvatarReplacementService.Replace` | src/users/avatar-replacement.service.ts:21-53 | the method is the machine's `replace` for that user; it has committed exactly one fresh object for that user if it succeeds, and nothing if it fails, which without failures outside means a locked or missing row |
| `AvatarServices.AvatarReplacementService.Clear` | src/users/avatar-replacement.service.ts:55-67 | the method is the machine's `clear` for that user; it has committed no image for that user, once, if it succeeds, and nothing if it fails, with the same reasons |
| `AvatarServices.AvatarReplacementService.AtomicUpdateAvatar` | src/users/avatar-replacement.service.ts:74-89 | the transaction leaves the superseded image to the caller after a commit, and the new one after a rollback |
| `AvatarServices.AvatarReplacementService.CommitRow` | src/users/avatar-replacement.service.ts:81-88 | the commit overwrites exactly the image that was read under the lock, or fails for a missing user and changes nothing |
| `AvatarServices.AvatarReplacementService.CleanUp` | src/users/avatar-replacement.service.ts:96-126 | best effort: the call ends as it would have, whether or not the delete fails |
| `Slugs.BaseSlugIsRuns` | src/articles/article-slug.service.ts:62-73 | the base slug is exactly the maximal runs of [a-z0-9] of the folded title joined by hyphens, or the fallback when there are none |
| `Slugs.AlnumIff` | src/articles/article-slug.service.ts:69 | the characters kept, by their codes |
| `Slugs.BaseSlugIsNormal` | src/articles/article-slug.service.ts:62-73 | every base slug is non-empty groups of [a-z0-9] joined by single hyphens |
| `Slugs.BaseSlugOfNormal` | src/articles/article-slug.service.ts:62-73 | a slug in that form is its own base slug |
| `Slugs.BaseSlugIdempotent` | src/articles/article-slug.service.ts:62-73 | so `toBaseSlug` is idempotent |
| `Slugs.SuffixedIsNormal` | src/articles/article-slug.service.ts:54-59 | appending `-n` stays in the normal form |
| `Slugs.SuffixedInjective` | src/articles/article-slug.service.ts:54-59 | different numbers give different slugs |
| `SlugAllocator.TakenMeansCommit` | src/articles/article-slug.service.ts:23-33 | a slug that was free and no longer is was taken by a commit in between |
| `SlugAllocator.SlugConflictIff` | src/articles/article-slug.service.ts:75-87 | a conflict is recognised exactly for a unique-constraint violation P2002 that names `slug`, in a list of columns or anywhere in an index name |
| `SlugAllocator.ArticlesRepository.Create` | src/articles/articles.repository.ts:129-145 | uniqueness of slugs is kept; a taken slug is refused with P2002 on `slug`, and a free one is stored, unless something else fails |
| `SlugAllocator.ArticlesRepository.Update` | src/articles/articles.repository.ts:147-168 | the same for renaming, where the own slug is no conflict; a missing article is refused as such |
| `SlugAllocator.ProposedIsFree` | src/articles/articles.repository.ts:84-98 | the slug chosen from the fetched ones differs from every other article's in the whole table |
| `SlugAllocator.FirstFreeIsUnique` | src/articles/article-slug.service.ts:50-59 | what the search answers is determined by the fetched slugs |
| `SlugAllocator.FirstTwo` | src/articles/article-slug.service.ts:50-59 | a free base is taken as it is, and `base-2` if the base is taken and that is free |
| `SlugAllocator.RenamingIgnoresOwnSlug` | src/articles/articles.repository.ts:88-98 | the search for a rename answers as if the article were not there |
| `SlugAllocator.SameTitleKeepsSlug` | src/articles/article-slug.service.ts:41-52 | so an article whose slug is its title's base keeps it |
| `SlugAllocator.TriedCount` | src/articles/article-slug.service.ts:54-57 | the numbered slugs passed over are pairwise different and different from the base: the pigeonhole behind termination |
| `SlugAllocator.LeastFreeSuffix` | src/articles/article-slug.service.ts:54-59 | the loop ends at the least n of at least 2 with `base-n` free, and n is at most the number of fetched slugs plus one |
| `Decimals.DecimalValue` | src/articles/article-slug.service.ts:59 | the number in a slug is written in decimal, without leading zeros |
| `SlugAllocator.ArticleSlugService.CreateCandidate` | src/articles/article-slug.service.ts:41-60 | the base if free, else the base with the least free number; free in the whole table and in normal form |
| `SlugAllocator.ArticleSlugService.Attempt` | src/articles/article-slug.service.ts:23-33 | one read-to-write window: a conflict means someone else committed the very slug inside it; an error leaves the table as others made it |
| `SlugAllocator.ArticleSlugService.Execute` | src/articles/article-slug.service.ts:17-39 | at most three writes, at most one of which takes effect, on the right article, with the slug the search gave; P2002 on `slug` is never passed on; Conflict means three lost windows; without failures the only other error is a missing article |
| `SlugAllocator.ConflictMeansThreeCommits` | src/articles/article-slug.service.ts:22-38 | Conflict implies three distinct interfering commits in three disjoint windows |
| `Pagination.PagesPartition` | src/prisma/prisma.extension.ts:25-44 | pages 1 to `last_page` concatenate to the list, every row once and in order |
| `Pagination.PagesArePrefix` | src/prisma/prisma.extension.ts:65-74 | the first n pages are the first n times `limit` rows |
| `Pagination.PageSizes` | src/prisma/prisma.extension.ts:29-44 | pages before the last are full, the last is not empty, those beyond are empty, and `has_next_page` says whether the next one has rows |
| `Pagination.PageAt` | src/prisma/prisma.extension.ts:65-74 | row k of page n is row (n - 1) * limit + k of the list |
| `Pagination.MetaOfPage` | src/prisma/prisma.extension.ts:34-43 | `total` is the number of rows on all pages together, `page` and `limit` are those asked for, and `has_prev_page` says whether rows were skipped |
| `HtmlEscape.EscapeIsOnePass` | src/email/provider-link-email-template.service.ts:11-18 | the five replacements in sequence are one simultaneous substitution |
| `HtmlEscape.EscapedIsInert` | src/email/provider-link-email-template.service.ts:11-18 | no raw `<`, `>`, `"` or `'` is left and every `&` starts one of the five references |
| `HtmlEscape.DecodeEscape` | src/email/provider-link-email-template.service.ts:11-18 | decoding the references gives the original string back |
| `ContentPreview.RefusedIffBlank` | src/content-preview/content-preview-analyzer.service.ts:13-18 | a body is refused if and only if it has no character but white space |
| `ContentPreview.SpaceIff` | src/content-preview/content-preview-analyzer.service.ts:20 | the characters of `\s`, one by one |
| `ContentPreview.WordsOfBody` | src/content-preview/content-preview-analyzer.service.ts:20-21 | the pipeline's parts are exactly the maximal non-space runs of the body, and the count is the number of places where such a run begins |
| `ContentPreview.AnalysisOfNormalized` | src/content-preview/content-preview-analyzer.service.ts:20-28 | normalisation is idempotent and does not change the preview |
| `ContentPreview.ExcerptAndTime` | src/content-preview/content-preview-analyzer.service.ts:23-27 | the excerpt is a prefix of at most 160 UTF-16 units, whole if shorter; the reading time r is at least 1 and the least with words <= 200 r |
| `Usernames.BaseUsernameFromEmail` | src/auth/account/username-generator.ts:12-29 | 3 to 30 characters of [a-z0-9._-], for every e-mail |
| `Usernames.GeneratedIsValid` | src/auth/account/username-generator.ts:34-52 | so is every generated name, cut only when base and suffix are too long together |
| `Usernames.TagAndDomainIgnored` | src/auth/account/username-generator.ts:13-16 | neither the domain nor a tag after `+` changes the base |
| `Usernames.AllowedLocalPartIsKept` | src/auth/account/username-generator.ts:15-28 | a local part of allowed characters once lower-cased is its own base, in small: cut to 30 characters, and prefixed with `user` when shorter than 3 |
| `Usernames.BaseOfLocal` | src/auth/account/username-generator.ts:14-28 | the base is the local part lower-cased, then cleaned, then bounded |
| `Usernames.CleanAppend` | src/auth/account/username-generator.ts:17 | cleaning goes character by character and keeps the order |
| `Usernames.CleanOne` | src/auth/account/username-generator.ts:17 | and keeps a character exactly if it is allowed |
| `Usernames.AllowedIff` | src/auth/account/username-generator.ts:4 | the allowed characters, by their codes |
| `Usernames.DisallowedIsDropped` | src/auth/account/username-generator.ts:14-18 | inserting a disallowed character anywhere in the local part changes nothing |
| `Usernames.GeneratedKeepsBase` | src/auth/account/username-generator.ts:40-51 | a name is the head of the base that leaves room for `_time_random`, and that; if it does not fit alone, its first 30 characters |
| `Usernames.RecoverGenerated` | src/auth/account/username-generator.ts:40-51 | when the suffix fits in 30 characters, reading the name from the right gives back its time and random part |
| `Usernames.DistinctPairsDistinctNames` | src/auth/account/username-generator.ts:34-52 | so different pairs that fit give different names, whatever the e-mails |
| `Usernames.DefaultIsDistinctive` | src/auth/account/username-generator.ts:34-56 | with `Date.now` and two random bytes no other time and suffix, of any length, ever give the same name, whatever the e-mails |
| `Usernames.DistinctiveIffRoomForBase` | src/auth/account/username-generator.ts:43-51 | with any time and suffix this holds if and only if they leave room for a character of the base |
| `Usernames.InjectedIsNot` | src/auth/account/username-generator.ts:34-52 | an injected random suffix of 28 digits for which it does not |

## Left out

- HTTP controllers, guards, validation of requests, JWT signing, Swagger, translations, logging beyond the keys named in error entries, and the retries of the e-mail worker.
- SHA-256 is taken to be injective and a raw token is identified with its hash; the 32 random bytes, UUID keys and row ids are fresh values drawn from counters. The check for an empty raw token in `confirm` is therefore not modelled.
- The lifetime of refresh tokens is any constant; reading it from the configuration is not modelled.
- PostgreSQL is taken to run each statement atomically and to undo a transaction that throws. Row locks on the pending-link and token tables are not modelled, which allows more interleavings than the database does; the lock on the user row is, since the avatar protocol rests on it.
- In the token protocol a transaction is one step at its commit; its insert and its compare-and-set are not visible before.
- A commit whose acknowledgement is lost is not modelled, for tokens, links or avatars; for an avatar it would make the clean-up delete an object that is referenced.
- A clash of generated user names is one of the database errors any call may end with; it has no table of its own. Users are not deleted, and in the avatar protocol they are not created either. Profile fields other than `image` are not modelled.
- The text fields of identities are values of an abstract type with equality.
- The cleanup of refresh tokens is not invisible, since it forgets that a token was replaced.
- A Conflict, or an `already-confirmed` reached through the second read, leaves the pending row in place, as `LinkTheorems.ConfirmChangesOnlyOnSuccess` states.
- Trimming, lower-casing and the removal of accents in `toBaseSlug` are one function, known only to leave [a-z0-9-] alone; lower-casing in user names is any function.
- Strings are sequences of UTF-16 units in the preview, where length counts, and of characters elsewhere, where all characters that matter are of one unit.
- The articles repository knows slugs only, and its errors are a slug conflict, a missing row, a tag created meanwhile, and anything else.
- Pagination is over a fixed list; that the count and the rows are two reads is not modelled.
- `render`, which puts the token into a URL, and the e-mail template around it.
- Favorites, follows, comments, tags, article lists and filters, configuration, image checks and storage drivers: each is settled by reading one branch.
