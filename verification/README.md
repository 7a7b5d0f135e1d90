# A verified model of the auth server

The server signs users up, logs them in (password, second factor, OAuth/OIDC callback, account linking,
invites), keeps their sessions in memory, limits the rate of requests, searches the members of an
organisation and writes text log lines. This project models the parts whose correctness spans many inputs,
many steps or many threads, and proves what they promise.

`dafny verify dfyconfig.toml` checks all of it.

| module | what it models |
|---|---|
| `RateLimiter` | the token buckets, as an in-place class over a ghost call history, and every run of calls on one key or many |
| `Sessions`, `SessionStore` | the session record; the session map as an object, and its readers, writers and sweeper as interleaved threads |
| `Repo`, `Pending` | the tables behind the handlers and the statements on them; the map of identities waiting to be linked |
| `AuthMachine` | signup, login, callback, link, invite and accept as interleaved requests, one atomic step per repository call, any call of which may fail with or without its effect |
| `AuthInvariants`, `AuthSteps`, `AuthFootprints`, `AuthFlow`, `AuthRuns` | what every step keeps, what it can touch, when it refuses and where it goes on to; runs taken apart and put together |
| `AuthTheorems`, `AuthOutcomes` | what holds over whole runs, of the stored state and of requests that were answered well |
| `AuthGates`, `AuthResults` | the checks a successful request passed, and in which state; what follows for signups, links and second factors |
| `AuthTenants`, `AuthOrigins`, `AuthAccepts`, `AuthCourses` | who is in an organisation and when it keeps an Owner; where links and tokens come from; which requests are answered well, exactly; what a callback and a session come to |
| `AuthOverlap`, `AuthReach` | runs that do happen: overlapping accepts and links, organisations without an Owner, logins without a code |
| `Search`, `SearchJson`, `Ilike` | the `SearchOrgUsers` query operator by operator, what a client's payload gets from it, and the pattern matcher it uses |
| `Phc`, `PhcExact`, `Base64`, `Slug`, `Text` | PHC strings, exactly what their parser accepts, password checks, base64, the slug expression, the string operations the handlers rely on |
| `LogLine` | log lines: quoting, merge and order of the attributes, the handler, and a parser that undoes the line |
| `Options`, `Clock` | the option type; instants and durations |

## What a run is

A run starts from tables that obey the schema, with normalised addresses and no invite for an Owner, and with
nothing in flight. It is any sequence of enabled actions: requests that start, single calls of requests in
flight, the clock moving on, sessions dropped by logout or cleaning, passwords and second factors set up.
Theorems about runs hold for every number of requests and every interleaving. Identifiers and tokens are drawn fresh; which row a query with a tie picks, what a password or
a second factor is worth, and which calls fail come from outside and are arbitrary.

## Where the code is not what one may expect

* `docs/invites.md:21` says that accepting an invite requires a logged-in user with the invited address. The
  handler and its route require none; the model follows the code.
* `docs/auth_flow.md:85` says that a user with a second factor gets in with a code only. `UserHasTOTP` answers
  "no" on any database error, so a failed lookup lets an enrolled user in without one, by a login or by linking:
  `AuthReach.FailedLookupSkipsTheCode`, `AuthReach.FailedLookupLinksWithoutCode`. A code was accepted exactly in
  those successful requests in which the lookup did not fail: `AuthResults.CodeAcceptedIff`.
* An invite is not used at most once. `UseInvite` does not look at the number of rows it changed, so two
  accepts that overlap both succeed: `AuthOverlap.OverlappingAcceptsSucceed`, from every state with a live
  invite, and `AuthReach.LiveInviteReached` leads to one. What counts is what the lookup found and the time of
  the check, exactly: `AuthAccepts.AcceptedIff`. So accepts that do not overlap never both succeed:
  `AuthOutcomes.TakenUpOnce`.
* Linking an identity that someone else linked meanwhile is reported as a success:
  `AuthOverlap.OverlappingLinksSucceed`, reached by `AuthReach.ContestReached`. The identity stays with the
  first user: `AuthTheorems.LinksNeverMove`. `AuthResults.LinkIsTheirsIff` says when it is the linker's, and by
  `AuthResults.OneAddressOneOwner` it always is when the provider gave the identity with one address.
* `PickUserOrg` orders by `role DESC` over an enum that is declared with `Owner` first, so it prefers the
  weakest role: `Repo.PickHasWeakestRole`.
* An Owner can lower its own role by taking up an invite to itself, the maker of an organisation included:
  `AuthReach.OwnerlessOrg` ends in an organisation without any Owner. An organisation made by a signup has an
  Owner exactly if the signup got to write it and the maker never took up such an invite:
  `AuthTenants.OwnerIff`. Where that write failed, nobody is ever in it: `AuthTenants.MembersIff`.
* The limiter reads its clock before it takes the lock. The bounds hold anyhow; that a caller who waits long
  enough is admitted does not: `RateLimiter.EarlyReadingStarves`.
* `phcParse` accepts more than `phcEncode` prints: `Phc.ParseAssembled`, `Phc.ParseNotInjective`.
* The first attribute of a log line can pose as its message: `LogLine.TailRecoveredIff`, `LogLine.MessageAmbiguous`.
* A row without a name passes every filter on names: `Search.NullNamePasses`. A value with a backslash can be
  equal to a field and yet be neither its start nor its end: `Ilike.BackslashBreaksEqual`; exactly when is said
  by `Ilike.StartsWithItselfIff` and `Ilike.EndsWithItselfIff`.
* A search with `ew` and a value that ends in an odd number of backslashes can fail: `Search.SearchFailsIff`,
  `Ilike.EndsWithRaisesIff`.

## Model

| member | source | states |
|---|---|---|
| RateLimiter.AdmittedIff | internal/middleware/rate_limiter.go:37-55 | a call is admitted exactly if, from every earlier call on, the admissions so far and this one fit the burst plus the refill since then; no order of the clock readings is assumed |
| RateLimiter.LevelBelowBudgets | internal/middleware/rate_limiter.go:46-53 | the refilled level never exceeds burst plus refill less admissions, counted from any earlier call |
| RateLimiter.LevelIsABudget | internal/middleware/rate_limiter.go:46-53 | the refilled level equals that figure for some earlier call, so it is the least of them |
| RateLimiter.IntervalBound | internal/middleware/rate_limiter.go:38-54 | the admissions with readings in [s, e] number at most capacity + rate * (e - s), however the lock orders the threads |
| RateLimiter.InterleavedBound | internal/middleware/rate_limiter.go:37-55 | the same bound for each key in a run over any keys |
| RateLimiter.KeysAreIndependent | internal/middleware/rate_limiter.go:41-45 | each call of a run over many keys is answered as in the run on its key alone |
| RateLimiter.AdmittedOnIsSolo | internal/middleware/rate_limiter.go:41-45 | the admissions of a key in a run over many keys are those of its solo run |
| RateLimiter.TableIsSolo | internal/middleware/rate_limiter.go:41-53 | the bucket of a key after any run is the one its own calls leave |
| RateLimiter.DeniedCallsAreInvisible | internal/middleware/rate_limiter.go:46-54 | deleting any set of denied calls from a run changes no other answer |
| RateLimiter.TokensInRange | internal/middleware/rate_limiter.go:46-53 | with ordered readings the tokens stay between zero and the capacity |
| RateLimiter.SpacedCallAdmitted | internal/middleware/rate_limiter.go:46-53 | with ordered readings a call 1/rate after the previous one of its key is admitted |
| RateLimiter.EarlyReadingStarves | internal/middleware/rate_limiter.go:38-39 | without the order both of these fail: a concrete run with a negative balance and a spaced call denied |
| RateLimiter.IdleIsMissing | internal/middleware/rate_limiter.go:41-49 | a bucket idle for capacity/rate gives all later calls the levels and answers a missing one would |
| RateLimiter.Configure | internal/middleware/rate_limiter.go:100-108 | the settings are kept where they are positive, and otherwise replaced by one in a million a second and a burst of one |
| RateLimiter.Bucket.Take | internal/middleware/rate_limiter.go:46-54 | the refill, clamp and spending done on the bucket itself |
| RateLimiter.Limiter.Allow | internal/middleware/rate_limiter.go:37-55 | the map of buckets always holds what the whole call history prescribes, and the answer is that of the history |
| SessionStore.ReadsAreLinearizable | internal/session/store.go:35-50 | every read has an instant between its start and its return at which a store that never cleans up answers the same |
| SessionStore.AnswersSpanTheirReads | internal/session/store.go:35-50 | the interval recorded for an answer runs from the step that began that read to the step that returned it |
| SessionStore.CookiesAreCheckedLast | internal/auth/session.go:67-73 | what the reader behind a cookie returns may still be used at the instant it returns, in every interleaving |
| SessionStore.CleaningCleans | internal/session/store.go:42-47 | a sweep leaves only what was usable at its tick; a read that finds its session past its expiry goes on to remove it |
| SessionStore.PastIsSimpleRun | internal/session/store.go:26-32 | the store it is compared with sees the creations and deletions of the run, and nothing else |
| SessionStore.StoreShowsLiveSessions | internal/session/store.go:72-80 | at every instant both stores hold the same sessions that have not expired |
| SessionStore.CleaningIsInvisible | internal/session/store.go:42-47 | removing expired sessions changes no answer now or later |
| SessionStore.NextKeepsInv | internal/session/store.go:35-50 | every step of every thread keeps the relation between the two stores and explains every answer, although the lock is dropped between lookup and deletion |
| SessionStore.Store.Create | internal/session/store.go:26-32 | the session is stored under the new identifier and nothing else changes |
| SessionStore.Store.Get | internal/session/store.go:35-50 | the session stored under the identifier, exactly if it never expires or its expiry is not past; at most the expired session asked for is removed |
| SessionStore.Store.ReadSession | internal/auth/session.go:62-77 | the same at the reader's second look at the clock, and nothing for an empty cookie |
| SessionStore.Store.Delete | internal/session/store.go:53-57 | exactly the one session is removed |
| SessionStore.Store.Sweep | internal/session/store.go:72-80 | exactly the sessions that never expire or whose expiry is not past at the tick are kept, unchanged |
| SessionStore.Store.List | internal/session/store.go:93-101 | every stored session is listed once, and nothing else |
| AuthSteps.NextKeepsInv | internal/auth/local.go:82-109 | every step of every request, any outcome of its call, keeps the invariants of tables, sessions and requests, and only adds rows |
| AuthTheorems.SchemaHolds | database/schema/001_base.up.sql:3-39 | in every reachable state no address, no slug and no user's credential is there twice, and every reference has its row |
| AuthTheorems.SessionsNameMembers | internal/auth/local.go:96-107 | in every reachable state each session names an existing user, an existing organisation and a membership joining them |
| AuthTheorems.LinksNeverMove | database/queries/identites.sql:1-5 | a linked identity keeps its user, and that user its address, in every continuation |
| AuthOrigins.LinkHasHistory | internal/auth/linking.go:141-163 | each identity linked in a run has its history there: a callback with its claim, the step of that callback that handed out a token, a request made with that token, and the step of that request that wrote the link; it belongs to a user who holds the normalised address of that claim |
| AuthOrigins.TokenWasHandedOut | internal/auth/handlers.go:103-112 | every token was handed out by a callback of the run, for the claim that callback had |
| AuthOrigins.RequestWasMade | internal/auth/handlers.go:59-180 | every request in flight works on what an action of the run asked for |
| AuthTheorems.CallbackWritesNoTable | internal/auth/handlers.go:145-172 | a callback never reaches the branch that grants a membership and changes no table |
| AuthTheorems.SignupOrgHasOneOwner | internal/auth/local.go:93-102 | an organisation made by a signup has a slug of the documented form and never an Owner but the user who signed up |
| AuthTheorems.InvitesNeverOwner | internal/auth/invite.go:38-55 | no stored invite carries the Owner role |
| AuthMachine.GrantedIff | internal/auth/invite.go:38-55 | the role granted is the one named, in any case of letters, or Member for a blank, and never Owner |
| AuthTheorems.MembersWereInvited | internal/auth/invite.go:122-126 | whoever is in an organisation made by a signup is its maker as Owner, or holds exactly the role of an invite its maker sent to that user's address |
| AuthTheorems.SessionsStayInTenant | internal/auth/invite.go:134-139 | each session in such an organisation is its maker's or that of someone its maker invited |
| AuthTheorems.AcceptWritesTheInvite | internal/auth/invite.go:109-126 | the only membership an accept writes joins the invited organisation to the one user who holds the invited address, in the role of the stored invite |
| AuthTheorems.UsedOnceForAll | internal/repo/orgs.go:214-221 | the instant an invite was used at never changes once it is set |
| AuthTheorems.DeadInviteIsRefused | internal/auth/invite.go:100-108 | an accept that has not looked yet when the invite is used or expired is refused in every continuation |
| AuthAccepts.AcceptedIff | internal/auth/invite.go:97-140 | an answered accept none of whose own calls failed was answered well exactly if its lookup found the invite unused and its check found it in time, whatever became of the invite in between or after |
| AuthOutcomes.SuccessMeansDone | internal/auth/handlers.go:96-180 | a request answered well has brought about what its inputs ask for, and that still stands at the end of every continuation |
| AuthOutcomes.SignupSucceeded | internal/auth/local.go:47-109 | after a successful signup the one user with its address has its login name and is in an organisation of its own with its slug |
| AuthOutcomes.TakenUpOnce | internal/auth/invite.go:105-131 | once one accept was answered well, every accept that starts later is refused |
| AuthOutcomes.SignupEnds | internal/auth/local.go:103-108 | a signup ends well only by opening one session, of eight hours, for the user and the organisation it made |
| AuthOutcomes.LoginEnds | internal/auth/local.go:178-190 | a login ends well only by opening a session for the owner of the login name in an organisation of that user |
| AuthOutcomes.CallbackEnds | internal/auth/handlers.go:96-180 | a callback ends well with a session for the user its identity is linked to, or with a token for its claim when a user holds the address, and no session then; which of the two is said by `AuthCourses.CallbackIff` |
| AuthCourses.CallbackIff | internal/auth/handlers.go:102-180 | over every run: if the callback's own lookup finds the identity linked, it is answered well exactly if that user has an organisation to be picked, a session is opened then for that user only, and no token is ever handed out; otherwise it is answered well exactly if some user holds the address, a token is handed out then, and no session is opened |
| AuthCourses.SucceededIff | internal/auth/local.go:47-109 | over every run an answered request of any kind is answered well exactly if its body was not turned down and none of its own steps met what that step refuses, each refusal being spelled out on the tables |
| AuthFlow.StepFlows | internal/auth/linking.go:118-193 | each step of each handler refuses exactly as spelled out, and otherwise goes on to the step that is due |
| AuthCourses.LinkedElsewhere | internal/auth/linking.go:150-157 | a request to link, made when the identity was someone else's, is answered well only if its own lookup of the identity failed |
| AuthCourses.TokenLinksOnce | internal/auth/linking.go:170-171 | a request to link that starts after a successful one with the same token is refused |
| AuthCourses.SessionLives | internal/auth/local.go:103-108 | every session there is was opened by a step of the run, with an expiry of 28800 seconds after it, and is good until then to the second and not after |
| AuthCourses.SignupsIgnoreCase | internal/auth/local.go:47-57 | two signups whose addresses, or whose slugs, differ in the case of letters only are never both answered well |
| AuthCourses.InvitedUserMade | internal/auth/invite.go:114-120 | an accept that makes a user gives it the invited address and no name |
| AuthOutcomes.LinkEnds | internal/auth/linking.go:183-193 | linking ends well only by opening a session for the owner of the login name, who holds the address the token was handed out for |
| AuthOutcomes.AcceptEnds | internal/auth/invite.go:127-140 | an accept ends well only by opening a session in the invited organisation for the holder of the invited address, the invite being marked used |
| AuthGates.NoSuccessWithoutChecks | internal/auth/local.go:75-101 | each request that was answered well passed every check on its way, in a state and with a result that let it through, and as the request it was made as: a password that was verified, the check of the second factor, the Owner role behind an invite, a login name and a slug that were free, the write of a link, an invite found unused and in time, an identity found linked to nobody else, a token that is kept and in time, an organisation to be picked |
| AuthGates.GateWasPassed | internal/auth/linking.go:118-160 | the same from any state in order: a request that ends well passed each check that was ahead of it |
| AuthResults.CodeAcceptedIff | internal/auth/linking.go:129-139 | of the logins and requests to link of an enrolled user that were answered well, exactly those had a code accepted for the stored secret whose question for a second factor did not fail |
| AuthResults.SignupsNeverShare | internal/auth/local.go:77-97 | of any number of signups for one slug, for one address or for one login name, however they overlap, at most one is answered well |
| AuthResults.LinkIsTheirsIff | internal/auth/linking.go:150-163 | who was told that they linked an identity owns it exactly if it was linked to nobody else at the instant of the write |
| AuthResults.OneAddressOneOwner | internal/auth/linking.go:141-163 | who was told so owns it whenever the identity was not linked before the run and its provider gave it with one address throughout |
| AuthReach.FailedLookupSkipsTheCode | internal/repo/auth.go:46-54 | from every reachable state a user with a password and an organisation can log in without any code being accepted, by one failed lookup |
| AuthReach.FailedLookupLinksWithoutCode | internal/auth/linking.go:129-163 | the same for linking an identity that waits under a token for this user's address |
| AuthReach.LiveInviteReached | internal/auth/invite.go:56-71 | every reachable state leads on to one with a live invite |
| AuthReach.OwnerlessOrg | internal/auth/invite.go:122-126 | every reachable state leads on to one in which an organisation made by a signup has its maker as a member and no Owner at all |
| AuthTenants.OwnerIff | internal/auth/invite.go:122-126 | in every reachable state an organisation made by a signup has an Owner exactly if the signup wrote its Owner and its maker was never joined to it by an invite |
| AuthTenants.MembersIff | internal/auth/local.go:93-102 | such an organisation has members exactly if the signup wrote its Owner |
| AuthTenants.NextKeepsTenants | internal/auth/local.go:93-102 | every step keeps: an organisation whose Owner is still to be written has no members, no invites and one signup at work on it; where there is a member or an invite, the maker is a member |
| AuthReach.ContestReached | internal/auth/linking.go:150-163 | every reachable state leads on to one in which two users were both told that they linked an identity that belongs to one of them |
| AuthReach.FirstSignups | internal/auth/local.go:47-64 | there are runs to start from, with addresses and slugs to claim |
| Repo.PickIff | database/queries/memberships.sql:18-24 | the organisation picked is, exactly, one of the user's in which the role is the lowest, and the oldest of those |
| Repo.MembersHavePick | database/queries/memberships.sql:18-24 | whoever is a member of some organisation has one that is picked |
| AuthOverlap.OverlappingAcceptsSucceed | internal/repo/orgs.go:214-221 | from every state with a live invite two overlapping accepts can both be answered well |
| AuthOverlap.OverlappingLinksSucceed | internal/auth/linking.go:150-163 | two different users to whom one identity was attributed in turn can both be told that they linked it; it belongs to the first and not to the second |
| Repo.UserByEmail | database/queries/users.sql:11-12 | the user found holds the address, and none is missed |
| Repo.UpsertKeepsEmailsUnique | database/queries/users.sql:1-6 | the user returned holds the address, no address changes and none is held twice |
| Repo.Database.FindByEmail | database/queries/users.sql:11-12 | a scan of the table finds the user the lookup specifies |
| Repo.Database.Upsert | database/queries/users.sql:1-6 | the user returned holds the address, new or not; a name is filled in and never replaced; nothing else changes and the schema holds |
| Repo.Database.InsertCredential | internal/repo/auth.go:17-24 | refused exactly when the user or the name has a credential or the user is missing; afterwards the name finds the user, nothing else changes and the schema holds |
| Repo.Database.InsertOrg | internal/repo/orgs.go:63-80 | refused exactly when some organisation has the slug; nothing else changes and the schema holds |
| Repo.Database.UpsertMembership | database/queries/memberships.sql:1-6 | whatever the role was, it is the given one now; refused exactly when a row is missing; no other membership changes and the schema holds |
| Repo.Database.InsertIdentity | database/queries/identites.sql:1-5 | an identity that finds a user still finds that user, and the call succeeds whoever it was meant for; one that finds nobody finds the given user, who must exist; no other identity changes |
| Repo.Database.InsertInvite | internal/repo/orgs.go:182-190 | refused exactly when the hash is taken or a row is missing; no other invite changes and the schema holds |
| Repo.Database.MarkUsed | internal/repo/orgs.go:214-221 | the first use is the one that is kept; no other column and no other row changes, none appears, and a missing row raises nothing |
| Repo.Database.UpsertTotp | internal/repo/auth.go:56-64 | the user is enrolled with the new secret from then on; nobody else's enrolment changes |
| Pending.PendingMap.PutPending | internal/auth/linking.go:30-40 | the entry is stored with its life, ten minutes if none is given |
| Pending.PendingMap.GetPending | internal/auth/linking.go:42-54 | the entry if it is still alive; a stale one is removed |
| Pending.PendingMap.DelPending | internal/auth/linking.go:56-60 | exactly the one entry is removed |
| Pending.GetAfterPut | internal/auth/linking.go:30-54 | what was put in is given back until its life is over, and not after |
| Search.PipelineIsFilter | database/queries/users.sql:72-141 | lateral join, fan-out, both groupings and HAVING amount to a plain filter that keeps each member once, exactly if every filter group holds; they fail exactly if the filter cannot be evaluated on some member |
| Search.GroupsOfLateral | database/queries/users.sql:108-139 | grouping a lateral join by its key gives back every key once, with its own rows |
| Search.HavingMeaning | database/queries/users.sql:140 | the join fails exactly if some condition does, and HAVING over the left-joined group rows is true exactly if every filter group holds, an empty filter included |
| Search.AggregateMeaning | database/queries/users.sql:86-107 | three-valued aggregation of a group fails exactly if a condition does, and otherwise rejects a row exactly if the group recognises a field, matches nowhere and is not unknown throughout |
| Search.NamedRowsPlain | database/queries/users.sql:86-140 | for a row with a name on which nothing fails: every group has no recognised field or a recognised condition that holds; an empty filter accepts all |
| Search.NullNamePasses | database/queries/users.sql:96-105 | a row without a name passes every filter made of name conditions, and none of them fails on it |
| Search.RowsPlain | database/queries/users.sql:86-140 | for every row on which nothing fails: each group has no recognised field, or a recognised condition that holds, or asks only for the name of a row that has none |
| Search.TestMeaning | database/queries/users.sql:88-104 | a test that succeeds holds in the plain reading, one that does not succeed does not, and only `ew` with an odd number of backslashes at the end can fail |
| Search.EvenFiltersAreQuiet | database/queries/users.sql:88-104 | a filter in which no `ew` value ends in an odd number of backslashes fails on no row |
| Search.ReadFilter | database/queries/users.sql:108-136 | the filter cannot be read exactly if it, or some alternatives in it, are no array; otherwise every element makes a non-empty group |
| Search.ParamsOf | database/queries/users.sql:64-71 | the page size is between 1 and 100, the page number not negative |
| Search.GroupsOf | database/queries/users.sql:108-136 | one non-empty group of conditions for each filter element, or an error exactly if some alternatives are no array |
| Search.SortDescMeaning | database/queries/users.sql:149 | newest first, every match as often as before |
| Search.PagesConcatenate | database/queries/users.sql:150-151 | the first n pages put together are the first rows of the list |
| Search.SearchMeaning | database/queries/users.sql:58-151 | a query whose numbers can be read and whose filter fails on no member returns the requested page of the ordered matches, each row with the number of all matches |
| Search.MatchesExact | database/queries/users.sql:72-149 | the matches are the members that satisfy the filter, each once, in order, and nobody else |
| Search.SearchIsPlain | database/queries/users.sql:58-151 | the whole query: a page of a list, newest first, that holds each member for which the filter holds in that plain reading once and nobody else, with the length of that list on each row |
| SearchJson.SearchAnswers | database/queries/users.sql:58-151 | what a client gets for a filter array of JSON elements, or none, with fields and operations in any case, scalar values and alternatives: the rows of the page asked for, newest first, of exactly the members whose own address or name passes every element, each row with the number of all of them |
| SearchJson.PageNumbers | database/queries/users.sql:64-71 | the page size is the number in the payload, ten without one, at least one and at most a hundred; the page number is that in the payload, zero without one or below it |
| SearchJson.ElementReflected | database/queries/users.sql:113-136 | an element of the filter array fans out to its own condition and all its alternatives, in their order, with the column its field spells and its operation |
| Search.SearchPagesConcatenate | database/queries/users.sql:142-151 | for such a filter the answers to requests for pages 0, 1, 2, ... put together lose and repeat no match, and all carry the same full count |
| Search.SearchFailsIff | database/queries/users.sql:64-136 | the query fails exactly on a bad number, on an offset beyond int4, or, as soon as there is a member, on a filter or alternatives that are no array or a condition that fails on some member |
| Ilike.ContainsMeaning | database/queries/users.sql:91 | for values without wildcards the pattern of cn matches exactly the fields that contain the value, case ignored |
| Ilike.StartsWithMeaning | database/queries/users.sql:92 | the pattern of sw: exactly the fields that start with it |
| Ilike.EndsWithMeaning | database/queries/users.sql:93 | the pattern of ew: exactly the fields that end with it |
| Ilike.CaseIsIgnored | database/queries/users.sql:91-93 | exchanging capitals and small letters, in the text or in the pattern, changes no answer |
| Ilike.MatchMeaning | database/queries/users.sql:91-93 | the left-to-right matcher finds a match exactly where the pattern has one, and fails only on patterns that end in a lone backslash |
| Ilike.LoneEscapeIff | database/queries/users.sql:93 | a pattern ends in a lone backslash exactly if it ends in an odd number of them |
| Ilike.OnlyEndsWithRaises | database/queries/users.sql:91-93 | the patterns of cn and sw never fail; that of ew only for a value that ends in an odd number of backslashes |
| Ilike.EndsWithRaisesIff | database/queries/users.sql:93 | for a plain text and one backslash after it, ew fails exactly on the fields in which the text is followed by more |
| Ilike.StartOrEndIsContained | database/queries/users.sql:91-93 | what starts or ends with a value contains it, for every value |
| Ilike.EqualIsStartAndEnd | database/queries/users.sql:90-93 | a value without a backslash is the start and the end of itself, wildcards or not, and contained in itself |
| Ilike.StartsWithItselfIff | database/queries/users.sql:90-92 | a value without wildcards is the start of itself exactly if its only backslashes are an even number at the end |
| Ilike.EndsWithItselfIff | database/queries/users.sql:90-93 | and the end of itself exactly if its backslashes all come first, and are not an odd number of them with nothing after |
| Ilike.BackslashBreaksEqual | database/queries/users.sql:90-93 | two values that equal a field and are not its start, or not its end |
| Phc.ParseEncode | internal/auth/local.go:351-382 | parsing what was printed gives back memory, time, threads, salt and key, for all of them |
| Phc.ParseAssembled | internal/auth/local.go:363-382 | printed fields are read back through any text before the first dollar, any version, text after the numbers, and line breaks in the base64 |
| PhcExact.ParseIff | internal/auth/local.go:363-382 | the parser, exactly: a string is accepted with certain fields if and only if it is made of six parts with numerals for numbers that give the fields cut to their width, and base64 that spells salt and key |
| PhcExact.ScanParamsIff | internal/auth/local.go:369-372 | the parameter field is read as three numbers exactly if it has a numeral for each, with anything after the last that is no digit |
| PhcExact.ScanIntIff | internal/auth/local.go:370 | a number is read exactly where white space without a line feed, perhaps a sign, and digits within 64 bits stand, up to the first character that is no digit |
| Phc.EncodeInjective | internal/auth/local.go:351-359 | equal strings carry equal fields |
| Phc.ReencodeStable | internal/auth/local.go:351-382 | printing what any accepted string carries and parsing it again changes nothing |
| Phc.ParseNotInjective | internal/auth/local.go:363-382 | every encoding has another string with the same fields |
| Phc.HashFailsIff | internal/auth/local.go:329-332 | hashing reports an error exactly on passwords made of white space only |
| Phc.HashedCarries | internal/auth/local.go:333-338 | for any other password it panics exactly if the key derivation does, and what it returns parses to the parameters, the salt and the derived key |
| Phc.VerifyMeaning | internal/auth/local.go:342-349 | a string that cannot be parsed is never accepted; for any other the derived key decides |
| Phc.VerifyHashedIff | internal/auth/local.go:328-349 | a stored hash accepts exactly the passwords with the same derived key, under the parameters and the key length it was made with |
| Phc.VerifyHashed | internal/auth/local.go:328-349 | the password itself is accepted, and checking it does not panic |
| Base64.DecodeEncode | internal/auth/local.go:356-377 | decoding undoes unpadded encoding, for all byte strings (section 4 of RFC 4648, without the padding as section 3.2 allows) |
| Base64.DecodeCleanEncode | internal/auth/local.go:373-377 | so does decoding the text once line breaks are dropped |
| Base64.DecodeCleanIff | internal/auth/local.go:373-380 | a text without line breaks decodes to certain bytes exactly if it is their encoding, up to bits of the last character that carry nothing |
| Base64.CleanPlain | internal/auth/local.go:373-377 | the two line-break characters are taken out, and only those |
| Base64.EncodeAlphabet | internal/auth/local.go:356-357 | an encoding has no dollar and no line break |
| Slug.SlugMeaning | internal/auth/local.go:114-119 | the expression accepts exactly the strings of 3 to 32 lower-case letters, digits and hyphens without a hyphen at either end |
| Slug.PowerOfClass | internal/auth/local.go:115 | n repetitions of a character class match exactly the strings of n of its characters |
| Text.NormIdempotent | internal/auth/local.go:47-48 | a normalised address, name or slug is trimmed and stays as it is when it is normalised again |
| Text.NormMeaning | internal/auth/local.go:47-48 | a normalised text holds no capital from A to Z; it is the text between the white space at its ends, but for case; texts that differ in the case of letters only have the same |
| Text.SameLowerIff | internal/auth/local.go:47-48 | two texts have one lower case exactly if they differ in the case of letters only |
| Text.SplitAtFirst | internal/auth/local.go:364 | splitting at a separator takes the text before its first occurrence and goes on after it |
| Text.JoinSplit | internal/auth/local.go:364 | the pieces have no separator in them and make up the whole |
| LogLine.Quote | internal/logging/logging.go:68-80 | the loop builds the text with every quote and backslash escaped, in quotes |
| LogLine.MustQuote | internal/logging/logging.go:53-66 | the loop says exactly which values are quoted |
| LogLine.RenderMeaning | internal/logging/logging.go:82-111 | a value is written bare exactly if it is not empty and has no control character, blank, quote, equals sign or backslash; a duration always |
| LogLine.ParseRendered | internal/logging/logging.go:82-111 | rendered pairs parse back to their keys, values and quoting, for all values and all keys without an equals sign |
| LogLine.TailRecoveredIff | internal/logging/logging.go:125-226 | parsing the tail of a line gives the message and the pairs back, exactly unless an attribute poses as the message |
| LogLine.MessageAmbiguous | internal/logging/logging.go:125-129 | that exception is real: two records with the same line |
| LogLine.LastWriteWins | internal/logging/logging.go:144-199 | a plain key is present exactly if the context or an attribute gives it, and carries its last written value |
| LogLine.EnrichMeaning | internal/logging/logging.go:144-166 | which source each key of the enrichment comes from, with and without a session |
| LogLine.StableSortMeaning | internal/logging/logging.go:221 | the sort orders by key and keeps the order within each key |
| LogLine.SortedUnique | internal/logging/logging.go:210-221 | a sorted list is fixed by the order within each key |
| LogLine.LeIff | internal/logging/logging.go:215 | keys compare by the first character in which they differ, a prefix being the smaller |
| LogLine.LevelNames | internal/logging/logging.go:40-51 | the four names of levels, by their thresholds |
| LogLine.ArrangedUnique | internal/logging/logging.go:201-224 | priority keys first, the other plain keys once and sorted, then the group pairs stably sorted: there is one such list |
| LogLine.TextHandler.Handle | internal/logging/logging.go:113-232 | the handler appends one line, whose pairs are arranged in that way |
| LogLine.Collect | internal/logging/logging.go:139-199 | the loops merge the plain attributes over the context and flatten the groups |
| LogLine.AppendPriority | internal/logging/logging.go:201-208 | the priority keys that are present are rendered in their order and removed from the rest |
| LogLine.SortedPairs | internal/logging/logging.go:210-215 | the entries of the map, each once, in key order |
| LogLine.HandledLineRecovered | internal/logging/logging.go:113-232 | whatever a handler writes can be read back, with the one exception |

## Left out

- HTTP itself: cookies, redirects, status codes, CORS, routing, JSON decoding of bodies. A request is its decoded fields, an answer is good or not. The checks that a password field is present are part of that decoding.
- The OAuth and OIDC exchange, token verification, provider setup, the denylist and the disk cache: the callback starts from the identity that was extracted, which is arbitrary.
- Cryptography: Argon2id is a function with keys of the right length that may refuse its parameters; SHA-256 hashes, random tokens and identifiers are fresh values. Whether a code fits the secret that was read is a verdict; who is enrolled is in the tables.
- The handlers as imperative code: because they interleave, each is a state machine on values, one step per repository call, rather than a method; the in-place statements and maps they call are classes (`Repo.Database`, `Pending.PendingMap`, `SessionStore.Store`). The deadline of a session, a pending entry or an invite is computed in the step that stores it.
- Passwords behind login names: `AuthMachine` takes the verdict of a password check as given; `Phc` says when the check accepts. Setting a password is one step that may add a credential for any user; replacing a password hash changes nothing the machine models.
- The profile, avatar and login-attempt tables, password resets, MFA enforcement, group-to-role mapping (its branch is unreachable), admin listings, tenant and domain lookups (any organisation may be the result).
- Rows are never deleted, as in the code; the demo seed is not modelled.
- RateLimiter.Limiter.Allow: floating-point rounding is not modelled, the numbers are reals; nothing is ever evicted, as in the code, although there is a `ttl`. Keys are abstract, so the hashing of addresses is out.
- Text.NormIdempotent: `ToLower` maps ASCII letters only, so non-ASCII case mapping is not modelled; the same holds of `ILIKE` and `LOWER` in `Search` and `Ilike`.
- Ilike.StartsWithItselfIff: no exact condition is stated for values that hold a backslash and a wildcard; `Ilike.EqualIsStartAndEnd` covers all values without a backslash.
- Ilike.EndsWithItselfIff: the same.
- Ilike.EndsWithRaisesIff: for values with wildcards before the last backslash only the necessary condition is stated.
- Search.SearchFailsIff: the lateral join is evaluated for each member, as its definition has it, so a filter nobody is tested with raises nothing; a planner that evaluates more is not modelled. The row type of the server cannot hold a null name, so returning one would fail there.
- Search.SortDescMeaning: rows with the same creation time keep the order they come in, one of the orders the query allows.
- LogLine.HandledLineRecovered: strings are sequences of characters, so bytes that are not valid UTF-8 are not modelled; the time stamp and the printed form of numbers, times and other values are given.
- Phc.VerifyHashedIff: the salt is whatever the random source gave; a failing random source is not modelled.
