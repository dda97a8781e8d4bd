# A verified model of gofi-sdk-go

This project models the parts of gofi-sdk-go where being right is hard to see from the code, and proves
what they promise. It is written in Dafny 4.11 and stands on its own: `dafny verify dfyconfig.toml`
checks all of it.

* **Query compiler** (`Like`, `SqlText`, `Criteria`, `CriteriaMeaning`, `CriteriaLeaves`, `CriteriaText`,
  `CriteriaExample`, `Filter`, `FilterMeaning`, `FilterAccepts`, `FilterBase`).
  Predicate lists and client filters become a token stream and bound parameters. The stream is parsed
  again by an independent SQL grammar (AND over OR, parentheses, the AND inside BETWEEN) and evaluated in
  three-valued logic; LIKE is matched character by character.
* **Search text** (`SearchText`, `SearchReads`, `SearchModes`, `SearchRewrite`, `SearchScans`,
  `SearchCommutes`, `SearchLimits`, `SearchPrint`). The websearch parser against a description of its texts,
  what each mode finds, the spelling rewrite that runs on its input, and a printer that is its inverse.
* **Sessions** (`Sessions`, `SessionRuns`, `SessionLaws`, `SessionFacts`, `SessionCutoff`). Logins, refreshes,
  validations, logouts and revocations, split at every access to the session store; a run is any sequence of
  those steps.
* **Replicated jobs** (`CronKeys`, `CronLease`, `CronLaws`, `CronFire`, `KeepAlive`, `CronOverlap`). The three
  store scripts on a keyspace with a clock, in any interleaving, the renewal loop, and both together.
* **Cached queries** (`CacheKey`, `CacheKeyLaws`, `Cached`, `CachedLaws`). The bytes hashed into a key with a decoder
  for them, and the cache with its collapsed misses as a state machine.
* **SQL layout** (`SqlTokens`, `SqlTokenForms`, `SqlFormat`, `SqlFormatLaws`, `SqlFormatTokens`,
  `SqlFormatRoundTrip`, `SqlFormatText`, `SqlFormatAgain`, `SqlFormatLimits`, `SqlBreaks`, `SqlLayout`,
  `SqlComments`, `SqlLines`, `SqlCommentLaws`, `SqlCommentDrops`, `SqlCommentCuts`, `SqlCommentShifts`).
  Tokenizer and formatter, the rule by which a statement is laid out, and what reading the formatted text again gives, to a reader that knows
  line comments too.
* **Transactions** (`Transactions`, `TransactionLaws`, `TransactionAtomicity`, `TransactionAttempts`,
  `TransactionPools`, `TransactionBackoff`). An interpreter for arbitrary programs of nested Execute calls over any number of
  pools and any pattern of faults.
* **Messages** (`Settlement`, `Consumers`, `ConsumerPlaces`, `ConsumerManager`). Settling a message over its
  deliveries, and the start, restart and close of supervised consumers as a state machine and as the object that runs it.

Classes and loops of the source are classes and methods here, each proved equal to a function on values;
the laws are lemmas about those functions.

## What the code does not do

Where a promise turned out not to hold of the code, the code is modelled as it is, a lemma shows an input
and another gives the exact condition.

* A store without the atomic `RevokeIfActive` lets one refresh token yield two live sessions
  (`SessionLaws.RaceWithoutAtomic`, `SessionLaws.OneHolderExactlyWhenAtomic`).
* `keepAlive` starts after the slot claim. If that takes as long as the lease outlasts the renewal bound,
  the lease can expire under a running job (`KeepAlive.SafeExactly`) and two replicas run the job at once
  (`CronOverlap.LateLoopOverlaps`); runs never overlap exactly when the loop starts sooner
  (`CronOverlap.NeverOverlapsExactly`).
* A call reads its session and then the cut-off. When the store has forgotten the cut-off in between, the
  session slips past (`SessionCutoff.LateReadSlipsPast`); the cut-off holds exactly for calls whose reads
  are no further apart than the store keeps it beyond a session (`SessionCutoff.CutoffHoldsExactly`).
* A claim lasts one interval. One that comes an interval after its slot began can run the slot again
  (`CronLaws.LateClaimRunsAgain`); slots run once in all runs exactly when no claim comes that late
  (`CronLaws.OneRunPerSlotExactly`).
* With 40 or more retries the backoff shift overflows and the jitter panics
  (`TransactionBackoff.FortiethPanics`); a program without a panic of its own never panics exactly when no
  call allows more than 39 (`TransactionBackoff.PanicsExactly`).
* `FormatSQL` says the statement means the same. A cast beside another operator is glued to it and the
  trailing blanks of an unclosed literal are lost (`SqlFormatLimits.CastBesideOperator`,
  `SqlFormatLimits.UnclosedQuoteLosesBlanks`); nothing else changes the tokens
  (`SqlFormatText.FormatKeepsTokens`). Formatting the glued text again spaces it otherwise
  (`SqlFormatLimits.CastIsSpacedAgain`).
* A line comment swallows the next line (`SqlFormatLimits.LineCommentSwallowsNextLine`). With one comment the
  statement reads the same exactly when no token of the comment starts a line of the layout and the token
  after it does (`SqlCommentDrops.CommentReadsTheSame`); with several, exactly when the comments leave the
  same tokens on both sets of lines (`SqlCommentLaws.CommentsReadTheSame`).
* An apostrophe in a comment changes a literal on the next line
  (`SqlFormatLimits.ApostropheChangesLiteral`). A statement with such a comment reads the same exactly when
  what follows the quote does (`SqlCommentCuts.CutReadsTheSame`): when the quote is never closed, exactly when
  nothing is trimmed from an open literal (`SqlCommentCuts.OpenQuoteReadsTheSame`); when the opening quote of
  a literal closes it, only if that literal starts with whitespace (`SqlCommentShifts.QuoteShifts`).
* The configuration comment says a nacked message goes to the dead-letter topic on its last delivery; it
  goes there on the first delivery whose retries fail, which is the last exactly with a limit of one
  (`Settlement.DeadLettersOnLastExactly`).
* Spelling correction is to keep all but positive words as typed. The N of a proximity operator can be
  rewritten (`SearchLimits.NearIsNotKeptAsTyped`); what is scanned is otherwise the same, exactly when no
  correction touches such an N (`SearchCommutes.CommutesExactly`). Excluded occurrences of a corrected word
  are rewritten too (`SearchLimits.ExcludedIsRewritten`); the excluded terms are kept exactly when none of
  their words has a correction that changes it (`SearchLimits.ExcludedKeptExactly`).
* Filters appended to a base condition with a top-level OR narrow only what follows the last OR
  (`FilterBase.FilterPassedOver`): a row is returned against the filters exactly when an alternative
  before it accepts the row (`FilterBase.NarrowsExactly`).

## Assumptions

Unicode tables, case conversion, time formatting, accent folding and the databases' own LIKE wildcards are
parameters with their laws stated (`Lawful`). Identifiers are never reused; hashes are compared as the
values they are of. Time is an integer. A key of the store counts as expired once its time to live has
elapsed. A failed commit has no effect, a failed dead-letter publish leaves no copy, and the broker hears
every answer.

## Model

| member | source | states |
|---|---|---|
| Like.EscapeLike | sqln/driver/like.go:19-36 | the loop writes the escape character before every special character, those the dialect adds included, and nothing else |
| Like.EscapedPrefix | sqln/driver/like.go:19-36 | a pattern that starts with escaped text matches exactly the texts that start with that text and whose rest matches the rest of the pattern |
| Like.SubstringExact | sqln/criteria/builder.go:127-145 | '%' + EscapeLike(s) + '%' matches a text exactly when s is a contiguous part of it, for all strings, any extra wildcards and any comparison of characters |
| Like.EscapedExact | sqln/driver/like.go:19-36 | escaped text alone matches exactly the equal texts |
| Like.EscapedIsWellEscaped | sqln/driver/like.go:19-36 | every escape character stands before a special one, and removing the escapes gives the text back |
| Like.WellEscapedIsEscaped | sqln/driver/like.go:19-36 | conversely, every pattern of that shape is the escaping of its unescaped text |
| Criteria.Builder.Fail | sqln/criteria/builder.go:28-34 | the first error is kept |
| Criteria.Builder.CheckField | sqln/criteria/builder.go:36-42 | a field that is no column reference and not raw is an error |
| Criteria.Builder.NextParam | sqln/criteria/builder.go:50-53 | binds the value last and returns its number |
| Criteria.Builder.LikeParam | sqln/criteria/builder.go:127-139 | binds the pattern: wrapped and escaped for literal text |
| Criteria.Builder.WriteOverlap | sqln/criteria/builder.go:147-158 | the overlap condition with its parameter, the constant for an empty list, the error for a dialect without arrays |
| Criteria.Builder.WriteMembership | sqln/criteria/builder.go:160-193 | the list of placeholders with one parameter per value; empty IN and NOT IN as constants |
| Criteria.Builder.WriteCondition | sqln/criteria/builder.go:61-125 | text, parameters and error of one condition for every operator |
| Criteria.Builder.WritePredicate | sqln/criteria/builder.go:63-125 | the same for every predicate, groups in parentheses |
| Criteria.Builder.WriteClause | sqln/criteria/builder.go:201-223 | a list of predicates, AND written between neighbours without a connector |
| Criteria.BuildClauseAfter | sqln/criteria/clause.go:15-26 | placeholders continue after args, which stay an unchanged prefix; the first error rejects the list |
| CriteriaLeaves.IdentifierExactly | sqln/driver/identifier.go:8-21 | the test for a column reference accepts exactly one to three names with dots between, each plain or in matching quotes |
| CriteriaLeaves.RejectsExactly | sqln/criteria/builder.go:28-193 | a list is accepted exactly when no condition in it, at any depth, has a bad field or a value its operator cannot take; otherwise the first such one is the error; the parameters are the arguments and then those of the conditions in order |
| CriteriaMeaning.WellPlacedBySegment | sqln/criteria/builder.go:201-223 | where connectors may stand: position by position and segment by segment are the same |
| CriteriaMeaning.ConditionReads | sqln/criteria/builder.go:61-125 | the text of a condition parses as one operand, whatever legally follows, and evaluates to the meaning of the condition |
| CriteriaMeaning.MembershipReads | sqln/criteria/builder.go:160-193 | IN and NOT IN evaluate to membership in three-valued logic, false and true for an empty list |
| CriteriaMeaning.OperandReads | sqln/criteria/builder.go:63-125 | a predicate parses as one operand with its meaning exactly when it is well formed |
| CriteriaMeaning.ListReads | sqln/criteria/builder.go:201-223 | a clause parses with the meaning of its list exactly when the list is well placed |
| CriteriaMeaning.CompiledMeaning | sqln/criteria/builder.go:201-223 | meaning preservation: for every accepted list, on every row, the clause parses exactly when the connectors are well placed, and then evaluates under the returned parameters to the meaning of the tree |
| CriteriaExample.CompiledExample | sqln/criteria/builder.go:201-223 | helper: conditions and a row at which that law speaks |
| CriteriaText.ClauseNumbers | sqln/criteria/builder.go:50-53 | placeholders are numbered consecutively in text order, one for each parameter |
| CriteriaText.ClauseColumns | sqln/criteria/builder.go:36-42 | a clause names no column but the fields of its conditions |
| Filter.NewLimits | sqln/filter/limits.go:34-51 | limits are always positive: unset or nonpositive options fall back on 50, 1000 and 256 |
| Filter.Check | sqln/filter/limits.go:65-82 | accepts exactly the entries within the limits |
| Filter.CountConditions | sqln/filter/limits.go:53-63 | counts the entries that are conditions |
| Filter.ValidateLogicalPlacement | sqln/filter/mapping.go:186-203 | accepts exactly the lists whose AND and OR stand between two conditions |
| Filter.BuildOrExpansion | sqln/filter/dynamic_filter.go:274-290 | a list of values becomes one group of alternatives, one per value |
| Filter.ResolveAll | sqln/filter/mapping.go:74-119 | every entry is resolved and every bad one reported |
| Filter.Build | sqln/filter/mapping.go:67-109 | refuses with all reasons or returns base AND ( clause ) with the parameters |
| FilterMeaning.ScalarResolves | sqln/filter/dynamic_filter.go:292-344 | helper: a scalar condition becomes one predicate with the meaning of the request |
| FilterMeaning.SliceResolves | sqln/filter/dynamic_filter.go:229-290 | a list condition becomes range, membership or alternatives with the meaning of the request |
| FilterMeaning.EntryResolves | sqln/filter/mapping.go:111-156 | every entry that resolves is well formed and means what was asked |
| FilterMeaning.RequestResolves | sqln/filter/mapping.go:74-109 | the predicates of an accepted request are well placed and mean the request |
| FilterMeaning.AcceptedRequest | sqln/filter/mapping.go:67-109 | an accepted request is base AND ( clause ); args are a prefix of the parameters, placeholders continue in order, and on every row the clause evaluates to the meaning of the filter list |
| FilterAccepts.EntryAdmitted | sqln/filter/mapping.go:111-170 | an entry resolves exactly when it is AND or OR, or a condition on a mapped name that its allowlist permits, within bounds and with a value that suits it |
| FilterAccepts.AllOrNothing | sqln/filter/mapping.go:74-109 | a request is accepted exactly when it is not too long, its signs are well placed, every entry is admitted and every search has something to search for; otherwise the answer names every reason |
| FilterMeaning.OnlyMappedColumns | sqln/filter/mapping.go:121-156 | the clause names only columns that the mapping gives to names of the request |
| FilterMeaning.BoundedParams | sqln/filter/limits.go:53-82 | without SEARCH a condition adds at most max(2, maxInValues) parameters |
| FilterMeaning.BoundedQuery | sqln/filter/limits.go:53-82 | an accepted query adds at most maxFilters times that many |
| FilterBase.AppendedReads | sqln/filter/mapping.go:97-109 | base AND ( clause ) parses as the base list with the filters as one more group |
| FilterBase.NarrowsBase | sqln/filter/mapping.go:97-109 | helper: a base without a top-level OR is joined to the filters by AND on every row |
| FilterBase.BaseWithOr | sqln/filter/mapping.go:97-109 | for every base with a top-level OR, only what follows its last OR is narrowed |
| FilterBase.NarrowsExactly | sqln/filter/mapping.go:67-109 | for every base and row: the query returns what base and filters both accept, unless an alternative before the base's last OR accepts a row the filters reject; the query returns a row against its filters exactly then |
| FilterBase.FilterPassedOver | sqln/filter/mapping.go:97-109 | a base, a filter and a row the query returns although the filter is false on it |
| SearchText.ScanWord | sqln/fts/search.go:180-184 | the end of a run of word runes |
| SearchText.ScanQuote | sqln/fts/search.go:157-161 | the closing quote, or the end |
| SearchText.ScanNear | sqln/fts/search.go:164-172 | at most three digits after a tilde and their value |
| SearchText.ParseToken | sqln/fts/search.go:147-196 | one step of the parser |
| SearchText.ParseWebsearch | sqln/fts/search.go:143-202 | the rune by rune loop reads exactly the items the grammar gives, grouped at OR, groups without a positive term dropped |
| SearchReads.ParsesExactly | sqln/fts/search.go:140-220 | every text consists of words, phrases and runes between them, each ending where it could not go on, and the parse is what such a reading gives: minus at the start of a token only, ~N of at most three digits, capped at ten, OR between groups |
| SearchModes.ModesFind | sqln/fts/search.go:14-29 | in every document: all terms, any term, prefixes and a phrase are found exactly as the mode says |
| SearchText.KeepPositive | sqln/fts/search.go:204-220 | the in-place compaction keeps exactly the groups with a positive term, in order |
| SearchRewrite.ReplaceWords | sqln/fts/suggest.go:299-322 | rewrites exactly the maximal word runs whose folded form has a correction |
| SearchCommutes.CommutesExactly | sqln/fts/suggest.go:299-322 | for every text: what is scanned from the rewritten text is what is scanned from the text with each word mapped, if and only if every proximity that follows a phrase keeps its value and what is left of its run is mapped like a word |
| SearchCommutes.RewriteCommutesWithParsing | sqln/fts/suggest.go:299-322 | under that condition parsing the rewritten text gives the parse of the text with each word mapped: quotes, exclusions, proximity and OR groups are unchanged |
| SearchScans.ItemsOfScans | sqln/fts/search.go:143-202 | the items of the parser are what the scans contribute |
| SearchCommutes.WithoutTilde | sqln/fts/suggest.go:299-322 | the condition holds of every text without a tilde |
| SearchLimits.NearIsNotKeptAsTyped | sqln/fts/search.go:164-172 | a search whose only correction is of a positive word of it, and for which the law fails |
| SearchLimits.ExcludedKeptExactly | sqln/fts/suggest.go:144-145 | the negated terms of the corrected search are those of the search if and only if no word of one has a correction that changes it |
| SearchLimits.ExcludedIsRewritten | sqln/fts/suggest.go:299-322 | a search that excludes the word it misspells: after correction it excludes another word |
| SearchPrint.ParsedOk | sqln/fts/search.go:140-220 | every parse has only non-empty groups with a positive term, lower-case words of word runes, and proximity at most 10 on two-word terms |
| SearchPrint.ParsedInOk | sqln/fts/search.go:114-138 | the same in every mode |
| SearchPrint.PrintedReadsBack | sqln/fts/search.go:140-220 | round trip: printing any query of that shape and parsing the text returns the query |
| SearchPrint.Canonical | sqln/fts/search.go:140-220 | printing a parse and parsing again changes nothing |
| Sessions.Provider.Save | iam/provider/memory/session.go:48-58 | stores the session under its identifier |
| Sessions.Provider.Get | iam/provider/memory/session.go:60-80 | the session, unless it is missing or expired and not revoked; an expired one is dropped |
| Sessions.Provider.RevokeOne | iam/provider/memory/session.go:82-97 | marks the session revoked and no other |
| Sessions.Provider.RevokeIfActive | iam/provider/memory/session.go:99-116 | true exactly for the caller that turns an active session into a revoked one |
| Sessions.Provider.RevokeAllForUser | iam/provider/memory/session.go:118-134 | records the cut-off and revokes every session of the user and no other |
| Sessions.Provider.RevokedBefore | iam/provider/memory/session.go:136-141 | the recorded cut-off, zero when there is none |
| Sessions.Provider.Gc | iam/provider/memory/session.go:184-195 | drops exactly the sessions expired for more than five minutes |
| Sessions.RefreshToken | iam/core/auth.go:211-308 | which check decides; a new session with the user, tenant and login of the old one, the new secret and the earlier of the two ends; what else changes in the store, for every branch |
| Sessions.OpenSession | iam/core/issuer.go:65-103 | the session opened at a login, field by field, and when none is: a given login time without lifetime left |
| Sessions.CheckSession | iam/core/auth.go:337-355 | a token is valid exactly when its session exists, matches, is unrevoked, unexpired and after the cut-off; which check fails otherwise |
| SessionRuns.BaseKept | iam/core/auth.go:211-308 | every step keeps: each session belongs to a recorded login, carries its time and ends within its lifetime |
| SessionRuns.SingleKept | iam/core/auth.go:454-476 | with atomic revocation every step keeps: one holder per login, no replaced session is live again |
| SessionLaws.OneHolderPerLogin | iam/core/auth.go:211-253 | in every run a login has at most one session that is unrevoked, or revoked and not yet replaced |
| SessionLaws.OneSuccessor | iam/core/auth.go:211-253 | in every run a session that was replaced is never replaced again |
| SessionLaws.RaceWithoutAtomic | iam/core/auth.go:456-460 | a run on a store without atomic revocation that ends with two live sessions of one login |
| SessionLaws.OneHolderExactlyWhenAtomic | iam/core/auth.go:454-476 | the guarantee holds in all runs if and only if the store revokes atomically |
| SessionLaws.NothingPastCutoff | iam/core/issuer.go:169-184 | after a cut-off no refresh or validation accepts a session of the user whose login is not later, whichever way it was stored, while the record is stored and after it has expired |
| SessionCutoff.LateReadSlipsPast | iam/core/issuer.go:169-184 | a run in which a session is accepted past the cut-off because its call reads the cut-off after the store has forgotten it |
| SessionCutoff.CutoffHoldsExactly | iam/core/issuer.go:169-184 | a cut-off holds in all runs whose calls have their two reads at most so far apart, if and only if that is at most what the store keeps it beyond the lifetime of a session |
| SessionLaws.ReuseCutsOff | iam/core/auth.go:278-287 | helper: the genuine token of a revoked session, and only that, leads to the cut-off; a wrong secret changes nothing |
| SessionLaws.AcceptedInLifetime | iam/core/auth.go:28-40 | no session is accepted later than its login plus the maximum lifetime |
| SessionLaws.LoginNeverMoves | iam/core/auth.go:235-241 | along any chain of replacements, over any run, the last stored session carries the login time of the first and ends within its lifetime |
| SessionFacts.SessionsAreAsNoted | iam/core/issuer.go:118-165 | in every run each session, stored or in a call's hands, has the user, tenant, secret, login, creation and end that its login, or the session it replaced, gave it |
| SessionFacts.SuccessorsInherit | iam/core/auth.go:235-241 | along any chain of replacements, over any run, the last stored session belongs to the user and tenant of the first, with its login |
| SessionLaws.GivenTimeOnlyShortens | iam/core/issuer.go:65-72 | helper: a login time given by the caller is used only if set and past, and never lengthens a session |
| SessionLaws.StepsOfRefresh | iam/core/auth.go:211-308 | the steps of a refresh with nothing in between do what the whole call does |
| SessionFacts.StepsOfLogin | iam/core/issuer.go:65-103 | the steps of a login with nothing in between store a session with its user, tenant and secret, or none when no lifetime is left |
| SessionFacts.StepsOfValidate | iam/core/auth.go:337-355 | the steps of a validation with nothing in between accept exactly a live session of the token's user and tenant past the cut-off, and change nothing |
| CronKeys.OneFencePerJob | base/cronjob/lock.go:150-156 | helper: the lease and every slot of a job share one token counter, for every name |
| CronKeys.FenceIsNoJobKey | base/cronjob/lock.go:48-53 | a counter is never a lease or slot key |
| CronKeys.KeysInjective | base/cronjob/lock.go:48-53 | different leases and slots have different keys, for all names |
| CronLease.RedisLocker.Acquire | base/cronjob/lock.go:117-121 | refuses a held key, else draws the next token and stores it; a nonpositive TTL fails after the counter grew |
| CronLease.RedisLocker.Renew | base/cronjob/lock.go:122-124 | extends the key exactly when the token holds it |
| CronLease.RedisLocker.Release | base/cronjob/lock.go:125-127 | removes the key exactly when the token holds it |
| CronLease.Fire | base/cronjob/scheduler.go:214-237 | lease, claim, run with its renewals and release leave the store as specified |
| CronFire.StepsOfFire | base/cronjob/scheduler.go:214-237 | what Fire does to the store is what an acquire of the lease for its TTL, a claim of the slot for the slot's, the renewals and the release do in a run of the protocol |
| CronLaws.StepKeeps | base/cronjob/lock.go:109-156 | every step keeps: counters pass every token drawn, what an unexpired holder believes is true of the store, a key granted again lost its older token |
| CronLaws.TokensOfAJobGrow | base/cronjob/lock.go:109-156 | in every run the tokens of a job's lease and slots strictly increase with each grant |
| CronLaws.OneHolderAtATime | base/cronjob/lock.go:109-156 | in every run a key has at most one unexpired holder, and the store holds its token |
| CronLaws.StaleTokenChangesNothing | base/cronjob/lock.go:122-127 | helper: renewing or releasing with a token that does not hold the key changes nothing |
| CronLaws.OlderTokenIsStale | base/cronjob/lock.go:109-156 | once a key is granted again the older token never holds it again |
| CronLaws.SinkFollowsTheGrants | base/cronjob/lock.go:39-46 | a sink that takes only growing tokens applies writes in the order of the grants, however late they come |
| CronLaws.FiresExactlyWhenFree | base/cronjob/scheduler.go:214-237 | helper: a job runs exactly when lease and slot are free; the claim stays, the lease does not |
| CronLaws.SlotAt | base/cronjob/scheduler.go:184 | a tick lies in its slot |
| CronLaws.EachSlotRunsOnce | base/cronjob/scheduler.go:174-188 | when every claim comes within one interval of its slot's start, each slot runs at most once in the whole run |
| CronLaws.LateClaimRunsAgain | base/cronjob/scheduler.go:214-237 | a slot that is fired again one interval after its start, with lease, claim and release each time, runs again |
| CronLaws.OneRunPerSlotExactly | base/cronjob/scheduler.go:174-237 | each slot runs at most once in every run whose claims come less than so late after their slot's start, if and only if that is at most one interval |
| KeepAlive.Renewing | base/cronjob/lock.go:75-107 | the loop cancels exactly at the first lost lease or the last tolerated failure, within the bound of the last renewal |
| KeepAlive.BoundInsideLease | base/cronjob/lock.go:75-107 | helper: the bound is two periods of a third of the TTL, or three when the TTL modulo 3 is 2, always less than the TTL |
| KeepAlive.PatienceIsTime | base/cronjob/lock.go:98 | helper: the test on elapsed time counts consecutive failures |
| KeepAlive.StopsBeforeExpiry | base/cronjob/lock.go:75-107 | at every tick a run reaches, its lease has not expired |
| KeepAlive.SafeExactly | base/cronjob/scheduler.go:221-234 | runs end before their lease for all renewal outcomes if and only if the loop starts early enough after the lease was acquired |
| CronOverlap.CoversKept | base/cronjob/lock.go:75-107 | every step of the replicas keeps: a run's lease outlasts its next tick by the ticks it may still miss |
| CronOverlap.LateLoopOverlaps | base/cronjob/scheduler.go:214-237 | a run of two replicas in which both run the job at once |
| CronOverlap.NeverOverlapsExactly | base/cronjob/scheduler.go:214-237 | no two runs of a job overlap, in all interleavings of replicas, renewals, failures and time, if and only if the loop starts within the time the lease outlasts its bound |
| CacheKey.Hasher.WriteBytes | sqln/manager_cache.go:168-176 | appends tag, length and content |
| CacheKey.Hasher.WriteArg | sqln/manager_cache.go:188-228 | succeeds exactly for arguments with a fixed encoding, nested lists included, and appends it |
| CacheKey.Hasher.WriteArgs | sqln/manager_cache.go:178-186 | the same for a list of arguments |
| Cached.KeyBytes | sqln/manager_cache.go:102-134 | a key exactly for requests with a cache and a pool, not from the primary, outside transactions, with encodable arguments |
| CacheKeyLaws.FieldReads | sqln/manager_cache.go:168-176 | a field followed by anything decodes to the field and the rest |
| CacheKeyLaws.ArgReads | sqln/manager_cache.go:188-228 | so does every argument |
| CacheKeyLaws.StringsRead | sqln/manager_cache.go:123-130 | so does the order list, although it carries no length |
| CacheKeyLaws.MaterialReads | sqln/manager_cache.go:107-134 | the hashed bytes decode to the whole lookup |
| CacheKeyLaws.MaterialInjective | sqln/manager_cache.go:107-134 | different lookups have different bytes |
| Cached.EveryoneGetsTheirOwn | sqln/manager_cache.go:40-71 | with a collision-free hash every caller, in every interleaving, is served the answer to its own lookup; missing rows are not stored |
| Cached.UncacheableFetches | sqln/manager_cache.go:42-46 | helper: a request without a key touches neither cache nor flights |
| Cached.CollisionServesAnother | sqln/manager_cache.go:42-59 | with a collision, one lookup is served another's answer |
| CachedLaws.OneFetchForAll | sqln/manager_cache.go:40-71 | any number of concurrent misses are one fetch; everyone who missed is given its answer, a value is stored, a missing row and an error are not |
| CachedLaws.HitsAreServed | sqln/manager_cache.go:47-50 | until it is evicted or fetched again a stored answer is served to every request for it, and no fetch begins |
| CachedLaws.CacheableExactly | sqln/manager_cache.go:102-134 | a request has a key exactly with a cache and a pool, not from the primary, outside transactions, and without an argument, at any depth, that has no fixed encoding |
| SqlTokens.Tokenize | sqln/connection/sqlformat.go:49-105 | the index loop produces exactly the tokens of the specification |
| SqlTokens.TokensAreTheVisibleText | sqln/connection/sqlformat.go:49-105 | the tokens one after the other are the input without the whitespace outside quotes |
| SqlTokenForms.TokensExactly | sqln/connection/sqlformat.go:48-103 | the tokens of a text are the one way to split it into parts of the forms of their kinds with whitespace between, each ending where it could not go on |
| SqlFormat.Formatter.BreakLine | sqln/connection/sqlformat.go:139-143 | a newline and the indentation |
| SqlFormat.Formatter.Put | sqln/connection/sqlformat.go:145-160 | the token, after a blank where one is due |
| SqlFormat.FindClause | sqln/connection/sqlformat.go:166-184 | the first clause keyword standing at the index |
| SqlFormat.Formatter.PutNext | sqln/connection/sqlformat.go:193-258 | one token, clause or parenthesis of a level |
| SqlFormat.Formatter.PutLevel | sqln/connection/sqlformat.go:191-260 | a level, to its closing parenthesis or the end |
| SqlFormat.Formatter.PutAll | sqln/connection/sqlformat.go:24-30 | all levels, unmatched closing parentheses included |
| SqlFormatLaws.LevelWrites | sqln/connection/sqlformat.go:191-260 | a level writes exactly the tokens it passes over |
| SqlFormatLaws.EveryTokenOnce | sqln/connection/sqlformat.go:24-30 | every token is written once, in order and verbatim, for all inputs |
| SqlFormatTokens.FormattedIsLaid | sqln/connection/sqlformat.go:145-160 | between tokens there is whitespace or they may touch; nothing but blanks and newlines is added |
| SqlBreaks.LongestClause | sqln/connection/sqlformat.go:165-185 | a clause keyword is found whenever one stands there, and it is the longest |
| SqlLayout.LinesByTheRule | sqln/connection/sqlformat.go:9-12 | for all tokens: the layout starts a line exactly before clauses, AND and OR of WHERE and HAVING, the items of a SELECT list, and at the parentheses of a subquery, as one pass over the tokens with a stack of parentheses says |
| SqlLayout.GapsByTheRule | sqln/connection/sqlformat.go:137-260 | for all tokens: before each comes a line break and two blanks for each level, JOINs, items, AND and OR one level deeper than their clause and subqueries than the line of their parenthesis; or a blank; or nothing |
| SqlLayout.FormatByTheRule | sqln/connection/sqlformat.go:9-22 | the formatted text is the tokens with that whitespace, trimmed |
| SqlFormatText.FormatSQL | sqln/connection/sqlformat.go:15-22 | tokenize, lay out, trim |
| SqlFormatText.FormatKeepsTokens | sqln/connection/sqlformat.go:9-22 | for every statement: the formatted text has its tokens if and only if no cast stands beside another operator and no unclosed quote ends in whitespace |
| SqlFormatText.FormatReads | sqln/connection/sqlformat.go:9-22 | without such a cast only the end of an unclosed quote is trimmed; with one, the tokens before the last already differ |
| SqlFormatAgain.FormatTwice | sqln/connection/sqlformat.go:9-22 | where no cast stands beside another operator, formatting twice is formatting once, unclosed quotes included |
| SqlFormatText.FormatKeepsText | sqln/connection/sqlformat.go:9-30 | the written tokens are the visible text of the statement |
| SqlLines.ReadByLines | sqln/connection/sqlformat.go:9-22 | for every text: what a reader that skips line comments finds, by the text's tokens and lines; where a quote runs past a comment's line it goes on inside the token |
| SqlCommentLaws.UncommentedReadsTheSame | sqln/connection/sqlformat.go:9-22 | a reader that skips line comments reads the formatted text of a statement without them the same, under exactly the condition on its tokens |
| SqlCommentLaws.FormattedRead | sqln/connection/sqlformat.go:9-22 | what that reader finds in the formatted statement: what the comments leave on the lines of the rule |
| SqlCommentLaws.CommentsReadTheSame | sqln/connection/sqlformat.go:9-22 | for any number of comments the formatted statement reads the same if and only if they leave the same tokens on the lines of the rule as on the statement's own |
| SqlCommentDrops.CommentsSwallowNothing | sqln/connection/sqlformat.go:9-22 | for any number of comments in which no line starts: the same reading if and only if no token outside them follows one on its line, and no open literal outside them is trimmed |
| SqlCommentDrops.CommentReadsTheSame | sqln/connection/sqlformat.go:9-22 | for one comment: the same reading if and only if no token of it starts a line by the rule, and the token after it, if any, does and no open literal is trimmed |
| SqlCommentCuts.CutReadsTheSame | sqln/connection/sqlformat.go:58-75 | for a comment whose quote runs past its line: the same reading if and only if the rest of the quote, followed by the layout of what comes after it, reads like the text |
| SqlCommentCuts.OpenQuoteReadsTheSame | sqln/connection/sqlformat.go:58-75 | when that quote is never closed: the same reading if and only if the lines after the comment close their quotes or nothing is trimmed |
| SqlCommentShifts.QuoteShifts | sqln/connection/sqlformat.go:58-75 | when the opening quote of a literal closes it: the same reading only if that literal starts with whitespace |
| SqlFormatLimits.CastBesideOperator | sqln/connection/sqlformat.go:148-149 | an input whose operators are glued |
| SqlFormatLimits.UnclosedQuoteLosesBlanks | sqln/connection/sqlformat.go:21 | an unclosed literal that loses its trailing blank |
| SqlFormatLimits.LineCommentSwallowsNextLine | sqln/connection/sqlformat.go:58-59 | a comment and a statement on the next line: the reader finds the statement before formatting and nothing after it |
| SqlFormatLimits.ApostropheChangesLiteral | sqln/connection/sqlformat.go:58-75 | an apostrophe in a comment: the literal on the next line is read with other text after formatting |
| SqlFormatLimits.CastIsSpacedAgain | sqln/connection/sqlformat.go:148-149 | a statement that formatting twice changes twice |
| Transactions.FindTx | sqln/connection/txctx.go:35-48 | the last binding of the pool, or the raw transaction exactly when nothing is bound |
| Transactions.BindingStaysDistinct | sqln/connection/txctx.go:26-33 | a context never binds two transactions to one pool |
| Transactions.Databases.ExecuteTransaction | sqln/transaction/transaction.go:96-132 | joins, or begins, runs and ends, for every result; of two errors the rollback's state decides about a retry |
| Transactions.Databases.ExecuteWithRetry | sqln/transaction/transaction.go:72-94 | the loop of attempts |
| TransactionAttempts.AttemptsExactly | sqln/transaction/transaction.go:72-94 | for every program: attempts are made up to the first that is no conflict, or at which retries, a joined transaction, the delay or the context end the loop, and its result is returned |
| TransactionAttempts.RunsExactly | sqln/transaction/transaction.go:72-132 | on one pool: number of runs, result and rows, against a reference without transactions and without the loop |
| TransactionAttempts.OtherErrorsReturn | sqln/transaction/transaction.go:75-79 | an error that is no conflict is returned after one run, with nothing committed |
| TransactionLaws.RunAllKept | sqln/transaction/transaction.go:96-132 | every program keeps: no transaction is leaked or taken away, those begun end once, bound pools keep their rows |
| TransactionAtomicity.FailureLeavesPoolUnchanged | sqln/transaction/transaction.go:72-132 | an outermost Execute that fails or panics leaves its pool unchanged, for all programs, pools and faults |
| TransactionAtomicity.EveryTransactionEndsOnce | sqln/transaction/transaction.go:96-132 | every transaction begun ends in exactly one commit or rollback, on panic too |
| TransactionAtomicity.RunsBounded | sqln/transaction/transaction.go:72-94 | at most MaxRetries + 1 runs; a nested call runs once |
| TransactionAtomicity.InsideRunsOnce | sqln/transaction/transaction.go:96-99 | inside a transaction a program does what a reference without transactions, contexts or retries does |
| TransactionAtomicity.CommitsOneRunOrNone | sqln/transaction/transaction.go:72-132 | on one pool a nil result commits exactly one run of fn, the last; any other result commits none |
| TransactionPools.StaysOnItsPools | sqln/connection/txctx.go:18-33 | every program leaves the rows and the open transactions of all pools it does not name as they were, whatever the context binds and the databases do |
| TransactionBackoff.DelayAsIntended | sqln/transaction/transaction.go:83-84 | up to attempt 38 the delay is the doubled base, capped, and positive |
| TransactionBackoff.FortiethPanics | sqln/transaction/transaction.go:74-94 | a function that keeps failing panics on its fortieth retry |
| TransactionBackoff.PanicsExactly | sqln/transaction/transaction.go:74-94 | over all programs without a panic of their own, contexts and faults: none ends in a panic if and only if no call allows more than 39 retries |
| Settlement.Retry | msq/core/pipeline.go:133-158 | stops at the first result that is not a Nack, the last retry or shutdown |
| Settlement.Handle | msq/core/pipeline.go:57-122 | what the broker is told in each of the ways a message can go, the attempts, and whether a copy was published |
| Settlement.ToldExactly | msq/core/pipeline.go:57-122 | the broker is told what the handler returned, Ack for a copied message, Reject at the limit without a topic, and Nack otherwise |
| Settlement.HeardExactly | msq/core/pipeline.go:57-122 | over any sequence of deliveries the broker hears Nack for all but the last, and that answer with the last |
| Settlement.OutExactly | msq/core/pipeline.go:57-122 | helper: one delivery lets a message go in one of three ways, described by its calls, and never in two |
| Settlement.LeavesExactly | msq/core/pipeline.go:57-122 | over any sequence of deliveries a message leaves exactly with the first one on which a call of the handler settles it, it is dead-lettered, or it is at its limit without a dead-letter topic |
| Settlement.CopiedOnceOrNever | msq/core/pipeline.go:104-122 | over any sequence the dead-letter topic holds one copy, made from the delivery with which the message left, exactly when it left that way, and none otherwise |
| Settlement.LimitBoundsCalls | msq/types/config.go:71-91 | with a limit L and no dead-letter topic the handler runs at most L times the attempts of one delivery, and the message leaves within L deliveries |
| Settlement.CallsBoundedExactly | msq/types/config.go:71-91 | that bound is the least one that holds for all deliveries |
| Settlement.DroppedOnlyWhenAsked | msq/types/config.go:60-84 | over all sequences of deliveries a message can be dropped, neither settled by the handler nor copied, if and only if a limit is set and no dead-letter topic is |
| Settlement.DeadLettersOnLastExactly | msq/types/config.go:60-68 | messages are copied to the dead-letter topic on their last delivery only, in all runs, if and only if the limit is one; a first delivery that is copied |
| ConsumerManager.Manager.Take | msq/core/manager.go:118-128 | the start step of the protocol: the entries no call took before, recorded as taken; none after closing |
| ConsumerManager.Manager.Admit | msq/core/manager.go:143-153 | the admit step: the supervisor holds what the call held; once closed, the drop step: the consumer is closed |
| ConsumerManager.Manager.BeginClose | msq/core/manager.go:264-277 | the close step, and the cancel step for the first caller only |
| ConsumerManager.Manager.Leave | msq/core/manager.go:177-178 | the leave step: one less in the wait group |
| ConsumerManager.Manager.FinishWait | msq/core/manager.go:275-279 | the drain step, once the wait group is empty |
| ConsumerManager.Manager.AwaitDrain | msq/core/manager.go:281-286 | nil when the wait is over and the caller's time is not up, an error when only that is up, either when both; after nil no later step brings a supervisor back |
| Consumers.OwnedKept | msq/core/manager.go:118-216 | every step keeps: each open consumer has one holder, each other was closed once |
| Consumers.EachEntryTakenOnce | msq/core/manager.go:118-128 | in every run each registered entry is taken by exactly one start, in order |
| ConsumerPlaces.EachEntryInOnePlace | msq/core/manager.go:118-216 | in every run each entry taken is in one place and nowhere else: one start, one supervisor, or done with; dropped only once closed, left by its supervisor only after shutdown has begun |
| ConsumerPlaces.ConsumesAgain | msq/core/manager.go:170-216 | before shutdown a supervisor, wherever it stands, can go on until it consumes its entry again |
| ConsumerPlaces.NoneLeavesBefore | msq/core/manager.go:170-216 | in every run no supervisor leaves before shutdown |
| Consumers.ClosedOnceOrHeldByOne | msq/core/manager.go:118-216 | in every run each consumer created was closed exactly once, or is open and held by exactly one start or supervisor |
| Consumers.NothingRunsAfterClose | msq/core/manager.go:264-287 | once CloseContext has returned nil no supervisor exists and none ever will |
| Consumers.SupervisorsCanLeave | msq/core/manager.go:174-216 | helper: after cancellation a supervisor's next step is enabled and brings it closer to leaving |
| Consumers.CloseCanFinish | msq/core/manager.go:174-287 | from every reachable state after cancellation the run can go on until CloseContext returns nil |

## Left out

- SearchCommutes.RewriteCommutesWithParsing: the exact condition is stated on what is scanned; a parse drops groups and empty phrases, and can be equal by chance.
- Consumers.CloseCanFinish: the drain can always be completed; that the steps are eventually taken is left to the scheduler.
- SqlFormatAgain.FormatTwice: not for statements with a cast beside another operator; `CastIsSpacedAgain` shows one that changes again.
- SqlCommentLaws.CommentsReadTheSame: without quotes that run past the line of a comment, in the statement or in its layout; SqlCommentCuts treats those of the statement.
- SqlCommentCuts.CutReadsTheSame: where the comments drop the same tokens up to the quote in the statement and in its layout; so for OpenQuoteReadsTheSame.
- SqlCommentShifts.QuoteShifts: one way, because what follows the literal can be changed too; for a literal that the layout sets apart from the token after its opening quote, and no comment or open quote between.
- CronOverlap.NeverOverlapsExactly: ticks are on time, a renewal takes no time, and a job stops when it is cancelled.
- Block comments, which neither the formatter nor the reader knows.
- SessionLaws.NothingPastCutoff: once the record has been dropped, the two reads of one call may be apart by at most what the record outlives a session, one day with the Redis provider; `CutoffHoldsExactly` says that this is needed.
- Raw predicates, joins and select lists: trusted text without structure; a raw field is read as one column reference.
- SEARCH expressions of the dialects: opaque atoms of the clause.
- Redis and SQL providers beyond the steps above; network, TLS, SMTP and telemetry.
- Password checks, login throttling, tenant tickets and the access token's own format.
- Cryptography: secrets are compared as values, hashes are taken as collision-free.
- Text that is not valid UTF-8, and byte lengths of multi-byte runes.
- `nextFixedRun` and daylight saving: they rest on the time library.
- `correctable`, candidate lookup and similarity in the spelling suggestions.
- Dead-letter headers, health reports of consumers, retry backoff of messages: easy members.
- Distinct result types with the same short name share a cache key, as in the source.
- Mail, bucket folders, pagination, row mapping and configuration: easier than the above.
