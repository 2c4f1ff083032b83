# Personal loan platform: verified model

This project models the parts of the personal loan platform where a wrong step is expensive or hard to see, and proves what they promise. `dafny verify dfyconfig.toml` checks all of it.

| files | what they model |
|---|---|
| `EditDistance`, `NameTokens`, `TokenPairing`, `NameMatcher`, `NameAbbreviations` | the local fuzzy name matcher: the rolling-row edit distance, token normalisation, the greedy pairing over a stably sorted pair list, the score and the bank verdict |
| `RefreshSessions`, `SessionLifetimes`, `ApiClient`, `ClientServer`, `RefreshRuns` | rotating refresh tokens on the server, the lifetimes of sessions and the exact verdict on each token, the single-flight client, the two together under arbitrary interleaving and lost responses, and concrete runs |
| `LenderCase`, `LenderDecisions`, `CreditReview`, `LenderRejection`, `CustomerJourney`, `LenderProtocol`, `DecisionStages`, `RejectedLoans`, `DecisionOutcomes`, `DecisionRuns` | the two-stage lender decision under event leases, manual credit review, the lender's rejection notice, the customer's next step, whole runs of the protocol with its two stages, the loans of rejected applications, the exact outcome of every answer, and concrete runs |
| `PdfSlots`, `AdaptivePoller` | the slot semaphore of the PDF renderer and the adaptive poller, as event-driven machines |
| `ElectronicSign`, `Redaction`, `RedactionView`, `DashboardTotals` | OTP signing, log redaction, and the dashboard's independent aggregations |

How it is built:

- Code that changes state is a class whose methods are proved equal, step by step, to a function on the state; runs are sequences of steps of that function, and the invariants and guarantees are lemmas about runs. A step that is not possible leaves the state alone, so the lemmas quantify over every sequence of steps.
- Each database transaction is one step. A refresh call is four steps (load, check, claim, revoke), so refreshes, logins and logouts of any number of callers interleave freely.
- Clocks, random ids, lock tokens, one-time passwords, hashes of them, and the answers of lenders are parameters of the steps.
- Money is `real` where the code rounds it and a whole number of the smallest unit where it only adds it. `Math.round` is rounding half up of the exact value.

Where the code is not what one might expect:

- A logout that overtakes a refresh between its load and its claim makes the claim fail, and the failure is reported as `REFRESH_TOKEN_REUSE` although no used token was presented; `RefreshRuns.LogoutRaceRaisesAlarm` gives a run. So does a refresh that the client has given up on and that is carried out while the next one is under way (`RefreshRuns.LateClaimRaisesAlarm`). `ClientServer.ClaimFailsIffRevoked` says that these are the only ways: the claim fails exactly when the token was revoked after it was loaded, or a lost refresh with the same token was carried out.
- A refresh whose response is lost after the server has rotated the token makes the next refresh present a used token, and the session is revoked for reuse. `ClientServer.PresentsUsedTokenIffLost` gives the exact condition over every run and `ClientServer.LostRotationRevokesSession` the consequence.
- The stage of a lender decision is read from the link alone, not from the version of its event. No run confuses the two: by the time the link is at version 2 every event of the first stage is completed (`DecisionStages.FirstStageResultsNeverLate`), and an open decision event always has the link's version (`DecisionStages.StageMatchesEvent`).
- Both decision stages start their status polls at version 1 and creating an existing event is a no-op, so a pending final decision queues no poll when the first stage was already polled. `DecisionRuns.PolledFirstStageGetsStuck` gives the run. The application is then stuck: no sequence of worker, operator or customer steps brings it to credit review or approval (`DecisionStages.StuckForever`), and only a rejection notice of the lender ends it. `DecisionStages.PendingFinalIsStuckIffNoPoll` says exactly when that happens, and `DecisionStages.StuckIffNothingOpen` which applications are stuck at all.
- A rejection notice finds an application by its application number too, but cancels the loan only under the loan's own account number, and every later notice for the rejected application is merely acknowledged. So an approved application can be rejected for good with its loan still in force; `DecisionRuns.NoticeByApplicationNumberKeepsLoan` gives the run, and `RejectedLoans.LoanOutlivesRejectionIff` and `RejectedLoans.LoanInForceIffSpared` the exact condition.
- Two different tokens can have similarity 100 from 200 letters on, and only then: `NameMatcher.EveryLengthFrom200HasTwins` gives a pair for every such length, `NameMatcher.SimilarityIsEqualityBelow200` excludes all shorter ones, and `NameMatcher.SimilarityIsPercentage` has the exact condition.
- The guard for two empty tokens in the token similarity is never reached, because equal tokens return earlier; the model leaves it out.

## Model

| member | source | states |
|---|---|---|
| EditDistance.Levenshtein | backend/src/common/utils/name-matcher.helper.ts:31-53 | the two-row loop returns the recursively defined edit distance of any two strings |
| EditDistance.DistanceIsShortestChain | backend/src/common/utils/name-matcher.helper.ts:31-53 | the distance is the length of the shortest chain of single-character edits: one of that length exists and none is shorter |
| EditDistance.DistanceZeroIffEqual | backend/src/common/utils/name-matcher.helper.ts:31-53 | distance 0 exactly for equal strings |
| EditDistance.DistanceSymmetric | backend/src/common/utils/name-matcher.helper.ts:31-53 | the distance does not depend on the order of the strings |
| EditDistance.DistanceBounds | backend/src/common/utils/name-matcher.helper.ts:31-53 | at least the difference of the lengths, at most the longer length |
| EditDistance.DistanceTriangle | backend/src/common/utils/name-matcher.helper.ts:31-53 | the triangle inequality |
| NameTokens.NormalizeIsLetterRuns | backend/src/common/utils/name-matcher.helper.ts:20-29 | the chain of replacements, trim, split and filter yields the maximal runs of letters of the upper-cased name that are not honorifics |
| NameTokens.NormalizeGivesTokens | backend/src/common/utils/name-matcher.helper.ts:20-29 | tokens are non-empty, consist of A to Z, and are never honorifics |
| NameTokens.NormalizeRoundTrip | backend/src/common/utils/name-matcher.helper.ts:20-29 | joining any list of tokens and normalising gives the list back |
| NameTokens.NormalizeIdempotent | backend/src/common/utils/name-matcher.helper.ts:20-29 | normalising a normalised name changes nothing |
| NameTokens.NormalizeIgnoresOuterSpace | backend/src/common/utils/name-matcher.helper.ts:130-131 | trimming the raw name first does not change its tokens |
| NameTokens.NormalizeIgnoresCase | backend/src/common/utils/name-matcher.helper.ts:20-29 | a name and its copy in any mixture of upper and lower case have the same tokens |
| NameTokens.WordIsItsToken | backend/src/common/utils/name-matcher.helper.ts:20-29 | a word of letters, in any case, is exactly its own upper-case token, or none if it is one of the nine honorifics |
| NameTokens.LigaturesSpellOut | backend/src/common/utils/name-matcher.helper.ts:20-29 | the characters outside A to Z whose upper case contributes such letters, each with its spelling |
| TokenPairing.SortIsStable | backend/src/common/utils/name-matcher.helper.ts:86 | the sort by descending score keeps every pair once and the given order among equal scores |
| TokenPairing.StableSortIsUnique | backend/src/common/utils/name-matcher.helper.ts:86 | all stable sorts of the pairs agree, so the algorithm behind the library call does not matter |
| TokenPairing.SelectGreedily | backend/src/common/utils/name-matcher.helper.ts:88-96 | the loop over two used-sets adds up the scores of the greedily chosen pairs |
| TokenPairing.ChosenIffUnblocked | backend/src/common/utils/name-matcher.helper.ts:91-95 | a pair is chosen exactly when no conflicting pair before it is chosen |
| TokenPairing.SelectionDependsOnConflictOrder | backend/src/common/utils/name-matcher.helper.ts:86-96 | two orders that agree on conflicting pairs select the same pairs and the same total |
| TokenPairing.GreedyIsHalfOptimal | backend/src/common/utils/name-matcher.helper.ts:86-96 | the greedy total is at least half of any one-to-one selection |
| TokenPairing.GreedyPairsAsManyAsPossible | backend/src/common/utils/name-matcher.helper.ts:86-96 | the selection has as many pairs as the shorter side |
| TokenPairing.TotalIsSum | backend/src/common/utils/name-matcher.helper.ts:88-96 | the total of a selection adds the score of each of its pairs |
| NameMatcher.TokenSimilarity | backend/src/common/utils/name-matcher.helper.ts:55-64 | computes the similarity of two tokens, through the edit-distance loop |
| NameMatcher.SimilarityIsNearestPercent | backend/src/common/utils/name-matcher.helper.ts:55-64 | 100 for equal tokens, 88 when one is the initial of the other, otherwise the nearest percentage of the longer length that no chain of edits has to touch |
| NameMatcher.OneMissingLetter | backend/src/common/utils/name-matcher.helper.ts:61-63 | a letter missing anywhere costs one part in the longer length: 89 for nine letters |
| NameMatcher.SimilaritySymmetric | backend/src/common/utils/name-matcher.helper.ts:55-64 | similarity does not depend on the order of the tokens |
| NameMatcher.SimilarityIsPercentage | backend/src/common/utils/name-matcher.helper.ts:55-64 | similarity is at most 100, and 100 exactly when 200 times the distance is at most the longer length |
| NameMatcher.SimilarityIsEqualityBelow200 | backend/src/common/utils/name-matcher.helper.ts:55-64 | for tokens shorter than 200 letters similarity 100 means equality |
| NameMatcher.EveryLengthFrom200HasTwins | backend/src/common/utils/name-matcher.helper.ts:55-64 | for every length from 200 on two different tokens of that length have similarity 100, so 200 is the exact bound |
| NameMatcher.ScorePairs | backend/src/common/utils/name-matcher.helper.ts:80-85 | the nested loops list every pair of positions once, row by row, with its similarity |
| NameMatcher.MatchNames | backend/src/common/utils/name-matcher.helper.ts:75-100 | the method computes the score of the normalised names, also for missing names |
| NameMatcher.MatchScoreIsGreedyAverage | backend/src/common/utils/name-matcher.helper.ts:66-100 | the score is the average, over the longer name, of the one pairing that takes the best remaining pair at each turn, rounded to the nearest whole number, and 0 when a name has no tokens |
| NameMatcher.MatchScoreOfTokens | backend/src/common/utils/name-matcher.helper.ts:75-78 | every two token lists are scored by some two raw names, so statements about token lists are statements about names |
| NameMatcher.MatchScoreSymmetric | backend/src/common/utils/name-matcher.helper.ts:75-100 | the score is the same with the two names exchanged, for all names |
| NameMatcher.GreedyPairing | backend/src/common/utils/name-matcher.helper.ts:80-96 | the pairing is one-to-one, has as many pairs as the shorter name has tokens, and totals at least half of every pairing |
| NameMatcher.MatchScoreBounds | backend/src/common/utils/name-matcher.helper.ts:98-99 | the score is at most 100 and at most the rounded share of the shorter name in the longer one |
| NameMatcher.ReorderedTokensScore100 | backend/src/common/utils/name-matcher.helper.ts:66-100 | the same tokens in any order, each shorter than 200 letters, score exactly 100 |
| NameAbbreviations.AbbreviatedNameMatches | backend/src/common/utils/name-matcher.helper.ts:10-18 | reordering a name and cutting any of its tokens to initials keeps the score at 88 or above |
| NameMatcher.NamesLikelyMatch | backend/src/common/utils/name-matcher.helper.ts:102-109 | the verdict is the score compared with the threshold |
| NameMatcher.CalculateBankNameMatchScore | backend/src/common/utils/name-matcher.helper.ts:125-159 | the verdict's score is that of the untrimmed names in either order; each reason is given exactly for its range of scores; the same words are an exact match |
| RefreshSessions.AuthStore.Login | backend/src/modules/auth/auth.service.ts:107-138 | creates the session and its first token, both with the absolute expiry fixed at login |
| RefreshSessions.AuthStore.LoadToken | backend/src/modules/auth/auth.service.ts:171-192 | the first read of a refresh: a snapshot of token and session, or an invalid refresh |
| RefreshSessions.AuthStore.CheckToken | backend/src/modules/auth/auth.service.ts:193-217 | a used token leads to revocation; a revoked, expired or idle one is refused; otherwise the call may claim |
| RefreshSessions.AuthStore.ClaimAndReplace | backend/src/modules/auth/auth.service.ts:218-243 | one transaction claims the token and creates its child, or the call must revoke |
| RefreshSessions.AuthStore.RevokeForReuse | backend/src/modules/auth/auth.service.ts:397-416 | revokes the session and all its tokens and raises the reuse alarm |
| RefreshSessions.AuthStore.Logout | backend/src/modules/auth/auth.service.ts:262-273 | revokes the user's own session and the session's tokens |
| RefreshSessions.TokensFormOneChain | backend/src/modules/auth/auth.service.ts:218-239 | in every reachable state each session's tokens form one parent chain with exactly one unused token; a token is used exactly when it has one child |
| RefreshSessions.AtMostOneReplacement | backend/src/modules/auth/auth.service.ts:219-223 | under every interleaving at most one presenter of a token gets a replacement, and the used tokens are those replaced |
| RefreshSessions.RevokedForever | backend/src/modules/auth/auth.service.ts:262-273 | a revoked session keeps its revocation and only revoked tokens, and never gets another token |
| RefreshSessions.ReuseRevokesSession | backend/src/modules/auth/auth.service.ts:193-196 | whatever else happens before, between and after its steps, a call that presents a used token never gets a replacement, and once checked and revoked its session is revoked with all tokens and named by an alarm |
| RefreshSessions.ExpiryIsFixed | backend/src/modules/auth/auth.service.ts:224-237 | idle expiry within absolute expiry; every token expires at the session's absolute expiry; every rotation happened before it |
| RefreshSessions.RunMovesExpiryForward | backend/src/modules/auth/auth.service.ts:217-237 | no run moves the absolute expiry or shortens the idle expiry |
| RefreshSessions.ExpiredSessionNeverRefreshes | backend/src/modules/auth/auth.service.ts:197-214 | once either expiry of the session is reached no check of its tokens succeeds |
| SessionLifetimes.ExpiryFollowsUse | backend/src/modules/auth/auth.service.ts:446-451 | in every reachable state a session ends one session lifetime after its login, and goes idle one idle timeout after its login or last rotation, or at its end if that is sooner |
| SessionLifetimes.ClockFollowsTicks | backend/src/modules/auth/auth.service.ts:197-205 | the clock these times are compared with moves only with the time that passes |
| SessionLifetimes.CheckVerdict | backend/src/modules/auth/auth.service.ts:193-217 | under every interleaving the check allows the claim exactly when the token was unused and unrevoked at its load, the user active, and neither lifetime has run out; a used token leads to revocation and anything else is refused |
| SessionLifetimes.UnknownTokenIsRefused | backend/src/modules/auth/auth.service.ts:192-192 | a token nobody issued is an invalid refresh and changes no row |
| SessionLifetimes.ClaimVerdict | backend/src/modules/auth/auth.service.ts:218-243 | the claim succeeds exactly when its token is still unused and unrevoked, then uses it, hands out one child and restarts the idle time; otherwise the call must revoke |
| SessionLifetimes.LoginStartsSession | backend/src/modules/auth/auth.service.ts:107-138 | a login adds one live session and its first token and touches nothing else |
| SessionLifetimes.LogoutRevokes | backend/src/modules/auth/auth.service.ts:262-273 | a logout revokes the session of its own user and the tokens of the session, keeps earlier revocation times, and touches no other session |
| SessionLifetimes.ReuseRevokes | backend/src/modules/auth/auth.service.ts:397-416 | the response to reuse revokes the session with all its tokens and records one alarm |
| ApiClient.ApiModule.StartRefresh | frontend/src/lib/api.js:23-36 | one pending refresh is shared; a new one starts only when none is pending |
| ApiClient.ApiModule.HandleUnauthorized | frontend/src/lib/api.js:50-57 | a repeated or exempt request fails; any other is marked and waits for the shared refresh |
| ApiClient.ApiModule.HandleRefreshed | frontend/src/lib/api.js:27-33 | a delivered refresh stores the new tokens, clears the slot and sends every waiter again |
| ApiClient.ApiModule.HandleRefreshFailed | frontend/src/lib/api.js:60-64 | a failed refresh clears the slot, fails every waiter, drops the access token for them and reports the session as expired once for each |
| ApiClient.ApiModule.HandleSignedIn | frontend/src/auth/AuthContext.jsx:41-43 | a login stores its access token and cookie, also beside a pending refresh |
| ClientServer.PresentsUsedTokenIffLost | frontend/src/lib/api.js:11-36 | in every run, with sign-ins and lost responses at any time, the token the pending refresh presents has been used exactly when a lost refresh with the same token was carried out |
| ClientServer.ClientNeverPresentsUsedToken | frontend/src/lib/api.js:23-36 | so the client never presents a used token, neither at the load nor at the check, unless a refresh with the same cookie was lost |
| ClientServer.LostRotationRevokesSession | backend/src/modules/auth/auth.service.ts:193-196 | after a lost refresh that was carried out the next refresh with its cookie ends with the session revoked for reuse, whatever happens afterwards |
| ClientServer.NoAlarmWithoutLogout | backend/src/modules/auth/auth.service.ts:240-243 | any session of the client that was never logged out and lost no refresh is never named by a reuse alarm and keeps its tokens unrevoked |
| ClientServer.ClaimFailsIffRevoked | backend/src/modules/auth/auth.service.ts:171-243 | a refresh that passed its check was loaded with an unrevoked token, and its claim ends in revocation exactly when the token was revoked after that load or a lost refresh with the same token was carried out |
| RefreshRuns.LogoutRaceRaisesAlarm | backend/src/modules/auth/auth.service.ts:240-243 | a concrete run: a logout between check and claim raises the reuse alarm with no token used |
| RefreshRuns.LateClaimRaisesAlarm | backend/src/modules/auth/auth.service.ts:218-243 | a concrete run: a lost refresh is carried out while the next one is under way, and the alarm is raised although both were loaded with an unused token |
| ClientServer.RetriedAtMostOnce | frontend/src/lib/api.js:54-59 | each request is sent at most twice, waits only while a refresh is pending, and fails on a second 401 |
| ClientServer.DeliveryReleasesEveryWaiter | frontend/src/lib/api.js:27-36 | delivery of a finished refresh leaves no request waiting and no refresh pending |
| ClientServer.FirstUnauthorizedWaits | frontend/src/lib/api.js:54-59 | a first 401 marks the request and puts it behind the pending refresh, or a new one with the present cookie |
| ClientServer.LastUnauthorizedFails | frontend/src/lib/api.js:50-57 | a repeated or exempt 401 fails its request and changes nothing else |
| ClientServer.DeliveryOutcome | frontend/src/lib/api.js:27-36 | a rotated refresh stores both tokens and sends every waiter again; an invalid one fails every waiter, reports expiry once for each, and drops the access token if any waited; an unfinished one changes nothing |
| ClientServer.SignInOutcome | frontend/src/auth/AuthContext.jsx:41-43 | a sign-in replaces cookie and access token and nothing else of the client |
| LenderDecisions.LenderDecisionProcessor.ProcessDecision | backend/src/modules/lender-integrations/lender-decision-processor.service.ts:29-127 | the transaction either reports an error and leaves all rows as they were, or reaches the specified rows |
| LenderDecisions.LenderDecisionProcessor.ApplyDecision | backend/src/modules/lender-integrations/lender-decision-processor.service.ts:51-125 | the four branches of an unresolved decision, row by row |
| LenderDecisions.SuccessNeedsLease | backend/src/modules/lender-integrations/lender-decision-processor.service.ts:30-31 | success needs the current lock token and ends with the event completed, unlocked, and every other event untouched |
| LenderDecisions.SecondDeliveryIsReplay | backend/src/modules/lender-integrations/lender-decision-processor.service.ts:43-49 | after any applied approval or rejection the same stage counts as resolved |
| LenderDecisions.DecisionEffects | backend/src/modules/lender-integrations/lender-decision-processor.service.ts:57-98 | the loan and the customer's selection never change; pre-approval records the credit limit; the lender's net amount is kept apart; a cooling-off end is set exactly for a rejection with positive days |
| LenderDecisions.PendingQueuesPollIff | backend/src/modules/lender-integrations/lender-decision-processor.service.ts:112-122 | a pending result queues a new status event exactly when polling is possible, the version is at most 5 and no such event exists |
| DecisionOutcomes.AppliedAnswer | backend/src/modules/lender-integrations/lender-decision-processor.service.ts:36-126 | in every reachable world, the status, terms, customer and link after each applied answer at each stage: rejection rejects at both, approval pre-approves or sends to credit review, pending waits or leaves the status; an answer to a resolved stage changes no row but its event |
| DecisionOutcomes.RejectionIsForGood | backend/src/modules/lender-integrations/lender-decision-processor.service.ts:84-91 | after an applied rejection every continuation stays rejected, with the same terms and without a loan |
| DecisionOutcomes.DecisionErrors | backend/src/modules/lender-integrations/lender-decision-processor.service.ts:30-46 | which error a result gets, and that it gets one exactly under the listed conditions, in every reachable world |
| CreditReview.CreditReviewService.ApproveApplication | backend/src/modules/credit-review/credit-review.service.ts:46-181 | approval guards, rate and fee lookup, and the new rows including the loan figures |
| CreditReview.CreditReviewService.RejectApplication | backend/src/modules/credit-review/credit-review.service.ts:204-229 | only an application pending review can be rejected, with the reason recorded |
| CreditReview.ApprovalCreatesLoan | backend/src/modules/credit-review/credit-review.service.ts:99-130 | the loan carries the customer's amount and tenure; total repayment is within one half of principal plus exact simple interest and never below a non-negative principal at non-negative rate and tenure |
| CreditReview.NewLoanFigures | backend/src/modules/credit-review/credit-review.service.ts:106-110 | fee and repayment are the nearest whole units, and repayment falls below the principal exactly when the interest is below minus one half |
| CreditReview.InterestIsSimple | backend/src/modules/credit-review/credit-review.service.ts:106-110 | 365 days cost the yearly rate on the principal, and interest is additive in days and in principal |
| CreditReview.FeeIsPercentage | backend/src/modules/credit-review/credit-review.service.ts:106-110 | 100 percent is the principal, and the fee is additive in percentage and in principal |
| DecisionOutcomes.ReviewApproves | backend/src/modules/credit-review/credit-review.service.ts:46-181 | an approval goes through exactly for a reviewable application, and then approves it and creates the loan in force |
| DecisionOutcomes.ReviewRejects | backend/src/modules/credit-review/credit-review.service.ts:204-229 | a rejection goes through exactly at credit review, records the trimmed reason or the standard one, and lasts in every continuation |
| DecisionOutcomes.ReviewErrors | backend/src/modules/credit-review/credit-review.service.ts:46-99 | each refusal of a review is given exactly under its condition, in the order of the guards |
| LenderRejection.RejectionWebhook.ProcessNotice | backend/src/modules/loan/loan.service.ts:3111-3219 | the rows after a rejection notice of the lender, with the loan looked up by its own account number only, or the error of a malformed or unmatched one |
| LenderRejection.NoticeEffect | backend/src/modules/loan/loan.service.ts:3136-3219 | a notice leaves events, selection and loan terms; it rejects the application, and the loan in force stays in force exactly when the notice names another number |
| LenderRejection.LaterNoticeChangesNothing | backend/src/modules/loan/loan.service.ts:3157-3170 | a notice for a rejected application changes nothing, whatever number it names |
| DecisionOutcomes.AcknowledgedIff | backend/src/modules/loan/loan.service.ts:3111-3160 | a notice is acknowledged exactly when it reports a rejection and its trimmed number is the number or the account number of the application |
| DecisionOutcomes.NoticeRejects | backend/src/modules/loan/loan.service.ts:3157-3219 | an acknowledged notice leaves the application rejected with its message as reason; any other changes nothing |
| DecisionOutcomes.NoticeErrors | backend/src/modules/loan/loan.service.ts:3111-3160 | each refusal of a notice is given exactly under its condition |
| CustomerJourney.BlockingOutbox | backend/src/modules/customer/customer.service.ts:597-607 | the first failed event of the listing other than a supplementary consent, if there is one |
| CustomerJourney.SupportIffGatingFailure | backend/src/modules/customer/customer.service.ts:1942-1953 | the support screen shows exactly for such a failure before any lender outcome |
| CustomerJourney.FirstUnmetDecides | backend/src/modules/customer/customer.service.ts:1927-1964 | before any lender outcome the step is that of the first unmet prerequisite in the listed order, and that of the last when all are met |
| CustomerJourney.OutcomeDecides | backend/src/modules/customer/customer.service.ts:1927-1964 | in every other case the status decides the step, and so with the former the steps partition the inputs |
| CustomerJourney.BlocksIff | backend/src/modules/customer/customer.service.ts:597-607 | a listed event blocks exactly when it has failed and is not a consent other than data sharing |
| LenderProtocol.StatusNeverMovesBackwards | backend/src/modules/lender-integrations/lender-decision-processor.service.ts:36-126 | over every run the status never moves backwards; rejection is final, and approval is only ever ended by the lender's rejection notice |
| LenderProtocol.VersionAndStatusAgree | backend/src/modules/lender-integrations/lender-decision-processor.service.ts:36-46 | decision version 2 implies a selected offer and at least pre-approval; version 1 excludes review and approval |
| LenderProtocol.OfferIsFinal | backend/src/modules/loan/loan.service.ts:739-771 | a selected offer is never changed |
| DecisionOutcomes.OfferAndRequestIff | backend/src/modules/loan/loan.service.ts:739-771 | an offer can be selected exactly at pre-approval, once, and for at least a day; a decision request of the first version is always possible, one of the second exactly after the selection, and neither reopens an existing event |
| LenderProtocol.LoanOfApproved | backend/src/modules/credit-review/credit-review.service.ts:106-181 | an approved application has a loan in force, only an approved or rejected one has a loan, and it is never replaced, only cancelled by a rejection, and carries the selected amount and fair figures |
| RejectedLoans.LoanOutlivesRejectionIff | backend/src/modules/loan/loan.service.ts:3136-3180 | the first acknowledged notice rejects an approved application, and in every continuation its loan stays in force exactly when that notice did not name the loan's own account number |
| RejectedLoans.LoanInForceIffSpared | backend/src/modules/loan/loan.service.ts:3136-3180 | over every run from an approved application the loan is in force at the end exactly when no notice was acknowledged or the first one named another number |
| LenderProtocol.DecidedForever | backend/src/modules/lender-integrations/lender-decision-processor.service.ts:43-49 | after a rejection no run changes application, customer or loan; after an approval none without an acknowledged rejection notice does |
| LenderProtocol.RefusedInRunIff | backend/src/modules/lender-integrations/lender-decision-processor.service.ts:51-125 | in every reachable world, exactly when a decision under a current lease is refused; a final approval never for lack of a selected offer |
| LenderProtocol.AppliedAtMostOnce | backend/src/modules/lender-integrations/lender-decision-processor.service.ts:136-139 | every event is closed by a decision at most once |
| LenderProtocol.LostLeaseStaysLost | backend/src/modules/lender-integrations/lender-integration.worker.ts:221-261 | a lock token that is not current for an event never becomes current for it again |
| DecisionOutcomes.LeaseLifecycle | backend/src/modules/lender-integrations/lender-integration.worker.ts:221-261 | a waiting event can be claimed, a holder can finish or give back its event, a stale lease can be recovered, and a failed event of an undecided application can be replayed |
| LenderProtocol.StaleWorkerChangesNothing | backend/src/modules/lender-integrations/lender-decision-processor.service.ts:30-31 | a worker whose lease was reset or taken over can never apply its result |
| LenderProtocol.StatusEventsAreConsecutive | backend/src/modules/lender-integrations/lender-decision-processor.service.ts:112-122 | the status events carry versions 1 to k with k at most 5, and all but the newest are completed |
| LenderProtocol.AtMostFivePolls | backend/src/modules/lender-integrations/lender-decision-processor.service.ts:112-122 | at most five status polls are applied over a whole run, across both stages |
| LenderProtocol.FinalApprovalIsInvisible | backend/src/modules/customer/customer.service.ts:1933-1941 | after a selection no approval or pending result, at either stage, applied, repeated or refused, changes the step the customer sees |
| LenderProtocol.BankDetailsIffApproved | backend/src/modules/customer/customer.service.ts:1933 | bank details are asked for exactly after credit approval |
| LenderProtocol.StepsAfterPreApproval | backend/src/modules/customer/customer.service.ts:1933-1942 | from pre-approval on no run shows an earlier step or the support screen again, and from the selection on only processing, rejection or bank details |
| LenderProtocol.WaitingComesBeforeAnswer | backend/src/modules/customer/customer.service.ts:1944-1964 | a run that shows the fee or waits for the decision has never been pre-approved before, and waits only with payment, bank data, consents and an acknowledged link |
| LenderProtocol.OfferPickerNeverReappears | backend/src/modules/customer/customer.service.ts:1935-1938 | after a selection the offer picker never shows again in any run |
| DecisionStages.StageMatchesEvent | backend/src/modules/lender-integrations/lender-decision-processor.service.ts:36-41 | in every reachable world at most one event is open, an open decision event has the version the link is at, and at version 2 the first decision is completed |
| DecisionStages.FirstStageResultsNeverLate | backend/src/modules/lender-integrations/lender-decision-processor.service.ts:36-41 | in every run all events of the first stage, decision and polls, are completed once the link is at version 2, so none of their results can be applied as a final one |
| DecisionStages.StuckIffNothingOpen | backend/src/modules/lender-integrations/lender-decision-processor.service.ts:112-122 | a selected offer at the final stage can never be reviewed or approved any more, whatever happens, exactly when no event is open |
| DecisionStages.PendingFinalIsStuckIffNoPoll | backend/src/modules/lender-integrations/lender-decision-processor.service.ts:105-122 | a pending final result leaves the application so exactly when it queues no status poll |
| DecisionStages.StuckForever | backend/src/modules/lender-integrations/lender-decision-processor.service.ts:112-122 | from then on no run opens an event or applies a decision, and without a rejection notice only the progress marks of the link move |
| DecisionRuns.PolledFirstStageGetsStuck | backend/src/modules/lender-integrations/lender-decision-processor.service.ts:112-122 | a concrete run from a paid application: pending, approved by the poll, offer selected, pending again, stuck |
| DecisionRuns.NoticeByApplicationNumberKeepsLoan | backend/src/modules/loan/loan.service.ts:3142-3170 | a concrete run: approved, then rejected by a notice with the application number; the loan is in force after every continuation |
| PdfSlots.ConfiguredLimit | backend/src/common/pdf/pdf-renderer.ts:35-40 | a whole number from 1 to 20 is kept, a larger one is cut to 20, and anything else gives 3 |
| PdfSlots.PdfRenderer.AcquireSlot | backend/src/common/pdf/pdf-renderer.ts:66-73 | a render takes a free slot at once or joins the end of the queue |
| PdfSlots.PdfRenderer.ReleaseSlot | backend/src/common/pdf/pdf-renderer.ts:75-79 | the slot goes to the first waiter, or becomes free when nobody waits |
| PdfSlots.AcquireOutcome | backend/src/common/pdf/pdf-renderer.ts:66-73 | a newcomer takes a slot when fewer than the cap are taken and waits last otherwise |
| PdfSlots.ReleaseOutcome | backend/src/common/pdf/pdf-renderer.ts:75-79 | a holder that ends hands its slot to the first waiter, or frees it |
| PdfSlots.SlotsAreConserved | backend/src/common/pdf/pdf-renderer.ts:66-79 | in every run the counter equals the number of slot holders, stays within the cap, and renders wait only when all slots are taken |
| PdfSlots.QueueMovesUp | backend/src/common/pdf/pdf-renderer.ts:72-78 | a waiter moves up one place per release, whatever else happens |
| PdfSlots.ServedAfterExactlyKPlusOneReleases | backend/src/common/pdf/pdf-renderer.ts:72-78 | the waiter at position k gets its slot with the k+1st release and not before |
| PdfSlots.NoOvertaking | backend/src/common/pdf/pdf-renderer.ts:66-73 | a newcomer is served at once only when nobody waits |
| PdfSlots.IdleIffAllFinished | backend/src/common/pdf/pdf-renderer.ts:42-57 | the counter returns to 0 exactly when every render has ended: no slot leaks and no waiter is stranded |
| AdaptivePoller.PollDelayFor | frontend/src/lib/adaptivePoller.js:9-13 | the delay is 3 seconds exactly before 15 seconds have passed, 10 seconds exactly from 90 seconds on, and 5 seconds between |
| AdaptivePoller.Polling.ScheduleNext | frontend/src/lib/adaptivePoller.js:52-58 | schedules one timer with the delay for the elapsed time, unless stopped |
| AdaptivePoller.Polling.RunTask | frontend/src/lib/adaptivePoller.js:40-50 | starts the task unless stopped, already running or hidden |
| AdaptivePoller.Polling.OnTimer | frontend/src/lib/adaptivePoller.js:54-57 | a fired timer starts the task or resumes at once |
| AdaptivePoller.Polling.OnSettled | frontend/src/lib/adaptivePoller.js:43-49 | a settled task, failed or not, frees the slot and resumes its callback |
| AdaptivePoller.Polling.OnResumed | frontend/src/lib/adaptivePoller.js:54-57 | the callback ends by scheduling the next timer |
| AdaptivePoller.Polling.OnVisibilityChange | frontend/src/lib/adaptivePoller.js:60-62 | becoming visible runs the task outside the timer line |
| AdaptivePoller.Polling.StopPolling | frontend/src/lib/adaptivePoller.js:67-71 | stopping cancels the pending timer |
| AdaptivePoller.FireOutcome | frontend/src/lib/adaptivePoller.js:54-57 | in every run a due timer starts exactly one task when the tab is visible and none is in flight, and none otherwise |
| AdaptivePoller.EarlyTimerDoesNothing | frontend/src/lib/adaptivePoller.js:52-58 | a timer that is not armed or not due has no effect |
| AdaptivePoller.ResumeOutcome | frontend/src/lib/adaptivePoller.js:52-58 | a resuming callback arms one new timer, 3, 5 or 10 seconds ahead by the time since the start, or none after the stop |
| AdaptivePoller.SettleOutcome | frontend/src/lib/adaptivePoller.js:43-49 | a settled task, failed or not, leaves nothing in flight and resumes the callback it belongs to |
| AdaptivePoller.StartAndStop | frontend/src/lib/adaptivePoller.js:64-71 | polling starts with one timer 3 seconds ahead; the stop cancels it and leaves a running task alone |
| AdaptivePoller.DelaysFollowPolls | frontend/src/lib/adaptivePoller.js:52-58 | over every run until the stop, delays set and callbacks alive together are one more than the timer polls and the firings that found the tab hidden or a task running: every delay after the first follows one of these |
| AdaptivePoller.PollsNeverOverlap | frontend/src/lib/adaptivePoller.js:18-24 | for every order of events at most one task is in flight and at most one timer or callback is alive; one is, until the stop |
| AdaptivePoller.PollsAreSpaced | frontend/src/lib/adaptivePoller.js:52-58 | timer-driven polls are at least 3 seconds apart and the delays never shrink |
| AdaptivePoller.NothingStartsAfterStop | frontend/src/lib/adaptivePoller.js:67-71 | after the stop no task starts and no timer is set |
| AdaptivePoller.HiddenTabIsQuietUntilVisible | frontend/src/lib/adaptivePoller.js:40-62 | over every run in which the tab stays hidden no task starts, and becoming visible then starts exactly one, unless a task runs or polling stopped |
| ElectronicSign.ElectronicSignService.PrepareDocument | backend/src/modules/electronic-sign/electronic-sign.service.ts:47-142 | preparing creates or resets the transaction, but never a signed or locked one |
| ElectronicSign.ElectronicSignService.MarkDocumentViewed | backend/src/modules/electronic-sign/electronic-sign.service.ts:167-214 | records the first view, creating the transaction if needed |
| ElectronicSign.ElectronicSignService.SendSigningOtp | backend/src/modules/electronic-sign/electronic-sign.service.ts:231-320 | the guards of sending and the fields it writes |
| ElectronicSign.ElectronicSignService.VerifyOtpAndAccept | backend/src/modules/electronic-sign/electronic-sign.service.ts:340-459 | the guards of verifying, the failed-attempt counter, the signing lock and the integrity check |
| ElectronicSign.OtpBudget | backend/src/modules/electronic-sign/electronic-sign.service.ts:254-320 | over any sequence of requests at most 4 OTPs are sent, at least 60 seconds apart, and at most 20 wrong guesses are evaluated |
| ElectronicSign.SignedIsFinal | backend/src/modules/electronic-sign/electronic-sign.service.ts:351-365 | a signed transaction never changes again |
| ElectronicSign.SigningNeedsMatchingOtp | backend/src/modules/electronic-sign/electronic-sign.service.ts:367-459 | the step that signs is a verification with the last OTP sent, in its session, within its five minutes, after viewing and consent |
| ElectronicSign.SignsIff | backend/src/modules/electronic-sign/electronic-sign.service.ts:340-459 | in every unsigned run a request signs exactly when it is a verification with the last OTP sent, in its session, within 300000 ms, after fewer than five wrong guesses since, with an intact document and the row at OTP_SENT or SIGNING |
| ElectronicSign.WrongGuessIff | backend/src/modules/electronic-sign/electronic-sign.service.ts:375-402 | a guess is counted as wrong exactly when every guard holds, with fewer than five wrong guesses since the last OTP, and the OTP differs |
| ElectronicSign.SendsIff | backend/src/modules/electronic-sign/electronic-sign.service.ts:231-320 | an OTP is sent exactly when the document was viewed and is unsigned, consent is given, fewer than four were sent, and the last one is 60 seconds old; the row then has the first consent and the new OTP |
| ElectronicSign.FirstReasonIsGiven | backend/src/modules/electronic-sign/electronic-sign.service.ts:47-459 | a request is refused with the first reason that applies, in the order of the guards |
| ElectronicSign.PreparesIff | backend/src/modules/electronic-sign/electronic-sign.service.ts:47-142 | the exact condition of preparing, and the row it leaves |
| ElectronicSign.ViewsIff | backend/src/modules/electronic-sign/electronic-sign.service.ts:167-214 | the exact condition of viewing, the kept first view, and the status it leads to |
| ElectronicSign.SignedImpliesEvidence | backend/src/modules/electronic-sign/electronic-sign.service.ts:308-320 | in every reachable state signed implies viewed, consented and accepted in time |
| Redaction.SanitizedIsBounded | backend/src/common/utils/security.utils.ts:34-47 | redacted values nest only down to depth 4, with at most 50 entries per level and 500 characters per text |
| Redaction.SanitizeIsIdempotent | backend/src/common/utils/security.utils.ts:34-47 | redacting twice is redacting once |
| Redaction.SecretsDoNotShow | backend/src/common/utils/security.utils.ts:37-43 | values that differ only under sensitive keys, at any depth, have the same redaction |
| Redaction.UnchangedIff | backend/src/common/utils/security.utils.ts:34-47 | the values left as they are are exactly the small ones whose sensitive values already carry the mark |
| RedactionView.SensitiveIff | backend/src/common/utils/security.utils.ts:4-5 | a key is sensitive exactly when it spells one of the listed words at some place in any case, or one of the two pairs with at most one character between |
| RedactionView.VisibleStaysInPlace | backend/src/common/utils/security.utils.ts:34-47 | every value reached only through keys that are not sensitive, within the size limits, appears at the same path of the result |
| DashboardTotals.OutstandingAgrees | backend/src/modules/admin-dashboard/admin-dashboard.service.ts:87-198 | bucket amounts, portfolio receivable and per-lender outstanding have the same sum, and bucket counts are the open instalments |
| DashboardTotals.DisbursalsAgree | backend/src/modules/admin-dashboard/admin-dashboard.service.ts:69-73 | per-lender disbursed counts and amounts add up to the disbursal totals |
| DashboardTotals.JoinGivesOneRow | backend/src/modules/admin-dashboard/admin-dashboard.service.ts:131-134 | the inner join gives one row per open instalment and none for the others |
| DashboardTotals.OutstandingIsReceivable | backend/src/modules/admin-dashboard/admin-dashboard.service.ts:156-172 | pre-aggregating by loan and joining once per loan neither loses nor multiplies amounts |
| DashboardTotals.BucketsHoldTheirSpans | backend/src/modules/admin-dashboard/admin-dashboard.service.ts:122-128 | each of the five buckets holds the open amount and the number of open instalments of its own span of days past due |
| DashboardTotals.LendersHoldTheirLoans | backend/src/modules/admin-dashboard/admin-dashboard.service.ts:156-198 | each lender's figures are the open amounts, the disbursed amounts and the number of disbursed loans of that lender |
| DashboardTotals.SameLenders | backend/src/modules/admin-dashboard/admin-dashboard.service.ts:159-174 | outstanding and disbursed amounts are listed for the same lenders, in the same order, over the same loans |
| DashboardTotals.GroupKeysAreDistinct | backend/src/modules/admin-dashboard/admin-dashboard.service.ts:135 | grouping yields one row per key |

## Left out

- Provider clients, HTTP, files, PDF rendering, SMS, calls and messages: input and output behind other services.
- Hashing and randomness: HMAC, password hashes, OTP hashes and tokens are abstract or fresh values.
- Floating-point error in `Math.round`: rounding is of the exact quotient, so a binary quotient just below a half is not modelled.
- NameMatcher.MatchNames: text is a sequence of characters, not UTF-16 code units; upper-casing is exact for every character that can contribute a letter A to Z.
- RefreshSessions.AuthStore.Login: the password check and the failed-login lockout are not part of this model.
- RefreshSessions: transactions are serializable steps, and a refresh call that stops between two steps simply takes no further step.
- ClientServer: one tab and one cookie jar; two tabs share the cookie but not the pending refresh. UTM parameters and the start page's own reaction to a failed first refresh are left out.
- LenderDecisions.LenderDecisionProcessor.ProcessDecision: one application with its own rows; amounts and rates arrive as parsed numbers, so a malformed decimal is not modelled; the outgoing notification of a rejection is left out.
- CreditReview.CreditReviewService.ApproveApplication: KYC and address fields copied to the loan are left out.
- LenderProtocol: onboarding before the first decision is one step among the early statuses; eligibility runs, simulated lender approval, bank-verification rejection and loan closure, which write the status outside the protocol, are left out. The amount of a selected offer is any number and its tenure a positive number of days. A decision request reads the link in the step that writes it, whereas the code reads it just before its transaction, so two overlapping requests for different versions are not modelled.
- LenderProtocol.LoanOfApproved: does not say that a loan in force belongs to an approved application, because the code does not ensure it; `RejectedLoans.LoanInForceIffSpared` says exactly when it fails.
- LenderRejection.RejectionWebhook.ProcessNotice: a loan is only in force or cancelled; its other statuses, the audit event and the alternative names of payload fields are left out.
- PdfSlots: the shared browser and its relaunch are left out; only slots are modelled.
- AdaptivePoller: timers never fire before their delay and the clock does not go back.
- ElectronicSign: each request is one step, so two verifications overlapping inside one request are not modelled; document bytes, file storage and the whole-second precision of stored times are left out.
- Redaction: a text is cut at characters rather than code units, and the order of entries is the order given.
- DashboardTotals: application counts, collections, monthly trends and ratios are left out, as they add only easy sums; the order of lender rows is not modelled.
