# TrendFlow sessions and daily social statistics, in Dafny

This project models two services of the TrendFlow backend and proves properties about them.

**The member service's `AuthService`** (`auth_service.dfy`, module `AuthService`) handles social login sessions. It works over three stores:

- the session cache of `LoginRefreshToken` records, keyed by refresh token;
- the cache of `LoginAccessToken` records, keyed by access token;
- the member table's refresh-token column.

It has five operations:

- `login` exchanges an authorization code with the Kakao or Google client, then caches a session and a valid access record.
- `refresh` rotates a session through the Kakao client. It writes the new access record and the new session. Then it looks up the member, records the new refresh token on it, and re-saves the previous access token as invalid.
- `authAccessTokenToKakao` is the 1st-tier check. It asks the Kakao client whether the token still belongs to the stored platform user.
- `authAccessToken` is the 2nd-tier check. It tests validity and expiry.
- `logout` invalidates the current access record and deletes the session.

`login`, `refresh` and `logout` are pure functions from the stores to a `Reply` holding the new stores and a `Result`. The two checks write nothing: they are pure functions from the stores to an `Outcome`, which is either a pass or the error they throw. The provider clients, the common-code lookup and the clock are parameters.

**The analysis service's `getSocialData`** (`analyze_service.dfy`, module `AnalyzeService`) builds daily statistics from per-day, per-platform keyword counts and per-day sentiment counts:

- It folds the rows into two maps keyed by day (`setMentionCountInfo` and `setGrapeQuotientInfo` update one entry per row).
- It fills the day before the start with zeros when it has no entry.
- It walks the days from start to end inclusive. Each day gets a copy of the counts with a recomputed total, the sentiment counts, and two comparisons with the previous day: `compareKeywrodCount` on the mention totals and `compareSentimentCount` on positive minus negative.

The loop is a method, `CollectDays`, whose invariant is that each working map extends its folded table by zero entries only. Each folded table has an independent reference, "the last row for that day and platform wins" (`LastMention` and `LastSentiment`). Lemmas connect the folds to that reference.

`results.dfy` holds the shared `Option`, `Result` and `Outcome` types.

These points follow the code:

- `login` stores every session with platform code KAKAO, Google logins included. So `refresh` of such a session goes to the Kakao client.
- The 2nd-tier check reads the access expiry stored on the session, not the one on the access record.
- `refresh` of a Google session returns null and writes nothing.
- `refresh` of a session with any other code dereferences the unset provider answer.
- The re-saved previous access record points to the NEW refresh token.
- When the member row is missing, `refresh` fails after the new access record and the new session are already written, and the model keeps both writes.

## Model

AuthService.java = `backend/member/src/main/java/com/trendflow/member/auth/service/AuthService.java`; AnalyzeService.java = `backend/analyze/src/main/java/com/trendflow/analyze/analyze/service/AnalyzeService.java`.

| member | source | states |
|---|---|---|
| AuthService.Login | backend/member/src/main/java/com/trendflow/member/auth/service/AuthService.java:28-88 | An unknown platform code gives PLATFORM_FAIL with the stores unchanged. Login succeeds exactly when a provider is chosen and its access-token, user and member calls all answer. On success: the response carries the member name and the issued pair; the session under the refresh token records that token and the access token, both lifetimes, both absolute expiries (now plus lifetime), the member, the Kakao user id and platform code KAKAO; a valid access record sits under the access token; the member row holds the refresh token; no other cache entry changes. When the provider's access-token, user or member call fails, that call's own error is passed on with the stores unchanged. |
| AuthService.Refresh | backend/member/src/main/java/com/trendflow/member/auth/service/AuthService.java:90-154 | An unknown refresh token gives SEARCH_TOKEN_FAIL with the stores unchanged. The result is null exactly for a non-KAKAO, GOOGLE session. A session with any other code gives the null dereference, with the stores unchanged. When the Kakao client fails, its error is passed on with the stores unchanged. Nothing is written unless the Kakao client answered for a Kakao session. A rotation happens exactly when the client answered and the member exists. Then: the new session keeps the old absolute refresh expiry, member and platform user, and is marked KAKAO; the new access record is valid, unless the provider re-issued the previous access token, in which case the later invalidating write wins and the record is invalid; the previous access record is re-saved invalid with its old expiry; the member row holds the new refresh token; nothing else changes. A missing member gives KAKAO_GET_TOKEN_FAIL. It keeps the two writes already made: the new session as above, and the new access record in full (valid, now plus its lifetime, pointing to the new refresh token). The members are unchanged. |
| AuthService.AuthAccessToken | backend/member/src/main/java/com/trendflow/member/auth/service/AuthService.java:188-201 | Passes exactly when the access record exists, is valid, its session exists, and the clock is not after the session's access expiry. Otherwise it fails with INVALID_TOKEN_FAIL. |
| AuthService.AuthAccessTokenToKakao | backend/member/src/main/java/com/trendflow/member/auth/service/AuthService.java:157-178 | Passes exactly when the access record exists and is valid, its session exists (no clock test), and, for a Kakao session, the Kakao client names the stored platform user. A Kakao client failure is passed on as its error; every other failure is INVALID_TOKEN_FAIL. |
| AuthService.Logout | backend/member/src/main/java/com/trendflow/member/auth/service/AuthService.java:203-232 | Succeeds exactly when the session and its current access record exist; otherwise SEARCH_TOKEN_FAIL with the stores unchanged. On success: the access record is re-saved with only its validity cleared; the session is gone; nothing else changes. |
| AuthService.LoginThenAuth | backend/member/src/main/java/com/trendflow/member/auth/service/AuthService.java:57-76 | The access token a login issues passes the 2nd-tier check at exactly the instants up to now plus the provider's access lifetime. |
| AuthService.LoginThenFirstTier | backend/member/src/main/java/com/trendflow/member/auth/service/AuthService.java:57-67 | The access token a login issues passes the 1st-tier check exactly when the Kakao client names the user the login resolved. This holds whichever provider the login used, because the session is stored as KAKAO. |
| AuthService.LoginThenRefreshUsesKakao | backend/member/src/main/java/com/trendflow/member/auth/service/AuthService.java:57-67 | Because the session is stored as KAKAO, a refresh after any successful login, Google included, never answers null. When the Kakao client fails, refresh fails with that client's error. |
| AuthService.RefreshRevokesPrevious | backend/member/src/main/java/com/trendflow/member/auth/service/AuthService.java:141-148 | After a successful rotation the previous access token fails both checks, at every instant. |
| AuthService.RefreshedTokenAuth | backend/member/src/main/java/com/trendflow/member/auth/service/AuthService.java:113-133 | The rotated access token passes the 2nd-tier check exactly up to now plus its lifetime. If the provider re-issued the previous access token, it never passes, because the invalidating write comes last. |
| AuthService.RefreshChainKeepsSessionEnd | backend/member/src/main/java/com/trendflow/member/auth/service/AuthService.java:123-133 | After any number of successive refreshes, the session the client holds keeps the absolute refresh expiry of the session it started from. |
| AuthService.LogoutEndsSession | backend/member/src/main/java/com/trendflow/member/auth/service/AuthService.java:222-231 | After logout the current access token fails the 2nd-tier check at every instant, and a second logout with the same token gives SEARCH_TOKEN_FAIL. |
| AuthService.LoginKeepsWellformed | backend/member/src/main/java/com/trendflow/member/auth/service/AuthService.java:57-80 | Login keeps the store invariant: each record is stored under its own token and every session is marked KAKAO. |
| AuthService.RefreshKeepsWellformed | backend/member/src/main/java/com/trendflow/member/auth/service/AuthService.java:113-148 | Refresh keeps the store invariant, also when it stops at the member lookup. |
| AuthService.LogoutKeepsWellformed | backend/member/src/main/java/com/trendflow/member/auth/service/AuthService.java:222-231 | Logout keeps the store invariant. |
| AuthService.WellformedRefreshIsKakao | backend/member/src/main/java/com/trendflow/member/auth/service/AuthService.java:96-139 | In a well-formed store, refreshing a cached session always reaches the Kakao client. A client failure is passed on with nothing written. A client answer rotates when the member exists, and gives KAKAO_GET_TOKEN_FAIL when it does not. |
| AnalyzeService.SetMentionCountInfo | backend/analyze/src/main/java/com/trendflow/analyze/analyze/service/AnalyzeService.java:279-290 | The count of the platform the code selects (DAUM, then NAVER, then TWITTER) becomes the row's count. The other counts are kept, and no platform changes for an unknown code. The total equals the sum of the three. |
| AnalyzeService.SetGrapeQuotientInfo | backend/analyze/src/main/java/com/trendflow/analyze/analyze/service/AnalyzeService.java:292-298 | The count of the score's sign becomes the row's count; the other two are kept. |
| AnalyzeService.MentionTableLastRowWins | backend/analyze/src/main/java/com/trendflow/analyze/analyze/service/AnalyzeService.java:114-129 | The folded keyword map holds exactly the days that have rows. Each platform's count is that of the last row for the day and platform (0 if none): later rows overwrite, they do not add. The total is the sum. |
| AnalyzeService.SentimentTableLastRowWins | backend/analyze/src/main/java/com/trendflow/analyze/analyze/service/AnalyzeService.java:131-144 | The folded sentiment map holds exactly the days that have rows. Each sign's count is that of the last row for the day and sign. |
| AnalyzeService.LastMentionAbsent | backend/analyze/src/main/java/com/trendflow/analyze/analyze/service/AnalyzeService.java:121-127 | A day without rows has count 0 on every platform in the reference. |
| AnalyzeService.LastSentimentAbsent | backend/analyze/src/main/java/com/trendflow/analyze/analyze/service/AnalyzeService.java:137-142 | A day without rows has count 0 for every sign in the reference. |
| AnalyzeService.CompareCounts | backend/analyze/src/main/java/com/trendflow/analyze/analyze/service/AnalyzeService.java:231-253 | UP exactly when the count grew, SAME exactly when it held, DOWN otherwise. Adding the change (negated for DOWN) to the previous count gives the current one, so the change is the non-negative distance between the two counts. |
| AnalyzeService.CompareKeywordCount | backend/analyze/src/main/java/com/trendflow/analyze/analyze/service/AnalyzeService.java:231-253 | UP exactly when the mention total grew, SAME exactly when it held, DOWN otherwise. Adding the change (negated for DOWN) to the previous total gives the current one. |
| AnalyzeService.CompareSentimentCount | backend/analyze/src/main/java/com/trendflow/analyze/analyze/service/AnalyzeService.java:255-277 | The same rule on positive minus negative of the previous and the current day. |
| AnalyzeService.CompareCountsAntisymmetric | backend/analyze/src/main/java/com/trendflow/analyze/analyze/service/AnalyzeService.java:238-247 | Swapping the two days gives the same change; UP and DOWN are exchanged and SAME is kept. |
| AnalyzeService.GetSocialData | backend/analyze/src/main/java/com/trendflow/analyze/analyze/service/AnalyzeService.java:101-229 | One entry per day from start to end inclusive (none when start is after end), in consecutive date order. Entry i is the expected entry for day start+i: the day's counts with a recomputed total, or zeros; its sentiment counts, or zeros; and both comparisons with the day before. |
| AnalyzeService.Fill | backend/analyze/src/main/java/com/trendflow/analyze/analyze/service/AnalyzeService.java:150-165 | After the contains-else-put-zero step the day is present. Its entry is the table's entry or zero. The map still extends the table by zero entries only, and no day is lost. |
| AnalyzeService.EmitDay | backend/analyze/src/main/java/com/trendflow/analyze/analyze/service/AnalyzeService.java:168-226 | One pass of the day loop emits the expected entry for the day. Both maps keep extending their tables by zero entries, and now hold the day. |
| AnalyzeService.CollectDays | backend/analyze/src/main/java/com/trendflow/analyze/analyze/service/AnalyzeService.java:147-228 | The start-1 zero fill and the day loop produce end-start+1 entries, and entry i is the expected entry for day start+i. |
| AnalyzeService.MentionOnFromRows | backend/analyze/src/main/java/com/trendflow/analyze/analyze/service/AnalyzeService.java:114-129 | Read back from the folded map, a day's platform counts are the last rows' counts and its total is the day total computed from the rows. A day without rows reads as zeros. |
| AnalyzeService.GrapeOnFromRows | backend/analyze/src/main/java/com/trendflow/analyze/analyze/service/AnalyzeService.java:131-144 | Read back from the folded map, a day's sign counts are the last rows' counts and its balance is the one computed from the rows. A day without rows reads as zeros. |
| AnalyzeService.MentionDayFromRows | backend/analyze/src/main/java/com/trendflow/analyze/analyze/service/AnalyzeService.java:168-214 | In terms of the rows alone, a day's entry has: the day's date; the last rows' platform counts and their sum as total (zeros without rows); and the mention comparison of the previous day's row total with this day's. |
| AnalyzeService.SentimentDayFromRows | backend/analyze/src/main/java/com/trendflow/analyze/analyze/service/AnalyzeService.java:194-214 | In terms of the rows alone, a day's entry has the last rows' sign counts (zeros without rows), and its sentiment comparison is that of the previous day's row balance with this day's. |
| AnalyzeService.CompareCountsAsWritten | backend/analyze/src/main/java/com/trendflow/analyze/analyze/service/AnalyzeService.java:238-247 | The rule with SAME decided by reference equality of boxed Integers. The change is still non-negative, and SAME still implies equal counts. |
| AnalyzeService.AsWrittenDepartsOnlyOutsideCache | backend/analyze/src/main/java/com/trendflow/analyze/analyze/service/AnalyzeService.java:241-247 | The comparison as written differs from the intended rule exactly on equal counts outside [-128, 127], and on those it reports DOWN by 0. |
| AnalyzeService.EqualBusyDaysReportedDown | backend/analyze/src/main/java/com/trendflow/analyze/analyze/service/AnalyzeService.java:235-247 | Two days with 200 mentions each: DOWN by 0 as written, SAME by 0 as intended. |

## Left out

- Provider clients (Kakao and Google access-token, user, member, refresh and token-info calls) are parameters: total functions that answer with a value or an error, which the operations pass on. `CommonService.getLocalCode` is a parameter (`PlatformCodes`).
- The `expireToken` revocation calls in logout (AuthService.java:214-220) are external and do nothing to the modelled stores, so they are omitted. A failing call is omitted too; it is not caught, so it would stop logout before either write (AuthService.java:223, 231).
- Cache entry time-to-live and eviction, and the repositories' `saveLogin`, `saveRefresh`, `save` and `delete`, are not part of this model. They are modelled as put-by-own-token and remove. In particular, `refresh` does not delete the old session, and the model keeps it.
- AuthService.RefreshChainKeepsSessionEnd: nothing in the service reads `refreshExpire` (written at AuthService.java:60, carried at :126) or compares it with the clock, so the model lets a client refresh a login past its refresh expiry indefinitely; whether refreshing stops at the end of the session depends on the cache time-to-live, which is left out. The lemma states only that the absolute expiry is carried unchanged.
- AuthService.AuthAccessTokenToKakao: the Google branch of the 1st-tier check (AuthService.java:180-184) is unfinished code that does not compile. Sessions of any code other than KAKAO pass once the lookups succeed.
- `login` calls `LocalDateTime.now()` several times, and `refresh` calls it twice (AuthService.java:116, 129). The model uses one instant, `now`, per operation: an int in seconds, with `isAfter` as `>`.
- A provider answering null (a NullPointerException in `login`, in `refresh` at AuthService.java:115, or in the 1st-tier check at AuthService.java:175) is not modelled; the clients answer a value or an error.
- The keyword and sentiment queries (`keywordService.getKeywordCount`, `getKeyword`, `sentimentRepository.findBySourceIdIn`) and their date windows are external. Their rows are parameters, and dates are day numbers.
- The `Double` sentiment score is modelled by its sign. A NaN score tests neither `> 0.0` nor `< 0.0` and counts as neutral, which is the `Neutral` case.
- AnalyzeService.SetMentionCountInfo: `Long.intValue` truncation and 32-bit overflow of the sums are not modelled, because counts are unbounded integers.
- AnalyzeService.SetGrapeQuotientInfo: `Long.intValue` truncation of the row count (AnalyzeService.java:293-295) is not modelled, because counts are unbounded integers.
- AnalyzeService.CompareCounts: compares by value. It is the corrected rule; the code as written is `CompareCountsAsWritten` (see Findings). The changes `now - past` and `past - now` (AnalyzeService.java:240, 246, 264, 270) are unbounded. In Java they are 32-bit and wrap when the two counts are far apart. So the non-negative change this contract promises holds only while no wrap-around occurs.
- AnalyzeService.CompareKeywordCount: SAME on equal totals holds for the code as written only while both totals lie in -128..127, because AnalyzeService.java:241 compares boxed `Integer`s by reference (see Findings); this contract and `GetSocialData`, which uses it, state the comparison by value. The changes at AnalyzeService.java:240 and 246 do not model 32-bit wrap-around.
- AnalyzeService.CompareSentimentCount: the balances positive minus negative (AnalyzeService.java:259-260) are unbounded and do not model 32-bit wrap-around. SAME on equal balances holds for the code as written only while both balances lie in -128..127, because AnalyzeService.java:265 compares boxed `Integer`s by reference (see Findings); this contract and `GetSocialData`, which uses it, state the comparison by value.
- AnalyzeService.EmitDay: the recomputed total daum + naver + twitter (AnalyzeService.java:182) is unbounded and does not model 32-bit wrap-around. The same holds for `DayCounts` and `GetSocialData`, which emit that total.
- The other public operations of AnalyzeService (AnalyzeService.java:54-99) only pass through to other services or are stubs, and are outside this model. The frontend files and `CommonCode` are not part of this model.

## Findings

| source | as written | input that shows it | evidently intended | confidence | as-written member | corrected member |
|---|---|---|---|---|---|---|
| backend/analyze/src/main/java/com/trendflow/analyze/analyze/service/AnalyzeService.java:241 | `nowTotal == pastTotal` (and `nowGrape == pastGrape` at line 265) compares two boxed `Integer` objects by reference. Equal values are the same object only inside the `Integer.valueOf` cache, [-128, 127] by default. | previous day total 200, current day total 200: reported DOWN with change 0 | SAME with change 0 whenever the two values are equal | medium (a JVM may widen the cache); not executed, not reproduced on a JVM | AnalyzeService.CompareCountsAsWritten | AnalyzeService.CompareCounts |
