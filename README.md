# memory_BE core, modelled in Dafny

memory_BE is a back end for shared family photo albums. The repository holds two
programs, and this project models the decision logic of both:

- **The image-URL relay** is a small Python FastAPI service (`app/api/v1`). It
  receives an image URL and percent-encodes a non-ASCII path. It downloads the
  image, has it analysed and questions generated, then projects the questions
  into the shape the Spring back end expects. Finally it saves the result to a
  timestamped file and forwards it to the back end, ignoring how both go.
- **The Spring back end** (`com.min.i.memory_BE`) covers:
  - accounts: mail-verified registration, login with a lockout counter, OAuth
    linking for Naver, Kakao and Google;
  - groups: owner and member roles, invite codes, a per-user sort order;
  - albums, with their permission rules;
  - media items with paging and recent lists;
  - image analysis, which turns FastAPI's labels and objects into keywords and
    stores the generated questions;
  - questions and answers (text, or speech transcribed by Google STT);
  - generated stories, at most one per media item;
  - S3 key and URL handling.

Every repository becomes a class whose fields are maps from id to row. Services
that change the tables are methods with `modifies` clauses. Each such method is
proved against a specification function of the old tables, and the properties
the code promises are lemmas about those functions. A `@Transactional` method
that fails leaves the tables as they were; where the source has no transaction
spanning a handler, the model keeps its partial writes.

Everything outside the program is a parameter of the operation that uses it:
HTTP, S3, FastAPI, Google STT, mail transport, the JWT parser, the password
encoder, the clock, UUIDs and `Math.random`. A Java exception is an `Err` of a
`Result`. `null` is `None`.

The files:

- `common.dfy`: Option, Result, JSON values, exceptions, and the JDK string functions used (indexOf, toLowerCase, trim, Long.valueOf, String.join)
- `relay_url.dfy`, `relay_utils.dfy`, `relay_routes.dfy`: the Python relay: URL normaliser and UTF-8 percent-encoding, result naming and forwarding, the request handler
- `user_entity.dfy`, `user_repository.dfy`, `user_service.dfy`: the User entity and its mail-status lifecycle, UserRepository, UserService
- `email_service.dfy`, `login_controller.dfy`: EmailService and LoginController
- `oauth_repository.dfy`, `oauth_service.dfy`: OAuthAccountRepository and OAuthService
- `group_repository.dfy`, `group_service.dfy`: GroupRepository, UserGroupRepository and GroupService
- `album_entity.dfy`, `album_service.dfy`, `s3_storage.dfy`: the Album entity, AlbumService, S3Service
- `content_store.dfy`: the album, media, question, answer, story and keyword tables
- `media_service.dfy`, `media_analysis.dfy`, `media_controllers.dfy`: MediaService, MediaAnalysisService, TestController and ImageAnalysisController
- `question_service.dfy`, `answer_service.dfy`, `story_service.dfy`: QuestionService, AnswerService and AnswerController, StoryService
- `audio_converter.dfy`, `speech_to_text.dfy`: AudioFormatConverter and SpeechToTextService

## Model

| member | source | states |
|---|---|---|
| `RelayUrl.EncodeChar` | app/api/v1/routes.py:29 | one to four UTF-8 bytes per character; ASCII is one byte of the same value; longer forms start with a lead byte and continue with continuation bytes |
| `RelayUrl.DecodeFirst` | app/api/v1/routes.py:29 | decoding the front of a byte string consumes between one byte and the whole input |
| `RelayUrl.DecodeEncodedChar` | app/api/v1/routes.py:29 | the first character decoded from an encoded character followed by anything is that character, consuming exactly its encoding |
| `RelayUrl.Utf8RoundTrip` | app/api/v1/routes.py:29 | strict UTF-8 decoding undoes encoding for every string |
| `RelayUrl.UnquoteQuoteBytes` | app/api/v1/routes.py:29 | percent-decoding the percent-encoded bytes gives the same bytes back |
| `RelayUrl.QuoteRoundTrip` | app/api/v1/routes.py:29 | unquote(quote(path)) is the original path, for every path |
| `RelayUrl.QuoteBytesWellQuoted` | app/api/v1/routes.py:29 | quoting yields only safe ASCII characters and %XX triples in upper-case hex |
| `RelayUrl.NormaliseKeeps` | app/api/v1/routes.py:23-27 | a path that already holds '%' or is pure ASCII leaves the URL unchanged |
| `RelayUrl.NormaliseRewrites` | app/api/v1/routes.py:27-33 | a path with non-ASCII text and no '%' is rebuilt as scheme "://" netloc + the quoted path, plus "?" query when the query is non-empty; the quoted path is pure ASCII and decodes back to the original path |
| `RelayUtils.Pad2` | app/api/v1/utils.py:16 | two digits whose decimal value is the number |
| `RelayUtils.TimestampShape` | app/api/v1/utils.py:16 | for a four-digit year the timestamp is 15 characters: eight digits, '_', six digits |
| `RelayUtils.ResultFileName` | app/api/v1/utils.py:17 | the file name starts with the prefix and '_' and ends in ".json" |
| `RelayUtils.SaveAnalysisResult` | app/api/v1/utils.py:14-27 | the joined path when the write succeeds, "" when it raises |
| `RelayUtils.SavedUnderResultsDir` | app/api/v1/utils.py:18 | a prefix not starting with '/' keeps the file inside the results directory |
| `RelayUtils.RequestShape` | app/api/v1/utils.py:32-51 | the POST goes to BACKEND_URL (default http://localhost:8080) + endpoint, always with a JSON content type, with "Authorization: Bearer token" exactly when the token is present and non-empty, and with the data as body |
| `RelayUtils.Classify` | app/api/v1/utils.py:53-72 | status >= 400 is a failure carrying the status; below 400 a success with the parsed body, or {} for an empty body; a raised exception, or a non-empty body that is not JSON, is a failure with a message and no status |
| `RelayRoutes.ProjectQuestion` | app/api/v1/routes.py:79-83 | succeeds exactly when the entry is an object with category, level and question, and copies those three fields |
| `RelayRoutes.ProjectQuestions` | app/api/v1/routes.py:78-84 | succeeds exactly when every entry projects; then one projected entry per generated question, in order |
| `RelayRoutes.FileNameOf` | app/api/v1/routes.py:88 | the extracted file name holds neither '/' nor '?' |
| `RelayRoutes.AnalyzeImageFromUrl` | app/api/v1/routes.py:1-115 | every failure is one of the five error responses, which carry the four error codes MISSING_IMAGE_URL, DOWNLOAD_FAILED, ANALYSIS_FAILED and UNKNOWN_ERROR, each with its status; an answer is given exactly when all five steps ran |
| `RelayRoutes.EmptyUrlRejected` | app/api/v1/routes.py:7-14 | an empty image_url is a 400 MISSING_IMAGE_URL with no effect |
| `RelayRoutes.DownloadFailureStops` | app/api/v1/routes.py:36-56 | a non-200 download or a request error is a 400 DOWNLOAD_FAILED after the download alone; nothing is analysed |
| `RelayRoutes.FailuresAfterDownload` | app/api/v1/routes.py:58-115 | a vision failure is a 500 ANALYSIS_FAILED; a failure to generate or project questions is a 500 UNKNOWN_ERROR |
| `RelayRoutes.SuccessShape` | app/api/v1/routes.py:73-101 | the answer holds the analysis and one projected entry per generated question |
| `RelayRoutes.ResultIgnoresSaveAndForward` | app/api/v1/routes.py:87-101 | the answer does not depend on whether saving the file or forwarding to the back end succeeded |
| `UserEntity.User.constructor` | src/main/java/com/min/i/memory_BE/domain/user/entity/User.java:45-72 | every field exactly as passed (mailStatus included, overriding the UNVERIFIED default); status is ACTIVE |
| `UserEntity.User.CreateTemporaryUser` | src/main/java/com/min/i/memory_BE/domain/user/entity/User.java:81-94 | UNVERIFIED with the given email, code and expiry; no password or profile image; name "ex" |
| `UserEntity.User.CompleteEmailVerification` | src/main/java/com/min/i/memory_BE/domain/user/entity/User.java:74-79 | VERIFIED, code and expiry cleared, email, password, name and image unchanged |
| `UserEntity.User.CompleteRegistration` | src/main/java/com/min/i/memory_BE/domain/user/entity/User.java:96-102 | REGISTERED with password, name and image replaced; email and the code fields unchanged |
| `UserEntity.User.Row` | src/main/java/com/min/i/memory_BE/domain/user/entity/User.java:31-52 | an insert is possible exactly when the not-null columns email, name and mailStatus are set; the row copies the fields, with status ACTIVE and no failed logins or lock |
| `UserEntity.Lifecycle` | src/main/java/com/min/i/memory_BE/domain/user/entity/User.java:74-102 | temporary, verified, registered in order ends REGISTERED with the same email, no code and a storable row |
| `UserRepo.CleanedUp` | src/main/java/com/min/i/memory_BE/domain/user/repository/UserRepository.java:18-20 | the cleanup keeps exactly the rows that are not (UNVERIFIED with an expiry before now), unchanged |
| `UserRepo.CleanupIdempotent` | src/main/java/com/min/i/memory_BE/domain/user/repository/UserRepository.java:18-20 | a second cleanup at the same instant deletes nothing |
| `UserRepo.CleanupMonotone` | src/main/java/com/min/i/memory_BE/domain/user/repository/UserRepository.java:18-20 | a later cleanup deletes at least as much, and never deletes a verified or registered user |
| `UserRepo.UserRepository.constructor` | src/main/java/com/min/i/memory_BE/domain/user/repository/UserRepository.java:13 | an empty, well-formed table |
| `UserRepo.UserRepository.FindByEmail` | src/main/java/com/min/i/memory_BE/domain/user/repository/UserRepository.java:16 | the row stored under the email, or none exactly when there is none |
| `UserRepo.UserRepository.Update` | src/main/java/com/min/i/memory_BE/domain/user/repository/UserRepository.java:13 | save of a stored row replaces it under the same email and id; ids keep being unique |
| `UserRepo.UserRepository.Insert` | src/main/java/com/min/i/memory_BE/domain/user/repository/UserRepository.java:13 | save of a new row gives it the next id; a duplicate email is refused and changes nothing |
| `UserRepo.UserRepository.Delete` | src/main/java/com/min/i/memory_BE/domain/user/repository/UserRepository.java:13 | removes exactly the row under the email |
| `UserRepo.UserRepository.DeleteExpiredUsers` | src/main/java/com/min/i/memory_BE/domain/user/repository/UserRepository.java:18-20 | the table becomes CleanedUp of the old table |
| `UserService.UnlockStep` | src/main/java/com/min/i/memory_BE/domain/user/service/UserService.java:175-189 | an unknown email changes nothing; otherwise lock flag false, count 0, lockedUntil null, every other column and every other row unchanged |
| `UserService.IncrementStep` | src/main/java/com/min/i/memory_BE/domain/user/service/UserService.java:153-173 | an unknown email gives 0 and no change; otherwise the stored count is old + 1 and returned, locked iff it reaches 5, lockedUntil now + 30 minutes when locking and otherwise unchanged |
| `UserService.LockCheck` | src/main/java/com/min/i/memory_BE/domain/user/service/UserService.java:139-151 | locked iff the user exists, is flagged and the lock has not ended before now; an ended lock is lifted as by unlockAccount, nothing else changes |
| `UserService.UnlockIdempotent` | src/main/java/com/min/i/memory_BE/domain/user/service/UserService.java:175-189 | unlocking twice is unlocking once |
| `UserService.LockHoldsUntilExpiry` | src/main/java/com/min/i/memory_BE/domain/user/service/UserService.java:139-173 | the increment that reaches five locks the account for exactly 30 minutes; after that the check unlocks and clears the count |
| `UserService.UpdatedUser` | src/main/java/com/min/i/memory_BE/domain/user/service/UserService.java:193-225 | unknown email and a new password equal to the current one are IllegalArgument errors; a failed upload is an error; otherwise null fields keep the old value and a new password is stored encoded |
| `UserService.Deactivated` | src/main/java/com/min/i/memory_BE/domain/user/service/UserService.java:293-310 | any existing account becomes INACTIVE with the rest of the row kept; an unknown one is IllegalArgument |
| `UserService.Activated` | src/main/java/com/min/i/memory_BE/domain/user/service/UserService.java:313-335 | succeeds exactly for an existing INACTIVE account and makes it ACTIVE; the two error cases carry their messages |
| `UserService.DeactivateThenActivate` | src/main/java/com/min/i/memory_BE/domain/user/service/UserService.java:293-335 | deactivating an ACTIVE account and activating it restores the row; activating an ACTIVE account fails |
| `UserService.VerifyPasswordResetCode` | src/main/java/com/min/i/memory_BE/domain/user/service/UserService.java:242-264 | true iff the token parses, its email and code equal the given ones, its type is PASSWORD_RESET and now is before its expiry |
| `UserService.VerifyEmail` | src/main/java/com/min/i/memory_BE/domain/user/service/UserService.java:65-88 | a token exactly when the entered code equals the token's code before its expiry; it is marked verified and keeps the email, the code and the parsed expiry |
| `UserService.UnlockAccount` | src/main/java/com/min/i/memory_BE/domain/user/service/UserService.java:175-189 | the table becomes UnlockStep of the old table |
| `UserService.IncrementLoginAttempts` | src/main/java/com/min/i/memory_BE/domain/user/service/UserService.java:153-173 | the count and the new table are IncrementStep of the old table |
| `UserService.IsAccountLocked` | src/main/java/com/min/i/memory_BE/domain/user/service/UserService.java:139-151 | the answer and the new table are LockCheck of the old table |
| `UserService.UpdateUser` | src/main/java/com/min/i/memory_BE/domain/user/service/UserService.java:192-225 | returns UpdatedUser; stores the row on success and leaves the table unchanged on an exception |
| `UserService.DeactivateUser` | src/main/java/com/min/i/memory_BE/domain/user/service/UserService.java:292-310 | returns Deactivated and stores it on success only |
| `UserService.ActivateUser` | src/main/java/com/min/i/memory_BE/domain/user/service/UserService.java:312-335 | returns Activated and stores it on success only |
| `EmailService.GetMailSender` | src/main/java/com/min/i/memory_BE/domain/user/service/EmailService.java:124-132 | the gmail sender iff the address ends "@gmail.com", the naver sender iff it ends "@naver.com" and not the former, an error iff neither |
| `EmailService.VerificationCode` | src/main/java/com/min/i/memory_BE/domain/user/service/EmailService.java:119-121 | one to six digits, value at most 999999, no leading zero except "0" itself |
| `EmailService.EveryCodeReachable` | src/main/java/com/min/i/memory_BE/domain/user/service/EmailService.java:119-121 | every number below 1000000 is the code of some random value, and codes below 100000 are shorter than six digits |
| `EmailService.SendSpec` | src/main/java/com/min/i/memory_BE/domain/user/service/EmailService.java:37-116 | a REGISTERED or VERIFIED address gives false with nothing saved; otherwise the temporary user, valid for fifteen minutes, replaces an UNVERIFIED one; true only for a supported domain whose send completes |
| `EmailService.UnsupportedDomainKeepsTemporaryUser` | src/main/java/com/min/i/memory_BE/domain/user/service/EmailService.java:64-70 | for an unsupported domain the temporary user is already stored when the method returns false |
| `EmailService.SendVerificationCode` | src/main/java/com/min/i/memory_BE/domain/user/service/EmailService.java:37-116 | the answer and the new table are SendSpec of the old table, with the generated code |
| `LoginController.WrongPasswordBody` | src/main/java/com/min/i/memory_BE/domain/user/controller/LoginController.java:141-146 | the 401 body ends with the new count "/5)" |
| `LoginController.LoginSpec` | src/main/java/com/min/i/memory_BE/domain/user/controller/LoginController.java:59-152 | an unknown email is 401 with no change; only the row of the email may change, and only its login-lock columns |
| `LoginController.LockedIgnoresPassword` | src/main/java/com/min/i/memory_BE/domain/user/controller/LoginController.java:69-76 | a lock that has not ended gives 423 with the minutes left, whatever the password, and changes nothing |
| `LoginController.WrongPasswordCounts` | src/main/java/com/min/i/memory_BE/domain/user/controller/LoginController.java:141-146 | a bad password increments the counter and reports the new count with 401 |
| `LoginController.InactiveKeepsCounter` | src/main/java/com/min/i/memory_BE/domain/user/controller/LoginController.java:109-123 | an INACTIVE user's successful login returns the warning with both cookies and does not reset the counter |
| `LoginController.SuccessResetsCounter` | src/main/java/com/min/i/memory_BE/domain/user/controller/LoginController.java:125-139 | any other successful login unlocks the account and clears the counter before the 200 |
| `LoginController.LoginCookieLifetimes` | src/main/java/com/min/i/memory_BE/domain/user/controller/LoginController.java:92-106 | a successful login sets the access cookie for 3600 s and the refresh cookie for 604800 s |
| `LoginController.BadLogins` | src/main/java/com/min/i/memory_BE/domain/user/controller/LoginController.java:141-146 | a sequence of bad-password logins gives one response per attempt |
| `LoginController.BadLoginsCount` | src/main/java/com/min/i/memory_BE/domain/user/controller/LoginController.java:141-146 | below the lock threshold each bad password reports the running count and the counter grows by one per attempt |
| `LoginController.FiveWrongPasswordsLock` | src/main/java/com/min/i/memory_BE/domain/user/controller/LoginController.java:69-76 | five bad passwords from zero report 1/5 to 5/5 and lock the account until 30 minutes after the fifth |
| `LoginController.LockedUntilExpiry` | src/main/java/com/min/i/memory_BE/domain/user/controller/LoginController.java:69-76 | after five bad passwords every login is 423 until the lock ends; afterwards a bad password counts from 1 again |
| `LoginController.Login` | src/main/java/com/min/i/memory_BE/domain/user/controller/LoginController.java:59-152 | the response and the new table are LoginSpec of the old table |
| `LoginController.Logout` | src/main/java/com/min/i/memory_BE/domain/user/controller/LoginController.java:155-198 | cookies cleared only for a present and valid access token, both with max-age 0 and empty value; no token is 401 |
| `LoginController.Refresh` | src/main/java/com/min/i/memory_BE/domain/user/controller/LoginController.java:210-246 | a new access cookie iff the refresh token validates and the email and token are produced; an invalid token is 401; an exception is 500 |
| `OAuthRepo.OAuthAccountRepository.constructor` | src/main/java/com/min/i/memory_BE/domain/user/repository/OAuthAccountRepository.java:11 | an empty, well-formed account table |
| `OAuthRepo.OAuthAccountRepository.FindByProviderAndProviderUserId` | src/main/java/com/min/i/memory_BE/domain/user/repository/OAuthAccountRepository.java:17 | the account stored under (provider, providerUserId), none exactly when there is none or the id is null |
| `OAuthRepo.OAuthAccountRepository.Update` | src/main/java/com/min/i/memory_BE/domain/user/repository/OAuthAccountRepository.java:11 | save of a stored account replaces it under the same key and id |
| `OAuthRepo.OAuthAccountRepository.Insert` | src/main/java/com/min/i/memory_BE/domain/user/repository/OAuthAccountRepository.java:11 | save of a new account gives it the next id; a second account for the same (provider, providerUserId) is refused, so the pair stays unique |
| `OAuthService.AuthParams` | src/main/java/com/min/i/memory_BE/domain/user/service/OAuthService.java:84-108 | every provider sends response_type, client_id and redirect_uri; NAVER and GOOGLE send state and KAKAO does not; only GOOGLE sends access_type=offline and prompt=consent |
| `OAuthService.Pairs` | src/main/java/com/min/i/memory_BE/domain/user/service/OAuthService.java:84-108 | one "key=value" text per parameter, in order |
| `OAuthService.KakaoAuthUrl` | src/main/java/com/min/i/memory_BE/domain/user/service/OAuthService.java:92-96 | the Kakao URL is the authorisation URL, "?", and response_type, client_id and redirect_uri joined by "&" |
| `OAuthService.NaverAuthUrl` | src/main/java/com/min/i/memory_BE/domain/user/service/OAuthService.java:86-91 | the Naver URL adds state after the three common parameters |
| `OAuthService.StringField` | src/main/java/com/min/i/memory_BE/domain/user/service/OAuthService.java:251-280 | a missing key or a JSON null reads as null; a string is read as is; any other value is a ClassCastException |
| `OAuthService.StringFieldOr` | src/main/java/com/min/i/memory_BE/domain/user/service/OAuthService.java:251-280 | getOrDefault: the default for a missing key, otherwise as StringField |
| `OAuthService.MapField` | src/main/java/com/min/i/memory_BE/domain/user/service/OAuthService.java:258-264 | succeeds exactly for a nested JSON object |
| `OAuthService.AccessTokenFrom` | src/main/java/com/min/i/memory_BE/domain/user/service/OAuthService.java:135-213 | a missing body or a body without "access_token" is "Failed to fetch access token for" the provider, for every provider; a string token is returned |
| `OAuthService.ExtractProfile` | src/main/java/com/min/i/memory_BE/domain/user/service/OAuthService.java:251-280 | Kakao profiles carry the placeholder email "Email not provided"; Naver reads the email from "response"; Google from the top level |
| `OAuthService.ProfileDefaults` | src/main/java/com/min/i/memory_BE/domain/user/service/OAuthService.java:258-277 | missing fields give "Naver User" or "Google User" and "default-profile-img-url" |
| `OAuthService.DraftFor` | src/main/java/com/min/i/memory_BE/domain/user/service/OAuthService.java:294-300 | the new user's emailVerified is true iff the email is non-null and non-empty |
| `OAuthService.SaveOrUpdateSpec` | src/main/java/com/min/i/memory_BE/domain/user/service/OAuthService.java:282-312 | an existing account gets only a new token and expiry now + 1 h; otherwise exactly one account linked to the user with that email is added; no user is ever changed; a user that would have to be created has no mail status, so the not-null column makes the save fail |
| `OAuthService.IntendedNewUser` | src/main/java/com/min/i/memory_BE/domain/user/entity/User.java:42-44 | the user the sign-up evidently means to create: the profile's email, name and picture, mailStatus UNVERIFIED and status ACTIVE |
| `OAuthService.SaveOrUpdateIntended` | src/main/java/com/min/i/memory_BE/domain/user/service/OAuthService.java:282-312 | agrees with SaveOrUpdateSpec wherever no user is created; an unknown email with a name creates that user under the next id; a new account is stored exactly when its user is found or created; a failure stores no account |
| `OAuthService.NewUserIsCreatedAndLinked` | src/main/java/com/min/i/memory_BE/domain/user/service/OAuthService.java:291-309 | for a first login with an unknown email, the written code fails on mail_status while the intended one creates an UNVERIFIED user under the next id and links exactly one new account to it |
| `OAuthService.KakaoAccountsShareUser` | src/main/java/com/min/i/memory_BE/domain/user/service/OAuthService.java:265-272 | two new Kakao accounts with different ids both link to the one user holding the placeholder email |
| `OAuthService.CallbackSpec` | src/main/java/com/min/i/memory_BE/domain/user/service/OAuthService.java:115-133 | a missing token body and a missing profile body fail with their messages; on success users are unchanged and no account disappears |
| `OAuthService.HandleCallback` | src/main/java/com/min/i/memory_BE/domain/user/service/OAuthService.java:115-133 | the repositories change exactly as CallbackSpec says, and not at all when it fails |
| `GroupRepo.MaxSortOrder` | src/main/java/com/min/i/memory_BE/domain/group/repository/UserGroupRepository.java:24-25 | null exactly when the user has no membership; otherwise the largest sortOrder among the user's memberships, attained by one of them |
| `GroupRepo.FindByActiveInviteCode` | src/main/java/com/min/i/memory_BE/domain/group/repository/GroupRepository.java:39-42 | the one group whose code equals the given code, is active and expires strictly after now; none when there is no such group; an error when there are several |
| `GroupRepo.MembersOf` | src/main/java/com/min/i/memory_BE/domain/group/repository/UserGroupRepository.java:16 | exactly the memberships of the group |
| `GroupRepo.AddOwnedGroupKeepsWellFormed` | src/main/java/com/min/i/memory_BE/domain/group/entity/UserGroup.java:25-28 | adding a group with its OWNER membership keeps the tables well formed: (user, group) unique, every membership in an existing group, every group with an OWNER |
| `GroupRepo.AddMemberKeepsWellFormed` | src/main/java/com/min/i/memory_BE/domain/group/entity/UserGroup.java:25-28 | adding a membership for a new (user, group) pair of an existing group keeps the tables well formed |
| `GroupRepo.RemoveMemberKeepsWellFormed` | src/main/java/com/min/i/memory_BE/domain/group/entity/UserGroup.java:25-28 | removing a non-OWNER membership keeps the tables well formed |
| `GroupRepo.GroupsAreNeverEmpty` | src/main/java/com/min/i/memory_BE/domain/group/entity/UserGroup.java:25-28 | in well-formed tables every group has at least one membership |
| `GroupRepo.GroupTables.constructor` | src/main/java/com/min/i/memory_BE/domain/group/repository/GroupRepository.java:13 | empty, well-formed tables |
| `GroupRepo.GroupTables.InsertGroup` | src/main/java/com/min/i/memory_BE/domain/group/repository/GroupRepository.java:13 | save of a new group stores it under the next id and changes nothing else |
| `GroupRepo.GroupTables.UpdateGroup` | src/main/java/com/min/i/memory_BE/domain/group/repository/GroupRepository.java:13 | save of a group replaces it and changes nothing else |
| `GroupRepo.GroupTables.DeleteGroup` | src/main/java/com/min/i/memory_BE/domain/group/repository/GroupRepository.java:13 | delete removes the group and changes nothing else |
| `GroupRepo.GroupTables.InsertMembership` | src/main/java/com/min/i/memory_BE/domain/group/repository/UserGroupRepository.java:13 | save of a membership stores it under (user, group) with the next id |
| `GroupRepo.GroupTables.DeleteMembership` | src/main/java/com/min/i/memory_BE/domain/group/repository/UserGroupRepository.java:13 | delete removes exactly that membership |
| `GroupRepo.GroupTables.CountByGroup` | src/main/java/com/min/i/memory_BE/domain/group/service/GroupService.java:180 | the number of memberships of the group |
| `GroupService.InviteCode` | src/main/java/com/min/i/memory_BE/domain/group/service/GroupService.java:84-86 | the first six characters of the UUID text upper-cased; a text shorter than six is StringIndexOutOfBounds |
| `GroupService.NextSortOrder` | src/main/java/com/min/i/memory_BE/domain/group/service/GroupService.java:65-66 | above every sortOrder the user has: the maximum + 1, or 1 when the user has none |
| `GroupService.CreateGroupSpec` | src/main/java/com/min/i/memory_BE/domain/group/service/GroupService.java:39-82 | unknown user, short UUID and failed upload are errors; otherwise a new group with an active code valid for seven days, the creator as OWNER under the user's name, nothing else changed |
| `GroupService.UpdateGroupSpec` | src/main/java/com/min/i/memory_BE/domain/group/service/GroupService.java:89-113 | unknown user, unknown group and non-member are errors, a non-OWNER is refused; an OWNER's edit succeeds exactly when the upload, if any, did not fail, and a failed upload's exception is returned; name and description replaced, the image kept unless a new one is uploaded |
| `GroupService.JoinGroupSpec` | src/main/java/com/min/i/memory_BE/domain/group/service/GroupService.java:128-161 | succeeds exactly when one group holds the active code, the user exists and is not yet its member; an ambiguous code's error passes through, no match is WRONG_INVITE_CODE, an unknown user USER_NOT_FOUND, a member ALREADY_JOINED; on success the found group gets one MEMBER row with the requested nickname or the user's name and the next sortOrder, one membership id is consumed, and nothing else changes |
| `GroupService.LeaveGroupSpec` | src/main/java/com/min/i/memory_BE/domain/group/service/GroupService.java:164-184 | unknown user, unknown group, non-member (NotGroupMember) and OWNER (OwnerCannotLeave) are errors; otherwise the membership goes, and the group goes exactly when none remains |
| `GroupService.RemoveMemberSpec` | src/main/java/com/min/i/memory_BE/domain/group/service/GroupService.java:202-225 | checks in order: target is a member, requester is a member, requester is OWNER, target is not OWNER; then only the target's row is removed |
| `GroupService.CreateShape` | src/main/java/com/min/i/memory_BE/domain/group/service/GroupService.java:39-82 | a successful createGroup adds exactly the new group row and the OWNER row |
| `GroupService.CreateKeepsWellFormed` | src/main/java/com/min/i/memory_BE/domain/group/service/GroupService.java:39-82 | createGroup keeps the tables well formed |
| `GroupService.UpdateKeepsWellFormed` | src/main/java/com/min/i/memory_BE/domain/group/service/GroupService.java:89-113 | updateGroup keeps the tables well formed |
| `GroupService.JoinKeepsWellFormed` | src/main/java/com/min/i/memory_BE/domain/group/service/GroupService.java:128-161 | joinGroup keeps the tables well formed, so (user, group) stays unique |
| `GroupService.LeaveKeepsWellFormed` | src/main/java/com/min/i/memory_BE/domain/group/service/GroupService.java:164-184 | leaveGroup keeps the tables well formed |
| `GroupService.RemoveKeepsWellFormed` | src/main/java/com/min/i/memory_BE/domain/group/service/GroupService.java:202-225 | removeMember keeps the tables well formed |
| `GroupService.LeaveNeverDeletesGroup` | src/main/java/com/min/i/memory_BE/domain/group/service/GroupService.java:174-183 | on well-formed tables a successful leave never deletes the group: the OWNER cannot leave, so a membership always remains |
| `GroupService.CreatorCannotLeave` | src/main/java/com/min/i/memory_BE/domain/group/service/GroupService.java:174-176 | right after creating a group its creator gets OwnerCannotLeave |
| `GroupService.LeaveTakesOneRow` | src/main/java/com/min/i/memory_BE/domain/group/service/GroupService.java:164-184 | a non-OWNER member's leave removes exactly that membership |
| `GroupService.JoinThenLeave` | src/main/java/com/min/i/memory_BE/domain/group/service/GroupService.java:128-184 | joining and then leaving restores the memberships and the groups |
| `GroupService.JoinTwiceRefused` | src/main/java/com/min/i/memory_BE/domain/group/service/GroupService.java:136-139 | a second join of the same user is refused as already joined |
| `GroupService.CreateGroup` | src/main/java/com/min/i/memory_BE/domain/group/service/GroupService.java:39-82 | returns the new id and the tables of CreateGroupSpec, or its error with the tables unchanged; keeps them well formed |
| `GroupService.InsertOwnedGroup` | src/main/java/com/min/i/memory_BE/domain/group/service/GroupService.java:44-77 | stores exactly the new group and its OWNER membership |
| `GroupService.UpdateGroup` | src/main/java/com/min/i/memory_BE/domain/group/service/GroupService.java:89-113 | the tables of UpdateGroupSpec, or its error with the tables unchanged |
| `GroupService.JoinGroup` | src/main/java/com/min/i/memory_BE/domain/group/service/GroupService.java:128-161 | the tables of JoinGroupSpec, or its error with the tables unchanged |
| `GroupService.LeaveGroup` | src/main/java/com/min/i/memory_BE/domain/group/service/GroupService.java:164-184 | the tables of LeaveGroupSpec, or its error with the tables unchanged |
| `GroupService.RemoveMember` | src/main/java/com/min/i/memory_BE/domain/group/service/GroupService.java:202-225 | the tables of RemoveMemberSpec, or its error with the tables unchanged |
| `AlbumEntity.ThemeName` | src/main/java/com/min/i/memory_BE/domain/album/entity/Album.java:46-47 | the stored name of each of the three themes, distinct for each |
| `AlbumEntity.Album.constructor` | src/main/java/com/min/i/memory_BE/domain/album/entity/Album.java:66-75 | the builder stores title, description, thumbnail, theme, user and group as passed, with visibility GROUP, no pages, no media and no id |
| `AlbumEntity.Album.Load` | src/main/java/com/min/i/memory_BE/domain/album/entity/Album.java:32-64 | a loaded album carries its id and reproduces its stored row |
| `AlbumEntity.Album.Row` | src/main/java/com/min/i/memory_BE/domain/album/entity/Album.java:37-47 | a save is possible exactly when the not-null columns title and theme are set; the row copies the fields |
| `AlbumEntity.Album.UpdateGroup` | src/main/java/com/min/i/memory_BE/domain/album/entity/Album.java:82-85 | sets the group, returns the same object, changes nothing else |
| `AlbumEntity.Album.UpdateUser` | src/main/java/com/min/i/memory_BE/domain/album/entity/Album.java:92-95 | sets the user, returns the same object, changes nothing else |
| `AlbumEntity.Album.UpdateTitle` | src/main/java/com/min/i/memory_BE/domain/album/entity/Album.java:102-105 | sets the title, returns the same object, changes nothing else |
| `AlbumEntity.Album.UpdateDescription` | src/main/java/com/min/i/memory_BE/domain/album/entity/Album.java:112-115 | sets the description, returns the same object, changes nothing else |
| `AlbumEntity.Album.UpdateTheme` | src/main/java/com/min/i/memory_BE/domain/album/entity/Album.java:122-125 | sets the theme, returns the same object, changes nothing else |
| `AlbumEntity.Album.UpdateThumbnailUrl` | src/main/java/com/min/i/memory_BE/domain/album/entity/Album.java:132-135 | sets the thumbnail, returns the same object, changes nothing else |
| `AlbumEntity.Album.UpdateVisibility` | src/main/java/com/min/i/memory_BE/domain/album/entity/Album.java:142-145 | sets the visibility, returns the same object, changes nothing else |
| `AlbumEntity.UpdatesAreIdempotent` | src/main/java/com/min/i/memory_BE/domain/album/entity/Album.java:102-135 | applying the same four updates twice leaves the fields of applying them once |
| `S3Storage.ValidateImageFile` | src/main/java/com/min/i/memory_BE/global/service/S3Service.java:80-96 | accepted exactly when the file is non-empty, at most 10 MB and of an allowed type; each rejection is INVALID_INPUT_VALUE with its own message, checked in that order |
| `S3Storage.SizeBoundIsInclusive` | src/main/java/com/min/i/memory_BE/global/service/S3Service.java:86-89 | exactly 10 MB is accepted and one byte more is too large; the type check ignores case |
| `S3Storage.FileName` | src/main/java/com/min/i/memory_BE/global/service/S3Service.java:101-106 | the UUID, "-", then the original file name |
| `S3Storage.ObjectKey` | src/main/java/com/min/i/memory_BE/global/service/S3Service.java:41 | "albums/" + album id + "/original/" + file name |
| `S3Storage.FileUrl` | src/main/java/com/min/i/memory_BE/global/service/S3Service.java:108-113 | "https://" + bucket + ".s3.amazonaws.com/" + key |
| `S3Storage.ExtractKeyFromUrl` | src/main/java/com/min/i/memory_BE/global/service/S3Service.java:115-118 | the text after the first ".com/", or, when there is none, everything after the fourth character (indexOf gives -1); a shorter URL is StringIndexOutOfBounds; the key is a suffix of the URL |
| `S3Storage.KeyRoundTrip` | src/main/java/com/min/i/memory_BE/global/service/S3Service.java:108-118 | for a bucket without '/', extracting the key from the file URL gives the key back |
| `S3Storage.SlashInBucketBreaksRoundTrip` | src/main/java/com/min/i/memory_BE/global/service/S3Service.java:108-118 | a bucket holding ".com/" breaks the round trip |
| `S3Storage.UploadAlbumImage` | src/main/java/com/min/i/memory_BE/global/service/S3Service.java:37-57 | a validation error comes first; otherwise the URL of the album key exactly when the stream opens and the put succeeds; a stream failure is INTERNAL_SERVER_ERROR |
| `S3Storage.ValidationPrecedesUpload` | src/main/java/com/min/i/memory_BE/global/service/S3Service.java:37-39 | an invalid file is refused the same way whatever the UUID, stream and storage do |
| `S3Storage.UploadedUrlNamesItsKey` | src/main/java/com/min/i/memory_BE/global/service/S3Service.java:37-57 | the key extracted from an uploaded URL is the key the file was stored under |
| `S3Storage.DeleteImage` | src/main/java/com/min/i/memory_BE/global/service/S3Service.java:62-75 | deletes the key extracted from the URL; a client failure is INTERNAL_SERVER_ERROR |
| `S3Storage.DeleteTargetsStoredKey` | src/main/java/com/min/i/memory_BE/global/service/S3Service.java:62-75 | deleting by a file URL targets the key that URL was built from |
| `AlbumService.CreateCalls` | src/main/java/com/min/i/memory_BE/domain/album/service/AlbumService.java:40-43 | the thumbnail is uploaded exactly when the request carries a file |
| `AlbumService.CreateRow` | src/main/java/com/min/i/memory_BE/domain/album/service/AlbumService.java:38-71 | succeeds exactly when the upload (if any) succeeds, a named user exists, the group id is given and names a group, and title and theme are set; the row holds the request's fields, the uploaded URL and visibility GROUP |
| `AlbumService.CreateAlbum` | src/main/java/com/min/i/memory_BE/domain/album/service/AlbumService.java:38-71 | stores CreateRow under the next id, or returns its error and stores nothing; the storage calls are CreateCalls |
| `AlbumService.UploadOutlivesFailedCreate` | src/main/java/com/min/i/memory_BE/domain/album/service/AlbumService.java:40-59 | a request with a file for a missing group is refused after its thumbnail was uploaded |
| `AlbumService.AdminCheckNeverHolds` | src/main/java/com/min/i/memory_BE/domain/album/service/AlbumService.java:139-141 | the group-admin test compares an enum with a string and is always false |
| `AlbumService.Authorize` | src/main/java/com/min/i/memory_BE/domain/album/service/AlbumService.java:126-145 | album, then null user id, then user, then the album's group are checked in that order; access exactly for the creator or a group admin, with the stored album returned |
| `AlbumService.OnlyCreatorIsAuthorized` | src/main/java/com/min/i/memory_BE/domain/album/service/AlbumService.java:137-145 | only the album's creator passes; anyone else, OWNER included, gets "You don't have permission to ... this album" |
| `AlbumService.AuthorizeIntended` | src/main/java/com/min/i/memory_BE/domain/album/service/AlbumService.java:137-145 | the permission check as its comment describes it: the same refusals before the role test, and success exactly for the album's creator or an OWNER or SENIOR of its group |
| `AlbumService.GroupAdminIsAuthorized` | src/main/java/com/min/i/memory_BE/domain/album/service/AlbumService.java:137-145 | an OWNER or SENIOR of the album's group who did not create it is refused by the written check and admitted by the intended one |
| `AlbumService.ApplyFields` | src/main/java/com/min/i/memory_BE/domain/album/service/AlbumService.java:147-160 | non-null title, description and theme replace the stored ones; everything else is kept |
| `AlbumService.UpdateOutcome` | src/main/java/com/min/i/memory_BE/domain/album/service/AlbumService.java:126-181 | refused as Authorize says; otherwise the fields are applied and, with a new file, the old non-empty thumbnail is deleted before the new one is uploaded; succeeds exactly when those storage calls do |
| `AlbumService.ApplyRequest` | src/main/java/com/min/i/memory_BE/domain/album/service/AlbumService.java:147-160 | the update mutators change exactly the non-null title, description and theme |
| `AlbumService.UpdateAlbum` | src/main/java/com/min/i/memory_BE/domain/album/service/AlbumService.java:126-181 | the result and storage calls of UpdateOutcome; the stored album is its row on success and unchanged on failure |
| `AlbumService.ReplaceThumbnailOutcome` | src/main/java/com/min/i/memory_BE/domain/album/service/AlbumService.java:162-171 | with a new file: the old thumbnail, when present and non-empty, is deleted first; a failed delete stops before the upload; otherwise the upload is attempted and its URL becomes the thumbnail exactly when it succeeds |
| `AlbumService.ReplaceThumbnail` | src/main/java/com/min/i/memory_BE/domain/album/service/AlbumService.java:162-171 | on the loaded entity: the result and storage calls of ReplaceThumbnailOutcome, and on success the entity's row is the one it returns |
| `AlbumService.UpdateKeepsOwnership` | src/main/java/com/min/i/memory_BE/domain/album/service/AlbumService.java:126-181 | an update keeps the creator, the group and the visibility |
| `AlbumService.FailedUploadLeavesDeletedThumbnail` | src/main/java/com/min/i/memory_BE/domain/album/service/AlbumService.java:163-171 | when the new upload fails after the old thumbnail was deleted, the row keeps pointing to the deleted object |
| `AlbumService.DeleteOutcome` | src/main/java/com/min/i/memory_BE/domain/album/service/AlbumService.java:185-214 | refused as Authorize says, with no storage call; otherwise a non-empty thumbnail is deleted first; the delete succeeds exactly when that succeeds and no media row names the album, and an album with media is refused by the media.album_id foreign key after its thumbnail is gone |
| `AlbumService.DeleteAlbum` | src/main/java/com/min/i/memory_BE/domain/album/service/AlbumService.java:185-214 | the result and storage calls of DeleteOutcome; on success only the album row is removed, on failure nothing |
| `AlbumService.DeletedAlbumIsUnlisted` | src/main/java/com/min/i/memory_BE/domain/album/service/AlbumService.java:185-214 | after a delete the group's album list is the old one without that album, and the content stays valid |
| `AlbumService.EntriesFrom` | src/main/java/com/min/i/memory_BE/domain/album/service/AlbumService.java:100-113 | one entry per album from the given position on, stopping at the first failure |
| `AlbumService.AlbumsByGroup` | src/main/java/com/min/i/memory_BE/domain/album/service/AlbumService.java:83-116 | a missing group and a non-member are EntityNotFound; otherwise one entry per album of the group |
| `AlbumService.GetAlbumsByGroupId` | src/main/java/com/min/i/memory_BE/domain/album/service/AlbumService.java:83-116 | returns AlbumsByGroup |
| `AlbumService.CollectEntries` | src/main/java/com/min/i/memory_BE/domain/album/service/AlbumService.java:100-113 | the loop builds EntriesFrom from the start |
| `AlbumService.EntriesWhenAllSucceed` | src/main/java/com/min/i/memory_BE/domain/album/service/AlbumService.java:100-113 | when every per-album call succeeds each entry holds that album's id, title, description and recent media, in order |
| `AlbumService.EntriesFailOnSomeAlbum` | src/main/java/com/min/i/memory_BE/domain/album/service/AlbumService.java:100-113 | the listing fails exactly when the per-album call fails for some album |
| `AlbumService.MemberGetsRecentMedia` | src/main/java/com/min/i/memory_BE/domain/album/service/AlbumService.java:102-106 | for a member and a non-negative count each album's call returns its most recent media |
| `AlbumService.MemberSeesEveryAlbum` | src/main/java/com/min/i/memory_BE/domain/album/service/AlbumService.java:83-116 | a member sees every album of the group, in order, each with its most recent media |
| `AlbumService.NegativeCountFailsOnAnyAlbum` | src/main/java/com/min/i/memory_BE/domain/album/service/AlbumService.java:100-113 | a negative count makes the listing fail unless the group has no album |
| `ContentStore.IdsWhere` | src/main/java/com/min/i/memory_BE/domain/album/repository/AlbumRepository.java:19-20 | the ids below the bound whose row passes the filter, in increasing order |
| `ContentStore.IdsWhereFrame` | src/main/java/com/min/i/memory_BE/domain/album/repository/AlbumRepository.java:19-20 | two tables that agree below the bound on which rows exist and pass give the same list |
| `ContentStore.IdsWhereInsert` | src/main/java/com/min/i/memory_BE/domain/album/repository/AlbumRepository.java:19-20 | inserting a row under the next id appends it to the list exactly when it passes |
| `ContentStore.AlbumsOfGroup` | src/main/java/com/min/i/memory_BE/domain/album/repository/AlbumRepository.java:19-20 | exactly the albums of the group (in id order, which the query itself does not fix) |
| `ContentStore.InsertedAlbumIsListedLast` | src/main/java/com/min/i/memory_BE/domain/album/repository/AlbumRepository.java:19-20 | an album saved under the next id comes last in its group's list, and the other groups' lists do not change |
| `ContentStore.MediaOfAlbum` | src/main/java/com/min/i/memory_BE/domain/media/service/MediaService.java:135 | exactly the media of the album |
| `ContentStore.QuestionsOfMedia` | src/main/java/com/min/i/memory_BE/domain/album/repository/QuestionRepository.java:16 | exactly the questions of the media |
| `ContentStore.AnswersOfMedia` | src/main/java/com/min/i/memory_BE/domain/album/repository/AnswerRepository.java:17 | exactly the answers of the media |
| `ContentStore.StoriesOfMedia` | src/main/java/com/min/i/memory_BE/domain/album/repository/StoryRepository.java:22 | exactly the stories of the media |
| `ContentStore.ContentTables.constructor` | src/main/java/com/min/i/memory_BE/domain/album/repository/AlbumRepository.java:13 | empty, valid tables |
| `ContentStore.ContentTables.Restore` | src/main/java/com/min/i/memory_BE/domain/album/repository/AlbumRepository.java:13 | a rolled-back transaction: the tables are the saved state |
| `ContentStore.ContentTables.InsertAlbum` | src/main/java/com/min/i/memory_BE/domain/album/repository/AlbumRepository.java:13 | save of a new album under the next id, nothing else changed |
| `ContentStore.ContentTables.PutAlbum` | src/main/java/com/min/i/memory_BE/domain/album/repository/AlbumRepository.java:13 | save of a stored album replaces it, nothing else changed |
| `ContentStore.ContentTables.DeleteAlbum` | src/main/java/com/min/i/memory_BE/domain/album/repository/AlbumRepository.java:13 | delete removes only the album row |
| `ContentStore.ContentTables.InsertMedia` | src/main/java/com/min/i/memory_BE/domain/media/repository/MediaRepository.java:12 | save of a new media row under the next id |
| `ContentStore.ContentTables.PutMedia` | src/main/java/com/min/i/memory_BE/domain/media/repository/MediaRepository.java:12 | save of a stored media row replaces it |
| `ContentStore.ContentTables.InsertQuestion` | src/main/java/com/min/i/memory_BE/domain/album/repository/QuestionRepository.java:14 | save of a new question under the next id |
| `ContentStore.ContentTables.PutQuestion` | src/main/java/com/min/i/memory_BE/domain/album/repository/QuestionRepository.java:14 | save of a stored question replaces it |
| `ContentStore.ContentTables.InsertAnswer` | src/main/java/com/min/i/memory_BE/domain/album/repository/AnswerRepository.java:15 | save of a new answer under the next id |
| `ContentStore.ContentTables.InsertStory` | src/main/java/com/min/i/memory_BE/domain/album/repository/StoryRepository.java:14 | save of a new story under the next id |
| `ContentStore.ContentTables.InsertKeyword` | src/main/java/com/min/i/memory_BE/domain/media/repository/KeywordRepository.java:10 | save of a new keyword under the next id |
| `ContentStore.ContentTables.InsertMediaKeyword` | src/main/java/com/min/i/memory_BE/domain/media/repository/MediaKeywordRepository.java:13 | save of a new media-keyword link under the next id |
| `MediaService.ValidateGroupMembership` | src/main/java/com/min/i/memory_BE/domain/media/service/MediaService.java:147-157 | passes exactly for an existing group the user belongs to; the two failures carry their messages |
| `MediaService.Page` | src/main/java/com/min/i/memory_BE/domain/media/service/MediaService.java:203-209 | the elements from the offset up to offset + page size, cut at the end of the list; empty past the end; the total is the list length |
| `MediaService.PagesCoverList` | src/main/java/com/min/i/memory_BE/domain/media/service/MediaService.java:203-209 | the first k pages, put together, are the list's first k * page size elements: no element is skipped or repeated |
| `MediaService.InsertNewestFirst` | src/main/java/com/min/i/memory_BE/domain/media/service/MediaService.java:138-139 | inserting into a newest-first list keeps it newest-first and adds exactly that entry |
| `MediaService.SortNewestFirst` | src/main/java/com/min/i/memory_BE/domain/media/service/MediaService.java:138-139 | the result is newest-first and a permutation of the input |
| `MediaService.Entries` | src/main/java/com/min/i/memory_BE/domain/media/service/MediaService.java:135 | one entry per id, holding that id's media row, in order |
| `MediaService.RecentMediaByAlbum` | src/main/java/com/min/i/memory_BE/domain/media/service/MediaService.java:128-142 | a missing album is "Album not found"; a negative limit fails; otherwise the first min(limit, count) entries of the newest-first sort |
| `MediaService.RecentAreNewest` | src/main/java/com/min/i/memory_BE/domain/media/service/MediaService.java:138-141 | every media kept is at least as new as every media dropped |
| `MediaService.ToDto` | src/main/java/com/min/i/memory_BE/domain/media/service/MediaService.java:238-262 | the DTO copies the media's fields; the story is the content of one of its stories, and null exactly when it has none |
| `MediaService.AllAlbumMediaWithAuth` | src/main/java/com/min/i/memory_BE/domain/media/service/MediaService.java:164-232 | group, membership and album-in-group are checked in that order with their messages; the page holds the DTOs of the window and the total is the album's media count |
| `MediaService.RecentMediaDtoByAlbumWithAuth` | src/main/java/com/min/i/memory_BE/domain/media/service/MediaService.java:268-285 | the album must exist and belong to a group, then the user must be a member; the result is the DTOs of the recent list |
| `MediaService.GrouplessAlbumRefusedFirst` | src/main/java/com/min/i/memory_BE/domain/media/service/MediaService.java:273-276 | a group-less album is refused the same way whoever asks |
| `QuestionService.AlbumThemeOf` | src/main/java/com/min/i/memory_BE/domain/album/service/QuestionService.java:136 | the album theme exactly when the media belongs to a stored album |
| `QuestionService.DetermineTheme` | src/main/java/com/min/i/memory_BE/domain/album/service/QuestionService.java:134-151 | no album theme gives SENIOR_CARE |
| `QuestionService.DetermineThemeIsCounterpart` | src/main/java/com/min/i/memory_BE/domain/album/service/QuestionService.java:136-150 | every album theme maps to the question theme whose name it contains (SENIOR, CHILD, COUPLE), with SENIOR_CARE as the fallback |
| `QuestionService.FromEntity` | src/main/java/com/min/i/memory_BE/domain/album/dto/QuestionDto.java:76-88 | the response copies id, media id, content, theme, category, level and privacy; the uploader is present exactly when the media has one |
| `QuestionService.Responses` | src/main/java/com/min/i/memory_BE/domain/album/service/QuestionService.java:107-109 | one response per question id, in order |
| `QuestionService.FindWithMediaAndUploader` | src/main/java/com/min/i/memory_BE/domain/album/repository/QuestionRepository.java:18-19 | the question is found only when it exists and its media has an uploader (the inner fetch joins) |
| `QuestionService.GetQuestionById` | src/main/java/com/min/i/memory_BE/domain/album/service/QuestionService.java:118-125 | found exactly as the fetch-join finds it, otherwise "question not found" with the id; the response carries that question |
| `QuestionService.JoinedQuestionsOfMedia` | src/main/java/com/min/i/memory_BE/domain/album/repository/QuestionRepository.java:21-22 | exactly the questions of the media when it has an uploader, in id order |
| `QuestionService.WithAnswerState` | src/main/java/com/min/i/memory_BE/domain/album/repository/QuestionRepository.java:25-32 | a question is listed exactly when it is among the given ones and has (or has not) an answer |
| `QuestionService.WithAnswerStateKeepsOrder` | src/main/java/com/min/i/memory_BE/domain/album/repository/QuestionRepository.java:25-32 | filtering a list in increasing id order leaves it in increasing id order |
| `QuestionService.UnansweredQuestionsOfMedia` | src/main/java/com/min/i/memory_BE/domain/album/repository/QuestionRepository.java:25-27 | the joined questions without an answer |
| `QuestionService.AnsweredQuestionsOfMedia` | src/main/java/com/min/i/memory_BE/domain/album/repository/QuestionRepository.java:30-32 | the joined questions with an answer |
| `QuestionService.ListIfMediaExists` | src/main/java/com/min/i/memory_BE/domain/album/service/QuestionService.java:102-109 | a missing media is "media not found" with the id; otherwise the responses of the given ids |
| `QuestionService.GetQuestionsByMediaId` | src/main/java/com/min/i/memory_BE/domain/album/service/QuestionService.java:98-110 | fails exactly for a missing media; lists exactly the media's questions when it has an uploader |
| `QuestionService.GetUnansweredQuestionsByMediaId` | src/main/java/com/min/i/memory_BE/domain/album/service/QuestionService.java:159-171 | as above, restricted to questions without an answer |
| `QuestionService.GetAnsweredQuestionsByMediaId` | src/main/java/com/min/i/memory_BE/domain/album/service/QuestionService.java:179-191 | as above, restricted to questions with an answer |
| `QuestionService.AnswerStatesSplit` | src/main/java/com/min/i/memory_BE/domain/album/repository/QuestionRepository.java:25-32 | the answered and unanswered filters together keep as many entries as the list has |
| `QuestionService.AnsweredAndUnansweredPartition` | src/main/java/com/min/i/memory_BE/domain/album/service/QuestionService.java:98-191 | the answered and unanswered lists of a media partition its full list: disjoint, covering, sizes adding up |
| `QuestionService.NewUserQuestion` | src/main/java/com/min/i/memory_BE/domain/album/service/QuestionService.java:39-59 | a missing media fails with its message; otherwise a public question of the given text on that media, category USER_QUESTION, level 1, no keywords, theme from the album |
| `QuestionService.CreateUserQuestion` | src/main/java/com/min/i/memory_BE/domain/album/service/QuestionService.java:35-65 | a failure changes nothing; success stores the new question under the next id and returns its response |
| `QuestionService.CreatedQuestionIsListedLast` | src/main/java/com/min/i/memory_BE/domain/album/service/QuestionService.java:35-110 | a created question joins the end of its media's listing (when the media has an uploader); other media's listings do not change |
| `QuestionService.UpdatedQuestion` | src/main/java/com/min/i/memory_BE/domain/album/service/QuestionService.java:79-83 | found as the fetch-join finds it, else "question not found"; only the content changes |
| `QuestionService.UpdateQuestion` | src/main/java/com/min/i/memory_BE/domain/album/service/QuestionService.java:75-90 | a failure changes nothing; success replaces the question row and returns its response |
| `QuestionService.AfterUpdate` | src/main/java/com/min/i/memory_BE/domain/album/service/QuestionService.java:75-90 | the tables after an edit keep the content invariant, the same question ids, answers and media |
| `QuestionService.UpdateKeepsListings` | src/main/java/com/min/i/memory_BE/domain/album/service/QuestionService.java:75-191 | editing a question's text changes none of the three listings of any media |
| `AnswerService.ChooseContent` | src/main/java/com/min/i/memory_BE/domain/album/service/AnswerService.java:43-51 | a non-empty audio file makes the transcript the content (its failure propagates); otherwise the text, even if null |
| `AnswerService.AnswerRowFor` | src/main/java/com/min/i/memory_BE/domain/album/service/AnswerService.java:63-70 | a null content violates the not-null answers.content column; otherwise a public answer row of that media, user, question and content |
| `AnswerService.FirstQuestionAnswer` | src/main/java/com/min/i/memory_BE/domain/album/service/AnswerService.java:36-71 | media missing, then transcription failure, then no joined question fail in that order, and a null content fails the not-null answers.content column; it succeeds exactly when the media exists, a content is chosen and the media has a joined question, and the answer goes to the media's first question |
| `AnswerService.TranscriptionFailsBeforeQuestionCheck` | src/main/java/com/min/i/memory_BE/domain/album/service/AnswerService.java:44-56 | with audio, a failed transcription is the outcome even when the media has no questions |
| `AnswerService.QuestionAnswer` | src/main/java/com/min/i/memory_BE/domain/album/service/AnswerService.java:77-112 | media missing, question missing, question of another media (IllegalArgument) and transcription failure are checked in that order; otherwise the answer row for the given question |
| `AnswerService.AudioOverridesText` | src/main/java/com/min/i/memory_BE/domain/album/service/AnswerService.java:94-101 | with a non-empty audio file the text sent alongside makes no difference |
| `AnswerService.SaveAnswer` | src/main/java/com/min/i/memory_BE/domain/album/service/AnswerService.java:36-71 | a failure changes nothing; success stores the answer row under the next id and returns that id |
| `AnswerService.SaveAnswerToQuestion` | src/main/java/com/min/i/memory_BE/domain/album/service/AnswerService.java:77-112 | a failure changes nothing; success stores the answer row under the next id and returns that id |
| `AnswerService.SavedAnswerMarksQuestionAnswered` | src/main/java/com/min/i/memory_BE/domain/album/service/AnswerService.java:77-112 | after a saved answer its question counts as answered and no other question changes answered state |
| `AnswerController.Summaries` | src/main/java/com/min/i/memory_BE/domain/album/controller/AnswerController.java:92-101 | one id-and-content summary per question, in order |
| `AnswerController.CreateAnswer` | src/main/java/com/min/i/memory_BE/domain/album/controller/AnswerController.java:42-124 | blank text without audio is refused first, a media without joined questions next, both without saving; past those checks the answer is saved exactly when the service accepts it, under the next id with nothing else changed, and the reply carries its content and the summaries of the joined questions; a service failure is reported and changes nothing |
| `AnswerController.AcceptedTextIsSaved` | src/main/java/com/min/i/memory_BE/domain/album/controller/AnswerController.java:65-71 | a non-blank text for a question of that media is always saved as that text |
| `StoryService.QuestionItems` | src/main/java/com/min/i/memory_BE/domain/album/service/StoryService.java:81-91 | one entry per question in repository order, copying id, content, category and level; the theme is the theme's name or null |
| `StoryService.AnswerItems` | src/main/java/com/min/i/memory_BE/domain/album/service/StoryService.java:93-101 | one entry per answer in repository order, copying id, content and the author's id |
| `StoryService.ImageUrlOf` | src/main/java/com/min/i/memory_BE/domain/album/service/StoryService.java:108-112 | the image URL when present and non-empty, the file URL otherwise |
| `StoryService.RequestFor` | src/main/java/com/min/i/memory_BE/domain/album/service/StoryService.java:80-117 | the request names the media, style "emotional", length "medium", every question and answer of the media, and the chosen image URL |
| `StoryService.StoryContent` | src/main/java/com/min/i/memory_BE/domain/album/service/StoryService.java:128-133 | succeeds exactly when story_content is a string, and then is that string (null breaks the not-null content column, another value the cast) |
| `StoryService.GeneratedStory` | src/main/java/com/min/i/memory_BE/domain/album/service/StoryService.java:58-140 | missing media, an existing story, and no questions or no answers fail in that order before generation; a saved story holds the reply's story_content for that media |
| `StoryService.FailedReplyIsReported` | src/main/java/com/min/i/memory_BE/domain/album/service/StoryService.java:120-126 | a null reply and a reply whose status is not "success" fail with the story-failure message and the reply's reason |
| `StoryService.DuplicateRefusedBeforeGeneration` | src/main/java/com/min/i/memory_BE/domain/album/service/StoryService.java:66-69 | a media that has a story is refused whatever the generator would answer |
| `StoryService.GenerateStory` | src/main/java/com/min/i/memory_BE/domain/album/service/StoryService.java:58-140 | a failure changes nothing; success stores exactly the generated story under the next id |
| `StoryService.GenerateKeepsOneStoryPerMedia` | src/main/java/com/min/i/memory_BE/domain/album/service/StoryService.java:66-139 | a successful generation keeps at most one story per media, and the media now has its story |
| `StoryService.SecondGenerationIsDuplicate` | src/main/java/com/min/i/memory_BE/domain/album/service/StoryService.java:66-69 | after a successful generation the next one for that media is refused as a duplicate |
| `MediaAnalysis.DetermineCategoryFollowsRules` | src/main/java/com/min/i/memory_BE/domain/media/service/MediaAnalysisService.java:197-214 | the category is the first rule (person/people/face OBJECT, happy/sad/joy EMOTION, walk/run/play ACTION, park/house/school PLACE, birthday/wedding/party EVENT) with a word in the lower-cased keyword, OBJECT otherwise |
| `MediaAnalysis.CategoryIgnoresCase` | src/main/java/com/min/i/memory_BE/domain/media/service/MediaAnalysisService.java:199 | a keyword and its lower-cased form get the same category |
| `MediaAnalysis.MapCategoryToTheme` | src/main/java/com/min/i/memory_BE/domain/media/service/MediaAnalysisService.java:284-294 | a null category fails on toLowerCase; COUPLE_STORY exactly for "relational" in any case, SENIOR_CARE otherwise, never CHILD_STORY |
| `MediaAnalysis.Get` | src/main/java/com/min/i/memory_BE/domain/media/service/MediaAnalysisService.java:133 | an absent key reads as null |
| `MediaAnalysis.ObjectOf` | src/main/java/com/min/i/memory_BE/domain/media/service/MediaAnalysisService.java:99 | the cast to Map succeeds exactly on an object; null fails with a NullPointerException |
| `MediaAnalysis.ListOf` | src/main/java/com/min/i/memory_BE/domain/media/service/MediaAnalysisService.java:106 | the cast to List succeeds exactly on an array; null fails with a NullPointerException |
| `MediaAnalysis.StringOf` | src/main/java/com/min/i/memory_BE/domain/media/service/MediaAnalysisService.java:229 | the cast to String accepts a string or null, keeping null as null |
| `MediaAnalysis.IntegerOf` | src/main/java/com/min/i/memory_BE/domain/media/service/MediaAnalysisService.java:231 | the cast to Integer accepts null or a whole number within the 32-bit range |
| `MediaAnalysis.ScoreOf` | src/main/java/com/min/i/memory_BE/domain/media/service/MediaAnalysisService.java:134 | the cast to Number accepts exactly numbers and gives their value |
| `MediaAnalysis.Description` | src/main/java/com/min/i/memory_BE/domain/media/service/MediaAnalysisService.java:272 | a label's description is read exactly when the label is a map and its description a string or null |
| `MediaAnalysis.Descriptions` | src/main/java/com/min/i/memory_BE/domain/media/service/MediaAnalysisService.java:271-274 | all descriptions in order when every label reads; otherwise an error |
| `MediaAnalysis.DescriptionsFirstError` | src/main/java/com/min/i/memory_BE/domain/media/service/MediaAnalysisService.java:271-274 | once a prefix of the labels fails, every longer prefix fails with the same error |
| `MediaAnalysis.KeywordsUsed` | src/main/java/com/min/i/memory_BE/domain/media/service/MediaAnalysisService.java:262-279 | no "analysis_result" or no "labels" gives no keywords; never more than five |
| `MediaAnalysis.KeywordsAreFirstDescriptions` | src/main/java/com/min/i/memory_BE/domain/media/service/MediaAnalysisService.java:268-275 | with readable labels the keywords are the first min(5, #labels) descriptions in label order |
| `MediaAnalysis.ExtractKeywords` | src/main/java/com/min/i/memory_BE/domain/media/service/MediaAnalysisService.java:262-279 | the loop that stops after the fifth description computes exactly the keyword list |
| `MediaAnalysis.KeywordNamed` | src/main/java/com/min/i/memory_BE/domain/media/repository/KeywordRepository.java:11 | none exactly when no keyword has the name; otherwise the first keyword, by id, with that name |
| `MediaAnalysis.KeywordNamedIsStable` | src/main/java/com/min/i/memory_BE/domain/media/service/MediaAnalysisService.java:163-172 | once a name is found, adding keywords and links keeps it the keyword found |
| `MediaAnalysis.LinkedIsStable` | src/main/java/com/min/i/memory_BE/domain/media/service/MediaAnalysisService.java:177-192 | a media item linked to a keyword stays linked as keywords and links are added |
| `MediaAnalysis.FindOrCreateKeyword` | src/main/java/com/min/i/memory_BE/domain/media/service/MediaAnalysisService.java:163-172 | afterwards findByName returns the result; an existing keyword is reused with nothing changed, otherwise exactly one keyword of that name and category is added; unique names are kept |
| `MediaAnalysis.CreateMediaKeyword` | src/main/java/com/min/i/memory_BE/domain/media/service/MediaAnalysisService.java:177-192 | afterwards the pair is linked; an existing link changes nothing, otherwise exactly one link with the score is added; unique links are kept |
| `MediaAnalysis.LinkKeyword` | src/main/java/com/min/i/memory_BE/domain/media/service/MediaAnalysisService.java:137-140 | fails exactly for a null name (the not-null name column); otherwise the media is linked to the keyword and an existing link changes nothing |
| `MediaAnalysis.LabelEntry` | src/main/java/com/min/i/memory_BE/domain/media/service/MediaAnalysisService.java:132-137 | a label gives its description, its score and the category of its description; a null description fails when the category is determined |
| `MediaAnalysis.ObjectEntry` | src/main/java/com/min/i/memory_BE/domain/media/service/MediaAnalysisService.java:147-152 | an object gives its name and score, always as an OBJECT keyword |
| `MediaAnalysis.LinkEntries` | src/main/java/com/min/i/memory_BE/domain/media/service/MediaAnalysisService.java:132-141 | the loop only adds keywords and links and keeps both unique constraints |
| `MediaAnalysis.LinkEntriesLinksEveryEntry` | src/main/java/com/min/i/memory_BE/domain/media/service/MediaAnalysisService.java:132-141 | after the loop every entry's keyword is linked to the media |
| `MediaAnalysis.LinkEntriesOnLinked` | src/main/java/com/min/i/memory_BE/domain/media/service/MediaAnalysisService.java:132-141 | entries already linked change nothing |
| `MediaAnalysis.LinkEntriesIsIdempotent` | src/main/java/com/min/i/memory_BE/domain/media/service/MediaAnalysisService.java:132-141 | running the loop a second time on its own result changes nothing |
| `MediaAnalysis.EntriesStayLinked` | src/main/java/com/min/i/memory_BE/domain/media/service/MediaAnalysisService.java:128-158 | entries linked in one state stay linked as keywords and links are added |
| `MediaAnalysis.ListEntries` | src/main/java/com/min/i/memory_BE/domain/media/service/MediaAnalysisService.java:130-131 | an absent list changes nothing, a null list fails; otherwise the list's loop |
| `MediaAnalysis.KeywordsFromAnalysis` | src/main/java/com/min/i/memory_BE/domain/media/service/MediaAnalysisService.java:128-158 | labels then objects; a null analysis result fails; only keywords and links are added, both unique constraints kept |
| `MediaAnalysis.KeywordsFromAnalysisLinksAll` | src/main/java/com/min/i/memory_BE/domain/media/service/MediaAnalysisService.java:128-158 | afterwards every label and every object is linked to the media |
| `MediaAnalysis.KeywordsFromAnalysisOnLinked` | src/main/java/com/min/i/memory_BE/domain/media/service/MediaAnalysisService.java:128-158 | an analysis whose entries are all linked changes nothing |
| `MediaAnalysis.KeywordsFromAnalysisIsIdempotent` | src/main/java/com/min/i/memory_BE/domain/media/service/MediaAnalysisService.java:128-158 | storing the same analysis result again on its own result changes nothing |
| `MediaAnalysis.QuestionRowOf` | src/main/java/com/min/i/memory_BE/domain/media/service/MediaAnalysisService.java:229-245 | a public question of the media with its text, category, level, keyword text and the theme mapped from its category; a null category fails |
| `MediaAnalysis.SaveQuestions` | src/main/java/com/min/i/memory_BE/domain/media/service/MediaAnalysisService.java:228-254 | the saving loop keeps the tables valid |
| `MediaAnalysis.SaveQuestionsTouchesOnlyQuestions` | src/main/java/com/min/i/memory_BE/domain/media/service/MediaAnalysisService.java:228-254 | saving n questions takes the next n ids, keeps every stored question, touches no other table, and appends one map per question |
| `MediaAnalysis.SaveQuestionsNumbersInOrder` | src/main/java/com/min/i/memory_BE/domain/media/service/MediaAnalysisService.java:247-253 | the j-th question is stored under the j-th new id and its map carries that id |
| `MediaAnalysis.SaveQuestionsFailsAtFirstBadQuestion` | src/main/java/com/min/i/memory_BE/domain/media/service/MediaAnalysisService.java:228-254 | a failed loop fails with the error of the first question that cannot be built, all before it having been built |
| `MediaAnalysis.StoredOn` | src/main/java/com/min/i/memory_BE/domain/media/service/MediaAnalysisService.java:94-95 | only the media item's analysis result changes, to the serialized request |
| `MediaAnalysis.AnalysisStored` | src/main/java/com/min/i/memory_BE/domain/media/service/MediaAnalysisService.java:90-101 | a missing media fails with its message; otherwise the analysis is set on it and keywords are only added |
| `MediaAnalysis.QuestionsStored` | src/main/java/com/min/i/memory_BE/domain/media/service/MediaAnalysisService.java:104-110 | no "questions" changes nothing; a "questions" value that is not a list or null fails the cast |
| `MediaAnalysis.ProcessedAnalysis` | src/main/java/com/min/i/memory_BE/domain/media/service/MediaAnalysisService.java:87-117 | a missing media fails with its message; success leaves valid tables |
| `MediaAnalysis.QuestionsStoredOutcome` | src/main/java/com/min/i/memory_BE/domain/media/service/MediaAnalysisService.java:104-110 | saving questions touches only questions and the id counter, keeps stored questions, and answers with the request where only "questions" is replaced by a list as long |
| `MediaAnalysis.ProcessedAnalysisOutcome` | src/main/java/com/min/i/memory_BE/domain/media/service/MediaAnalysisService.java:87-117 | success sets the analysis on that media only, leaves albums, answers and stories alone, changes or removes no keyword, link or question, and answers with the request where only "questions" is replaced |
| `MediaAnalysis.QuestionsStoredIsSaveQuestions` | src/main/java/com/min/i/memory_BE/domain/media/service/MediaAnalysisService.java:105-109 | with questions present, step 4 is the saving loop with the joined keyword text |
| `MediaAnalysis.QuestionsStoredSaves` | src/main/java/com/min/i/memory_BE/domain/media/service/MediaAnalysisService.java:220-256 | every generated question is stored under the next ids in order, built with the media and the keyword text, and the answer lists each with its id |
| `MediaAnalysis.ReprocessingAddsNoKeywords` | src/main/java/com/min/i/memory_BE/domain/media/service/MediaAnalysisService.java:97-101 | storing the same analysis result again adds no keyword and no link |
| `MediaAnalysis.LinkKeywordInto` | src/main/java/com/min/i/memory_BE/domain/media/service/MediaAnalysisService.java:137-140 | the tables become the keyword-and-link state, or stay unchanged on failure |
| `MediaAnalysis.LinkEntriesInto` | src/main/java/com/min/i/memory_BE/domain/media/service/MediaAnalysisService.java:132-141 | the loop's tables are the specification's, entry by entry |
| `MediaAnalysis.ListEntriesInto` | src/main/java/com/min/i/memory_BE/domain/media/service/MediaAnalysisService.java:130-142 | the tables are those of one present list |
| `MediaAnalysis.ProcessKeywords` | src/main/java/com/min/i/memory_BE/domain/media/service/MediaAnalysisService.java:128-158 | the tables are those of the keyword specification |
| `MediaAnalysis.ProcessQuestions` | src/main/java/com/min/i/memory_BE/domain/media/service/MediaAnalysisService.java:220-257 | the tables and answered maps are those of the saving loop |
| `MediaAnalysis.ApplyAnalysis` | src/main/java/com/min/i/memory_BE/domain/media/service/MediaAnalysisService.java:88-117 | the tables and the answer are those of the processing specification |
| `MediaAnalysis.ProcessAnalysisResult` | src/main/java/com/min/i/memory_BE/domain/media/service/MediaAnalysisService.java:86-123 | success commits the specified writes and answer; any failure rolls every write back and is rethrown as a RuntimeException with the fixed prefix and the cause's message |
| `Common.MessageOf` | src/main/java/com/min/i/memory_BE/domain/media/service/MediaAnalysisService.java:121 | getMessage of an exception the code raises itself is the text it was raised with |
| `Common.IndexOfFrom` | src/main/java/com/min/i/memory_BE/domain/album/service/QuestionService.java:140-145 | the first occurrence at or after the start, or -1 when there is none |
| `Common.LastIndexOfChar` | src/main/java/com/min/i/memory_BE/domain/album/service/AudioFormatConverter.java:164 | the last position holding the character, or -1 exactly when it does not occur |
| `Common.IndexOfChar` | src/main/java/com/min/i/memory_BE/domain/media/controller/TestController.java:144 | the first position holding the character, or -1 exactly when it does not occur |
| `Common.Lower` | src/main/java/com/min/i/memory_BE/domain/media/service/MediaAnalysisService.java:199 | each character lower-cased, length kept |
| `Common.LowerIsIdempotent` | src/main/java/com/min/i/memory_BE/domain/media/service/MediaAnalysisService.java:199 | lower-casing twice is lower-casing once |
| `Common.NatToString` | src/main/java/com/min/i/memory_BE/domain/album/service/QuestionService.java:40 | decimal digits with no leading zero whose value is the number |
| `Common.ParseLong` | src/main/java/com/min/i/memory_BE/domain/media/controller/ImageAnalysisController.java:215 | an optional sign then digits within the long range; anything else is a NumberFormatException naming the input |
| `Common.LongRoundTrip` | src/main/java/com/min/i/memory_BE/domain/media/controller/ImageAnalysisController.java:215 | Long.valueOf reads back the decimal text of every long |
| `Common.Trim` | src/main/java/com/min/i/memory_BE/domain/album/controller/AnswerController.java:65 | the trimmed text is empty exactly when every character is at or below a space |
| `AudioConverter.FileExtension` | src/main/java/com/min/i/memory_BE/domain/album/service/AudioFormatConverter.java:162-167 | "tmp" for no name, no '.', or a trailing '.'; otherwise the text after the last '.', which the name ends with and which holds no '.' |
| `AudioConverter.ExtensionOfNamedFile` | src/main/java/com/min/i/memory_BE/domain/album/service/AudioFormatConverter.java:162-167 | any name ending in '.' plus a dot-free extension gives back that extension |
| `AudioConverter.SupportedMeansFlac` | src/main/java/com/min/i/memory_BE/domain/album/service/AudioFormatConverter.java:25 | with the one supported format, supported means "flac" in any case |
| `AudioConverter.IsSupportedFormat` | src/main/java/com/min/i/memory_BE/domain/album/service/AudioFormatConverter.java:154-160 | null is unsupported; otherwise supported exactly when some listed format equals it ignoring case |
| `AudioConverter.AudioFormatConverter.constructor` | src/main/java/com/min/i/memory_BE/domain/album/service/AudioFormatConverter.java:21-23 | no resolved ffmpeg path and ffmpeg not marked available |
| `AudioConverter.AudioFormatConverter.Init` | src/main/java/com/min/i/memory_BE/domain/album/service/AudioFormatConverter.java:69-89 | exit code 0 marks ffmpeg available, another code leaves the flag, a failure to start clears it; the resolved path is untouched |
| `AudioConverter.AudioFormatConverter.ConvertToSupportedFormat` | src/main/java/com/min/i/memory_BE/domain/album/service/AudioFormatConverter.java:91-152 | without a path nothing is converted; a supported extension gives the saved copy, another the ffmpeg output when ffmpeg exits with 0 |
| `AudioConverter.UnresolvedConverterIsInert` | src/main/java/com/min/i/memory_BE/domain/album/service/AudioFormatConverter.java:169-182 | a converter without a resolved path reports ffmpeg unavailable whatever the probe |
| `SpeechToText.ResolveEncoding` | src/main/java/com/min/i/memory_BE/domain/album/service/SpeechToTextService.java:162-179 | a converted file is FLAC; otherwise the content type decides when it names an encoding, and the extension when it does not |
| `SpeechToText.MissingContentTypeUsesExtension` | src/main/java/com/min/i/memory_BE/domain/album/service/SpeechToTextService.java:162-179 | without a content type the extension alone decides |
| `SpeechToText.ExtensionEncodingIgnoresCase` | src/main/java/com/min/i/memory_BE/domain/album/service/SpeechToTextService.java:162-179 | an extension and its lower-cased form give the same encoding |
| `SpeechToText.SampleRate` | src/main/java/com/min/i/memory_BE/domain/album/service/SpeechToTextService.java:113-122 | 44100 Hz exactly for a converted, FLAC or MP3 file; 48000 Hz exactly for WebM, Ogg or Opus; none otherwise |
| `SpeechToText.ContentTypeAndExtensionCanDisagree` | src/main/java/com/min/i/memory_BE/domain/album/service/SpeechToTextService.java:108-122 | a file declared as WAV but named .mp3 is sent as LINEAR16 at 44100 Hz |
| `SpeechToText.Transcript` | src/main/java/com/min/i/memory_BE/domain/album/service/SpeechToTextService.java:139-146 | fails with IndexOutOfBounds exactly when some result has no alternative |
| `SpeechToText.TranscriptConcatenates` | src/main/java/com/min/i/memory_BE/domain/album/service/SpeechToTextService.java:139-146 | the transcript of two batches of results is the first's followed by the second's |
| `SpeechToText.SingleResultTranscript` | src/main/java/com/min/i/memory_BE/domain/album/service/SpeechToTextService.java:141-142 | one result contributes exactly its first alternative |
| `SpeechToText.JoinTranscripts` | src/main/java/com/min/i/memory_BE/domain/album/service/SpeechToTextService.java:139-146 | the append loop computes exactly the transcript |
| `SpeechToText.Recognized` | src/main/java/com/min/i/memory_BE/domain/album/service/SpeechToTextService.java:124-151 | succeeds exactly when recognition succeeds and every result has an alternative, with the transcript; any failure is a RuntimeException with the STT prefix |
| `SpeechToText.CredentialsPath` | src/main/java/com/min/i/memory_BE/domain/album/service/SpeechToTextService.java:47-57 | the environment's credentials path when set and non-empty, the configured one otherwise |
| `SpeechToText.SpeechToTextService.constructor` | src/main/java/com/min/i/memory_BE/domain/album/service/SpeechToTextService.java:29-41 | the configured language, credentials path and converter; no credentials yet and ffmpeg not available |
| `SpeechToText.SpeechToTextService.Init` | src/main/java/com/min/i/memory_BE/domain/album/service/SpeechToTextService.java:43-72 | succeeds exactly when the chosen credentials are readable, then asks the converter about ffmpeg; a failure is an IllegalStateException that changes nothing |
| `SpeechToText.SpeechToTextService.ConvertSpeechToText` | src/main/java/com/min/i/memory_BE/domain/album/service/SpeechToTextService.java:74-160 | the transcription of the converted file when ffmpeg is available and the conversion succeeds, of the upload by its own extension otherwise |
| `SpeechToText.StartUp` | src/main/java/com/min/i/memory_BE/domain/album/service/SpeechToTextService.java:64-66 | after start-up ffmpeg is never available, since no path is ever resolved |
| `SpeechToText.UnavailableFfmpegMeansNoConversion` | src/main/java/com/min/i/memory_BE/domain/album/service/SpeechToTextService.java:85-95 | without ffmpeg the upload is recognised unconverted, by its own extension |
| `MediaControllers.MapOf` | src/main/java/com/min/i/memory_BE/domain/media/controller/TestController.java:47-52 | Map.of succeeds exactly when no value is null, and then holds the entries |
| `MediaControllers.Reply` | src/main/java/com/min/i/memory_BE/domain/media/controller/ImageAnalysisController.java:121-131 | the entries as the reply when none is null; a null value turns it into a 500 with the handler's failure prefix |
| `MediaControllers.BearerToken` | src/main/java/com/min/i/memory_BE/domain/media/controller/TestController.java:72-75 | a token exactly when the header starts with "Bearer ", and the header is that prefix followed by the token |
| `MediaControllers.BearerTokenRoundTrip` | src/main/java/com/min/i/memory_BE/domain/media/controller/TestController.java:72-75 | stripping the prefix gives back the token that was sent |
| `MediaControllers.S3ObjectUrl` | src/main/java/com/min/i/memory_BE/domain/media/controller/TestController.java:139-150 | fails exactly when no '/' follows the bucket; otherwise an https URL |
| `MediaControllers.S3ObjectUrlSplitsAtFirstSlash` | src/main/java/com/min/i/memory_BE/domain/media/controller/TestController.java:139-150 | bucket and key come back exactly, the key keeping its own slashes, when the bucket has no '/' |
| `MediaControllers.AnalysisUrl` | src/main/java/com/min/i/memory_BE/domain/media/controller/TestController.java:39-42 | an "s3://" URL is rewritten, any other used as is |
| `MediaControllers.AnalyzeS3Url` | src/main/java/com/min/i/memory_BE/domain/media/controller/TestController.java:26-61 | 400 exactly for a missing or empty image_url; 200 exactly when the rewrite and the analysis succeed, echoing the rewritten URL; 500 otherwise |
| `MediaControllers.S3UrlWithoutKeyIsServerError` | src/main/java/com/min/i/memory_BE/domain/media/controller/TestController.java:139-146 | an "s3://" URL without a key is a 500 carrying the substring failure |
| `MediaControllers.FastApiConnection` | src/main/java/com/min/i/memory_BE/domain/media/controller/TestController.java:65-96 | the test image is analysed with the caller's Bearer token; 200 exactly when a body comes back, carrying it; a failed call is a 500 with its message |
| `MediaControllers.FastApiHealth` | src/main/java/com/min/i/memory_BE/domain/media/controller/TestController.java:100-133 | a failed GET is a 500 with its message; a 2xx status is reported as 200, any other status is passed on |
| `MediaControllers.DetermineMediaType` | src/main/java/com/min/i/memory_BE/domain/media/controller/ImageAnalysisController.java:245-252 | VIDEO exactly for a "video/" content type, IMAGE otherwise (null included) |
| `MediaControllers.StoredFileSize` | src/main/java/com/min/i/memory_BE/domain/media/controller/ImageAnalysisController.java:104-109 | the reported size when positive, 0 otherwise |
| `MediaControllers.QuestionsOrPlaceholder` | src/main/java/com/min/i/memory_BE/domain/media/controller/ImageAnalysisController.java:225 | the processed questions, or the placeholder text when there are none |
| `MediaControllers.EmptyMedia` | src/main/java/com/min/i/memory_BE/domain/media/service/MediaAnalysisService.java:62-72 | the placeholder row: empty URL, IMAGE, "empty", size 0, owned by the user in the album |
| `MediaControllers.Uploaded` | src/main/java/com/min/i/memory_BE/domain/media/controller/ImageAnalysisController.java:99-111 | both URLs, the type, the original name and the size set from the upload; nothing else changes |
| `MediaControllers.ImageAnalysis` | src/main/java/com/min/i/memory_BE/domain/media/controller/ImageAnalysisController.java:56-146 | 400 exactly for an empty image, 404 exactly for a missing user or album, neither changing anything; otherwise 200 or 500 |
| `MediaControllers.PlacedAnalysis` | src/main/java/com/min/i/memory_BE/domain/media/controller/ImageAnalysisController.java:91-96 | after the lookups the reply is 200 or 500; a failed upload is a 500 with its message that leaves exactly the placeholder row under the next id |
| `MediaControllers.AlbumImageUpload` | src/main/java/com/min/i/memory_BE/domain/media/controller/ImageAnalysisController.java:95 | the upload succeeds exactly when the file passes validation and the client stores it; a validation failure is returned as is |
| `MediaControllers.UploadedMediaIsImage` | src/main/java/com/min/i/memory_BE/domain/media/controller/ImageAnalysisController.java:245-252 | a file that passed the upload is always recorded as an IMAGE: the VIDEO branch is never taken on this path |
| `MediaControllers.UploadedAnalysis` | src/main/java/com/min/i/memory_BE/domain/media/controller/ImageAnalysisController.java:99-131 | after the upload the reply is 200 or 500 and the tables stay valid |
| `MediaControllers.EmptyImageIsRefusedFirst` | src/main/java/com/min/i/memory_BE/domain/media/controller/ImageAnalysisController.java:77-82 | an empty image gets the fixed 400 whatever else the request holds, and nothing is stored |
| `MediaControllers.FailedUploadLeavesPlaceholder` | src/main/java/com/min/i/memory_BE/domain/media/controller/ImageAnalysisController.java:92-95 | a failed upload is a 500 carrying its message, and the tables afterwards differ only by the placeholder row |
| `MediaControllers.UnsupportedTypeStoresOnlyPlaceholder` | src/main/java/com/min/i/memory_BE/global/service/S3Service.java:80-96 | an image whose content type is not JPEG, PNG or GIF is a 500 with the validation message, and only the placeholder row is stored |
| `MediaControllers.AnalyzedImageIsRecorded` | src/main/java/com/min/i/memory_BE/domain/media/controller/ImageAnalysisController.java:92-118 | a 200 means the upload to S3 and the analysis succeeded, and the new row holds the uploaded URL, type, name, size and the serialized analysis |
| `MediaControllers.ServiceOutcome` | src/main/java/com/min/i/memory_BE/domain/media/controller/ImageAnalysisController.java:155-190 | a service failure is a RuntimeException that changes nothing; an unknown or negative media id fails with the not-found message |
| `MediaControllers.AnalysisResultReply` | src/main/java/com/min/i/memory_BE/domain/media/controller/ImageAnalysisController.java:155-190 | 200 or 500 only (the 404 branch is unreachable); an unknown media id is a 500 with the doubled failure prefix |
| `MediaControllers.MediaIdOf` | src/main/java/com/min/i/memory_BE/domain/media/controller/ImageAnalysisController.java:215 | null fails; a read id is within the long range |
| `MediaControllers.MediaIdReadsLongs` | src/main/java/com/min/i/memory_BE/domain/media/controller/ImageAnalysisController.java:215 | a number, or its decimal text, is read back as the media id |
| `MediaControllers.QuestionsReply` | src/main/java/com/min/i/memory_BE/domain/media/controller/ImageAnalysisController.java:200-242 | 400 exactly when the body names no media id; an unreadable id is a 500 that changes nothing |
| `MediaControllers.CallService` | src/main/java/com/min/i/memory_BE/domain/media/service/MediaAnalysisService.java:86-123 | the tables and outcome are those of the service specification |
| `MediaControllers.ProcessAnalysisResult` | src/main/java/com/min/i/memory_BE/domain/media/controller/ImageAnalysisController.java:155-190 | the tables and reply are those of the handler specification |
| `MediaControllers.ProcessQuestions` | src/main/java/com/min/i/memory_BE/domain/media/controller/ImageAnalysisController.java:200-242 | the tables and reply are those of the handler specification |
| `MediaControllers.AnalyzeImage` | src/main/java/com/min/i/memory_BE/domain/media/controller/ImageAnalysisController.java:56-146 | the tables and reply are those of the handler specification |
| `MediaControllers.AnalyzePlaced` | src/main/java/com/min/i/memory_BE/domain/media/controller/ImageAnalysisController.java:91-146 | the tables and reply are those of PlacedAnalysis for the given upload outcome |
| `MediaControllers.AnalyzeUploaded` | src/main/java/com/min/i/memory_BE/domain/media/controller/ImageAnalysisController.java:95-131 | the tables and reply are those of the specification of the steps after the upload |

## Left out

- The following are parameters of the operations that use them, and their own behaviour is not modelled:
  - network and storage calls: the relay's HTTP download, vision client, question generator, JSON file write and POST to the back end;
  - S3 put and delete, FastAPI, Google Speech-to-Text and its credentials file, mail transport, and the ffmpeg process;
  - other sources of values: JWT signing and parsing, the password encoder, the clock, UUIDs and `Math.random`.
- Temporary files: SpeechToTextService writes the upload to one and reads it back. That I/O is folded into the recognition parameter.
- `urllib.parse.urlparse` is not reimplemented. The normaliser takes the URL's parsed components as a parameter.
- Case mapping covers ASCII letters only: `toLowerCase`, `toUpperCase` and `equalsIgnoreCase` on other letters are not modelled. The inputs compared are ASCII (keywords, extensions, categories, mail domains).
- `Long.valueOf` accepts ASCII digits only. Java also accepts other Unicode decimal digits, which are not modelled.
- MediaAnalysis.ScoreOf: keeps the confidence score as an exact real. The rounding of `floatValue` to a 32-bit float is not modelled.
- MediaService.SortNewestFirst: the contract states the newest-first order and the permutation. It does not state the stability of `Stream.sorted` among equal timestamps, which the definition keeps.
- `Media.addMediaKeyword` only updates the in-memory collection of the loaded entity. The model keeps only the stored link row.
- Logging, Swagger annotations, cookie attributes other than the max-ages, and ResponseEntity headers are left out.
- Several members the services call are absent from the entities and repositories of this source. They are modelled as the service text uses them:
  - `User.toBuilder`, `loginAttempts`, `lockedUntil`;
  - the Media setters and `Media.getStories`;
  - `Group.update`, `UserGroupRepository.countByGroup` and `findByUserIdAndGroupId`;
  - `MediaRepository.findByAlbumIdWithUserFetch` and `findByAlbumIdAndGroupIdWithUserFetch`, modelled as the media of the album;
  - `S3Service.uploadThumbnail`, which AlbumService calls, modelled as an upload outcome;
  - `OAuthAccount.updateAccessToken` (OAuthService.java:287), modelled as setting the token and the expiry;
  - `Question.level` and `category`, which QuestionDto, AnswerController and StoryService read; they are fields of QuestionRow;
  - the builder argument `emailVerified` (OAuthService.java:299), which the User builder does not declare. OAuthService.DraftFor keeps the flag, but no column stores it.
- `User.status` is declared final ACTIVE in the entity, but UserService rebuilds users as INACTIVE or ACTIVE. The repository rows carry the status as the service uses it.
- The OAuthProvider enum is not part of this model. Its values NAVER, KAKAO and GOOGLE are taken from the switch in OAuthService.
- UserService operations outside the login, lockout, profile and activation rules are left out: `generateTokens`, `completeRegister`, `requestPasswordReset`, `resetPassword`, `deleteUser`, `getUserByEmail`.
- GroupService's read-only listings `getMyGroups` and `getGroupMembers` are left out.
- MediaService `uploadMedia`, `updateMedia`, `deleteMedia` and `getAlbumMedia` are left out. They are repository and S3 calls with no rule of their own.
- MediaAnalysisService `analyzeAndSaveImage` is left out. It wraps a FastAPI call around `processAnalysisResult`, which is modelled.
- AnswerService's read-only listings (`getAnswersByMediaIdAndUserId`, `getLatestAnswerByMediaId`, `getAnswersByQuestionId`, `getAnswersByUserId`, `getAnswerById`) and StoryService `getStoryByMediaId` are left out. So are AnswerController's `getAnswersByMediaId` and `testSpeechToText`.
- TestController.checkFastApiHealth: RestTemplate throws on a non-2xx status. The model instead reports the status it is given, so only the 2xx case and a failed call are stated exactly.
- The question-saving result of `processAnalysisResult` is stated in two parts:
  - QuestionsStoredSaves covers the step that stores questions;
  - ProcessedAnalysisOutcome covers the whole call.
  A single lemma joining them was too costly for the solver.
- UserService.DeactivateUser and UserService.ActivateUser: the ACCOUNT_DEACTIVATED and ACCOUNT_ACTIVATED `EmailVerificationEvent`s they publish are not modelled; only the stored status is.
- AlbumService.DeleteOutcome: only the media table's foreign key is modelled. Album pages also name the album, but the page table is not part of this model, so the same refusal for an album with pages is not stated.
- AlbumService.Authorize and OAuthService.SaveOrUpdateSpec model the code as written; the intended definitions beside them are stated under Findings and are not used by the service methods.
- EmailService: the HTML body of the verification mail is left out; the mail sender only receives it.

## Findings

| source | as written | input that shows it | evidently intended | confidence | as-written member | corrected member |
|---|---|---|---|---|---|---|
| src/main/java/com/min/i/memory_BE/domain/album/service/AlbumService.java:139-141 | the group-admin test calls `getRole().equals("OWNER")` on a UserGroupRole enum, which never equals a String, so only the creator may update or delete an album | the group's OWNER, not the album's creator, asks to delete it: "You don't have permission to delete this album" | the comment above the test: the creator or an OWNER or SENIOR of the group | not executed | `AlbumService.OnlyCreatorIsAuthorized` | `AlbumService.GroupAdminIsAuthorized` |
| src/main/java/com/min/i/memory_BE/domain/user/service/OAuthService.java:294-300 | the new user is built without mailStatus; the @Builder constructor assigns the null argument over the UNVERIFIED default, and the not-null mail_status column refuses the insert | a first Google login with an email no user has | a new UNVERIFIED user is created and the account is linked to it | not executed | `OAuthService.SaveOrUpdateSpec` | `OAuthService.NewUserIsCreatedAndLinked` |
