# PlanBana backend: a verified model of the account, event and sharing core

This project models, in Dafny, the parts of the PlanBana backend (a Spring
Boot service for travel events) that hold real decisions:

- **OtpService**: the purpose-aware one-time-code store keyed by
  "phone|purpose", with a 30-second resend cooldown, a 5-minute expiry and
  five wrong guesses allowed. It also holds one-time registration tickets,
  valid for 24 hours and bound to a phone (`otp_service.dfy`). Phone
  normalisation lives in `phones.dfy`.
- **AuthController**: the same caller-side rules for requesting and
  verifying a code. A "register" code needs an unknown phone; "login" and
  "reset" codes need a known one. It also covers registration with a ticket,
  two-step login, token refresh and password reset (`auth_controller.dfy`).
- **JwtAuthenticationFilter**: which requests it skips, how it finds the
  token (a bearer header first, then the `access_token` cookie) and when it
  fills the security context (`jwt_filter.dfy`). JwtService appears only
  through what it answers (`tokens.dfy`).
- **Event**: likes with their stored count (`event.dfy`).
- **EventController**: the join workflow. It covers the owner, existing
  participants, existing requests, free seats and the waitlist. It also
  covers `myJoinStatus` and the owner's approve and reject actions
  (`event_controller.dfy`).
- **User**: the rating map with its count and average, kept consistent
  (`user.dfy`).
- **UserController**: the profile merge, the verification request and
  rating another user (`user_controller.dfy`).
- **VerificationAdminController**: listing PENDING users and deciding on
  one (`verification_admin.dfy`).
- **AdminRoleController**: role sanitising and protection of the last
  SUPER_ADMIN (`admin_roles.dfy`).
- **ShareLink**: link validity (`share_link.dfy`).
- **ShareLinkController**: creating, listing, revoking, resolving and
  redirecting share links (`share_link_controller.dfy`).

Java string operations are modelled in `text.dfy`: `trim`, `isBlank`,
`toLowerCase`/`toUpperCase` with `Locale.ROOT`, `startsWith`/`endsWith`, and
the regular-expression replacements of `normalizePhone`. `Option` stands for
a nullable value (`wrappers.dfy`).

Objects that the source updates in place are classes: `OtpService`,
`AuthController`, `Event`, `User`, `ShareLinkController` and the security
context. Their methods are proved equal to pure step functions over the old
state. The properties the source promises are lemmas about those functions:
round trips, single use, lockout, capacity and invariants. Repositories are
in-memory fields or parameters. The clock, random numbers, UUIDs, hashes,
token signatures and password hashes are parameters.

## Model

| member | source | states |
|---|---|---|
| Wrappers.FirstIndex | src/main/java/com/planbana/backend/events/EventController.java:309-314 | the position of the first element passing the test: it passes, no earlier one does, and the result is none exactly when no element passes; the repositories' `findByPhone`, `findById` and `findByCodeHash` and the loop of `findJoinRequestForUser` are this search |
| Phones.NormalizePhone | src/main/java/com/planbana/backend/auth/OtpService.java:33-36 | a normalised phone consists of digits only |
| Phones.NormalizeKeepsDigits | src/main/java/com/planbana/backend/auth/AuthController.java:56-59 | trim, then dropping whitespace, then dropping non-digits keeps exactly the input's digits, in order |
| Phones.NormalizeIdempotent | src/main/java/com/planbana/backend/auth/OtpService.java:45-47 | normalising the already normalised phone that controllers pass in changes nothing |
| Phones.NormalizeConcat | src/main/java/com/planbana/backend/auth/OtpService.java:33-36 | normalisation works piece by piece: the result for `a + b` is the result for `a` followed by the result for `b` |
| Phones.NormalizeDigits | src/main/java/com/planbana/backend/auth/OtpService.java:33-36 | a string of digits is its own normal form |
| Otp.KeyInjective | src/main/java/com/planbana/backend/auth/OtpService.java:38-41 | equal store keys mean the same normalised phone and the same purpose: codes for different phones or purposes never share an entry |
| Otp.Key | src/main/java/com/planbana/backend/auth/OtpService.java:38-41 | the store key: the normalised phone, a bar, then the purpose; `KeyInjective` shows distinct phones or purposes get distinct keys |
| Otp.KeyOfNormalized | src/main/java/com/planbana/backend/auth/OtpService.java:45-47 | normalising the phone before `key` normalises it again gives the same key |
| Otp.PadDigits | src/main/java/com/planbana/backend/auth/OtpService.java:57 | `%0<w>d` gives exactly w decimal digits that spell the number |
| Otp.FormatCode | src/main/java/com/planbana/backend/auth/OtpService.java:57 | a code is six decimal digits spelling the random value |
| Otp.FormatCodeInjective | src/main/java/com/planbana/backend/auth/OtpService.java:57 | distinct random values give distinct codes |
| Otp.SendStep | src/main/java/com/planbana/backend/auth/OtpService.java:45-63 | during the cooldown the stored code comes back and the store is unchanged; otherwise a fresh six-digit entry expiring in 300 s with zero attempts replaces it; other keys are untouched |
| Otp.VerifyStep | src/main/java/com/planbana/backend/auth/OtpService.java:65-91 | success iff an entry exists, has not expired, has fewer than 5 attempts and its code matches; success, expiry or exhaustion removes the entry; a wrong guess adds one attempt; other keys are untouched |
| Otp.CorrectCodeOnce | src/main/java/com/planbana/backend/auth/OtpService.java:83-90 | a code that was accepted once is refused the next time |
| Otp.WrongGuessesAccumulate | src/main/java/com/planbana/backend/auth/OtpService.java:83-87 | each wrong guess against a live code adds exactly one attempt and keeps the entry |
| Otp.LockedAfterFiveWrong | src/main/java/com/planbana/backend/auth/OtpService.java:78-87 | after five wrong guesses even the right code fails and the entry is deleted |
| Otp.IssueStep | src/main/java/com/planbana/backend/auth/OtpService.java:94-99 | the ticket is bound to the phone for 24 hours; other tickets are untouched |
| Otp.ConsumeStep | src/main/java/com/planbana/backend/auth/OtpService.java:101-114 | the ticket is removed whatever the outcome; NOT_FOUND, PHONE_MISMATCH, EXPIRED and OK each hold exactly in their case, in that order of checks |
| Otp.ConsumeOnce | src/main/java/com/planbana/backend/auth/OtpService.java:103 | a second consumption of the same ticket finds nothing |
| Otp.IssueThenConsume | src/main/java/com/planbana/backend/auth/OtpService.java:94-114 | a fresh ticket is consumed OK iff the same phone brings it back within 24 hours |
| Otp.OtpService.constructor | src/main/java/com/planbana/backend/auth/OtpService.java:19-23 | both stores start empty |
| Otp.OtpService.SendOtp | src/main/java/com/planbana/backend/auth/OtpService.java:45-63 | the returned code and the new store are those of `SendStep` |
| Otp.OtpService.VerifyOtp | src/main/java/com/planbana/backend/auth/OtpService.java:65-91 | the verdict and the new store are those of `VerifyStep` |
| Otp.OtpService.IssueRegistrationTicket | src/main/java/com/planbana/backend/auth/OtpService.java:94-99 | returns the fresh ticket, and the ticket store is that of `IssueStep` for the normalised phone |
| Otp.OtpService.ConsumeRegistrationTicket | src/main/java/com/planbana/backend/auth/OtpService.java:101-114 | the result and the new ticket store are those of `ConsumeStep` for the normalised phone |
| Auth.FindByPhone | src/main/java/com/planbana/backend/auth/AuthController.java:87 | `FirstIndex` over the accounts with the test "has this phone": the first such account, or none exactly when no account has it |
| Auth.FindById | src/main/java/com/planbana/backend/auth/AuthController.java:306 | `FirstIndex` with the test "has this id": the first such account, or none exactly when no account has it |
| Auth.RequestPhone | src/main/java/com/planbana/backend/auth/AuthController.java:76 | a missing phone reads as "" and is then normalised |
| Auth.ParsePurpose | src/main/java/com/planbana/backend/auth/AuthController.java:77-78 | a missing purpose reads as "register"; it is then trimmed and lower-cased |
| Auth.RequestCode | src/main/java/com/planbana/backend/auth/AuthController.java:113 | a missing code reads as "" and is then trimmed |
| Auth.NewAccount | src/main/java/com/planbana/backend/auth/AuthController.java:167-176 | the account `registerMinimal` saves: the id, the normalised phone, the password hash and the display name, with a verified phone, role USER and language English |
| Auth.RequestOtpCheck | src/main/java/com/planbana/backend/auth/AuthController.java:76-93 | the request passes iff the phone is non-empty, the purpose is register, login or reset, and the purpose suits whether the phone is registered; otherwise the message is that of the first failing check, in the order phone required, purpose invalid, already registered, not registered |
| Auth.RequestOtpStep | src/main/java/com/planbana/backend/auth/AuthController.java:75-102 | a code is sent iff the checks pass; on failure the store is unchanged; on success the store is `SendStep`'s, and the code is exposed only in the dev profile |
| Auth.VerifyOtpStep | src/main/java/com/planbana/backend/auth/AuthController.java:109-135 | a missing phone or code gets 400 "phone and otp are required", then an unknown purpose 400 "purpose must be …", both leaving the stores alone; otherwise the code store follows `VerifyStep`, a wrong code gets 400 invalid OTP, a right "register" code issues a 24-hour ticket (the only case the ticket store changes), and a right "login" or "reset" code answers "OTP verified" |
| Auth.RegisterStep | src/main/java/com/planbana/backend/auth/AuthController.java:150-177 | the ticket is consumed first whatever happens; a failed ticket reports its reason; an OK ticket for a known phone gets 400 "Phone already registered"; otherwise the account is appended with a verified phone, role USER and language English, and the response carries the issued refresh and access tokens and that account |
| Auth.RegisterAsWritten | src/main/java/com/planbana/backend/auth/AuthController.java:150-202 | same stores as `RegisterStep`; the response is NullPointerException whenever `RegisterStep` registers a user without a display name |
| Auth.UnnamedRegistrationFails | src/main/java/com/planbana/backend/auth/AuthController.java:190-196 | a valid ticket used without a display name saves the account and spends the ticket, yet the response is an error |
| Auth.LoginStep | src/main/java/com/planbana/backend/auth/AuthController.java:209-224 | a login code is sent iff the credentials pass and the account exists with a verified phone; an unverified phone gets 403; the store changes only when a code is sent |
| Auth.LoginVerifyStep | src/main/java/com/planbana/backend/auth/AuthController.java:227-247 | tokens are returned iff the "login" code checks out and the account exists; the code store always follows `VerifyStep`; a failed check gets 400 |
| Auth.Refresh | src/main/java/com/planbana/backend/auth/AuthController.java:253-271 | a new access token is issued iff the refresh token validates and its subject is a known phone; an invalid token gets 400 |
| Auth.RequestResetStep | src/main/java/com/planbana/backend/auth/AuthController.java:287-298 | the reply is the same whether or not the phone exists; a token lasting one hour is stored only for a known phone |
| Auth.ResetStep | src/main/java/com/planbana/backend/auth/AuthController.java:301-312 | unknown token gives 400 "Invalid token"; an expired one gives 400 "Token expired"; otherwise exactly the token's user gets the new hash and the token is deleted; nothing changes on failure |
| Auth.ParsePurposeDefault | src/main/java/com/planbana/backend/auth/AuthController.java:111-112 | a missing purpose means "register" |
| Auth.RequestStoresFreshCode | src/main/java/com/planbana/backend/auth/AuthController.java:95 | a register request for an unknown phone with no outstanding code stores a fresh entry with the formatted code, 300 s expiry and zero attempts |
| Auth.RequestThenVerify | src/main/java/com/planbana/backend/auth/AuthController.java:74-135 | registration round trip: the code sent for an unknown phone, typed back within five minutes, yields a ticket |
| Auth.RegisterWithIssuedTicket | src/main/java/com/planbana/backend/auth/AuthController.java:126-165 | a ticket issued for a phone registers that phone iff the phone is still unknown and the ticket comes back within 24 hours |
| Auth.ResetTokenSingleUse | src/main/java/com/planbana/backend/auth/AuthController.java:309 | a reset token that worked once is unknown afterwards |
| Auth.ResetWithinTheHour | src/main/java/com/planbana/backend/auth/AuthController.java:287-312 | a reset requested for a known phone can be used within the hour and sets that user's password |
| Auth.AuthController.constructor | src/main/java/com/planbana/backend/auth/AuthController.java:35-51 | the controller starts with the given OTP service, profile and directory and no reset tokens |
| Auth.AuthController.RequestOtp | src/main/java/com/planbana/backend/auth/AuthController.java:75-102 | the response and the code store are those of `RequestOtpStep` |
| Auth.AuthController.VerifyOtp | src/main/java/com/planbana/backend/auth/AuthController.java:109-135 | the response and both stores are those of `VerifyOtpStep` |
| Auth.AuthController.RegisterMinimal | src/main/java/com/planbana/backend/auth/AuthController.java:148-203 | the response, the directory and the ticket store are those of `RegisterAsWritten` |
| Auth.AuthController.Login | src/main/java/com/planbana/backend/auth/AuthController.java:209-224 | the response and the code store are those of `LoginStep` |
| Auth.AuthController.LoginVerifyOtp | src/main/java/com/planbana/backend/auth/AuthController.java:227-247 | the response and the code store are those of `LoginVerifyStep` |
| Auth.AuthController.RequestPasswordReset | src/main/java/com/planbana/backend/auth/AuthController.java:287-298 | the response and the reset tokens are those of `RequestResetStep` |
| Auth.AuthController.ResetPassword | src/main/java/com/planbana/backend/auth/AuthController.java:301-312 | the response, the directory and the reset tokens are those of `ResetStep` |
| JwtFilter.FirstAccessCookie | src/main/java/com/planbana/backend/security/JwtAuthenticationFilter.java:65-71 | none iff no cookie is named access_token; otherwise the value of such a cookie |
| JwtFilter.ShouldNotFilter | src/main/java/com/planbana/backend/security/JwtAuthenticationFilter.java:33-38 | the filter is skipped exactly for OPTIONS requests and servlet paths starting with /api/auth |
| JwtFilter.IsBearer | src/main/java/com/planbana/backend/security/JwtAuthenticationFilter.java:62 | the lower-cased header starts with "bearer " |
| JwtFilter.ResolveToken | src/main/java/com/planbana/backend/security/JwtAuthenticationFilter.java:60-73 | a header starting with "bearer " in any case yields the text after its seventh character; otherwise the access cookie, if any |
| JwtFilter.BearerHeader | src/main/java/com/planbana/backend/security/JwtAuthenticationFilter.java:62 | a header that opens with a case variant of "bearer" and a space passes the bearer test |
| JwtFilter.BearerRoundTrip | src/main/java/com/planbana/backend/security/JwtAuthenticationFilter.java:60-64 | "Bearer t", in any letter case, yields exactly t, whatever the cookies hold |
| JwtFilter.FilterStep | src/main/java/com/planbana/backend/security/JwtAuthenticationFilter.java:41-58 | an existing authentication is kept; a new one is set only from a validated token whose subject loads, with that user's authorities; the chain stops only when loading throws |
| JwtFilter.NoValidTokenNoChange | src/main/java/com/planbana/backend/security/JwtAuthenticationFilter.java:47 | with no token or an invalid one, the context is untouched and the chain continues |
| JwtFilter.DoFilter | src/main/java/com/planbana/backend/security/JwtAuthenticationFilter.java:32-38 | OPTIONS requests and /api/auth paths pass without touching the context; every other request goes through `FilterStep` |
| JwtFilter.DoFilterInternal | src/main/java/com/planbana/backend/security/JwtAuthenticationFilter.java:41-58 | the chain verdict and the new authentication are those of `FilterStep` |
| Events.LikeStep | src/main/java/com/planbana/backend/events/Event.java:83-88 | a null or blank id changes nothing; otherwise the id joins the likers, the result is true iff it was new, and only then is the count recomputed |
| Events.UnlikeStep | src/main/java/com/planbana/backend/events/Event.java:90-95 | a null or blank id changes nothing; otherwise the id leaves the likers, the result is true iff it was there, and only then is the count recomputed |
| Events.LikeIdempotent | src/main/java/com/planbana/backend/events/Event.java:83-88 | liking twice reports false the second time and changes nothing more |
| Events.LikesStayCounted | src/main/java/com/planbana/backend/events/Event.java:83-99 | like and unlike keep a correct like count correct |
| Events.LikeThenUnlike | src/main/java/com/planbana/backend/events/Event.java:83-95 | a new like undone by unlike restores both the likers and the count |
| Events.Event.constructor | src/main/java/com/planbana/backend/events/Event.java:43-55 | a new event has no participants, join requests or likers, and a like count of zero |
| Events.Event.Like | src/main/java/com/planbana/backend/events/Event.java:83-88 | the result, the likers and the count are those of `LikeStep`, and a consistent count stays consistent |
| Events.Event.Unlike | src/main/java/com/planbana/backend/events/Event.java:90-95 | the result, the likers and the count are those of `UnlikeStep`, and a consistent count stays consistent |
| Events.Event.RecomputeLikes | src/main/java/com/planbana/backend/events/Event.java:97-99 | the count equals the number of likers |
| Events.Event.SetLikedByUserIds | src/main/java/com/planbana/backend/events/Event.java:156-159 | null installs an empty set; the count is then consistent |
| EventJoins.FindJoinRequest | src/main/java/com/planbana/backend/events/EventController.java:309-314 | `FirstIndex` with the test "belongs to this user": the user's first request, or none exactly when the user has none |
| EventJoins.WithoutUser | src/main/java/com/planbana/backend/events/EventController.java:302-305 | no kept request belongs to the user, every request of another user is kept, and nothing new appears |
| EventJoins.WithoutUserCounts | src/main/java/com/planbana/backend/events/EventController.java:302-305 | each request of another user is kept as many times as it occurs, and none of the user's is kept |
| EventJoins.WithoutUserAppend | src/main/java/com/planbana/backend/events/EventController.java:302-305 | the filter distributes over concatenation, so the kept requests stay in their original order |
| EventJoins.WithoutAbsentUser | src/main/java/com/planbana/backend/events/EventController.java:302-305 | filtering out a user with no request changes nothing |
| EventJoins.FindAfterUpdate | src/main/java/com/planbana/backend/events/EventController.java:330-331 | updating the found request in place keeps it the one found |
| EventJoins.FindAfterAppend | src/main/java/com/planbana/backend/events/EventController.java:316-323 | a request appended for a user with none is the one found |
| EventJoins.FindOrCreateStep | src/main/java/com/planbana/backend/events/EventController.java:316-323 | the returned request is the user's first; a PENDING request is appended only when the user has none |
| EventJoins.ApproveStep | src/main/java/com/planbana/backend/events/EventController.java:325-334 | fails (409) iff the event is full; otherwise the user participates and their request reads APPROVED; a missing request time is filled in |
| EventJoins.RejectStep | src/main/java/com/planbana/backend/events/EventController.java:336-341 | the user stops participating and their request reads REJECTED |
| EventJoins.JoinStatusOf | src/main/java/com/planbana/backend/events/EventController.java:209-221 | a participant reads APPROVED; otherwise the status of the user's first request; otherwise NONE |
| EventJoins.RequestJoinStep | src/main/java/com/planbana/backend/events/EventController.java:175-206 | the owner is approved and their requests dropped; a participant or a user with a request gets their current status; otherwise the user gets a free seat or is WAITLISTED |
| EventJoins.JoinThenStatus | src/main/java/com/planbana/backend/events/EventController.java:175-221 | after a join, `myJoinStatus` reads the status the join returned |
| EventJoins.ParseAction | src/main/java/com/planbana/backend/events/EventController.java:240 | a missing action reads as ""; otherwise it is trimmed and lower-cased |
| EventJoins.JoinTwice | src/main/java/com/planbana/backend/events/EventController.java:175-206 | joining again returns the same status and changes nothing |
| EventJoins.JoinRespectsCapacity | src/main/java/com/planbana/backend/events/EventController.java:194-205 | a non-owner never takes the participants beyond `maxParticipants` |
| EventJoins.DecisionThenStatus | src/main/java/com/planbana/backend/events/EventController.java:325-341 | after an approval the status reads APPROVED; after a rejection, REJECTED |
| EventJoins.ChangeJoinStatusStep | src/main/java/com/planbana/backend/events/EventController.java:231-254 | a non-owner gets 403 and a bad action 400; "approve" on a full event gets 409; all of these change nothing; otherwise approve or reject take effect and the response reports the new status and participant count |
| EventJoins.FindJoinRequestForUser | src/main/java/com/planbana/backend/events/EventController.java:309-314 | the loop finds what `FindJoinRequest` specifies |
| EventJoins.EnsureParticipant | src/main/java/com/planbana/backend/events/EventController.java:302-307 | drops all of the user's requests and adds the user to the participants |
| EventJoins.FindOrCreateJoinRequest | src/main/java/com/planbana/backend/events/EventController.java:316-323 | the index and the new requests are those of `FindOrCreateStep` |
| EventJoins.ApproveUser | src/main/java/com/planbana/backend/events/EventController.java:325-334 | the verdict, participants and requests are those of `ApproveStep` |
| EventJoins.RejectUser | src/main/java/com/planbana/backend/events/EventController.java:336-341 | participants and requests become those of `RejectStep` |
| EventJoins.RequestJoin | src/main/java/com/planbana/backend/events/EventController.java:175-206 | the status, participants and requests are those of `RequestJoinStep` |
| EventJoins.MyJoinStatus | src/main/java/com/planbana/backend/events/EventController.java:209-221 | returns `JoinStatusOf` the event's state |
| EventJoins.ChangeJoinStatus | src/main/java/com/planbana/backend/events/EventController.java:231-254 | the outcome, participants and requests are those of `ChangeJoinStatusStep` |
| Users.RatingSumBounds | src/main/java/com/planbana/backend/user/User.java:78-86 | with every rating in 1..5, the sum lies between the count and five times the count |
| Users.Average | src/main/java/com/planbana/backend/user/User.java:78-86 | the average that `fullRecompute` stores: 0.0 without ratings, otherwise the rating sum over the count; `AverageBounds` bounds it |
| Users.QuotientBounds | src/main/java/com/planbana/backend/user/User.java:85 | a sum between n and 5n, divided by n, lies in 1..5 |
| Users.AverageBounds | src/main/java/com/planbana/backend/user/User.java:78-86 | the average is 0.0 without ratings and otherwise lies in 1..5 |
| Users.WithRating | src/main/java/com/planbana/backend/user/User.java:55-61 | a null or blank rater, or a value outside 1..5, changes nothing; otherwise the rater's entry becomes the value, other raters keep theirs, and the count grows iff the rater is new |
| Users.WithoutRating | src/main/java/com/planbana/backend/user/User.java:63-69 | a null or blank rater changes nothing; otherwise the rater's entry is gone, other raters keep theirs, and the count shrinks iff the rater had rated |
| Users.UpsertKeepsRatings | src/main/java/com/planbana/backend/user/User.java:55-69 | upserting and removing keep every stored rating in 1..5 |
| Users.RatingSumAfterUpsert | src/main/java/com/planbana/backend/user/User.java:55-61 | a new rating adds its value to the sum; a re-rating replaces the old value in it |
| Users.RatingSumAfterRemove | src/main/java/com/planbana/backend/user/User.java:63-69 | removing a rating takes its value out of the sum |
| Users.UpsertThenRemove | src/main/java/com/planbana/backend/user/User.java:55-69 | removing a first-time rating restores the ratings as they were |
| Users.User.constructor | src/main/java/com/planbana/backend/user/User.java:24-52 | a new user is UNVERIFIED, with no roles, an empty profile, no ratings, count 0 and average 0.0 |
| Users.User.UpsertRating | src/main/java/com/planbana/backend/user/User.java:55-61 | the map becomes `WithRating` of the old one; a rejected call changes nothing; an accepted one leaves count and average consistent with the map |
| Users.User.RemoveRating | src/main/java/com/planbana/backend/user/User.java:63-69 | the map becomes `WithoutRating` of the old one; count and average are recomputed only when an entry was removed |
| Users.User.RecomputeRatings | src/main/java/com/planbana/backend/user/User.java:71-76 | whatever the interim bump, count and average end consistent with the map |
| Users.User.FullRecompute | src/main/java/com/planbana/backend/user/User.java:78-86 | the loop leaves the count equal to the map's size and the average equal to sum / count (0.0 when empty) |
| Users.User.SetRatingsByUserId | src/main/java/com/planbana/backend/user/User.java:153-156 | null installs an empty map with count 0 and average 0.0; either way count and average are consistent |
| UserApi.Overlay | src/main/java/com/planbana/backend/user/UserController.java:56 | a non-null request field replaces the stored value; a null one keeps it |
| UserApi.Merge | src/main/java/com/planbana/backend/user/UserController.java:56-66 | each of the eleven fields takes the request's value when given and keeps the stored one otherwise |
| UserApi.MergeEmpty | src/main/java/com/planbana/backend/user/UserController.java:56-66 | an empty request leaves the profile unchanged |
| UserApi.MergeIdempotent | src/main/java/com/planbana/backend/user/UserController.java:56-66 | sending the same update twice has the effect of sending it once |
| UserApi.MergeFull | src/main/java/com/planbana/backend/user/UserController.java:56-66 | a request that sets every field determines the profile, whatever was stored |
| UserApi.UpdateProfile | src/main/java/com/planbana/backend/user/UserController.java:51-70 | the profile becomes `Merge` of the old one and the verification status is untouched: users cannot verify themselves |
| UserApi.RequestVerificationStep | src/main/java/com/planbana/backend/user/UserController.java:101-105 | UNVERIFIED and REJECTED become PENDING; PENDING and VERIFIED stay |
| UserApi.RequestVerificationIdempotent | src/main/java/com/planbana/backend/user/UserController.java:88-94 | requesting again is a no-op |
| UserApi.RequestNeverVerifies | src/main/java/com/planbana/backend/user/UserController.java:46-47 | the result is VERIFIED iff the user already was |
| UserApi.RequestVerification | src/main/java/com/planbana/backend/user/UserController.java:96-107 | the status becomes `RequestVerificationStep` of the old one and is returned by name |
| UserApi.RateCheck | src/main/java/com/planbana/backend/user/UserController.java:138-153 | a missing or out-of-range value gets 400 first; the rating goes ahead iff the value is in 1..5, both users exist and they differ; self-rating gets 403 |
| UserApi.RemoveCheck | src/main/java/com/planbana/backend/user/UserController.java:171-179 | removal goes ahead iff both users exist and differ; removing one's own rating gets 403 |
| UserApi.RateUser | src/main/java/com/planbana/backend/user/UserController.java:137-164 | a refused request changes no rating field; an accepted one stores the value under the rater's id, leaves count and average consistent and reports them |
| UserApi.RemoveMyRating | src/main/java/com/planbana/backend/user/UserController.java:170-190 | a refused request changes no rating field; an accepted one deletes the rater's entry and reports the summary |
| VerificationAdmin.PendingUsers | src/main/java/com/planbana/backend/admin/VerificationAdminController.java:27 | lists only PENDING users of the repository, each PENDING user as often as it is stored |
| VerificationAdmin.Rows | src/main/java/com/planbana/backend/admin/VerificationAdminController.java:28-34 | one row per user, in order, with id, phone, display name and status name |
| VerificationAdmin.PendingUserListed | src/main/java/com/planbana/backend/admin/VerificationAdminController.java:27 | every PENDING user is listed |
| VerificationAdmin.PendingListsExactlyPending | src/main/java/com/planbana/backend/admin/VerificationAdminController.java:26-35 | every row reads PENDING and every PENDING user has a row |
| VerificationAdmin.PendingAsWritten | src/main/java/com/planbana/backend/admin/VerificationAdminController.java:26-35 | the listing fails iff some PENDING user lacks a phone or a display name; otherwise it is the corrected listing |
| VerificationAdmin.UnnamedPendingUserBreaksListing | src/main/java/com/planbana/backend/admin/VerificationAdminController.java:29-33 | one PENDING user without a display name makes the whole listing fail |
| VerificationAdmin.ParseDecision | src/main/java/com/planbana/backend/admin/VerificationAdminController.java:48-52 | accepted iff the text is exactly VERIFIED or REJECTED, and then it names the status set |
| VerificationAdmin.DecideStep | src/main/java/com/planbana/backend/admin/VerificationAdminController.java:44-56 | an unknown user gets 404; any other text gets 400 and no change; otherwise the status becomes the one named |
| VerificationAdmin.DecisionIgnoresCurrentStatus | src/main/java/com/planbana/backend/admin/VerificationAdminController.java:48-53 | a decision does not depend on the current status |
| VerificationAdmin.Decide | src/main/java/com/planbana/backend/admin/VerificationAdminController.java:44-56 | the response and the new status are those of `DecideStep` |
| AdminRoles.SafeRoles | src/main/java/com/planbana/backend/admin/AdminRoleController.java:43-50 | a non-empty subset of {USER, ADMIN, SUPER_ADMIN} keeping every allowed requested role; anything else appears only as the USER default for an empty result |
| AdminRoles.SafeRolesIdempotent | src/main/java/com/planbana/backend/admin/AdminRoleController.java:43-50 | sanitising a sanitised set returns it unchanged |
| AdminRoles.Sanitize | src/main/java/com/planbana/backend/admin/AdminRoleController.java:43-50 | the loop over the requested roles, in any order, yields `SafeRoles` |
| AdminRoles.UpdateRolesStep | src/main/java/com/planbana/backend/admin/AdminRoleController.java:28-56 | an unknown user gets 404; removing SUPER_ADMIN when at most one holder exists gets 400 and no change; otherwise the sanitised roles are stored and returned |
| AdminRoles.LastSuperAdminKeepsRole | src/main/java/com/planbana/backend/admin/AdminRoleController.java:32-40 | the only SUPER_ADMIN keeps the role whatever is requested |
| AdminRoles.StoredRolesAllowed | src/main/java/com/planbana/backend/admin/AdminRoleController.java:42-53 | stored roles are always a non-empty set of known roles |
| AdminRoles.UpdateRoles | src/main/java/com/planbana/backend/admin/AdminRoleController.java:28-56 | the response and the new roles are those of `UpdateRolesStep` |
| ShareLinks.NewShareLink | src/main/java/com/planbana/backend/events/share/ShareLink.java:20-31 | a new link is an enabled INVITE/VIEW link with zero uses, no expiry, no cap and no code hash |
| ShareLinks.IsValidAt | src/main/java/com/planbana/backend/events/share/ShareLink.java:38-43 | a link is usable when not disabled, not past its expiry and, when both are set, its uses are below its cap; `ValidityCharacterised` states it in closed form |
| ShareLinks.NewLinkValid | src/main/java/com/planbana/backend/events/share/ShareLink.java:38-43 | a fresh link is valid at every instant |
| ShareLinks.ValidityCharacterised | src/main/java/com/planbana/backend/events/share/ShareLink.java:38-43 | valid iff enabled, not after its expiry, and below its cap when both cap and count are set |
| ShareLinks.InvalidStaysInvalidLater | src/main/java/com/planbana/backend/events/share/ShareLink.java:40 | an invalid link stays invalid later in time |
| ShareLinks.InvalidStaysInvalidWithMoreUses | src/main/java/com/planbana/backend/events/share/ShareLink.java:41 | an invalid link stays invalid when its use count is set to any value at least its current one, a null count reading as 0 |
| ShareLinkApi.TrimTrailingSlash | src/main/java/com/planbana/backend/events/share/ShareLinkController.java:45-47 | null stays null; one trailing slash is dropped; other strings are unchanged |
| ShareLinkApi.TrimTrailingSlashOnce | src/main/java/com/planbana/backend/events/share/ShareLinkController.java:45-47 | only one slash goes: "x//" becomes "x/" |
| ShareLinkApi.InviteUrl | src/main/java/com/planbana/backend/events/share/ShareLinkController.java:109 | an invite link's URL: the base, "/i/", then the code |
| ShareLinkApi.PublicUrl | src/main/java/com/planbana/backend/events/share/ShareLinkController.java:110 | a public link's URL: the base, "/e/", then the event id |
| ShareLinkApi.ParseType | src/main/java/com/planbana/backend/events/share/ShareLinkController.java:250-253 | null or blank means INVITE; otherwise parsing succeeds iff the trimmed upper-cased text is PUBLIC or INVITE, naming that type |
| ShareLinkApi.ParseScope | src/main/java/com/planbana/backend/events/share/ShareLinkController.java:255-258 | null or blank means VIEW; otherwise parsing succeeds iff the trimmed upper-cased text is VIEW, JOIN or VIEW_JOIN, naming that scope |
| ShareLinkApi.EnumTextOfName | src/main/java/com/planbana/backend/events/share/ShareLinkController.java:252 | an enum name is unchanged by trim and upper-casing and is not blank |
| ShareLinkApi.ParseTypeOf | src/main/java/com/planbana/backend/events/share/ShareLinkController.java:250-253 | non-blank text whose trimmed upper-cased form names a type parses to that type |
| ShareLinkApi.ParseTypeName | src/main/java/com/planbana/backend/events/share/ShareLinkController.java:250-253 | every type parses back from its own name |
| ShareLinkApi.ParseScopeOf | src/main/java/com/planbana/backend/events/share/ShareLinkController.java:255-258 | non-blank text whose trimmed upper-cased form names a scope parses to that scope |
| ShareLinkApi.ParseScopeName | src/main/java/com/planbana/backend/events/share/ShareLinkController.java:255-258 | every scope parses back from its own name |
| ShareLinkApi.OwnerCheck | src/main/java/com/planbana/backend/events/share/ShareLinkController.java:238-248 | passes iff the caller exists and the event exists and is theirs; a missing caller gets 401 and a missing event 404 |
| ShareLinkApi.FindById | src/main/java/com/planbana/backend/events/share/ShareLinkController.java:162-163 | `FirstIndex` with the test "has this id": the first such link, or none exactly when none has it |
| ShareLinkApi.FindByCodeHash | src/main/java/com/planbana/backend/events/share/ShareLinkController.java:196 | `FirstIndex` with the test "has this code hash": the first such link, or none exactly when none has it |
| ShareLinkApi.FindByCodeHashSameHashes | src/main/java/com/planbana/backend/events/share/ShareLinkController.java:196 | the lookup depends only on the code hashes |
| ShareLinkApi.Use | src/main/java/com/planbana/backend/events/share/ShareLinkController.java:201-205 | a valid link gains one use, counting a null count as 0; an invalid link is untouched |
| ShareLinkApi.UsesNeverPassCap | src/main/java/com/planbana/backend/events/share/ShareLinkController.java:201-205 | no sequence of resolves takes a capped count beyond its cap, and the count never drops |
| ShareLinkApi.DisabledNeverCounted | src/main/java/com/planbana/backend/events/share/ShareLinkController.java:201-205 | resolving a disabled link never changes it |
| ShareLinkApi.ResolveStep | src/main/java/com/planbana/backend/events/share/ShareLinkController.java:194-213 | an unknown code gets an invalid, empty answer and changes nothing; otherwise the found link answers with its validity, event, scope, expiry and cap, and only it is counted |
| ShareLinkApi.RevokeAt | src/main/java/com/planbana/backend/events/share/ShareLinkController.java:168-169 | exactly the revoked link becomes disabled |
| ShareLinkApi.ResolveAfterRevoke | src/main/java/com/planbana/backend/events/share/ShareLinkController.java:159-213 | after revoke, resolving the code answers invalid and counts nothing |
| ShareLinkApi.ListItem | src/main/java/com/planbana/backend/events/share/ShareLinkController.java:140-150 | a row has a URL iff the link is public, that URL is the event page, and no code is shown |
| ShareLinkApi.LinksOf | src/main/java/com/planbana/backend/events/share/ShareLinkController.java:137 | exactly the links of this event created by the caller |
| ShareLinkApi.ListItems | src/main/java/com/planbana/backend/events/share/ShareLinkController.java:138-152 | one row per link, in order |
| ShareLinkApi.ListHidesInviteUrls | src/main/java/com/planbana/backend/events/share/ShareLinkController.java:148-149 | listing never reveals an invite URL, and every public URL is this event's page |
| ShareLinkApi.CreatedLink | src/main/java/com/planbana/backend/events/share/ShareLinkController.java:90-104 | the stored link has the parsed type and scope, the request's limits, the caller as creator, zero uses and is enabled |
| ShareLinkApi.CreatedLinkValid | src/main/java/com/planbana/backend/events/share/ShareLinkController.java:90-98 | a created link is valid until its expiry when its cap is absent or positive |
| ShareLinkApi.ShareLinkController.constructor | src/main/java/com/planbana/backend/events/share/ShareLinkController.java:33-43 | the base URL is the configured one (default https://planbana.com) without one trailing slash |
| ShareLinkApi.ShareLinkController.Create | src/main/java/com/planbana/backend/events/share/ShareLinkController.java:76-124 | the owner check fails first; an unknown type or scope throws; otherwise exactly one link is appended, and only an invite link gets a code and an /i/ URL; a public link gets the /e/ URL |
| ShareLinkApi.ShareLinkController.List | src/main/java/com/planbana/backend/events/share/ShareLinkController.java:130-153 | after the owner check, the loop returns `ListItems` of the caller's links for the event |
| ShareLinkApi.ShareLinkController.Revoke | src/main/java/com/planbana/backend/events/share/ShareLinkController.java:159-171 | a missing caller gets 401, an unknown link 404, a non-owner the owner check's error; only the owner disables the link; failures change nothing |
| ShareLinkApi.ShareLinkController.Resolve | src/main/java/com/planbana/backend/events/share/ShareLinkController.java:193-213 | the answer and the links are those of `ResolveStep` for the code's hash |
| ShareLinkApi.ShareLinkController.Redirect | src/main/java/com/planbana/backend/events/share/ShareLinkController.java:219-232 | counts like resolve, and always points at the invite page for the code |

## Left out

- Persistence, HTTP, cookies and concurrency are left out. Repositories are
  in-memory sequences and maps, or parameters; `save` is the field update.
  `ConcurrentHashMap` is a plain map, since each handler is modelled as one
  atomic step.
- The clock, `SecureRandom`, `UUID.randomUUID()`, `generateCode`, SHA-256,
  password encoding and JWT signing or parsing are parameters. Their
  freshness is a precondition where the source relies on it (a new ticket is
  not in use yet).
- Logging, the `logout` endpoint (it only clears a cookie) and the
  read-only endpoints `me`, `myVerificationStatus` and `getUserRating` are
  left out, because they compute nothing beyond a lookup.
- The lookup of the signed-in caller (by phone, then by e-mail) is not
  modelled. The caller arrives as an id or a `null` user.
- `countByRolesContaining` arrives as the parameter `superAdmins`. The
  repository's id assignment arrives as `newId`.
- Integers are unbounded. Java's 32-bit `Integer` for share-link
  `uses`/`maxUses` and `int` attempts, and its 64-bit `long` counts, would
  wrap only after 2^31 or 2^63 events.
- Users.Average: `ratingAverage` is the exact quotient of the rating sum by
  the count. The IEEE double rounding of `(double) sum / (double) cnt` is
  not modelled.
- Users.WithRating: stored ratings are integers. A `null` value inside
  `ratingsByUserId`, which `fullRecompute` skips in the sum but counts, is
  not modelled.
- Text.ToUpper: the one-to-many upper-case mappings of
  `toUpperCase(Locale.ROOT)` (for example sharp s to "SS") are not
  modelled. No such expansion produces a letter pair of the enum names that
  `parseType` and `parseScope` accept.
- Text.ToLower: only ASCII letters are lower-cased. Every string it is
  compared against ("bearer ", the purposes, the actions) is ASCII, and no
  other character lower-cases into one of them.
- A `null` phone in the bodies of `registerMinimal`, `login`,
  `loginVerifyOtp` and `requestPasswordReset` is not modelled: `rawPhone` is
  a string. The request classes these endpoints use are not part of this
  model.
- `purposeField` values that are not strings, and a `null` request body in
  `decide`, `rateUser` or `updateRoles`, are not modelled.
- `Set.of(...).contains(null)` throws in Java. A `null` role inside the
  requested role set is not modelled: role sets hold strings.
- JwtFilter.FilterStep: when `loadUserByUsername` throws, the model reports
  that the chain did not continue. The exception and its translation by the
  servlet container are not modelled.
- EventController's `create`, `list`, `get`, `update`, `delete`,
  `listJoinRequests`, `getLikes`, `like` and `unlike` handlers are left
  out. They only copy fields or run a repository query; the like logic
  itself is modelled in `Event`.
- The geo and pricing fields of `Event`, and the e-mail, password-hash
  and verification flags of `User` apart from what registration sets, are
  not modelled.
- `URI.create` in `redirect` would throw on a code that is not a valid URI.
  The model always returns the location string.

## Findings

| source | as written | input that shows it | evidently intended | confidence | as-written member | corrected member |
|---|---|---|---|---|---|---|
| src/main/java/com/planbana/backend/admin/VerificationAdminController.java:29-33 | each row is built with `Map.of`, which throws NullPointerException on a `null` value | one PENDING user who registered without a display name (or has no phone) | list every PENDING user, with absent fields shown as null | high that `Map.of` throws; not executed | VerificationAdmin.UnnamedPendingUserBreaksListing | VerificationAdmin.PendingListsExactlyPending |
| src/main/java/com/planbana/backend/auth/AuthController.java:190-196 | the user payload is built with `Map.of` after the user was saved and the ticket consumed, so a `null` display name throws | `registerMinimal` with a valid ticket and no `displayName` | answer with the tokens and the new user, display name null | medium: the request class is not available, so validation may reject a missing name; not executed | Auth.UnnamedRegistrationFails | Auth.RegisterWithIssuedTicket |
