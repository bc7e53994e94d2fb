# DeepScan: a verified model of the mock services and the session controller

DeepScan is a web front end that lets a signed-in user submit an image, video,
audio clip or text for deepfake analysis and browse the history of their scans.
Its logic lives in two in-memory mock services and a session controller:

- the **scan service** draws a confidence score per content type, derives the
  verdict (score above 50), a list of detected markers with one shared severity,
  stores every result in a dictionary keyed by scan id, and answers history
  queries, seeding ten sample scans the first time it finds its store empty;
- the **auth service** keeps a dictionary of user records and a dictionary of each
  user's current token, and offers register, login, Google sign-in, logout and
  token verification;
- the **session controller** holds the signed-in user, a loading flag, the last
  error and two browser-storage entries, and moves between these states as the
  service calls succeed or fail;
- the **dashboard** and **scan page** derive chart counts, totals, the detection
  rate and display labels from a history, check a scan request before issuing it,
  and decide when the Start button is enabled.

The Dafny modules follow that structure:

| module | file | form |
|---|---|---|
| `Results` | results.dfy | `Option` and `Result` |
| `Text` | text.dfy | the string operations the source uses: `${n}`, `split`, `join`, `pop`, `trim`, first-letter upper-casing |
| `ScanService` | scan_service.dfy | score, verdict and marker functions; class `ScanStore` for the scan dictionary |
| `AuthService` | auth_service.dfy | the operations as functions on a database value; class `AuthStore` performing them on its two dictionaries |
| `AuthContext` | auth_context.dfy | class `AuthSession`, the session state machine |
| `Dashboard` | dashboard.dfy | pure statistics and labels |
| `ScanPage` | scan_page.dfy | input check and Start rule; class `ScanPageState` for the page state |

Every `Math.random()` draw is a parameter: a real in [0, 1). The clock is an integer
parameter; an operation that reads it more than once is given one reading for
all of its reads (see "## Left out"). The shuffle of a marker vocabulary is a parameter too: any
permutation of the five positions. Scores are real numbers.

Two store invariants carry most of the proofs:
- `ScanStore.Valid`: every key is listed once in insertion order, every scan is
  stored under its own id, and every scan is consistent. A consistent scan has a
  verdict that agrees with its score, a score and processing time in range, and a
  fitting marker list.
- `ValidDb`: no two users share an email or a googleId, and every token belongs
  to a stored user and was minted for that user. Because a token ends in
  `_<digits>` after the user id, one token can name only one user.

## Model

| member | source | states |
|---|---|---|
| ScanService.GenerateRandomScore | src/services/deepfakeService.ts:27-42 | the score is non-negative, below 100 × the type's factor (image 0.8, video 0.9, audio 0.7, text 0.6, any other string 1) and never above the base score |
| ScanService.ScoreOrderByType | src/services/deepfakeService.ts:27-42 | for the same draw, text ≤ audio ≤ image ≤ video ≤ any string that is not one of the four types |
| ScanService.MarkerCount | src/services/deepfakeService.ts:47 | the count is at least 1, and unless it is 1 it is the floor of score/20 (20·count ≤ score < 20·(count+1)) |
| ScanService.MarkerCountRange | src/services/deepfakeService.ts:47 | a score in [0, 100) asks for one to four markers |
| ScanService.Vocabulary | src/services/deepfakeService.ts:81-97 | every vocabulary has five entries with distinct marker types; a string that is not one of the four types gets the image list |
| ScanService.SeverityMonotone | src/services/deepfakeService.ts:105-107 | a higher score never gives a lower severity |
| ScanService.AudioAndTextNeverHigh | src/services/deepfakeService.ts:105-107 | audio and text scans never get severity high, because their scores stay below 70 |
| ScanService.LocationFrom | src/services/deepfakeService.ts:112-117 | x and y lie in [0, 80), width and height in [10, 30) |
| ScanService.GenerateRandomMarkers | src/services/deepfakeService.ts:99-125 | there are min(count, 5) markers; they share the score's severity; each has a location exactly when the type is image or video, and that location is in the frame; each is an entry of the type's vocabulary; no marker type appears twice |
| ScanService.ShuffledPicks | src/services/deepfakeService.ts:100-104 | entries taken from a vocabulary in the order of a shuffle are vocabulary entries and repeat no marker type |
| ScanService.ProcessingTime | src/services/deepfakeService.ts:138 | the processing time is an integer in [1000, 3000) |
| ScanService.NewScan | src/services/deepfakeService.ts:136-150 | the built result is consistent (isDeepfake iff score > 50, score and time in range, markers fit) and carries the given id, user, type, content and date |
| ScanService.SampleContent | src/services/deepfakeService.ts:168-177 | a seeded image is a picsum photo with an id from 0 to 99; seeded image, video and audio content starts with "https://", so the history table shows it as is; the seeded text is longer than the 30 characters the table shows |
| ScanService.ScanIdsDiffer | src/services/deepfakeService.ts:141 | distinct clock readings give distinct scan ids |
| ScanService.SeedIdFresh | src/services/deepfakeService.ts:187 | the id of the i-th seeded scan differs from those of all earlier seeded scans |
| ScanService.DaysBack | src/services/deepfakeService.ts:183-184 | a seeded date is a whole number of days back, at most 29, and never in the future |
| ScanService.SeedScan | src/services/deepfakeService.ts:165-196 | a seeded scan is consistent, belongs to the caller, has one of the four types and a date in the last 30 days |
| ScanService.OwnedBy | src/services/deepfakeService.ts:203-204 | the filter keeps every occurrence of the caller's scans and nothing else |
| ScanService.InsertByDate | src/services/deepfakeService.ts:205 | inserting into a newest-first list keeps it newest first and adds exactly the one element |
| ScanService.NewestFirst | src/services/deepfakeService.ts:205 | the sort returns a permutation of its input ordered by non-increasing date |
| ScanService.HistoryExact | src/services/deepfakeService.ts:203-205 | over a store's values, the history holds exactly the caller's scans, each once |
| ScanService.AddFreshKeepsShape | src/services/deepfakeService.ts:198 | storing a consistent scan under a new id keeps the store invariant |
| ScanService.ScanStore.constructor | src/services/deepfakeService.ts:21 | the store starts empty |
| ScanService.ScanStore.StoredValuesExact | src/services/deepfakeService.ts:203 | the listed values are exactly the stored scans, each once |
| ScanService.ScanStore.ScanContent | src/services/deepfakeService.ts:129-156 | writes exactly the entry under `scan_<now>`, returns that consistent record, leaves every other entry alone and keeps the invariant |
| ScanService.ScanStore.GetScanResult | src/services/deepfakeService.ts:209-212 | returns the stored result under the id, or none when no scan is stored under it; changes nothing |
| ScanService.ScanStore.SeedSamples | src/services/deepfakeService.ts:163-200 | seeds exactly ten scans under ten distinct ids, all of the caller and dated within the last 30 days |
| ScanService.ScanStore.GetScanHistory | src/services/deepfakeService.ts:159-206 | seeds only when the store is empty and otherwise changes nothing; returns exactly the caller's stored scans, each once, newest first |
| AuthService.MockTokenIsTokenOf | src/services/authService.ts:38-40 | a generated token has the user id as its prefix and no `_` after it |
| AuthService.TokenOfOneUser | src/services/authService.ts:38-40 | one token string can have been minted for one user id only |
| AuthService.TokensDistinct | src/services/authService.ts:149 | in a valid database no two users hold the same token, so the reverse lookup has at most one answer |
| AuthService.EmailOwner | src/services/authService.ts:46 | finds a user with the email exactly when there is one |
| AuthService.GoogleOwner | src/services/authService.ts:105 | finds a user with the googleId exactly when there is one |
| AuthService.TokenOwner | src/services/authService.ts:149 | finds a user id holding the token exactly when there is one |
| AuthService.Login | src/services/authService.ts:43-62 | 'User not found' iff no user has the email; 'Invalid password' iff the email's user has another password; on success the users are untouched, only the user's token entry is replaced, and the answer is the public record with the new token |
| AuthService.Register | src/services/authService.ts:65-90 | 'Email already in use' iff some user has the email, checked before the password; 'Password must be at least 6 characters' iff the email is free and the password is short; on success one record with the given email, name and password is added, its token stored, and the public record returned |
| AuthService.ResolveGoogleUser | src/services/authService.ts:105-128 | a googleId match is reused unchanged; otherwise an email match gets the googleId and the avatar; otherwise a new user with empty password, the avatar and the googleId is added; the resolved user always ends up linked to the googleId |
| AuthService.GoogleSignIn | src/services/authService.ts:93-136 | the users after the call and the answering id are those of the three-step resolution of the mock profile; that user's token entry is replaced by the new token and the answer is the user's public record |
| AuthService.MockProfile | src/services/authService.ts:97-102 | the profile's sub reads back as the clock after "google_", and its email is "user", the user count plus one, then "@example.com" |
| AuthService.VerifyToken | src/services/authService.ts:146-157 | succeeds iff some user's current token is the given token, and then returns that user's public record; otherwise fails with 'Invalid token' |
| AuthService.EmptyDbValid | src/services/authService.ts:17-30 | the empty dictionaries satisfy the invariant |
| AuthService.LoginKeepsValid | src/services/authService.ts:56-57 | a successful login keeps the invariant |
| AuthService.RegisterKeepsValid | src/services/authService.ts:80-85 | a successful registration under an unused id keeps the invariant |
| AuthService.GoogleKeepsValid | src/services/authService.ts:105-131 | Google sign-in under an unused id keeps the invariant |
| AuthService.ResolveKeepsWellFormed | src/services/authService.ts:105-127 | linking a Google id to an account, or creating one under an unused id, keeps ids, emails and Google ids unique |
| AuthService.GoogleUserCount | src/services/authService.ts:105-127 | Google sign-in removes no user and adds at most one |
| AuthService.RegisterThenLogin | src/services/authService.ts:43-89 | after a successful registration, login with the same email and password succeeds and returns the same user |
| AuthService.LoginTokenVerifies | src/services/authService.ts:149-156 | the token a login hands out verifies to the user it returned |
| AuthService.RegisterTokenVerifies | src/services/authService.ts:149-156 | the token a registration hands out verifies to the new user |
| AuthService.SupersededTokenRejected | src/services/authService.ts:57 | once a login gives a user a token different from their previous one, the previous token no longer verifies |
| AuthService.AuthStore.constructor | src/services/authService.ts:17-30 | both dictionaries start empty |
| AuthService.AuthStore.LoginUser | src/services/authService.ts:43-62 | performs Login on the dictionaries: on failure nothing changes |
| AuthService.AuthStore.RegisterUser | src/services/authService.ts:65-90 | performs Register on the dictionaries: on failure nothing changes |
| AuthService.AuthStore.GoogleAuth | src/services/authService.ts:93-136 | performs GoogleSignIn on the dictionaries, updating an email match in place |
| AuthService.AuthStore.LogoutUser | src/services/authService.ts:139-143 | logging out invalidates no token: both dictionaries are left as they are |
| AuthService.AuthStore.VerifyTokenOf | src/services/authService.ts:146-157 | answers as VerifyToken and changes nothing |
| AuthContext.MergedAvatar | src/contexts/AuthContext.tsx:109 | the avatar is the decoded picture when it is present and non-empty, otherwise the service's avatar |
| AuthContext.AuthSession.constructor | src/contexts/AuthContext.tsx:34-36 | no user, loading, no error |
| AuthContext.AuthSession.InitializeAuth | src/contexts/AuthContext.tsx:38-55 | restores the parsed user only when both entries are non-empty; a parse failure removes both entries and leaves no user; loading ends in every case |
| AuthContext.AuthSession.HandleAuthSuccess | src/contexts/AuthContext.tsx:60-65 | sets the user, writes both entries, clears the error |
| AuthContext.AuthSession.Login | src/contexts/AuthContext.tsx:67-79 | success signs in; failure sets the thrown message or 'Login failed. Please try again.', leaves user and storage alone and re-raises; loading ends either way |
| AuthContext.AuthSession.Register | src/contexts/AuthContext.tsx:81-93 | as Login, with the fallback 'Registration failed. Please try again.' |
| AuthContext.AuthSession.GoogleLogin | src/contexts/AuthContext.tsx:95-119 | a decode or service failure sets the message or 'Google login failed. Please try again.' and re-raises; success signs in with the merged avatar; loading ends either way |
| AuthContext.AuthSession.Logout | src/contexts/AuthContext.tsx:121-134 | success clears user, both entries and the error; failure only records the message or 'Logout failed. Please try again.' and is not re-raised; loading ends either way |
| AuthContext.AuthSession.ClearError | src/contexts/AuthContext.tsx:136-138 | clears the error and nothing else |
| Dashboard.VerdictCount | src/pages/DashboardPage.tsx:64-77 | a bar never counts more scans than the history holds |
| Dashboard.VerdictsAddUp | src/pages/DashboardPage.tsx:58-82 | for each type, the authentic and the deepfake bar add up to the scans of that type |
| Dashboard.ChartData | src/pages/DashboardPage.tsx:58-82 | four bars per row, and per type the two bars add up to the scans of that type |
| Dashboard.TypesAddUp | src/pages/DashboardPage.tsx:120 | when every scan has one of the four types, the four type counts add up to the total |
| Dashboard.ChartCoversHistory | src/pages/DashboardPage.tsx:58-82 | the eight bars together count every scan exactly once |
| Dashboard.DeepfakeBarsAddUp | src/pages/DashboardPage.tsx:121 | the four deepfake bars add up to the deepfakes detected |
| Dashboard.DeepfakesDetected | src/pages/DashboardPage.tsx:121 | the deepfakes detected never exceed the total |
| Dashboard.DetectionRate | src/pages/DashboardPage.tsx:122 | the rate is 0 for an empty history, otherwise deepfakes/total × 100, and always in [0, 100] |
| Dashboard.DetectionRateExtremes | src/pages/DashboardPage.tsx:122 | the rate is 100 iff there are scans and all are deepfakes, and 0 iff none is |
| Dashboard.Percentage | src/pages/DashboardPage.tsx:122 | a part of a positive whole as a percentage lies in [0, 100], is 100 exactly when the part is the whole and 0 exactly when the part is 0 |
| Dashboard.FractionBounds | src/pages/DashboardPage.tsx:122 | a part of a positive whole divided by the whole lies in [0, 1] and multiplies back to the part |
| Dashboard.LastScanDate | src/pages/DashboardPage.tsx:188-190 | there is a last scan iff the history is non-empty; it is the date of a scan in the history, and on a newest-first history no scan is newer |
| Dashboard.Thumbnail | src/pages/DashboardPage.tsx:254 | content starting with "http" is shown itself, any other content gets the placeholder |
| Dashboard.ContentLabel | src/pages/DashboardPage.tsx:272-274 | text shows its first min(30, length) characters and "..."; other types show what follows the last '/' (or the whole content) |
| Dashboard.MarkerLabel | src/pages/DashboardPage.tsx:492-494 | the label has the type's length; position by position, '_' becomes a space, the first letter of each word is upper-cased, all else is kept (the scan page, src/pages/ScanPage.tsx:419-421, formats marker types with the same expression) |
| Dashboard.CapitalizedJoin | src/pages/DashboardPage.tsx:492-494 | capitalising separator-free words and joining them with spaces mirrors joining them with '_', position by position |
| ScanPage.ScanInput | src/pages/ScanPage.tsx:110-123 | on the text page: 'Please enter some text to analyze' iff the text is all white space, otherwise the raw text; elsewhere: 'Please upload a <type> file to scan' iff there is no file, otherwise its name |
| ScanPage.StartEnabledIffScanAccepted | src/pages/ScanPage.tsx:260 | the Start button is enabled iff nothing is loading and the scan input would be accepted |
| ScanPage.ScanPageState.constructor | src/pages/ScanPage.tsx:17-22 | no file, preview, text, result or error; not loading |
| ScanPage.ScanPageState.HandleScan | src/pages/ScanPage.tsx:100-133 | without a user: navigates to /login and changes nothing; otherwise the error is the check's message and no scan is stored, or the error is cleared and the stored result for the content is shown; loading ends either way |
| ScanPage.ScanPageState.ShowScan | src/pages/ScanPage.tsx:125-127 | the scan stored for the content is the one shown: its id comes from the clock, it belongs to the user, has the page type, the content and the date, is consistent, and is the only change to the scans |
| ScanPage.ScanPageState.ResetScan | src/pages/ScanPage.tsx:135-141 | clears file, preview, text, result and error; leaves loading alone |
| Text.IntToStringInjective | src/services/authService.ts:80 | distinct integers print as distinct decimal strings |
| Text.SplitJoin | src/pages/DashboardPage.tsx:492-494 | joining the parts of a split with the same separator gives the string back |
| Text.JoinSplit | src/pages/DashboardPage.tsx:492-494 | splitting a join of separator-free words gives the words back |
| Text.LastPart | src/pages/DashboardPage.tsx:274 | `split('/').pop()` is a separator-free suffix, preceded by the separator unless it is the whole string |
| Text.Trim | src/pages/ScanPage.tsx:113 | `trim()` is empty iff the string is all white space, and otherwise starts and ends with a non-space character |

## Left out

- Latency and asynchrony: the simulated delays are dropped and every operation runs to completion. The intermediate states are not observable, so `loading` being true while an attempt runs is not stated; only its value afterwards is.
- Randomness and clocks: each `Math.random()` draw is a parameter, and each operation gets one clock reading as a parameter. Id collisions inside one millisecond are excluded by preconditions. `AuthStore.RegisterUser` and `AuthStore.GoogleAuth` require the clock's user id to be unused.
- The shuffle `sort(() => 0.5 - Math.random())` has no well-defined comparator. The model accepts any permutation of the five vocabulary positions.
- Floating point: scores and rates are real numbers, not IEEE doubles. `toFixed` and all date formatting are not modelled.
- Dates: a date is milliseconds since the epoch. `setDate(getDate() - n)` is modelled as n whole days of 24 hours, so daylight-saving shifts are ignored.
- ScanStore.SeedSamples: the seeding loop reads the clock once. The source reads it again in every iteration, both for the date and for the id.
- ScanService.NewestFirst: proved sorted newest first and a permutation of its input. It is written as a stable insertion sort, but the tie order of the engine's sort is not stated as a property.
- AuthService.EmailOwner: `Object.values(...).find` takes the first match in insertion order. The model takes any match and keeps no insertion order for the user and token dictionaries. Under `ValidDb` there is at most one match, so valid states give the same answer; GoogleOwner and TokenOwner are treated the same way.
- AuthService.Register: the password length counts Unicode characters, while JavaScript's `length` counts UTF-16 code units.
- `getCurrentUser` always answers null and is not called by the session controller, so it is not part of this model. `useAuth` and all rendering are not modelled either.
- JSON and browser storage: storage is a string map. The serializer is fixed when the session is created, and `InitializeAuth` takes the parser as a parameter. A parse that yields a value of another shape is not modelled.
- AuthContext.AuthSession.InitializeAuth: requires that no user is signed in, because it runs once when the provider mounts.
- Google credential decoding is an outcome parameter of `GoogleLogin`. The file imports `jwtDecode` but calls `jwt_decode` (src/contexts/AuthContext.tsx:3 and :101). Whatever that call throws at run time goes down the ordinary error path, which the model covers with a failed decode outcome.
- Session outcomes: the service calls of the session controller are outcome parameters. They are not tied to `AuthStore`, whose errors would arrive as `Error` objects carrying `AuthError.Message`.
- ScanPageState.HandleScan: the catch fallback 'An error occurred during scanning' is never reached. Both validation failures throw `Error` objects and `scanContent` does not reject.
- Upper-casing (`ToUpper`) covers ASCII letters only; all marker vocabularies are ASCII.
- The file-drop handler and its previews, chart.js options, form validation rules and the other pages are rendering and are not modelled.
- Text scores are scaled by 0.6, so they stay below 60 (`ScoreOrderByType`, `GenerateRandomScore`).
- googleAuth ignores its credential and builds the profile from the user count and the clock (`MockProfile`).
- A wrong password throws 'Invalid password' (`AuthError.Message`).
- AuthService.Register: one clock reading serves both the user id (src/services/authService.ts:80) and the token (:84, via :39). The source reads the clock twice, so when the millisecond turns between the two reads the token is `mock_jwt_user_T_T+1`, not the `mock_jwt_user_T_T` the model promises.
- AuthStore.RegisterUser: the same single clock reading as Register, for the same reason.
- AuthService.GoogleSignIn: one clock reading serves the profile's sub (:101), the new user's id (:117) and the token (:130, via :39). The source reads the clock up to three times, so these can carry different readings.
- AuthStore.GoogleAuth: the same single clock reading as GoogleSignIn.
- ScanStore.ScanContent: one clock reading serves the id `scan_<now>` (src/services/deepfakeService.ts:141) and the scan date `new Date()` (:145). The source reads the clock twice, so the date can be a millisecond later than the id.
- ScanStore.GetScanResult: `SCANS_DB[scanId] || null` reads a plain object, so an id that names an inherited member (`constructor`, `__proto__`, `toString`, ...) answers that member (a function, or `Object.prototype`), not null. The model's dictionary has no inherited members and answers none for every id under which no scan is stored.
- Dashboard.ContentLabel: `substring(0, 30)` counts UTF-16 code units, while the model counts characters. For text with characters outside the Basic Multilingual Plane (emoji, for instance) the source shows fewer characters than the model, and can cut a surrogate pair in half.
