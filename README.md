# Privilege membership client: data access, configuration and the two account forms

This project models the logic core of a loyalty-programme web client. Members
collect points, exchange them for rewards and pass point milestones. The
project covers the following parts, each stated over values and proved:

- The start-up configuration of the backend client (`client/lib/supabase.ts`):
  - the URL and key fallbacks;
  - throwing or continuing with a placeholder key;
  - the exported status flags;
  - the record types and their closed enumerations.
- The data-access services (`client/lib/database.ts`), over five tables kept
  in memory:
  - users;
  - point transactions;
  - rewards;
  - redemption history;
  - milestones.

  Read queries are functions over the tables: filter, order, limit, and the
  two local computations, the ledger sum and the milestone filter. The
  services that write are methods of the class `Database.Backend`. They
  append stamped rows or overwrite named fields. Sign-up sequences the
  auth answer and the profile insert.
- The registration page (`client/pages/Register.tsx`) and the sign-in page
  (`client/pages/Login.tsx`):
  - `validateForm`, an ordered chain of guards;
  - the whitespace trim and the e-mail and phone patterns it uses;
  - the ordered, case-sensitive mapping of an error message to the text the
    page shows;
  - the page state that `handleInputChange` and `handleSubmit` update, as the
    classes `RegisterPage.Register` and `LoginPage.Login`.

The model's inputs stand for the outside world:

- The hosted database can fail on any request. The input `fail` stands for
  that (`insertFails` for sign-up's insert).
- The hosted auth service's answer is the input `auth`.
- The clock reading is the input `now`. A timestamp is a natural number, the
  instant the ISO string denotes.
- An id generated by the database is the input `newId`.
- `ORDER BY` is a stable insertion sort (`Seqs.SortBy`): each row goes
  ahead of the later rows with an equal key. Descending order sorts by the
  negated key.

Modules:

- `Records`: the records and enumerations.
- `Config`: the start-up configuration.
- `Seqs`: filter, stable sort and take.
- `Queries`: the read services.
- `Database`: the writing services and auth.
- `FormValidation`: trim, the e-mail and phone patterns, and substring tests.
- `RegisterPage` and `LoginPage`: the two pages.

Where the behaviour the project was designed for and the code disagree, the
model follows the code. Sign-up creates the profile with 0 points at the
bronze level and records no welcome-bonus transaction. The profile row gets
an id generated by the database, not the auth account's id.

## Model

| member | source | states |
|---|---|---|
| Config.OrElse | client/lib/supabase.ts:3-6 | `v \|\| fallback` is the variable's value when it is set and non-empty, else the fallback |
| Config.Initialize | client/lib/supabase.ts:12-65 | initialisation throws only one of the two configuration errors; a built client and the status carry the resolved URL |
| Config.ResolvedUrl | client/lib/supabase.ts:3-5 | `VITE_SUPABASE_URL \|\| default` (stated by ResolvedUrlNonEmpty) |
| Config.ResolvedKey | client/lib/supabase.ts:6 | `VITE_SUPABASE_ANON_KEY \|\| ""` (its use is stated by ThrowsIffMissingKeyInProduction and ClientKeyChoice) |
| Config.ResolvedUrlNonEmpty | client/lib/supabase.ts:3-5 | the resolved URL is the variable when set and non-empty, else the fixed default, and so never empty |
| Config.MissingUrlUnreachable | client/lib/supabase.ts:41-44 | the "Missing URL" throw can never happen |
| Config.ThrowsIffMissingKeyInProduction | client/lib/supabase.ts:12-32 | initialisation throws iff the key is missing or empty outside development mode, and then with the missing-key error |
| Config.ClientKeyChoice | client/lib/supabase.ts:33-57 | with a key or in development the client is built; it uses the supplied key, else the placeholder key, never "" |
| Config.StatusFlags | client/lib/supabase.ts:60-65 | `hasKey` iff a key was supplied; `isConfigured` equals `hasKey` given the URL fallback; `isDevelopment` is DEV |
| Records.ParseLevel | client/lib/supabase.ts:74 | only bronze, silver, gold and platinum parse to a level; each parses back to its own name |
| Records.ParseType | client/lib/supabase.ts:83 | only earn, redeem and bonus parse to a transaction type, each back to its own name |
| Records.ParseCategory | client/lib/supabase.ts:94 | only discount, product and voucher parse to a reward category, each back to its own name |
| Records.ParseStatus | client/lib/supabase.ts:105 | only pending, approved, completed and cancelled parse to a redemption status, each back to its own name |
| Records.EnumRoundTrips | client/lib/supabase.ts:68-117 | every enumeration value's name parses back to that value |
| Seqs.Filter | client/lib/database.ts:235-237 | `filter` keeps a subset of the rows, each satisfying the condition |
| Seqs.FilterMembership | client/lib/database.ts:235-237 | a row is kept iff it is in the table and satisfies the condition |
| Seqs.FilterMultiset | client/lib/database.ts:235-237 | filtering keeps every copy of a matching row and no copy of another |
| Seqs.FilterAppend | client/lib/database.ts:235-237 | filtering distributes over concatenation |
| Seqs.FilterAgree | client/lib/database.ts:235-237 | two conditions that agree on every row keep the same rows |
| Seqs.FilterKeepsOrder | client/lib/database.ts:235-237 | filtering an ordered list leaves it ordered (relative order is kept) |
| Seqs.Insert | client/lib/database.ts:132 | inserting into the ordered rows adds exactly that row |
| Seqs.InsertSorted | client/lib/database.ts:132 | inserting into ordered rows keeps them ordered |
| Seqs.SortBy | client/lib/database.ts:132 | `ORDER BY` returns a permutation of its rows |
| Seqs.SortBySorted | client/lib/database.ts:132 | `ORDER BY` output is non-decreasing in its key |
| Seqs.SortByEqualKeys | client/lib/database.ts:132 | ordering is stable: rows that share one key keep table order |
| Seqs.SortByMembership | client/lib/database.ts:132 | ordering neither adds nor drops a row |
| Seqs.Take | client/lib/database.ts:81 | `limit(n)` returns the first n rows, or all when there are fewer |
| Queries.Single | client/lib/database.ts:11 | `.single()` yields a row iff exactly one row matched, and then that row |
| Queries.GetUser | client/lib/database.ts:6-18 | getUser yields a user iff the request succeeds and exactly one row has the id; the row is in the table and has that id |
| Queries.GetUserByEmailOrPhone | client/lib/database.ts:21-33 | a user is returned iff exactly one row has that email or phone, and then it is that row |
| Queries.GetUserTransactions | client/lib/database.ts:75-87 | the query: the user's rows, newest first, the first `limit` of them, none on error (its properties are the UserTransactions lemmas below) |
| Queries.UserTransactionsBounded | client/lib/database.ts:75-87 | getUserTransactions returns at most `limit` rows, and none on error |
| Queries.GetUserTransactionsDefault | client/lib/database.ts:75 | called without a limit, getUserTransactions returns at most the default 20 rows, all the user's own |
| Queries.UserTransactionsOwned | client/lib/database.ts:79 | every returned transaction is a table row of that user |
| Queries.UserTransactionsNewestFirst | client/lib/database.ts:80 | returned transactions are newest first |
| Queries.UserTransactionsAreNewest | client/lib/database.ts:80-81 | a transaction of the user that is left out is no newer than any returned one |
| Queries.UserTransactionsComplete | client/lib/database.ts:75-81 | with at most `limit` transactions, all of the user's rows are returned |
| Queries.Reduce | client/lib/database.ts:120 | the left-to-right `reduce` adding each row's points to the running total (related to the sum by ReduceIsLedgerSum) |
| Queries.ReduceIsLedgerSum | client/lib/database.ts:120 | the `reduce` from a start total adds the sum of every delta to it |
| Queries.LedgerSumAppend | client/lib/database.ts:120 | the ledger sum of two parts is the sum of the parts' sums |
| Queries.GetUserTotalPoints | client/lib/database.ts:109-121 | the query: 0 on error, else the fold over the user's rows (stated by GetUserTotalPointsSpec) |
| Queries.GetUserTotalPointsSpec | client/lib/database.ts:109-121 | getUserTotalPoints is the sum of that user's deltas, negative ones included; 0 with no rows or on error |
| Queries.TotalAfterAppend | client/lib/database.ts:109-121 | appending a transaction changes its owner's total by its delta and no other user's |
| Queries.TotalPointsExample | client/lib/database.ts:120 | a ledger of +1000, +150 and -500 totals 650 |
| Queries.GetActiveRewards | client/lib/database.ts:127-139 | the query: active rows ordered by points_required, none on error (stated by GetActiveRewardsSpec) |
| Queries.GetActiveRewardsSpec | client/lib/database.ts:127-139 | getActiveRewards returns exactly the active rows, as a permutation of them, non-decreasing in points_required; empty on error |
| Queries.GetReward | client/lib/database.ts:142-154 | getReward yields a reward iff exactly one row has the id, and then that row |
| Queries.Embed | client/lib/database.ts:181-184 | each redemption keeps its own row; the reward's name, description and category are embedded iff exactly one reward has the redemption's reward_id, and they are that reward's |
| Queries.GetUserRedemptions | client/lib/database.ts:178-193 | one result per redemption of the user; none on error |
| Queries.GetUserRedemptionsSpec | client/lib/database.ts:178-193 | getUserRedemptions returns exactly the user's redemptions, every one of them, newest first, each joined with its reward |
| Queries.GetActiveMilestones | client/lib/database.ts:218-230 | the query: active rows ordered by points_required, none on error (stated by GetActiveMilestonesSpec) |
| Queries.GetActiveMilestonesSpec | client/lib/database.ts:218-230 | getActiveMilestones returns exactly the active rows, as a permutation of them, non-decreasing in points_required; empty on error |
| Queries.CheckUserMilestones | client/lib/database.ts:233-238 | the fetched active milestones filtered by `currentPoints >= points_required` (stated by CheckUserMilestonesSpec) |
| Queries.CheckUserMilestonesSpec | client/lib/database.ts:233-238 | checkUserMilestones returns exactly the active milestones with points_required <= currentPoints, ascending; none on fetch error |
| Queries.NoneReachedBelowFirst | client/lib/database.ts:235-237 | below the cheapest milestone's threshold nothing is reached |
| Queries.ThresholdPrefix | client/lib/database.ts:235-237 | on ascending milestones, the reached ones at a lower score are a prefix of those at a higher score |
| Queries.CheckUserMilestonesMonotone | client/lib/database.ts:233-238 | more points yield a superset (indeed an extension) of the milestones, whatever the userId; equal inputs give equal results |
| Database.SetPoints | client/lib/database.ts:36-40 | only points and updated_at of the rows with the id change; other rows stay as they were |
| Database.PatchFor | client/lib/database.ts:197-200 | the patch always carries the status, and carries completed_at, set to now, iff the status is completed |
| Database.Patched | client/lib/database.ts:202-205 | one row after the update: the patch's keys overwrite, the rest stay (stated by StatusUpdateEffect) |
| Database.ApplyPatch | client/lib/database.ts:202-205 | the patch applies to the rows with that id and leaves every other row unchanged |
| Database.StatusUpdateEffect | client/lib/database.ts:196-205 | whatever the old status, the new one is written; completed_at is stamped iff completing, else kept; no other field changes |
| Database.ProfileFor | client/lib/database.ts:261-267 | the new profile has the account's e-mail, the given name and phone, 0 points and the bronze level |
| Database.SignIn | client/lib/database.ts:274-286 | signIn returns the auth error with no user, or the user with no error |
| Database.Backend.UpdateUserPoints | client/lib/database.ts:36-47 | overwrites points and updated_at of that user only; records no transaction; false iff the request fails |
| Database.Backend.CreateUser | client/lib/database.ts:50-69 | appends the stamped row and returns it, or returns null and changes nothing |
| Database.Backend.AddTransaction | client/lib/database.ts:91-106 | appends the stamped row and returns it, or null; the owner's total grows by the delta and no one else's changes |
| Database.Backend.CreateRedemption | client/lib/database.ts:160-175 | appends the stamped row with the given status and returns it, or null |
| Database.Backend.UpdateRedemptionStatus | client/lib/database.ts:196-212 | applies the status patch to the rows with that id and no other table; false iff the request fails |
| Database.Backend.SignUp | client/lib/database.ts:245-271 | an auth error comes back and no profile is inserted; otherwise the profile row (0 points, bronze) is appended when there is a user, and the user comes back with no error, even if the insert failed |
| FormValidation.IsSpace | client/pages/Register.tsx:90-96 | the characters JavaScript's `\s` and `trim` treat as white space |
| FormValidation.TrimStart | client/pages/Register.tsx:90 | the result is empty or does not start with white space |
| FormValidation.TrimEnd | client/pages/Register.tsx:90 | the result is empty or does not end with white space |
| FormValidation.Trim | client/pages/Register.tsx:90 | `trim()` (stated by TrimSpec and BlankIffAllSpace) |
| FormValidation.TrimStartDrops | client/pages/Register.tsx:90 | trimming the front drops exactly the run of leading white space |
| FormValidation.TrimEndDrops | client/pages/Register.tsx:90 | trimming the back drops exactly the run of trailing white space |
| FormValidation.TrimSpec | client/pages/Register.tsx:90 | `trim()` is the slice left after dropping exactly the leading and trailing white space |
| FormValidation.BlankIffAllSpace | client/pages/Register.tsx:90-99 | a value trims to "" iff every character is white space |
| FormValidation.EmailFormat | client/pages/Register.tsx:96 | the regex `^[^\s@]+@[^\s@]+\.[^\s@]+$` as a direct predicate (stated equal to the pattern by EmailFormatIsPattern) |
| FormValidation.EmailFormatIsPattern | client/pages/Register.tsx:96 | the e-mail test holds iff the value is non-empty text, '@', non-empty text, '.', non-empty text, with no white space or other '@' |
| FormValidation.EmailPatternFromFormat | client/pages/Register.tsx:96 | a value passing the e-mail test splits into the three parts of the pattern |
| FormValidation.EmailFormatFromPattern | client/pages/Register.tsx:96 | a value built from the three parts passes the e-mail test |
| FormValidation.RemoveDashes | client/pages/Register.tsx:102 | `replace(/-/g, "")` |
| FormValidation.PhoneFormat | client/pages/Register.tsx:102 | `/^[0-9-]{10,12}$/` on the value with dashes removed (stated by PhoneFormatSpec) |
| FormValidation.PhoneFormatSpec | client/pages/Register.tsx:102 | the phone test holds iff, with every '-' deleted, 10 to 12 characters remain and all are digits |
| FormValidation.DigitsAndDashes | client/pages/Register.tsx:102 | deleting the dashes leaves only digits iff every character is a digit or a dash |
| FormValidation.SpaceFailsFormats | client/pages/Register.tsx:96-102 | a value containing white space fails both the e-mail and the phone test |
| FormValidation.Contains | client/pages/Register.tsx:160-166 | `includes`, scanning start positions (stated by ContainsAt) |
| FormValidation.ContainsAt | client/pages/Register.tsx:160-166 | `includes` holds iff the keyword sits at some position of the message |
| FormValidation.MissingCharNotContained | client/pages/Register.tsx:160-166 | a message lacking one of a keyword's characters does not include it |
| FormValidation.PrefixContained | client/pages/Login.tsx:134 | a message that starts with a keyword includes it |
| RegisterPage.WithField | client/pages/Register.tsx:79-84 | the named field gets the value and every other field is kept |
| RegisterPage.ValidateForm | client/pages/Register.tsx:89-115 | the guard chain (stated by ValidateFormPasses and ValidateFormFirstFailure) |
| RegisterPage.BlankFields | client/pages/Register.tsx:90-99 | name, e-mail and phone count as empty iff they are all white space |
| RegisterPage.ValidateFormPasses | client/pages/Register.tsx:89-115 | validateForm returns "" iff no check fails |
| RegisterPage.ValidateFormFirstFailure | client/pages/Register.tsx:89-115 | otherwise it returns the message of the first failing check: name, e-mail, e-mail format, phone, phone format, password, length, confirmation |
| RegisterPage.AcceptedForm | client/pages/Register.tsx:96-113 | an accepted form has a password of 6 or more characters equal to its confirmation, and e-mail and phone that pass their tests as typed |
| RegisterPage.PaddedEmailRejected | client/pages/Register.tsx:93-97 | an e-mail with a leading space is not empty but fails the format test |
| RegisterPage.ClassifySignUpError | client/pages/Register.tsx:159-170 | the ordered substring tests (stated by ClassifySignUpErrorSpec) |
| RegisterPage.ClassifySignUpErrorSpec | client/pages/Register.tsx:159-170 | each shown message appears iff its substring test succeeds and every earlier test fails |
| RegisterPage.LacksKeywords | client/pages/Register.tsx:159-170 | a message with none of the letters y, v, m, p gets the generic message |
| RegisterPage.NoUserIsGeneric | client/pages/Register.tsx:153-169 | the "no user returned" error gets the generic message |
| RegisterPage.SubmitError | client/pages/Register.tsx:141-170 | after sign-up answers, an error is shown iff there is an auth error or no user |
| RegisterPage.Register.HandleInputChange | client/pages/Register.tsx:79-87 | replaces the named field, keeps the others, clears the error |
| RegisterPage.Register.HandleGoogleSignIn | client/pages/Register.tsx:176-195 | the call to the undefined `signInWithGoogle` throws, so the Google error message is shown and Google loading ends; nothing else changes |
| RegisterPage.Register.HandleSubmit | client/pages/Register.tsx:117-174 | a failing check is shown and nothing else changes, sign-up included; otherwise sign-up runs, success is set only for a user with no error, other outcomes show their classified message, the profile is appended as sign-up does, loading ends false |
| LoginPage.WithField | client/pages/Login.tsx:73-78 | the named field gets the value and the other is kept |
| LoginPage.ValidateForm | client/pages/Login.tsx:83-94 | the guard chain (stated by ValidateFormPasses and ValidateFormFirstFailure) |
| LoginPage.ValidateFormPasses | client/pages/Login.tsx:83-94 | validateForm returns "" iff no check fails |
| LoginPage.ValidateFormFirstFailure | client/pages/Login.tsx:83-94 | otherwise it returns the message of the first failing check: e-mail, e-mail format, password |
| LoginPage.AnyPasswordAccepted | client/pages/Login.tsx:90-93 | there is no length rule: a well-formed e-mail with any non-empty password passes |
| LoginPage.RegisteredFormSignsIn | client/pages/Login.tsx:84-89 | a form the registration page accepts passes the sign-in checks with the same e-mail and password; the e-mail messages are the same text |
| LoginPage.ClassifySignInError | client/pages/Login.tsx:133-142 | the ordered substring tests (stated by ClassifySignInErrorSpec) |
| LoginPage.ClassifySignInErrorSpec | client/pages/Login.tsx:133-142 | each shown message appears iff its substring test succeeds and every earlier test fails |
| LoginPage.CredentialsMessage | client/pages/Login.tsx:134-135 | the auth service's "Invalid login credentials" wording gets the wrong-credentials message |
| LoginPage.EmailBeforePassword | client/pages/Login.tsx:136-139 | a message naming both e-mail and password, without "invalid", gets the account-not-found message |
| LoginPage.LacksKeywords | client/pages/Login.tsx:133-142 | a message with none of the letters I, v, m, p gets the generic message |
| LoginPage.NoUserIsGeneric | client/pages/Login.tsx:127-141 | "Login failed - no user returned" gets the generic message |
| LoginPage.SubmitError | client/pages/Login.tsx:116-142 | after sign-in answers, an error is shown iff there is an auth error or no user |
| LoginPage.Login.HandleInputChange | client/pages/Login.tsx:73-81 | replaces the named field, keeps the other, clears the error |
| LoginPage.Login.HandleGoogleSignIn | client/pages/Login.tsx:148-167 | the call to the undefined `signInWithGoogle` throws, so the Google error message is shown and Google loading ends; nothing else changes |
| LoginPage.Login.HandleSubmit | client/pages/Login.tsx:96-146 | a failing check is shown and sign-in is not consulted; otherwise success is set only for a user with no error, other outcomes show their classified message, loading ends false |

## Left out

- The hosted client and its transport: `createClient`, PostgREST request building and the auth service's own behaviour. Their answers are inputs to the model.
- The query string of `.or()`: getUserByEmailOrPhone is modelled as matching the e-mail or phone column by equality. A value containing ',' or '.' that PostgREST would parse differently is not modelled.
- `.single()` returns an error when zero or several rows match. The model returns none in both cases and does not tell the two apart.
- Ties under `ORDER BY`: the database leaves their order unspecified. The model keeps table order (a stable sort); stability is proved only for rows that all share one key (`SortByEqualKeys`).
- Timestamps: `new Date().toISOString()` is the input `now`, and the ISO text format is not modelled.
- Logging (`console.*`), the `setTimeout` navigation to the dashboard, and React re-rendering.
- `signOut` and `getCurrentUser`: pass-throughs to the auth service.
- `signInWithGoogle`: the data-access layer does not define it, so the pages' Google handlers throw at the call and show their Google error message (modelled as `HandleGoogleSignIn`). No redirect is ever started, and what one would do is not modelled.
- `handleOAuthCallback`: both pages call it from an auth-state effect, but the data-access layer does not define it. The effect is not modelled.
- The `VITE_SUPABASE_*` warning text built when the key is missing: only the decision is modelled, not the console message.
- JavaScript `\s` and `trim` are modelled with the ECMAScript white-space and line-terminator code points. `String.length` counts UTF-16 units; the model counts characters, which differ only outside the Basic Multilingual Plane.
- RegisterPage.Register.HandleInputChange, LoginPage.Login.HandleInputChange: an input `name` outside the form's fields would add a new key to the form state. The model allows only the form's own fields.
- Numbers: `points`, `points_required` and `points_used` are JavaScript numbers (IEEE doubles). The model uses unbounded integers, so it does not capture fractional values or the rounding of the ledger sum in `reduce` once totals pass 2^53.
- Presentation-only pages and components: Index, Placeholder, Admin (mock arrays and toasts), Dashboard (mock values and floating-point progress bars), and SupabaseStatus (renders nothing).
- The welcome bonus, admin operations and dashboard statistics: the code does not implement them.
