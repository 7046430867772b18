# RetireWise+ backend core in Dafny

This project models the core of the RetireWise+ Express backend, the server for a
mutual-fund distributor's website. It covers:

- **Consultation leads.** Validating and storing `POST /api/leads` submissions, with
  duplicate detection on phone or email. It also covers the admin status update
  (`PUT /api/leads/:id`) and the status statistics (`GET /api/leads-stats`).
- **Newsletter.** Signing up, the HMAC-tokened public unsubscribe link
  (`GET /unsubscribe`), the admin unsubscribe, and the broadcast list that carries
  those links.
- **Authentication.**
  - the `requireAuth` and `requireAdminPage` middleware;
  - the admin login, which issues the `adminToken` cookie;
  - the public `/api/auth/signup` and `/api/auth/login` routes.
- **Blog.** Publishing a post, and the 160-character excerpt taken from a post's
  content with its HTML tags stripped.
- **Static registries.** The lesson registry and its prev/next chain, and the
  calculator tool registry, each with the lookup by slug that the page routes do.

## How the model is built

- **Request fields.** A body, query or cookie field is a `Js.Field`
  (`Option<string>`). `None` stands for `undefined` or `null`. The JavaScript
  falsy test `!x` is `!Truthy(x)`.
- **Database comparisons.** The SQL `=` comparisons on emails and phones, and
  the `GROUP BY status` of the lead statistics, compare `Db.Key(ci, s)`. `ci` is a constant of each store and says whether the
  column collation ignores ASCII case, so every property holds for both collations.
  `affectedRows` counts matched rows, as the MySQL client reports it.
- **Tables.** Each table the routes write is a class (`LeadStore`,
  `SubscriberStore`, `UserStore`, `BlogStore`).
  - The class holds a `seq` of rows and the next auto-increment id.
  - Its methods change them as the routes' INSERT and UPDATE statements do.
  - Its `Valid()` invariant holds what the schema guarantees: unique keys and
    increasing ids.
- **Crypto.** HMAC-SHA256, bcrypt and JWT are values passed in.
  - `Newsletter.Mac` is a function type.
  - `Credentials.Jwt` holds `sign`/`verify`. `Credentials.JwtSound` states that
    a token just signed verifies to its own claims.
  - `Credentials.Bcrypt` holds `hash`/`compare`. `Credentials.BcryptSound`
    states that `compare` accepts the password a hash was made from.
- **Modules.** Each middleware or route group is one module:
  `RequireAuthGuard`, `RequireAdminPageGuard`, `AdminLogin`, `AuthRoutes`,
  `Leads`, `Newsletter`, `Broadcast`, `Blog`, `LessonRegistry` and
  `ToolRegistry`. Shared JavaScript string semantics live in `Js`, and
  `encodeURIComponent`/`decodeURIComponent` live in `UriComponent`.

Behaviours of the code worth knowing:

- **Unsubscribe token.** The token is computed over the lower-cased email, so
  every case variant of an address validates with the same token.
- **Repeat unsubscribe.** Unsubscribing an address that is already unsubscribed
  still matches a row, so it answers success again and not 404.
- **Login token contents.** The `/api/auth/login` token carries
  `{id, email, name}` and no role. The role is returned only in the response body.
- **Unknown email at login.** `/api/auth/login` answers 400 "User not found" for
  an unknown email. It answers 400 "Invalid credentials" only for a wrong password.

## Model

| member | source | states |
|---|---|---|
| Js.Lower | backend/app.js:635 | `toLowerCase` on ASCII letters: each `A`–`Z` becomes its lower case and every other character is kept |
| Js.LowerIdempotent | backend/app.js:635 | lower-casing twice is lower-casing once |
| Js.TrimEmptyIff | backend/app.js:544 | `s.trim()` is empty exactly when every character of `s` is JavaScript white space |
| Js.SplitSecond | backend/middleware/requireAuth.js:6 | `split(' ')[1]` exists exactly when the header has a space, and is the text between the first and second spaces |
| Js.PropertyValue | backend/app.js:324-325 | `obj[key]` is undefined exactly when no property has the key, and otherwise is the value of a property with that key |
| Js.PropertyValueFinds | backend/app.js:324-325 | in an object with distinct keys, `obj[key]` is defined exactly when some property has that key, and is that property's value |
| LeadValidation.ValidateLead | backend/app.js:382-387 | the first failing check is reported, in order: required fields, then a 10-digit phone, then the email pattern; `None` exactly when all three pass |
| LeadValidation.EmailShapeIffMatches | backend/app.js:386 | the executable email check accepts exactly the strings matched by `^[^\s@]+@[^\s@]+\.[^\s@]+$` |
| LeadValidation.PhoneLengthAndDigits | backend/app.js:384 | a phone of 9 or 11 characters is refused, a phone with a non-digit is refused, and a 10-digit phone passes |
| LeadValidation.EmailAccepted | backend/app.js:386 | `a@b.co` matches the email pattern |
| LeadValidation.EmailNeedsDot | backend/app.js:386 | `a@b`, with no `.` after the `@`, is refused |
| LeadValidation.EmailSingleAt | backend/app.js:386 | `a@@b.co`, with two `@`, is refused |
| LeadValidation.EmailDomainBeforeDot | backend/app.js:386 | `a@.co`, with nothing between the `@` and the `.`, is refused |
| Leads.NewLead | backend/app.js:397-414 | the inserted row has status `new`, no notes, city defaulting to Pune, each of the seven optional fields null when falsy and the submitted value otherwise, and both timestamps set to now |
| Leads.FindClash | backend/app.js:389-395 | the duplicate query finds a row exactly when some lead has the same phone or the same email |
| Leads.LeadStore.Submit | backend/app.js:382-420 | invalid input is refused without a write; a phone/email clash is refused without a write; otherwise exactly one new lead with the next id is appended |
| Leads.SubmitTwiceSamePhone | backend/app.js:389-395 | a second valid request with the same phone is a duplicate and the table keeps one row |
| Leads.UpdatedLeads | backend/app.js:449-451 | the UPDATE keeps the number of rows; which fields of which rows change is stated by `Leads.UpdateTouchesOnlyTarget` |
| Leads.UpdateTouchesOnlyTarget | backend/app.js:449-451 | the UPDATE rewrites status, notes and `updated_at` of the rows with that id only; with no such row nothing changes |
| Leads.UpdateKeepsContacts | backend/app.js:449-451 | the UPDATE keeps every row's id, phone and email |
| Leads.UpdateKeepsTable | backend/app.js:449-451 | the UPDATE keeps phones and emails unique and ids increasing and below the next id |
| Leads.LeadStore.Update | backend/app.js:447-458 | answers found exactly when a lead has the id; the new table is the updated table; the id counter is unchanged |
| Leads.StatsOf | backend/app.js:464-465 | the stats object has all five initial buckets and one key per returned group |
| Leads.ComputeStats | backend/app.js:464-465 | the `forEach` loop computes the stats object |
| Leads.StatsTotal | backend/app.js:465 | `total` is the sum of the group counts, provided no group's status is the string "total" |
| Leads.StatsBucket | backend/app.js:464-465 | a status key holds the count of its last group, or 0 for an initial bucket no group mentions |
| Leads.StatsTotalIsTableSize | backend/app.js:462-465 | for a GROUP BY status result under either collation (statuses differing only in letter case fall in one group when it ignores case) in which no status is "total", `total` equals the number of leads |
| Leads.StatsTotalOverwritten | backend/app.js:465 | a group with status "total" overwrites the running sum: two grouped leads report `total` 1 |
| Leads.CorrectedStats | backend/app.js:464-465 | with `total` written after the loop, every other key holds what the source's loop gives it, and all five buckets are present |
| Leads.CorrectedStatsTotalIsTableSize | backend/app.js:462-465 | with the corrected fold, `total` equals the number of leads for every GROUP BY status result, under either collation |
| Newsletter.TopicsTextCases | backend/app.js:736 | an array of topics is joined with ", "; another value is kept; a missing value becomes "" |
| Newsletter.UnsubToken | backend/app.js:632-637 | the token is the MAC, under the secret, of the lower-cased email, and so the same for every case variant of the email |
| Newsletter.TokenIgnoresCase | backend/app.js:632-637 | two emails with the same lower-case form get the same unsubscribe token |
| Newsletter.CheckLink | backend/app.js:644-649 | 400 exactly when email or token is missing; 403 exactly when the token differs from the HMAC of the email |
| Newsletter.LinkCaseAndTamper | backend/app.js:647-649 | a case variant of the email passes with the original token; any other token is refused |
| Newsletter.AfterUnsubscribe | backend/app.js:651-653 | the UPDATE keeps the number of rows; which rows change and how is stated by `Newsletter.AfterUnsubscribeEffect` |
| Newsletter.MatchCount | backend/app.js:651-660 | the matched-row count never exceeds the table size; it is 0 exactly when no row matches (`Newsletter.NoMatchIffZero`) and at most 1 under the unique key (`Newsletter.AtMostOneMatch`) |
| Newsletter.AfterUnsubscribeEffect | backend/app.js:651-653 | the matching rows become unsubscribed with `updated_at` set; all other rows are unchanged |
| Newsletter.KeepsEmailsAndIds | backend/app.js:651-653 | the unsubscribe UPDATE keeps every row's id and email |
| Newsletter.AtMostOneMatch | backend/app.js:738-744 | with the unique email key, an email matches at most one row |
| Newsletter.NoMatchIffZero | backend/app.js:659-660 | `affectedRows` is 0 exactly when no row has that email |
| Newsletter.UnsubscribeKeepsTable | backend/app.js:651-653 | the unsubscribe UPDATE keeps emails unique and ids increasing |
| Newsletter.UnsubscribeResult | backend/app.js:641-666 | 400 for missing parameters, 403 for a bad token, 404 exactly when no row matches, success otherwise |
| Newsletter.AdminUnsubscribeResult | backend/app.js:669-682 | 400 exactly when the email is missing; 404 exactly when no row matches; never 403 |
| Newsletter.SubscriberStore.Subscribe | backend/app.js:730-750 | missing name or email is refused; an existing email gives "already in the club"; otherwise one active row with frequency defaulting to weekly and the joined topics is appended |
| Newsletter.SubscriberStore.FindEmail | backend/app.js:742-744 | finds a row exactly when some subscriber's email matches under the collation |
| Newsletter.SubscriberStore.MarkUnsubscribed | backend/app.js:651-660 | returns the number of matching rows and leaves the table as the UPDATE specifies |
| Newsletter.SubscriberStore.Unsubscribe | backend/app.js:641-666 | the status follows the link checks and the match count; the table changes only for a valid link |
| Newsletter.SubscriberStore.AdminUnsubscribe | backend/app.js:669-682 | the status follows the match count; the table changes only when an email is given |
| Newsletter.UnsubscribeScenario | backend/app.js:641-666 | subscribe, subscribe again, click the link twice: the second subscribe is refused and both clicks succeed |
| Broadcast.ActiveSubscribers | backend/app.js:573-574 | the query returns as many rows as there are active subscribers, each active and from the table; where each row sits is stated by `Broadcast.ActiveAt` and `Broadcast.ActiveFrom` |
| Broadcast.ActiveAt | backend/app.js:573-574 | every active row is in the active list, at the position given by the number of active rows before it; the SELECT has no ORDER BY, so the model picks table order, and nothing depends on the order |
| Broadcast.ActiveFrom | backend/app.js:573-574 | every position of the active list holds the active row of that rank, so the list holds nothing else |
| Broadcast.ActiveCount | backend/app.js:581-584 | the list is empty exactly when no subscriber is active |
| Broadcast.BroadcastList | backend/app.js:581-613 | no list when nobody is active; otherwise entry `i` is built from the `i`-th active subscriber |
| Broadcast.BroadcastCoversActive | backend/app.js:573-613 | every active subscriber has an entry, at its rank among the active rows, with its id, name, email, frequency, topics and its unsubscribe URL |
| Broadcast.BroadcastOnlyActive | backend/app.js:602-613 | each entry is the active subscriber of that rank, with its columns and the URL carrying its encoded email and HMAC token |
| Broadcast.QueryValue | backend/app.js:642 | `req.query[name]` is absent when no `&`-separated pair has that name, and otherwise is the decoded value of the first pair with that name |
| Broadcast.FirstValueIsFirstPair | backend/app.js:642 | over a list of pairs, the value read is that of the first pair with the name, and absent when there is none |
| Broadcast.TwoPairs | backend/app.js:642 | parsing `email=x&token=y` gives back the decoded x and y |
| Broadcast.LinkQueryParses | backend/app.js:611 | parsing the link's query gives back the original email and its token |
| Broadcast.BroadcastLinkUnsubscribes | backend/app.js:602-613 | following a broadcast link passes the checks of `GET /unsubscribe` and unsubscribes that subscriber |
| UriComponent.EncodeURIComponent | backend/app.js:611 | the encoding is never shorter than the text, and text made only of unreserved characters is kept as it is |
| UriComponent.DecodeURIComponent | backend/app.js:642 | a decoded value is never longer than its text, and text without `%` decodes to itself |
| UriComponent.EncodeDecodeRoundTrip | backend/app.js:611 | `decodeURIComponent(encodeURIComponent(s)) == s` |
| UriComponent.EncodedIsQuerySafe | backend/app.js:611 | an encoded component holds only unreserved characters and `%`, so it has no `&`, `=`, `+`, `#` or space |
| Credentials.FindUser | backend/routes/auth.js:35-36 | `SELECT ... WHERE email = ?` returns the first row whose email matches under the collation, or none |
| Credentials.FindUserAppend | backend/routes/auth.js:17-24 | inserting a user with a new email makes that email findable at the new row and keeps other lookups |
| RequireAuthGuard.BearerToken | backend/middleware/requireAuth.js:6 | no header gives no token; a header gives a token exactly when it contains a space |
| RequireAuthGuard.RequireAuth | backend/middleware/requireAuth.js:4-18 | 401 "Unauthorized" exactly when neither the header nor the cookie gives a token; 401 "Invalid or expired token" exactly when it does not verify; otherwise passes the decoded claims on |
| RequireAuthGuard.HeaderWins | backend/middleware/requireAuth.js:6-8 | a bearer token in the header is used even when a cookie is present |
| RequireAuthGuard.CookieFallback | backend/middleware/requireAuth.js:6-8 | with no header, no space in it, or an empty bearer value, the cookie is used |
| RequireAuthGuard.AnySignedTokenPasses | backend/middleware/requireAuth.js:12-14 | every token the server signed passes, whatever role its claims carry |
| RequireAuthGuard.NoTokenRefused | backend/middleware/requireAuth.js:10 | a request without a token is refused with "Unauthorized" |
| RequireAuthGuard.RequireAdminApi | backend/middleware/requireAuth.js:12-14 | an admin-only API admits exactly the verified tokens whose role is admin |
| RequireAuthGuard.RolelessTokenForbidden | backend/middleware/requireAuth.js:12-14 | the corrected guard forbids a signed token without the admin role |
| RequireAdminPageGuard.RequireAdminPage | backend/middleware/requireAdminPage.js:8-21 | passes exactly when the cookie verifies with role admin; every refusal redirects to `/admin-login`; the cookie is cleared exactly when it fails to verify |
| RequireAdminPageGuard.HeaderIgnored | backend/middleware/requireAdminPage.js:9 | the Authorization header has no effect |
| RequireAdminPageGuard.SignedCookie | backend/middleware/requireAdminPage.js:13-16 | a signed cookie passes exactly when its role is admin; otherwise it redirects without clearing |
| RequireAdminPageGuard.NoCookieRedirects | backend/middleware/requireAdminPage.js:10 | no cookie redirects to the login page |
| AdminLogin.Login | backend/app.js:215-249 | 400 for missing credentials; 401 for an unknown email or a wrong password; 403 for a non-admin; otherwise a 2-hour token with the user's id, email and role |
| AdminLogin.FailuresAlike | backend/app.js:224-231 | an unknown email and a wrong password get the same answer |
| AdminLogin.SessionOpensAdminPages | backend/app.js:236-249 | the cookie set by a successful admin login opens the admin pages |
| AuthRoutes.UserStore.Signup | backend/routes/auth.js:8-29 | missing name, email or password is refused; an existing email is refused; otherwise one user with the bcrypt hash and the default role is appended |
| AuthRoutes.Login | backend/routes/auth.js:32-71 | "User not found" exactly when no user has the email; no answer exactly when a known email comes without a password; "Invalid credentials" exactly when bcrypt rejects; logged in exactly when bcrypt accepts, with a 1-day token over id, email and name, and the stored role |
| AuthRoutes.MissingPasswordUnhandled | backend/routes/auth.js:51 | a known email with no password gets no answer |
| AuthRoutes.CorrectedLogin | backend/routes/auth.js:32-71 | the corrected login always answers; with a password it answers as the source does, and without one it refuses |
| AuthRoutes.FailureMessagesDiffer | backend/routes/auth.js:39-41 | the two login failures have different messages |
| AuthRoutes.SignupThenLogin | backend/routes/auth.js:51-62 | after signing up, the same email and password log in |
| AuthRoutes.LoginTokenReach | backend/routes/auth.js:58-62 | a public login token passes `requireAuth`, is redirected by `requireAdminPage`, and is forbidden by the corrected guard |
| AuthRoutes.SignupLoginScenario | backend/routes/auth.js:8-71 | sign up, sign up again, log in: the duplicate is refused and the login returns the stored role |
| Blog.StripTags | backend/app.js:815 | stripping tags never lengthens the text |
| Blog.Excerpt | backend/app.js:815 | the excerpt has at most 160 characters |
| Blog.StripTagsChars | backend/app.js:815 | stripping adds no character that was not in the content |
| Blog.StripTagsLeavesNoTag | backend/app.js:815 | the result contains no `<...>` tag |
| Blog.StripTagsKeepsNoTag | backend/app.js:815 | text without tags is kept as it is |
| Blog.StripTagsFixedIff | backend/app.js:815 | the text is unchanged exactly when it has no tag, so stripping is idempotent |
| Blog.StripsOneTag | backend/app.js:815 | one tag is removed whole, and the text before it is kept |
| Blog.StripsLeadingTag | backend/app.js:815 | a leading tag is removed up to its first `>`, whatever it contains |
| Blog.StripPrefix | backend/app.js:815 | text before the first `<` is kept |
| Blog.ExcerptFacts | backend/app.js:815 | the excerpt is at most 160 characters with no tag; for content without `<` it is the content's prefix |
| Blog.BlogStore.Publish | backend/app.js:528-549 | missing title or content is refused; content that sanitises to white space only is refused; otherwise one post by "Admin" with the sanitised content and null optional fields is appended |
| LessonRegistry.OrderIsKeys | backend/lessons-config.js:1114-1120 | `lessonOrder` lists the 13 lesson keys in the registry's order, without repeats |
| LessonRegistry.FindInOrder | backend/lessons-config.js:1114-1120 | every slug in the order finds its lesson |
| LessonRegistry.FindLesson | backend/app.js:323-327 | the lookup misses exactly when no lesson has the slug as its key, and otherwise returns the lesson under that key |
| LessonRegistry.FindLessonIff | backend/app.js:323-327 | `/learn/:slug` finds a lesson exactly when the slug is in the order; other slugs give 404 |
| LessonRegistry.LinksFollowOrder | backend/lessons-config.js:4-1111 | the first lesson has no prev and the last no next; every prev and next link names the neighbour in the order |
| LessonRegistry.NextPrevInverse | backend/lessons-config.js:4-1111 | following next and then prev, or prev and then next, returns to the same lesson |
| LessonRegistry.NeighboursAt | backend/lessons-config.js:4-1111 | from the lesson at any position, next-then-prev and prev-then-next return to that position's slug |
| ToolRegistry.RegistryWellFormed | backend/tools-config.js:6-23 | all 30 tools follow the schema: slug equals key, allowed level, chart type, category and output colours, and a primary output among the outputs; keys are distinct |
| ToolRegistry.CategoriesDistinct | backend/tools-config.js:1015-1024 | the eight hub categories are distinct |
| ToolRegistry.CategoriesCovered | backend/tools-config.js:1015-1024 | every hub category has at least one tool |
| ToolRegistry.FindTool | backend/app.js:346-350 | the lookup misses exactly when no tool has the slug as its key, and otherwise returns the tool under that key |
| ToolRegistry.FindToolBySlug | backend/app.js:346-350 | `/calculator/:slug` finds a tool exactly when a key matches, and the tool found carries that slug |

## Left out

- Database and server errors (every 500 branch) are not modelled. Concurrent requests racing on the same row are not modelled either: each route is one atomic step.
- Rate limiters, CORS, Helmet, logging and the `console.log` calls are left out. They do not change any answer the model describes.
- Outgoing webhooks and HTTP calls are not modelled. The broadcast is modelled only up to the list it sends.
- The HTML sanitiser is not modelled. `Blog.BlogStore.Publish` takes it as a function parameter.
- HTML rendering and the unsubscribe result page are left out. Results are status codes and messages.
- The lead list, single-lead, by-age and by-goal queries, the subscribers list and blog delete are left out. They are reads without logic of their own, or a single DELETE.
- JSON bodies whose fields are numbers, booleans or objects are not modelled. Every field is a string or absent.
- Blog.Excerpt: counts Unicode characters, not the UTF-16 code units that `substring` counts.
- Broadcast.QueryValue: the query-string parser keeps only percent-decoding of values and the first value of a name. Names are compared as written, not decoded (`%65mail=` names `email` in the source but not here). Turning `+` into a space, the fallback for malformed escapes, and arrays for repeated names are not modelled.
- The secret fallback `"fallback-secret"` and the `APP_URL` default are not modelled. One unsubscribe secret and one application URL are parameters.
- Js.Lower: only the ASCII letters `A`–`Z` are folded. JavaScript's `toLowerCase` folds every Unicode capital and can change the length (`İ` becomes two code units). So an email that differs from its link only in the case of a non-ASCII letter passes in the source but is refused in the model.
- Db.Key: a case-insensitive collation folds only ASCII letters. Accent and Unicode folding are not modelled.
- Lead ids from the URL are compared as numbers. MySQL's coercion of non-numeric id strings is not modelled.
- The `users.role` column default is a constant of `UserStore`, because the schema is not part of this model.
- Credentials.JwtSound: token expiry and clocks are not modelled. Soundness covers tokens still within their lifetime.
- `next()` throwing inside the `try` of `requireAuth` or of `requireAdminPage` is not modelled. In `requireAuth` that would turn a pass into 401; in `requireAdminPage` it would clear the cookie and redirect to `/admin-login`.
- `lessons[slug]` and `tools[slug]` also find inherited object properties such as `constructor`. The lookups here see only the registries' own keys.
- The lesson and tool contents (texts, icons, inputs, steps) are not modelled. Only the fields that the routes or the schema constrain are modelled. The display titles in prev/next links are kept but not compared with the lessons' titles.

## Findings

| source | as written | input that shows it | evidently intended | confidence | as-written member | corrected member |
|---|---|---|---|---|---|---|
| backend/middleware/requireAuth.js:12-14 | the admin JSON APIs (lead list, update and stats, blog publish, admin unsubscribe, subscriber list) are guarded by `requireAuth`, which verifies the JWT but never checks a role; `/api/auth/signup` and `/api/auth/login` are public and sign their tokens with the same secret | sign up any account, log in, and send `Authorization: Bearer <token>` to `PUT /api/leads/:id` | routes commented "admin only" (backend/app.js:429, 446, 527, 771) admit only tokens whose role is admin | medium, not executed | AuthRoutes.LoginTokenReach | RequireAuthGuard.RequireAdminApi |
| backend/app.js:465 | `stats.total += r.count; stats[r.status] = r.count` shares one object for the sum and the status buckets, and `PUT /api/leads/:id` (backend/app.js:449-451) stores any status string | set one lead's status to "total" with `PUT /api/leads/:id`; with one other lead of status "new", `GET /api/leads-stats` reports `total` 1 for two leads | `total` counts every lead | low (the table's column type is not part of this model; an ENUM column would refuse the value), not executed | Leads.StatsTotalOverwritten | Leads.CorrectedStatsTotalIsTableSize |
| backend/routes/auth.js:51 | `await bcrypt.compare(password, user.password)` runs with `password` undefined inside a query callback that nothing awaits; bcrypt rejects, the rejection is unhandled, and no response is sent | `POST /api/auth/login` with the email of an existing user and no `password` field | a 400 answer, as signup gives for a missing field, with the server still running | medium (under Node 15 and later, an unhandled rejection ends the process unless a handler is installed, and backend/app.js installs none), not executed | AuthRoutes.MissingPasswordUnhandled | AuthRoutes.CorrectedLogin |
