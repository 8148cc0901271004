# Session security manager and email handler, modelled in Dafny

This project models the two stateful agents of a small Python automation system:

- **`SecurityManagerAI`** (`Security.SecurityManager`). It authenticates users and, if the user passes the optional 2FA gate, issues a session token. It keeps a map from token to session (username, access level, creation and expiry time) and an append-only audit log. It grants or refuses access to a named resource by token, evicting an expired session when that token is presented, and it can sweep out all expired sessions at once.
- **`EmailHandlerAI`** (`Email.EmailHandler`). It classifies emails by keywords in the subject (urgent > important > normal > low priority). It processes a batch capped at `max_emails`, sending an auto-response to urgent and important mail, and keeps every processed record. It reports counts per category and fabricates numbered demo emails.

Time is an integer `now` (seconds) passed to each call. The session token and the number behind a 2FA code come from the caller in place of the random source. Strings are `seq<char>`. Lower-casing covers ASCII letters only.

Files:

- `Wrappers.dfy`: `Option`.
- `Strings.dfy`: ASCII `lower()`, substring search, and decimal rendering of naturals (`str(n)`, `zfill`) with its round trip.
- `Security.dfy`: the session manager, expiry and sweeping, and the audit-log invariant.
- `Email.dfy`: the categoriser, per-email processing, statistics and fabricated emails.

Both classes keep an object invariant `Valid()`, which every mutating method preserves:

- In the security manager, every live session expires `session_timeout` seconds after it was created and carries level 'user'. Its token was also handed out by an authentication recorded in the audit log. It follows that the number of live sessions never exceeds the number of log entries.
- In the email handler, every processed record carries one of the four categories.

The model follows the code as written:

- An expired token is refused with 'Session expired', an unknown one with 'Invalid session token'.
- Only successful authentications and granted accesses are logged. The 2FA-required return and both refusals append nothing to the audit log.
- A supplied 2FA code is never checked, so there is no "invalid code" outcome. The credential check always accepts.

## Model

| member | source | states |
|---|---|---|
| `Security.GenerateTwoFaCode` | security_manager.py:41-43 | for every n below 10^6 the code is exactly six decimal digits whose value is n |
| `Security.TwoFaCodeInjective` | security_manager.py:41-43 | distinct numbers give distinct codes |
| `Strings.DecimalRoundTrip` | security_manager.py:43 | reading back the decimal rendering of n gives n |
| `Strings.DecimalLength` | security_manager.py:43 | a number below 10^k renders in at most k digits, so zero-filling to 6 only pads |
| `Strings.LeadingZerosValue` | security_manager.py:43 | padding a digit string with leading zeros keeps it a digit string of the same value |
| `Strings.ZFill` | security_manager.py:43 | the string stays at the end, preceded by zeros up to the requested width; never shortened |
| `Strings.NatToDecimal` | email_handler.py:119 | `str(n)` is a non-empty digit string with no leading zero |
| `Strings.DecimalInjective` | email_handler.py:119 | different numbers render differently |
| `Security.SecurityManager.constructor` | security_manager.py:24-33 | each missing configuration key takes its default (2FA on, 3600 s, encryption on, admin/user/guest); no sessions, empty log |
| `Security.SecurityManager.LogAccessAttempt` | security_manager.py:180-185 | the log grows by exactly the given attempt stamped with `now`; sessions untouched |
| `Security.SecurityManager.AuthenticateUser` | security_manager.py:49-105 | 2FA on and no code: not authenticated, 2FA required, no token, sessions and log unchanged; otherwise authenticated with the given token and level 'user', exactly that token (re)mapped to a session expiring `now + session_timeout`, every other session untouched, log grown by this result |
| `Security.SecurityManager.SecureOnlineAccess` | security_manager.py:107-148 | unknown token: refused as 'Invalid session token', nothing changes; known token with `now > expires_at`: refused as 'Session expired', exactly that token removed, log unchanged; otherwise granted with the stored username and level, sessions unchanged, log grown by this result; a grant always reports level 'user' |
| `Security.SecurityManager.EnableSecureAccess` | security_manager.py:150-178 | one entry per resource in input order, each carrying the resource, status 'secured', the encryption flag and access control on; count equals the number of resources; no state change |
| `Security.SecurityManager.GetSecurityStatus` | security_manager.py:187-195 | under the invariant, live sessions never outnumber audit entries; echoes the configured flags and timeout |
| `Security.SecurityManager.CleanupExpiredSessions` | security_manager.py:197-209 | the new session map is the old one minus exactly the sessions with `now > expires_at`; returns how many those were; log unchanged |
| `Security.IsExpired` | security_manager.py:134 | a session is still valid at exactly `expires_at` and expired one second later (strict `>`) |
| `Security.ExpiredTokens` | security_manager.py:200-203 | exactly the stored tokens whose session is past expiry, and no other token |
| `Security.Unexpired` | security_manager.py:200-206 | what a sweep leaves: exactly the stored sessions not past expiry, each with unchanged contents |
| `Security.IssuedTokensBound` | security_manager.py:180-185 | the log holds no more issued tokens than entries |
| `Security.SessionsBoundedByLog` | security_manager.py:95-104 | a session map whose tokens were all issued in the log is no larger than the log |
| `Security.IssuedTokensAppend` | security_manager.py:182-185 | appending an entry adds exactly the token it issued |
| `Security.SweepPartition` | security_manager.py:200-209 | removed count plus kept sessions equals the sessions before |
| `Security.SweepIdempotent` | security_manager.py:197-209 | a second sweep at the same time removes nothing and changes nothing |
| `Security.SweepMonotone` | security_manager.py:202 | a later sweep removes a superset of what an earlier one would |
| `Security.LazyEvictionAgreesWithSweep` | security_manager.py:134-136 | evicting an expired token on lookup and then sweeping equals sweeping |
| `Security.LoginThenAccess` | security_manager.py:223-231 | authenticating with a code then using the token at the same instant is granted iff the timeout is non-negative; the log grows by 2 (1 when refused) |
| `Email.CategorizeSubject` | email_handler.py:37-47 | result is one of the four categories; urgent iff an urgent keyword occurs in the lower-cased subject; important iff no urgent but an important keyword; normal iff neither but a normal keyword |
| `Email.CategorizeEmail` | email_handler.py:27-47 | the category of the email's subject, a missing subject read as empty; result is one of the four categories; an email without a subject is low priority |
| `Email.NoKeywordIsLowPriority` | email_handler.py:44-47 | a subject mentioning no keyword is low priority |
| `Email.UrgentTakesPrecedence` | email_handler.py:40-41 | an urgent keyword decides 'urgent' whatever else the subject says |
| `Email.ExtendingSubjectNeverLowersCategory` | email_handler.py:40-47 | adding text before or after a subject never lowers its category |
| `Email.CategorizeIgnoresCase` | email_handler.py:37 | subjects differing only in letter case get the same category |
| `Strings.Lower` | email_handler.py:37 | same length, no upper-case ASCII letter left, each character equal to the original up to case |
| `Strings.Contains` | email_handler.py:40 | `k in s`: the empty keyword and `s` itself always occur; nothing longer than `s` does |
| `Email.MentionsAny` | email_handler.py:40-44 | `any(k in text for k in keywords)`: true iff some keyword of the list occurs; false for an empty list |
| `Strings.LowerIgnoresCase` | email_handler.py:37 | strings equal up to letter case lower-case to the same string |
| `Strings.LowerAppend` | email_handler.py:37 | lower-casing distributes over concatenation |
| `Strings.ContainsExtendRight` | email_handler.py:40 | a substring stays a substring when text is appended |
| `Strings.ContainsExtendLeft` | email_handler.py:40 | a substring stays a substring when text is prepended |
| `Email.GenerateAutoResponse` | email_handler.py:87-89 | the reply is the fixed acknowledgement prefix, then the subject (or 'your message'), then the fixed suffix |
| `Email.AutoResponseDeterminesSubject` | email_handler.py:89 | equal replies quote equal subjects |
| `Email.PrefixSlice` | email_handler.py:61 | Python's `s[:k]`: a prefix of length min(k, len) for k >= 0, and len + k (at least 0) for negative k |
| `Email.Truncate` | email_handler.py:59-61 | the batch is a prefix of the input of length min(len, max) for a non-negative max, and len + max (at least 0) for a negative max, as Python slicing gives |
| `Email.DefaultId` | email_handler.py:68 | the default id is 'email_' followed by the decimal rendering of i+1: digits that read back as i+1, with no leading zero |
| `Email.ProcessOne` | email_handler.py:65-78 | category is the email's category; missing id, subject and sender default to `email_{i+1}`, 'No Subject' and 'Unknown'; auto-response sent iff auto-response is on and the category is urgent or important, with the generated reply then and only then |
| `Email.CountCategory` | email_handler.py:99 | a category count never exceeds the number of processed emails |
| `Email.CountCategoryAppend` | email_handler.py:81 | counts after appending a batch are the old counts plus the batch's |
| `Email.CountsCoverAll` | email_handler.py:98-100 | when every record has one of the four categories, the four counts sum to the total |
| `Email.SyntheticEmail` | email_handler.py:118-124 | every field is present; the id is 'email_' followed by the email's number in decimal with no leading zero; subject, sender and content embed that same number |
| `Email.SyntheticIdsDistinct` | email_handler.py:117-119 | fabricated emails have pairwise distinct ids |
| `Email.SyntheticEmailIsLowPriority` | email_handler.py:117-120 | every fabricated email ("Email Subject n") is low priority |
| `Email.EmailHandler.constructor` | email_handler.py:16-23 | each missing configuration key takes its default (50, 10, the four categories, auto-response on); nothing processed |
| `Email.EmailHandler.ProcessEmails` | email_handler.py:49-85 | returns one record per email of the truncated batch, the i-th built from the i-th email at index i; processed list is the old list followed by exactly these records; every record keeps a valid category |
| `Email.EmailHandler.GetStatistics` | email_handler.py:91-102 | total is the number processed; one entry per configured category holding the number of processed records with that category; no state change |
| `Email.EmailHandler.OpenEmails` | email_handler.py:104-128 | returns max(0, min(count, max_emails)) emails, the i-th being fabricated email number i+1; default count 50 |

## Left out

- Session tokens from `secrets.token_urlsafe` (security_manager.py:37-39) are not generated. The token is an input, and its uniqueness is the random source's job. With a colliding token the model, like the code, overwrites the older session.
- The random draw in `generate_2fa_code` is an input `n` below 10^6.
- `hash_password` (SHA-256) is not modelled. Its result is never used.
- `datetime.now()` is a single integer `now` per call, so the two reads at security_manager.py:97-98 are one instant. ISO timestamp fields (`timestamp`, `logged_at`, `processed_at`, `received_at`) are dropped from result records. Audit entries keep `now` as an integer.
- All `logging` calls and the `__main__` demo blocks that read `config.json` are left out. `LoginThenAccess` models only the demo's authenticate-then-access sequence.
- The orchestration module `ai_coordinator.py` is not part of this model.
- `str.lower()` covers ASCII letters only. Unicode case mapping is not modelled.
- `Email.EmailHandler.GetStatistics` does not keep dict insertion order: `by_category` is a Dafny `map`.
- A configuration value of the wrong type (for example a string timeout) is not modelled, nor is an email field holding `None` or a non-string. Each configuration and email field is typed. So the `AttributeError` that `None.lower()` raises at email_handler.py:37 for a `subject` key holding `None` is not modelled: a present subject is always a string.
- Security.SecurityManager.AuthenticateUser: times are unbounded integers, so the `OverflowError` that `datetime.now() + timedelta(seconds=session_timeout)` raises at security_manager.py:98 is not modelled. In the source it happens when the expiry falls outside years 1-9999 (a timeout of roughly 2.5·10^11 s or more, or a very negative one). There the call fails with an exception, no session is stored and nothing is logged; the model always authenticates.
- Concurrency is not modelled. The source is single-threaded and has no locking.
