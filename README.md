# Voice memo bot: usage ledger and daily quota

A model of the usage-metering layer (`database.py`) of a Telegram bot that
transcribes voice messages. `database.py` keeps two tables: `users`
(user id, PRO flag) and `usage_logs` (user id, calendar day, seconds used;
unique on the pair). It offers `can_process_voice` to decide whether a
recording may be admitted, although the `bot.py` in this repository never
calls it. That decision always admits PRO users. A standard user gets a
daily budget of 300 seconds. A refusal says whether the budget is already
used up or the recording is longer than what is left.

Files:

- `wrappers.dfy`: module `Wrappers`, an `Option` type.
- `decimal.dfy`: module `Decimal`, the decimal text of a natural number as
  Python's f-strings write it. It also reads the number back (`Value`, `SplitDigits`), which `ParseReason` uses; the source itself parses nothing.
- `quota.dfy`: module `Quota`. `Decide` is the pure admit/deny decision of
  `can_process_voice`. `Render` gives the exact reason texts. `ParseReason`
  is its inverse.
- `ledger.dfy`: module `Ledger`. The pure table functions are `EnsureUser`,
  `Daily`, `Credit` and `Total`, with lemmas about them. The class `Ledger`
  holds the two tables as map fields. Its methods perform the operations step
  by step, and each method states the new tables in terms of those functions.

The clock `date.today()` is replaced by an explicit `today: Day` argument.
`Day` is a natural number naming a calendar day. The code keys records by
the ISO date string, and any injective naming of days behaves the same.

## Model

| member | source | states |
|---|---|---|
| Quota.Decide | database.py:177-197 | PRO users are always admitted with the PRO reason. A standard request is admitted exactly when duration <= 300 - usage. A denial is "exceeded" exactly when nothing is left and "too long" exactly when 0 < remaining < duration. "Too long" reports remaining as minutes*60+seconds with seconds < 60. An admission reports remaining - duration, which is never negative. |
| Quota.Render | database.py:183-197 | The exact message texts of the four outcomes. It has no contract of its own; ParseRender and RenderInjective state its properties. |
| Quota.ParseRender | database.py:183-197 | Every reason text reads back as the reason and numbers it was rendered from. |
| Quota.ParseTooLong | database.py:193-195 | The "too long" text carries its minutes and seconds recoverably. |
| Quota.ParseAllowed | database.py:197 | The "allowed" text carries the seconds left recoverably. |
| Quota.RenderInjective | database.py:183-197 | Distinct reasons never produce the same message. |
| Quota.ProAlwaysAdmitted | database.py:181-183 | Whatever the usage and duration, a PRO user gets (True, "PRO user - unlimited access"). |
| Quota.ExhaustedDeniesAll | database.py:186-191 | With usage >= 300, every positive duration is denied as "Daily limit exceeded". |
| Quota.ZeroAtLimitAdmitted | database.py:189 | A zero-length request at exactly 300 seconds used is admitted with 0 s left. |
| Quota.TooLongExample | database.py:192-195 | Usage 280, duration 30: denied with "You have 0m 20s remaining today." |
| Quota.AllowedExample | database.py:197 | Usage 280, duration 15: admitted with "5s remaining today." |
| Decimal.FromNat | database.py:195-197 | The number text is non-empty and all digits, with no leading zero; zero is exactly "0", as Python's int formatting gives. |
| Decimal.ValueOfFromNat | database.py:195 | Reading the rendered digits back gives the number. |
| Ledger.EnsureUser | database.py:58-67 | After lazy creation, the account exists. Its flag is the stored one, or false for a new account. Every other account is kept as it was. |
| Ledger.Daily | database.py:84-91 | The recorded seconds for (user, day), or 0 when no record exists. It has no contract of its own; CreditAccumulates, CreditElsewhere and DailyWithinTotal state its properties. |
| Ledger.Credit | database.py:105-117 | Increment-or-insert: the (user, day) record becomes the old value plus the seconds, or the seconds when it was absent. The key set gains exactly that key, and every other record is unchanged. |
| Ledger.Total | database.py:163-168 | The sum of the user's seconds over all days. It is 0 when the user has no records, and non-negative when no record is negative. |
| Ledger.EnsureUserIdempotent | database.py:58-67 | Looking an account up twice leaves the table as looking it up once does. |
| Ledger.TierSticks | database.py:133-138 | After set_pro_status(u, b), looking u up again returns b. |
| Ledger.CreditAccumulates | database.py:105-117 | Two charges s1, s2 on the same day leave s1 + s2 on top of the earlier usage, not a replacement. |
| Ledger.CreditElsewhere | database.py:106-117 | A charge leaves every other (user, day) record unchanged. |
| Ledger.CreditTotal | database.py:105-168 | A charge raises the charged user's total by exactly the charged seconds. Every other user's total is unchanged. |
| Ledger.TotalRemove | database.py:163-168 | The total is a sum that may be split at any record. |
| Ledger.DailyWithinTotal | database.py:160-168 | Without negative records, today's usage lies between 0 and the total. |
| Ledger.Ledger.constructor | database.py:22-41 | A fresh database has no users and no usage records. |
| Ledger.Ledger.GetOrCreateUser | database.py:51-71 | Returns the stored flag, or false for an unknown user, whom it inserts as standard. The usage table is unchanged. |
| Ledger.Ledger.GetDailyUsage | database.py:77-91 | Returns the record for (u, today), or 0 when there is none. |
| Ledger.Ledger.AddUsage | database.py:97-121 | The UPDATE-then-INSERT leaves usage = Credit(old usage, u, today, seconds). The users table is unchanged. |
| Ledger.Ledger.SetProStatus | database.py:126-146 | Creates the account if needed, then stores the flag. The users table becomes old[u := isPro], usage is unchanged, and the call reports success. |
| Ledger.Ledger.SumUsage | database.py:162-168 | The loop's sum equals Total(usage, u), the sum of all of u's records. |
| Ledger.Ledger.GetUserStats | database.py:152-171 | Creates the account if missing. Returns its flag, today's usage and the total. Usage is unchanged. |
| Ledger.Ledger.CanProcessVoice | database.py:177-197 | Creates the account if missing. Returns Decide's verdict on the account's flag and today's usage, with the rendered reason. Usage is unchanged. |

## Left out

- Storage failures: each `except` block logs and returns a default (`False`, `0`, `(False, 0, 0)`, or nothing). The model covers only the path where SQLite succeeds.
- Ledger.Ledger.SetProStatus: always reports success, because the failing path (`return False` at database.py:148-150) is not modelled.
- Logging calls, connection handling, `init_database`'s directory creation and DDL, and the `DATABASE_DIR` environment lookup (database.py:10-49) are not modelled. The constructor models the first start only, with empty tables. `CREATE TABLE IF NOT EXISTS` keeps the rows of an existing database file, and the model does not capture that restart case.
- `created_at` (database.py:27) is set by the database clock and never read by the core, so it is not modelled.
- Integer width: user ids, durations and `seconds_used` are unbounded integers. The model assumes every value stays within SQLite's 64-bit INTEGER range and does not model overflow. In the source, binding an out-of-range value raises and `add_usage` swallows the error. An UPDATE that overflows stores a REAL. A `SUM` that overflows raises, so `get_user_stats` returns `(False, 0, 0)`.
- The foreign key from `usage_logs.user_id` to `users` (database.py:38) is not enforced by SQLite by default. `add_usage` never creates the user, so the model does not require usage records to belong to known users.
- Concurrency: the read-then-write race between the UPDATE and the INSERT of `add_usage` (database.py:106-117) cannot arise in this sequential model.
- `bot.py` (Telegram handlers, file download, ffmpeg, the OpenAI calls, startup) is I/O plumbing that never calls the ledger. It is not part of this model.
- `prompts.py` holds only constant prompt templates and is not part of this model.
- The SQL `SUM` aggregate is modelled as a loop over the usage table (`SumUsage`), proved equal to the ghost sum `Total`.
