# Backend startup: configuration resolution and the database connection bootstrap

This project models the two sequential pieces of the backend's startup code
and proves their properties in Dafny.

- **Configuration resolution** (`backend/src/config/envConfig.ts`). The
  `envConfig` object is a pure function `EnvConfig.Resolve` of the process
  environment. The environment is an immutable `map<string, string>`; an unset
  variable is a missing key.
  - Defaults follow JavaScript `||`: `undefined` and `""` are falsy, and a
    white-space value is truthy because nothing is trimmed (`EnvConfig.OrDefault`).
  - The port is `parseInt(…, 10)` of `BACKEND_PORT`, defaulting to `"3847"`.
    `ParseInt.ParseIntDecimal` models it: skip ECMAScript white space and
    line terminators, read an optional `+` or `-`, then read the longest run of
    decimal digits. An empty run gives `NaN`, modelled as `None`.
  - The URI is `MONGO_URI`, or `mongodb://mongo:27017/` followed by
    `MONGO_DATABASE` (or `test`).
  - `dbName` is the raw `MONGO_DATABASE`.
- **Connection bootstrap** (`backend/src/config/db.ts`). `Db.ConnectDB(retries, outcomes)`
  is the recursive `connectDB`. The database driver is replaced by a sequence
  of attempt outcomes. The result records:
  - the value `dbConnected` takes after each attempt;
  - the delays waited, each `RETRY_DELAY_MS`;
  - the messages logged.

  A failure is retried while `retries < MAX_RETRIES`. From `retries = 0` that
  allows up to six attempts and five delays. After the last failure the call
  logs that it gave up and returns normally. `Db.ConnectLoop` is the same
  procedure as a counted loop, proved to agree with `Db.ConnectDB`.

Three behaviours of the code are worth stating plainly:

- The code builds no credential-based or `NODE_ENV`-dependent URI. It does not
  trim `MONGO_URI`, so a white-space-only `MONGO_URI` is used verbatim.
- A `BACKEND_PORT` that does not parse gives `NaN`; it does not fall back to
  3847. Only an unset or empty `BACKEND_PORT` does.
- The failure log shows `retries + 1` against `MAX_RETRIES`, so the sixth and
  last attempt is logged as attempt 6 of 5.

Files: `wrappers.dfy` (`Option`), `parse_int.dfy` (`parseInt` on radix 10),
`env_config.dfy` (`envConfig`), `db.dfy` (`connectDB`).

## Model

| member | source | states |
|---|---|---|
| EnvConfig.OrDefault | backend/src/config/envConfig.ts:11 | `v \|\| d` on an optional string: a set, non-empty value is kept (white space included), an unset or empty one is replaced by the default, and a non-empty default therefore always yields a non-empty value |
| EnvConfig.DefaultUri | backend/src/config/envConfig.ts:16 | the fallback connection string starts with `mongodb://mongo:27017/` and always names a database after it: the database name when that is set and non-empty, `test` otherwise (also when `MONGO_DATABASE` is `""`) |
| EnvConfig.Resolve | backend/src/config/envConfig.ts:9-19 | an unset or empty `BACKEND_PORT` gives port 3847, any other value gives `parseInt` of the raw value (no fallback on `NaN`); the URI is `MONGO_URI` verbatim when non-empty, otherwise `mongodb://mongo:27017/` followed by a non-empty `MONGO_DATABASE` or by `test`, and it is never empty; `dbName` is the raw `MONGO_DATABASE`, absent exactly when it is unset |
| EnvConfig.ResolveDependsOnlyOnConfigVariables | backend/src/config/envConfig.ts:9-19 | two environments that agree on `BACKEND_PORT`, `MONGO_URI` and `MONGO_DATABASE` resolve to the same configuration |
| EnvConfig.ResolveIgnoresOtherVariables | backend/src/config/envConfig.ts:9-19 | setting any other variable (`NODE_ENV`, credentials, …) to any value leaves the configuration unchanged |
| EnvConfig.ResolveIgnoresRemovedVariables | backend/src/config/envConfig.ts:9-19 | removing any other variable leaves the configuration unchanged |
| EnvConfig.PortDefaultsWhenUnsetOrEmpty | backend/src/config/envConfig.ts:11 | an unset or empty `BACKEND_PORT` gives port 3847 |
| EnvConfig.PortFromDigitPrefix | backend/src/config/envConfig.ts:11 | a `BACKEND_PORT` made of a non-empty digit run and a tail that does not start with a digit gives the base-10 value of the run |
| EnvConfig.PortRoundTrip | backend/src/config/envConfig.ts:11 | `BACKEND_PORT` set to the decimal rendering of `n` gives port `n` |
| EnvConfig.PortNaNWithoutLeadingDigits | backend/src/config/envConfig.ts:11 | a non-empty `BACKEND_PORT` whose first character is not a digit, white space or sign gives `NaN`, not 3847 |
| EnvConfig.PortExamples | backend/src/config/envConfig.ts:11 | `"12ab"` gives port 12 and `"abc"` gives `NaN`, whatever the rest of the environment holds |
| EnvConfig.UriOverride | backend/src/config/envConfig.ts:14-15 | a non-empty `MONGO_URI`, white space included, is the URI verbatim |
| EnvConfig.UriDefault | backend/src/config/envConfig.ts:14-16 | with `MONGO_URI` unset or empty, the URI is the compose-network prefix followed by a non-empty `MONGO_DATABASE`, or by `test` |
| EnvConfig.DbNameNotDefaulted | backend/src/config/envConfig.ts:16-17 | with both variables unset, the URI names `test` while `dbName` stays undefined |
| ParseInt.ParseIntDecimal | backend/src/config/envConfig.ts:11 | `parseInt(s, 10)`: the empty string gives `NaN`, and a string that starts with a digit gives a non-negative number; `ParseInt.ParseDigits` and `ParseInt.ParseNoDigits` together cover every other shape |
| ParseInt.SkipWhiteSpace | backend/src/config/envConfig.ts:11 | the result is a suffix of the input, everything removed is white space, and the result does not start with white space |
| ParseInt.DigitRun | backend/src/config/envConfig.ts:11 | the result is a prefix of the input, all digits, and maximal: the character after it is not a digit |
| ParseInt.SignOf | backend/src/config/envConfig.ts:11 | no sign is read exactly when the string does not start with `+` or `-`, and the sign read is the string's prefix |
| ParseInt.DigitsValueOfDecimal | backend/src/config/envConfig.ts:11 | reading back the canonical decimal rendering of `n` gives `n` |
| ParseInt.ParseDigits | backend/src/config/envConfig.ts:11 | white space, a sign, a non-empty digit run and a tail that does not start with a digit parse to the signed value of the run |
| ParseInt.ParseDecimalRoundTrip | backend/src/config/envConfig.ts:11 | white space, a sign, the decimal rendering of `n` and a non-digit tail parse to the signed `n` |
| ParseInt.ParseNoDigits | backend/src/config/envConfig.ts:11 | when no digit follows the white space and the optional sign, the result is `NaN` |
| ParseInt.ParseWhiteSpaceOnly | backend/src/config/envConfig.ts:11 | a string of white space alone, with no sign or digit, parses to `NaN` |
| ParseInt.ParseDefaultPortExample | backend/src/config/envConfig.ts:11 | `"3847"` parses to 3847 |
| ParseInt.ParseDigitPrefixExample | backend/src/config/envConfig.ts:11 | `"12ab"` parses to 12 |
| ParseInt.ParseNaNExample | backend/src/config/envConfig.ts:11 | `"abc"` parses to `NaN` |
| Db.ConnectDB | backend/src/config/db.ts:15-43 | the call terminates after at least one attempt and no more than its budget, with one delay between each pair of consecutive attempts |
| Db.StopsAtSuccessOrBudget | backend/src/config/db.ts:22-35 | the final `dbConnected` is the outcome of the last attempt, and the call stops only at a success or when the budget is spent |
| Db.FlagsFollowOutcomes | backend/src/config/db.ts:22-25 | after each attempt `dbConnected` holds that attempt's outcome |
| Db.OnlyLastMaySucceed | backend/src/config/db.ts:17-25 | every attempt before the last one failed |
| Db.DelaysAreFixed | backend/src/config/db.ts:33 | every delay waited lasts `RETRY_DELAY_MS` |
| Db.ConnectDBHistory | backend/src/config/db.ts:17-34 | the three facts above together: the flags follow the outcomes, only the last attempt may succeed, and every delay is 2000 ms |
| Db.Startup | backend/src/config/db.ts:5-25 | the history of `dbConnected` from a fresh start begins `false`, then follows the attempt outcomes for between one and six attempts |
| Db.FirstSuccessAt | backend/src/config/db.ts:17-34 | when the first success is attempt `k` within the budget, the call makes exactly `k + 1` attempts and `k` delays and ends connected |
| Db.SuccessStops | backend/src/config/db.ts:17-23 | a successful first attempt ends the call with one attempt, no delay and the success message, whatever the later outcomes would be |
| Db.AllFail | backend/src/config/db.ts:24-41 | when every attempt in the budget fails, the call spends the whole budget (`Db.AttemptBudget`: `MAX_RETRIES - retries + 1` attempts below the limit, one at or above it), waits one delay fewer, and `dbConnected` is never true |
| Db.StartupBounds | backend/src/config/db.ts:31-34 | from `retries = 0` there are at most six attempts and five delays, and at most 10000 ms of waiting |
| Db.StartupExhausted | backend/src/config/db.ts:35-41 | six failures from a fresh start give six attempts, five delays and 10000 ms of waiting; `dbConnected` is false throughout, and the call returns normally |
| Db.NoRetryAtLimit | backend/src/config/db.ts:31-41 | a call with `retries >= MAX_RETRIES` makes exactly one attempt and no delay, and ends with that attempt's outcome |
| Db.AttemptLogged | backend/src/config/db.ts:23-32 | attempt `j` is made when the budget allows it and the earlier attempts failed; its log entry reports success, or the attempt number `retries + j + 1` against `MAX_RETRIES` |
| Db.ExhaustedLogShowsAttemptAboveMax | backend/src/config/db.ts:26-41 | when every attempt fails, the last error is logged as attempt `MAX_RETRIES + 1` of `MAX_RETRIES` (6 of 5), followed by the give-up message |
| Db.ConnectLoop | backend/src/config/db.ts:15-43 | the loop form of `connectDB()` makes between one and six attempts with one delay fewer; it ends on the outcome of its last attempt, after earlier failures only, connected or with the budget spent; it agrees with `Db.ConnectDB` on attempts, delays and the final flag |
| Db.TotalFixedDelays | backend/src/config/db.ts:33 | a sequence of 2000 ms waits lasts `2000` ms per wait |

## Left out

- The `mongoose.connect` driver and its `serverSelectionTimeoutMS` and `socketTimeoutMS` options (`backend/src/config/db.ts:17-21`) are a foreign call. Each attempt's result is an input outcome instead.
- `setTimeout` and the `Promise` machinery are left out. Delays are recorded as a list of durations, not as time passing or async scheduling.
- Console output appears only as the abstract `Message` log. The `error` object printed with each failure is not modelled.
- `dotenv.config()` is file I/O. The environment is taken as an input map.
- Readers of `dbConnected` (health checks) and any concurrent access to the flag are left out.
- Db.ConnectDB: requires the outcome sequence to cover every attempt the call could make. This is an artefact of replacing the driver with a list, not a demand of the code.
- Db.ConnectDB: `retries` is an unbounded integer. The code only ever passes the default 0 or a value one above a number below `MAX_RETRIES`.
- ParseInt.ParseIntDecimal: returns the exact integer. JavaScript numbers lose precision above 2^53, and `parseInt("-0")` is negative zero; both are outside the model.
- ParseInt.ParseIntDecimal: strings are sequences of Unicode scalar values, not UTF-16 code units. Every white-space code point `parseInt` skips lies in the Basic Multilingual Plane, so the two agree on which characters are skipped.
