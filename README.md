# Person service core, modelled in Dafny

This project models the three pieces of the Person backend's own logic:

- **The Person schema's `year_joined` rules** (`PersonSchema`, built on the string and number
  built-ins in `JsText`). The setter keeps a `Date`. A string or integer whose trimmed text is
  exactly four ASCII digits becomes midnight UTC on 1 January of that year, via `Date.UTC`.
  Anything else passes through. The validator and the conditional `required` accept a document
  exactly when `year_joined` is present if and only if `band_member` is true. The `toJSON`
  transform, shared by `toObject`, replaces the stored date with its UTC full year, renames `_id`
  to `id` and drops the version key. A `Date` is an abstract record of UTC calendar fields.
- **The connection manager** (`Database`). It keeps a cached `isConnected` flag in front of the
  driver's ready state, which is folded to `Connected | Disconnected | Other`. `ConnectStep` and
  `DisconnectStep` state each operation on values. The class `ConnectionManager` holds the
  module-level state and performs the same operations in place; each method is proved equal to
  its function.
- **The process lifecycle** (`Lifecycle`). Startup connects and then listens, or exits with code 1.
  `gracefulShutdown` is guarded and runs at most once: it closes the server if there is one, then
  disconnects the database, then sets exit code 0 or 1, flushes and waits 50 ms. The class
  `Process` holds the module-level `shuttingDown`, `server` and exit-code state. The four triggers
  are sequential calls of one method.

Driver calls, server close, the environment and the part of Mongoose's `Date` cast that the
model does not spell out are parameters of the operations: each call's success or failure, and the ready state it leaves, is an input.
Observable steps are recorded in a trace (`Event`) or in the list of driver calls (`DriverCall`).

Two behaviours of the code deserve a note:

- The cached flag can go stale. The disconnect short-circuit leaves the flag as it was, so when
  the driver has dropped to disconnected on its own the flag stays true, and `connectDatabase`
  then trusts it and makes no driver call (`Database.StaleFlagSkipsReconnect`).
- `year_joined` is serialised as `getUTCFullYear()` of a date built by `Date.UTC`. Under
  ECMA-262 (section 21.4.3.4, MakeFullYear), years 0 to 99 passed to `Date.UTC` mean 1900 to
  1999, so "0050" comes back as 1950 and "0100" as 100.

## Model

| member | source | states |
|---|---|---|
| `JsText.Trim` | src/models/person.ts:22 | the result of `trim` is no longer than its input and neither starts nor ends with whitespace |
| `JsText.IsFourDigits` | src/models/person.ts:23 | a string matching `/^\d{4}$/` is four ASCII digits, worth at most 9999, with no whitespace at either end |
| `JsText.IntToString` | src/models/person.ts:22 | `String(n)` has no whitespace at either end; for `n >= 0` it is all digits reading back as `n`, for `n < 0` a minus sign followed by digits reading back as `-n` |
| `JsText.IntToStringTrimmed` | src/models/person.ts:22 | `String(n).trim()` is `String(n)` |
| `JsText.TrimPadded` | src/models/person.ts:22 | `trim` of whitespace, then a core with no whitespace at its ends, then whitespace, is exactly that core |
| `JsText.TrimNoPadding` | src/models/person.ts:22 | a string with no whitespace at either end is unchanged by `trim` |
| `JsText.DigitsValue` | src/models/person.ts:23 | `Number(s)` of an all-digit string is below ten to the power of its length |
| `JsText.NatToDecimal` | src/models/person.ts:22 | `String(n)` is all digits, has no leading zero, reads back as `n` and has as many digits as `n` |
| `JsText.IntToStringFourDigits` | src/models/person.ts:21-23 | `String(n)` matches `/^\d{4}$/` exactly when 1000 <= n <= 9999, and then `Number` of it is `n` |
| `PersonSchema.MakeFullYear` | src/models/person.ts:23 | `Date.UTC` maps year arguments 0..99 to 1900..1999 and keeps every other year |
| `PersonSchema.Jan1Utc` | src/models/person.ts:23 | `new Date(Date.UTC(y, 0, 1))` is 1 January, 00:00 UTC, of the full year made from `y` |
| `PersonSchema.YearFromText` | src/models/person.ts:21-23 | the original value is kept unless the trimmed text is four digits, and then the result is 1 January midnight of the year `Date.UTC` makes of them, between 100 and 9999 |
| `PersonSchema.SetYearJoined` | src/models/person.ts:19-26 | a `Date` is kept; booleans, null, undefined and objects pass through; anything changed becomes a 1 January midnight date in a year from 100 to 9999 |
| `PersonSchema.StringSetterIfPadded` | src/models/person.ts:21-23 | a string holding four ASCII digits between runs of whitespace becomes 1 January of the year `Date.UTC` makes of them |
| `PersonSchema.StringSetterOnlyIfPadded` | src/models/person.ts:21-25 | any string that is not four digits between whitespace is returned unchanged |
| `PersonSchema.NumberSetter` | src/models/person.ts:21-25 | an integer becomes 1 January of that year exactly when 1000 <= n <= 9999, and passes through otherwise |
| `PersonSchema.StringYearRoundTrip` | src/models/person.ts:21-53 | string, then setter, then UTC full year gives the value back when it is 100 or more, and 1900 plus it when below 100 |
| `PersonSchema.SetterYearFifty` | src/models/person.ts:23 | "0050" is stored as 1 January 1950 |
| `PersonSchema.YearJoinedValidator` | src/models/person.ts:28-31 | the validator refuses a value only when it is present and the person is not a band member |
| `PersonSchema.YearJoinedIsRequired` | src/models/person.ts:34-36 | the definition of the conditional `required`: `band_member === true`; `ValidateYearJoined` carries what it means for a document |
| `PersonSchema.ValidateYearJoined` | src/models/person.ts:28-36 | accepted exactly when (band member and `year_joined` present) or (not a band member and absent); the two failures are the `required` one and the validator's one |
| `PersonSchema.CastYearJoined` | src/models/person.ts:17-18 | the `Date`-typed path keeps a date, is empty for null, undefined and the empty string, and otherwise stores a date, stays empty or fails exactly as the rest of Mongoose's cast says |
| `PersonSchema.ApplyDefaults` | src/models/person.ts:16-39 | an absent `band_member` is false and an absent `ipi_number` is null; given values, an explicit null `alias` among them, are kept |
| `PersonSchema.NewDocument` | src/models/person.ts:11-42 | an input is accepted exactly when its cast succeeds and passes validation, and is then stored with its defaults and the cast year; a failed cast is a cast error; every accepted document has `year_joined` exactly when it is a band member; a date for a non-member and a missing year for a member are rejected with the matching error |
| `PersonSchema.Transformed` | src/models/person.ts:49-56 | the transform puts the UTC full year in place of a date, sets `id` to the old `_id`, removes `_id`, and keeps every other key and adds none |
| `PersonSchema.ReturnObject.Transform` | src/models/person.ts:49-56 | the transform changes `ret` in place to exactly what `Transformed` describes |
| `PersonSchema.Raw` | src/models/person.ts:12-42 | the plain object of a stored document holds `_id`, the version key and each stored field, and holds `year_joined` only when set, and `alias` only when given, as null when it was given as null |
| `PersonSchema.Serialise` | src/models/person.ts:46-61 | the version key is emitted exactly when the options ask for it, `_id` is removed and `id` holds the document id |
| `PersonSchema.ToJson` | src/models/person.ts:46-57 | `toJSON` has `id` set to the document id, no `_id`, no version key, and `year_joined` as the UTC full year when set and absent otherwise |
| `PersonSchema.ToJsonKeepsOtherFields` | src/models/person.ts:46-57 | `toJSON` leaves names, alias (absent, null or a string), band membership, `ipi_number` and the reference lists as stored |
| `PersonSchema.ToObject` | src/models/person.ts:61 | `toObject` yields the same object as `toJSON` |
| `PersonSchema.PaddedYearRoundTrip` | src/models/person.ts:17-53 | a band member submitted with four digits between whitespace is accepted, and `toJSON` gives back their value, or 1900 plus it below 100 |
| `PersonSchema.BandMemberYearRoundTrip` | src/models/person.ts:17-53 | a band member submitted with "1969" is accepted and serialises with `year_joined` equal to 1969 |
| `PersonSchema.NonMemberYearRejected` | src/models/person.ts:28-32 | a person who is not a band member, submitted with "1969", fails validation |
| `Database.InitialDbState` | src/config/database.ts:8-10 | the cached flag starts false |
| `Database.RequireEnv` | src/config/database.ts:18-22 | an unset or empty variable fails with "Missing env var: " and its name; otherwise its value is returned |
| `Database.ConnectStep` | src/config/database.ts:23-44 | a true flag or a connected driver short-circuits with no driver call and a true flag; a missing URI fails before any driver call; otherwise strict query mode then one connect, after which the flag is whether the driver is connected; failures keep their message |
| `Database.DisconnectStep` | src/config/database.ts:46-60 | a disconnected driver short-circuits with no driver call and the flag untouched; otherwise one disconnect, after which the flag is false on success; failures keep their message and the flag |
| `Database.ConnectTwiceAttemptsOnce` | src/config/database.ts:25-36 | after a connect whose driver reports connected, a second connect makes no driver call; so two connects in a row make at most one connection attempt |
| `Database.DisconnectIdempotent` | src/config/database.ts:48-53 | after a successful disconnect, a second one makes no driver call and changes nothing |
| `Database.StaleFlagSkipsReconnect` | src/config/database.ts:25-51 | with the flag true and the driver disconnected, disconnect keeps the flag and a following connect makes no driver call |
| `Database.ConnectionManager.constructor` | src/config/database.ts:8-10 | the manager starts with the flag false and no driver calls |
| `Database.ConnectionManager.ConnectDatabase` | src/config/database.ts:23-44 | the new flag, driver state, call list and outcome are those of `ConnectStep` |
| `Database.ConnectionManager.DisconnectDatabase` | src/config/database.ts:46-60 | the new flag, driver state, call list and outcome are those of `DisconnectStep` |
| `Lifecycle.PortFromEnv` | src/server.ts:7 | an unset or empty `PORT` gives 3000; every port read is non-negative |
| `Lifecycle.PortFromDecimal` | src/server.ts:7 | a port written in decimal, with or without surrounding whitespace, is read back as that number |
| `Lifecycle.StartupStep` | src/server.ts:32-43 | the server listens, on the port read from `PORT`, exactly when connect succeeds and `app.listen` accepts the port (0 to 65535); a failed connect or a refused port is caught and exits with code 1 without listening |
| `Lifecycle.StartupPortOutOfRange` | src/server.ts:7-41 | a decimal `PORT` above 65535 makes a startup whose connect succeeded exit with code 1, still connected and never listening |
| `Lifecycle.StartupDefaultPort` | src/server.ts:7-37 | with `PORT` unset or empty, a successful startup listens on 3000 |
| `Lifecycle.StartupWithoutUri` | src/server.ts:32-43 | with `MONGODB_URI` unset, startup exits with code 1 before any driver call and never listens |
| `Lifecycle.Finish` | src/server.ts:65-73 | every shutdown path sets the exit code, then flushes, then waits 50 ms |
| `Lifecycle.ShutdownStep` | src/server.ts:51-75 | a shutdown already begun does nothing; otherwise the flag is set; exit code 0 exactly when close (if any) and disconnect succeed; a failed close skips the disconnect |
| `Lifecycle.ShutdownOrder` | src/server.ts:51-75 | the trace begins with the trigger's name; close happens exactly when there is a server and before the disconnect; disconnect is skipped exactly when the close failed; it ends with exit code, flush, wait |
| `Lifecycle.SignalName` | src/server.ts:78-95 | each of the four handlers passes its own name, and the names are distinct |
| `Lifecycle.RunTriggers` | src/server.ts:78-95 | after a sequence of triggers the trace has only grown, the process is shutting down exactly when it was or some trigger arrived, and the server and exit status are unchanged |
| `Lifecycle.TriggersAfterShutdownIgnored` | src/server.ts:52-53 | once shutting down, any number of further triggers leaves the state unchanged |
| `Lifecycle.ShutdownAtMostOnce` | src/server.ts:78-95 | any sequence of triggers has the effect of the first one's shutdown alone |
| `Lifecycle.Process.constructor` | src/server.ts:7-20 | the process starts with `shuttingDown` false, no server, no exit code and an empty trace, and keeps the `PORT` text read at load |
| `Lifecycle.Process.Startup` | src/server.ts:32-43 | the process state afterwards is `StartupStep` of the state before |
| `Lifecycle.Process.GracefulShutdown` | src/server.ts:51-75 | the process state afterwards is `ShutdownStep` of the state before |
| `Lifecycle.Process.OnTrigger` | src/server.ts:78-95 | SIGTERM, SIGINT, uncaughtException and unhandledRejection all run the same guarded shutdown, under their own names |

## Left out

- Mongoose's schema machinery is left out: the unique and text indexes, the `sv` collation, the partial-filter uniqueness of `ipi_number`, timestamps, model registration and `createTyped` (src/models/person.ts:63-82). The database and the ORM enforce these.
- The required string checks on `first_name` and `sur_name` are Mongoose built-ins and are not modelled.
- PersonSchema.CastYearJoined: spells out only Mongoose's cast of a date, null, undefined and the empty string. Every other value the setter passes through (for example a number taken as milliseconds, or a date string parsed) is cast by the parameter `castOther`, which may give a date, an empty path or a cast error.
- Number inputs to the setter are integers only. Fractional numbers, NaN, infinities and exponent notation in `String(n)` are left out.
- An explicit `year_joined: null` is stored as absent. The model cannot tell a null path from an absent one; the declared type `year_joined?: Date` has no null either.
- The `id` virtual that `virtuals: true` adds before the transform is left out. The transform overwrites `id` anyway.
- Lifecycle.PortFromEnv: does not model `Number` of signed, fractional, hexadecimal or exponent text, or NaN. It returns `None` for those.
- src/services/person.service.ts is a one-line call into Mongoose (`updateOne`) and is not part of this model. src/models/model.types.ts holds only type declarations; its `PersonDoc` is mirrored by `PersonSchema.PersonDoc`, except that `createdAt` and `updatedAt` are left out with the timestamps.
- Lifecycle.StartupStep: `PORT` text whose `Number` value is not modelled (`None` from `PortFromEnv`) is treated as a port `app.listen` refuses. That is right for NaN, negative and fractional values, but `Number` also reads "-0", hexadecimal and exponent forms of legal ports, which Node would accept.
- Only the synchronous bad-port error of `app.listen` is modelled. Errors it reports later as events (an address in use) do not reach the `catch` and are not modelled.
- Express, cors, the `/health` route, socket listen and close, the stdout flush, the timer and the exit-code logger are I/O. They appear only as trace events.
- Log lines and their text are not modelled.
- Lifecycle.ShutdownStep: does not stop at an earlier `process.exit(1)` from a failed startup. In Node no trigger arrives after that exit; in the model a later call still runs the shutdown.
- The error message texts of validation failures are not modelled; the two failures are told apart by kind.
- The event loop's interleaving is not modelled. Triggers and startup are sequential calls. The guard is tested and set before the first suspension point, so sequential calls keep the at-most-once behaviour. A shutdown that overlaps a startup still in progress is not modelled.
- The driver's ready-state numbering beyond connected and disconnected is folded into `Other`.
- `mongoose.set('strictQuery', true)` is recorded as a driver call (`SetStrictQuery`). Its effect on queries is not modelled.
