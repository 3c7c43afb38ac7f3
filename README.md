# Uptime-monitor API core in Dafny

This project models the logic of a Node.js tutorial backend for uptime monitoring. The backend is a pair of
HTTP/HTTPS servers. They route each request by its path to a handler, and the handler answers with a status
code and a JSON payload. The only domain operation the repository implements is user registration
(`POST /users`). The model covers that operation and what surrounds it:

- **Handlers** (`lib/handlers.js`). The `users` method gate accepts `post`, `get`, `put` and `delete` and answers
  405 to everything else. `_users.post` validates five payload fields, reads the `users` record for the phone
  number and creates it when the read fails. `ping` and `notFound` always answer the same way.
- **Record store** (`lib/data.js`, whose code is not part of this model). It is a map from (collection, key) to a
  JSON value. `Read` fails on an absent key. `Create` never overwrites an existing record.
- **Helpers** (`lib/helpers.js`). `hash` is an HMAC-SHA256 with a fixed key behind a guard for empty and
  non-string input. `createRandomString` draws characters from a 36-character alphabet. `parseJsonToObject`
  never throws.
- **Logs** (`lib/logs.js`). The filename filter of `list`, and `append`, `truncate`, `compress` and `decompress` as
  operations on a class whose field maps file names to contents.
- **Server** (`lib/server.js`). Path normalization, router lookup with the `notFound` fallback, lowercasing of the
  method, defaulting of status and payload, and the whole request pipeline as one method.
- **Config** (`config.js`). The staging and production settings, and the case-insensitive choice between them
  through `NODE_ENV`.

JavaScript values are the datatype `Json.Value`. Numbers are `real`. `typeof`, truthiness and property access are
spelled out, and so are the string functions the code uses (`trim`, UTF-16 `length`, `indexOf`, `replace` with a
string pattern). Each handler ends in one of three ways: it calls back, it never calls back, or it throws
(`Handlers.Outcome`). A throw inside a callback kills the Node process, and the server model reports it as
`ProcessCrash`.

The model follows what the code does, including where that is not what an uptime monitor would be expected to do:

- There are no sessions, checks, quotas or cascading deletes; no handler implements them.
- A new account holds exactly five fields (no check list), and a duplicate phone number is answered with 400.
- The router names `tokens` and `checks`, but `handlers.tokens` and `handlers.checks` are never defined. Both paths
  therefore fall back to `notFound` (404).
- The comment at `lib/server.js:87` speaks of "multiple slashes". The regular expression removes every slash, so
  `/a/b` becomes `ab`.
- `_users` defines only `post`. `get`, `put` and `delete` pass the method gate and then call an undefined
  function, which throws a TypeError.
- A body that parses to `null` makes `data.payload.firstName` throw a TypeError.

The one exception is the registration itself. As written, `lib/handlers.js` calls `helpers.hash` without ever
requiring `./helpers`, so every valid registration of a new phone number throws (see "## Findings").
`Handlers.PostEffectAsWritten` models that code as written. `Handlers.PostEffect` models the handler with the
missing `require` restored, and `Handlers.Post`, `Handlers.UsersEffect`, `Handlers.Users` and
`Server.HandleRequest` are built on that corrected handler.

Environment inputs are parameters of the operations:

- I/O failures are fault flags (`readFault`, `createFault`, `Logs.Faults`).
- The HMAC is a function `(key, message) -> 64 hex digits`.
- `JSON.parse` is a partial function that never yields `undefined` and rejects the empty text.
- gzip+base64 and its inverse are the functions `pack` and `unpack`.
- The directory listing of `fs.readdir` is a parameter.
- `Math.random()` is a nondeterministic choice in [0, 1).

## Model

| member | source | states |
|---|---|---|
| `Text.Trim` | lib/handlers.js:36-39 | `trim()` leaves no white space at either end and takes out only white space around a contiguous middle part |
| `Text.TrimUnique` | lib/handlers.js:36-39 | independent characterisation: the only trimmed string that the input holds between white space alone is `Trim` of it |
| `Text.TrimIdempotent` | lib/handlers.js:36-39 | trimming a trimmed value changes nothing |
| `Text.TrimOfTrimmed` | lib/handlers.js:36-39 | a string without white space at its ends is its own trim |
| `Text.Utf16Length` | lib/handlers.js:36-39 | `.length` counts 1 to 2 UTF-16 units per character, so `trim().length > 0` holds exactly for a non-empty trim |
| `Text.Utf16LengthBmp` | lib/handlers.js:38 | for text inside the Basic Multilingual Plane, `.length` is the number of characters |
| `Text.AsciiLower` | lib/server.js:94 | `toLowerCase()` keeps the length, moves each capital ASCII letter to its small letter and leaves every other character as it is |
| `Text.AsciiLowerIdempotent` | lib/server.js:94 | lowercasing a lowercased method or environment name changes nothing |
| `Text.Contains` | lib/logs.js:54-58 | `indexOf(pat) > -1` holds exactly when `pat` occurs at some position of the name |
| `Text.IndexOf` | lib/logs.js:54 | `indexOf` finds the first occurrence, and it finds none exactly when the pattern does not occur |
| `Text.RemoveFirst` | lib/logs.js:55 | `replace(pat, '')` removes one occurrence, the first: the result is shorter by the pattern, and re-inserting the pattern at the first index gives back the input |
| `Json.TypeOf` | lib/handlers.js:36-40 | `typeof` names the kind of value, with `null` and arrays reported as `'object'` |
| `Json.Truthy` | lib/handlers.js:42-52 | every value is truthy except `undefined`, `null`, `false`, `0` and `''` |
| `Json.Property` | lib/handlers.js:36-40 | reading a property of `null` or `undefined` throws; an object's own property reads as its value; a property it lacks, and the registration fields on a primitive or array, read as `undefined` |
| `Config.CurrentEnvironment` | config.js:28 | a `NODE_ENV` that is not a string gives the empty name; a string gives its lowercased form |
| `Config.EnvironmentToExport` | config.js:31 | the result is staging or production; production exactly when the lowercased `NODE_ENV` is `production`; staging when `NODE_ENV` is not a string; `maxChecks` is 5 and `httpsPort = httpPort + 1` |
| `Config.SelectionIgnoresCase` | config.js:28-31 | `PRODUCTION` selects production and `Staging` selects staging |
| `Config.UnknownNameFallsBack` | config.js:31 | any name other than `production`, after lowercasing, selects staging |
| `Config.PortsDistinct` | config.js:7-25 | the two environments use four different ports |
| `Helpers.Hash` | lib/helpers.js:14-21 | the result is truthy exactly for a non-empty string; it is then the 64-digit keyed digest of that string under the fixed key, otherwise `false` |
| `Helpers.ParseJsonToObject` | lib/helpers.js:23-30 | never throws; text that does not parse, the empty body included, gives `{}`, and parsed text gives the parsed value; never `undefined` |
| `Helpers.PossibleCharacterIsAscii` | lib/helpers.js:37 | every character of the alphabet is ASCII, so each takes one UTF-16 unit |
| `Helpers.CreateRandomString` | lib/helpers.js:33-50 | `false` exactly when the length is not a positive number; otherwise a string of `floor(n)` characters, each from `a-z0-9`, whose `.length` is the same |
| `Data.Store.Read` | lib/handlers.js:45 | succeeds exactly when the record exists and no I/O fault occurs, and then returns the stored document; fails with not-found when it is absent |
| `Data.Store.Create` | lib/handlers.js:63 | succeeds exactly when the key is absent and no I/O fault occurs; on success it inserts only that record; on failure nothing changes |
| `Handlers.NonEmptyTrimmed` | lib/handlers.js:36-39 | `firstName`, `lastName` and `password` are accepted exactly when they are strings with a non-empty trim, and the trimmed value is kept |
| `Handlers.PhoneNumber` | lib/handlers.js:38 | `phone` is accepted exactly when it is a string whose trimmed `.length` is 10; the trimmed value is kept and has 5 to 10 characters |
| `Handlers.PhoneNumberOfBmpText` | lib/handlers.js:38 | for text inside the Basic Multilingual Plane, the phone is accepted exactly when its trim has ten characters |
| `Handlers.TosAccepted` | lib/handlers.js:40 | `tosAgreement` is accepted exactly when it is the boolean `true`; `"true"` and `1` are refused |
| `Handlers.Validate` | lib/handlers.js:36-42 | a registration is valid exactly when all five checks pass, and it carries the trimmed first name, last name, phone and password |
| `Handlers.UserRecord` | lib/handlers.js:54-60 | the stored user has exactly the keys firstName, lastName, phone, hashedPassword and tosAgreement, and no `password`; they hold the validated names and phone, the digest, and `true` |
| `Handlers.TrimmedNameAccepted` | lib/handlers.js:36-39 | a trimmed non-empty name is accepted unchanged |
| `Handlers.TenCharacterPhoneAccepted` | lib/handlers.js:38 | a trimmed ten-character phone number is accepted unchanged |
| `Handlers.RegistrationPayloadFields` | lib/handlers.js:36-40 | the five fields of a registration body read back as the values it was built from |
| `Handlers.TrimmedPayloadAccepted` | lib/handlers.js:36-42 | a body of trimmed fields with `tosAgreement: true` validates to exactly those fields |
| `Handlers.PostEffect` | lib/handlers.js:33-81 | a `null` body throws. Invalid fields give 400 "Missing required fields". An existing record that reads without fault gives 400 "already exists". A failed create gives 500. A valid body for a new phone with no create fault gives 200. The store changes only on 200, where it gains just the new phone's record, holding the HMAC of the trimmed password. The branch that never calls back cannot be reached |
| `Handlers.PostEffectAsWritten` | lib/handlers.js:33-81 | as written (no `helpers` binding), `_users.post` never changes the store, and it agrees with the corrected handler except where it throws at the `helpers.hash` call |
| `Handlers.RegistrationCrashesAsWritten` | lib/handlers.js:49 | every valid registration of a new phone throws as written, and the corrected handler answers it with 200 |
| `Handlers.DuplicateRegistrationRefused` | lib/handlers.js:45-76 | after a successful registration, a second valid one with the same phone gives 400 and leaves the store as the first left it |
| `Handlers.Post` | lib/handlers.js:33-81 | the imperative handler, with the `helpers` binding restored, reads and creates through the store and has exactly the effect `PostEffect` describes |
| `Handlers.UsersEffect` | lib/handlers.js:15-25 | a method outside post/get/put/delete gives 405 and leaves the store alone; get/put/delete throw and leave it alone; post is the corrected `PostEffect` |
| `Handlers.Users` | lib/handlers.js:15-25 | the imperative gate has exactly the effect `UsersEffect` describes |
| `Handlers.Ping` | lib/handlers.js:85-87 | always status 200 with no payload |
| `Handlers.NotFound` | lib/handlers.js:90-92 | always status 404 with no payload |
| `Logs.Contribution` | lib/logs.js:54-60 | an entry adds one name per suffix it contains, the `.log` name first: its name minus the first `.log`, then, only with compressed logs, its name minus the first `.gz.b64`. Nothing else is added |
| `Logs.TrimmedNames` | lib/logs.js:51-61 | the contributions of the entries in directory order; without compressed logs no longer than the listing, with them at most twice as long |
| `Logs.TrimmedNamesSnoc` | lib/logs.js:52-61 | one more entry appends its contribution at the end of the list |
| `Logs.PushFileName` | lib/logs.js:52-61 | the `forEach` callback appends exactly the entry's contribution to the names pushed so far |
| `Logs.TrimFileNames` | lib/logs.js:51-61 | the loop over the listing builds exactly `TrimmedNames` of it |
| `Logs.TrimmedNamesConcat` | lib/logs.js:51-61 | the list of a concatenated listing is the concatenation of the lists, so output order follows directory order |
| `Logs.ListedNameHasSource` | lib/logs.js:51-61 | every output name comes from some entry by one of the two rules, so entries with neither suffix are dropped |
| `Logs.ContributionListed` | lib/logs.js:51-61 | whatever an entry contributes appears in the output |
| `Logs.LogEntryListed` | lib/logs.js:54-56 | every entry containing `.log` appears with its first `.log` removed |
| `Logs.ArchiveEntryListed` | lib/logs.js:58-60 | with compressed logs, every entry containing `.gz.b64` appears with its first `.gz.b64` removed |
| `Logs.List` | lib/logs.js:48-67 | a failed `readdir` is passed on as `(err, undefined)` and an empty listing as it came; otherwise the reply carries the filtered, trimmed list |
| `Logs.LogDir.Append` | lib/logs.js:22-44 | `file.log` ends up with its previous contents (empty if absent) followed by `str + "\n"`, and no other file changes; an open fault changes nothing; each failing step reports its own message |
| `Logs.LogDir.Truncate` | lib/logs.js:138-146 | an existing `logId.log` becomes empty and nothing else changes; a missing file or an I/O error changes nothing and reports "Error truncating file" |
| `Logs.LogDir.Compress` | lib/logs.js:71-111 | step by step: a missing, unreadable or empty source, a gzip failure, and an open failure or existing destination (`'wx'`) each report their own message and write nothing. A write failure leaves `newFileId.gz.b64` created empty. A close failure leaves it holding the packed source but reports an error. Success means exactly that no step failed. No other file changes |
| `Logs.LogDir.Decompress` | lib/logs.js:115-134 | a missing or empty archive fails with "Error reading the compressed file", text `unpack` rejects fails with "Error decompressing file", and success returns the unpacked contents |
| `Server.NormalizePath` | lib/server.js:88 | the result holds no `/`, and every other character keeps its number of occurrences |
| `Server.NormalizeConcat` | lib/server.js:88 | normalization works piece by piece and keeps the order of the remaining characters |
| `Server.NormalizeSlashFree` | lib/server.js:88 | a path without slashes is unchanged |
| `Server.NormalizeIdempotent` | lib/server.js:88 | normalizing twice equals normalizing once |
| `Server.InteriorSlashesRemoved` | lib/server.js:87-88 | `/a/b` becomes `ab` and `//users/` becomes `users`: every slash goes, not only repeated ones |
| `Server.ChooseHandler` | lib/server.js:111 | `ping` selects the ping handler and `users` the users handler; every other path, `tokens` and `checks` included, selects `notFound` |
| `Server.DefaultResponse` | lib/server.js:113-114 | a number status is kept and anything else becomes 200; a payload whose `typeof` is `'object'`, `null` included, is kept and anything else becomes `{}` |
| `Server.DefaultResponseIdempotent` | lib/server.js:113-114 | defaulting an already defaulted response changes nothing |
| `Server.Serve` | lib/server.js:112-121 | a callback is written as the defaulted response; a handler that never calls back sends nothing; a throw ends the process |
| `Server.HandleRequest` | lib/server.js:80-146 | over the corrected registration handler: `ping` sends 200 `{}` and any unknown path sends 404 `{}`, neither touching the store. `users` with an unsupported method sends 405 `{}` and leaves the store alone. Otherwise the users handler runs on the lowercased method and the parsed body |

## Left out

- HTTP/HTTPS server creation, TLS key loading, `listen`, body streaming through the string decoder, response writes and debug logging (lib/server.js:65-77, 100-108, 116-128, 149-159). These are I/O. At lib/server.js:76 the HTTPS server calls a bare `unifiedServer`, which is undefined, so every HTTPS request would throw. That is also I/O plumbing and is not modelled.
- index.js and assignments/assignment1.js are standalone servers. index.js repeats the normalization of lib/server.js:88.
- lib/data.js is not part of this model. The store is an abstract map with the two operations the handler calls. A read failure of an existing record (an unreadable or corrupt file) is the `readFault` flag.
- The real behaviour of `fs`, `zlib` and base64. `pack`, `unpack` and the fault flags stand in for it. File names are map keys, so the joining of the base directory and the name is not modelled.
- HMAC-SHA256 and the distribution of `Math.random()`: a function parameter and a nondeterministic choice.
- The grammar of `JSON.parse`. Only two facts of it are used: it never yields `undefined`, and the empty text does not parse.
- The Twilio settings, which are read from the process environment.
- The JavaScript prototype chain. `environments['__proto__']`, `server.router['constructor']` and properties inherited by payload objects are not modelled. Tables and objects hold only their own keys.
- Text.AsciiLower: `toLowerCase` is modelled on ASCII letters only. Node's HTTP parser delivers methods as upper-case ASCII tokens. For `NODE_ENV`, no non-ASCII character lowercases into a one-character letter of `staging` or `production`, so the selection is the same.
- `NaN` and the infinities. `createRandomString(NaN)` returns `false`. `createRandomString(Infinity)` keeps appending until the engine's string-length or heap limit throws or stops the process. Neither is modelled. Strings with lone UTF-16 surrogates cannot be written as Dafny strings.
- The order of asynchronous callbacks, and concurrent requests. Each request runs to completion as one method call.
- Tokens, checks, quotas and cascading deletes. No handler implements them.
- Handlers.Post: the contract says that invalid input leaves the store unchanged. It does not say that the store is never read; only the method body shows that.
- Json.Property: strings and arrays own `length` and their indices, which it does not give. The handlers read only the five registration fields, which no primitive or array owns.
- Logs.LogDir.Append: a failed append is modelled as writing nothing. A partially written string is not modelled.
- Logs.List: `_logs.list` reports success with `false` for a non-empty listing and with `null` for an empty one. The model maps both to `None`.

## Findings

| source | as written | input that shows it | evidently intended | confidence | as-written member | corrected member |
|---|---|---|---|---|---|---|
| lib/handlers.js:49 | `helpers.hash(password)` is called, but the module never requires `./helpers`. The call throws a ReferenceError inside the store-read callback, and that kills the process. | `POST /users` with body `{"firstName":"Ada","lastName":"Lovelace","phone":"5551234567","password":"secret","tosAgreement":true}` when no user has that phone | `const helpers = require('./helpers');`: the password is hashed, the user is created and the answer is 200 | high; not executed | `Handlers.RegistrationCrashesAsWritten` | `Handlers.PostEffect` |
