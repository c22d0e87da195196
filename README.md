# User store service, modelled in Dafny

This project models the request-handling core of a small HTTP service (`server.js`).
The service keeps an in-memory, append-only list of user records and has three handlers:

- `POST /api/register` checks the `name` field of the body against two rules.
  The rules are "alphabetic only", then "length between 2 and 50".
  If any rule fails, it answers 400 with one error per failing rule, in declaration order, and the store is left as it was.
  Otherwise it appends the whole body to the store and echoes the stored record.
- `POST /api/login` checks `userID` against two rules.
  The rules are "numeric", then the custom "existing user" rule (`!!users[value]`).
  If any rule fails, it answers 400 with the error list.
  Otherwise it answers with the record at that position.
  Login never changes the store.
- `GET /api` always answers `{version: "1.0.0"}`.

Files:

- `wrappers.dfy`: an `Option` datatype.
- `values.dfy`: the values a JSON body carries (`Text`, `Number`), and records as maps from field name to value.
  It also holds the two ways the code turns a value into text.
  The validators convert an absent value to `""`.
  The lookup `users[value]` uses JavaScript's property key: an absent value becomes `"undefined"` and a number becomes its decimal numeral.
  Last, it states which keys name an array index and proves that printing and parsing a position are inverse.
- `validation.dfy`: the declarative field check.
  A field has a list of rules, each with an optional message of its own, and a field-level message.
  Every rule runs, and each failing rule adds one error with its own message, or the field's message if it has none.
- `server.dfy`: the messages and the two rule sets; the `UserStore` class (its `users` field is the module-level array); `Register` (modifies the store) and `Login` (reads only); the version handler.
  It also has a request-trace model (`Step`, `Respond`, `Run`, `RegisterRequests`) for properties about sequences of requests, and `TestSuite`, which replays the repository's request tests against a fresh store.

Assumptions about the validator library, whose code is not part of this model:

- `isAlpha` accepts a non-empty string of ASCII letters.
- `isLength` counts characters. A Dafny `char` is a Unicode scalar value.
- `isNumeric` accepts an optional `+` or `-` followed by one or more decimal digits.
- A validator sees an absent field as `""`, and a number as JavaScript's `String(n)`.
  Numbers are limited to the safe integers (absolute value at most 2^53 - 1), where `String(n)` is the plain decimal numeral.

The existence rule is modelled as "the key names an occupied slot".
Every stored record is a JSON object and so truthy.
A slot is named only by a canonical decimal key (`"0"`, `"1"`, …); `"01"`, `"+1"` and `"-0"` name other properties.
This is narrower than `!!users[value]`: properties the array inherits (`"constructor"`, `"push"`, `"__proto__"`, and `"length"` once the store is non-empty) are truthy too (see "## Left out").

Both login rules always run (server.js:55-63).
A missing or non-numeric `userID` therefore gets two errors: the numeric error, then the does-not-exist error (`Server.LoginNotNumeric`).
The tests read only `errors[0]` (tests.spec.js:90, 102).

## Model

| member | source | states |
|---|---|---|
| Values.ParseIndexExactly | server.js:15-17 | a property key parses to position n if and only if it is exactly the decimal numeral of n (both directions) |
| Values.DigitsValueOfDigits | server.js:16 | reading back the numeral of a natural number gives the number |
| Values.DigitsOfDigitsValue | server.js:16 | a canonical numeral is the numeral of the number it denotes |
| Values.NumberKeyIndex | server.js:16 | the key of a JSON number names a position exactly when the number is non-negative, and then names that same number |
| Values.DecimalTextIsNumeric | server.js:57 | every safe integer sent as a JSON number passes the numeric rule |
| Values.IndexKeyIsNumeric | server.js:15-17 | any value whose key names a position also passes the numeric rule, so the existence rule never succeeds without it |
| Validation.UserIndex | server.js:15-17 | the position `users[value]` reads, when there is one, lies inside the store |
| Validation.Validate | server.js:30-41 | never more errors than rules; no errors exactly when every rule holds; every error names the checked field |
| Validation.ValidateOne | server.js:30-39 | a single rule reports its error exactly when it fails, and nothing otherwise |
| Validation.ValidateConcat | server.js:30-41 | the errors of a rule list are those of its first part followed by those of the rest, so every failing rule contributes its own error in declaration order |
| Validation.FirstErrorIsFirstFailure | server.js:30-41 | the first error reported is the error of the first failing rule in declaration order |
| Validation.ValidateTwo | server.js:30-39 | a two-rule field reports the first rule's failure, then the second's |
| Server.RegisterErrors | server.js:30-41 | registration errors are the alphabetic error (if that rule fails) followed by the length error (if that rule fails); none exactly when the name is alphabetic with length 2..50 |
| Server.LoginErrors | server.js:55-65 | login errors are the numeric error (if that rule fails) followed by the does-not-exist error (if no occupied slot is named) |
| Server.LoginOutcome | server.js:54-74 | login succeeds exactly when `userID` names an occupied position, and then returns the record stored there; otherwise it returns the non-empty error list |
| Server.Version | server.js:22-26 | the version handler always succeeds with a record holding only `version`, equal to "1.0.0" |
| Server.UserStore.constructor | server.js:7 | the store starts empty |
| Server.UserStore.Register | server.js:29-52 | succeeds exactly when the name is valid; on success it appends exactly the body at position old length and echoes it; on failure it returns the non-empty errors and leaves the store unchanged |
| Server.UserStore.Login | server.js:54-74 | returns the login outcome for the current store; it has no modifies clause, so the store is unchanged |
| Server.RegisterTooShort | tests.spec.js:43-53 | the name "J" gives exactly one error, the length message |
| Server.RegisterNonAlphabetic | tests.spec.js:55-65 | the name "J0$#" gives exactly one error, the alphabetic message |
| Server.RegisterMissingName | tests.spec.js:33-41 | a body without a name gives both errors, alphabetic first |
| Server.RegisterNumberName | server.js:32 | a name sent as a JSON number (a safe integer) always fails, with the alphabetic message first |
| Server.RegisterAppends | server.js:49-51 | a valid registration responds with the body and the store becomes the old store plus that body |
| Server.LoginNotNumeric | server.js:56-62 | a missing or non-numeric `userID` gives the numeric error followed by the does-not-exist error |
| Server.LoginByNumber | server.js:73 | a `userID` sent as a JSON number n (a safe integer) returns `users[n]` when 0 <= n < size, and otherwise only the does-not-exist error |
| Server.LoginByText | server.js:15-17 | a string `userID` names position i exactly when it is the canonical numeral of i and i < size |
| Server.RunAppendOnly | server.js:49 | after any sequence of requests, the earlier store is a prefix of the new one |
| Server.LoginAfterRun | server.js:73 | a position occupied once is still found by login, with the same record, after any later requests |
| Server.RegisterAll | server.js:49 | registering valid bodies one after another stores exactly those bodies, in order, after the old ones |
| Server.RegisteredPositions | server.js:49-73 | after N valid registrations into an empty store, login with 0..N-1 returns those bodies and login with N reports that the user does not exist |
| Server.RunIgnoresReads | server.js:22-74 | the store after any sequence of requests equals the store after its registration requests alone, in order: logins and version requests interleaved anywhere change nothing |
| Server.TestSuite | tests.spec.js:7-121 | replaying the request tests in order against one fresh store gives the responses the tests expect |

## Left out

- HTTP wiring is not modelled: the Express app and router, mounting under `/api`, the JSON body parser, and sending the response. The status code is modelled as the `Response` tag (`Ok` is 200, `BadRequest` is 400).
- A body is modelled as a map from field name to a string or an integral number. Booleans, `null`, arrays, nested objects, fractional numbers, and a body that is a JSON array are not modelled.
- Numbers outside the safe-integer range are not modelled. For them JavaScript prints exponent form (`"1e+21"`) or `"Infinity"`, which the rules treat differently from a numeral.
- Values.DecimalTextIsNumeric: holds for the safe integers only; a JSON number of 1e21 or more prints as `"1e+21"` and fails the numeric rule.
- Server.LoginByNumber: covers safe integers only; for 1e21 or more the source reports the numeric error as well.
- Server.RegisterNumberName: covers safe integers only; a name beyond double range becomes `Infinity`, whose text passes both rules, so the source registers it.
- Validation.UserIndex: inherited array properties are not modelled. `users["constructor"]`, `users["push"]`, `users["__proto__"]`, and `users["length"]` once the store is non-empty, are truthy in the source, but the model finds no user for them. Those keys are not numeric, so login fails in both; only the error list differs.
- Server.LoginNotNumeric: for a non-numeric `userID` that names an inherited array property (such as `"constructor"`), the source reports only the numeric error; the model also reports the does-not-exist error.
- The validator library's internals are replaced by the stated predicates. The model does not claim to match every version of the library.
- Error entries carry the field name and the message. The library also copies the offending value into each entry; that copy is not modelled.
- `validationErrors()` returns `false` when nothing failed. The model uses an empty list for that case.
- Records are values. The code pushes the same body object it echoes; object identity is not modelled.
- The store as a JavaScript array is unbounded here. Array-length limits and index keys above the largest array index are not modelled.
- Concurrent requests are not modelled; requests are handled one at a time.
