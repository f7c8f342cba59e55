# Record rules of the miscarriage-testimony service

This project models the two Mongoose schemas in `Schemas.js` of the service
and proves what they promise.

- **Testimony.** A visitor submits a testimony. Building the document trims
  `name` and `story`. A left-out `name` becomes `"Anonymous"`, a left-out
  `post` (the moderation status) becomes `"pending"`, and a left-out
  `createdAt` takes the clock reading. Validation then checks every path:
  - `when_weeks` must be given and lie in 5..20.
  - `when_weeks_noticed`, when given, must lie in 5..25.
  - The trimmed `name` may have at most 30 UTF-16 code units.
  - The four enumerated paths must take one of their three values.
  - `post` must be one of `pending`, `approved` or `decline`.

  The document is stored only if no path fails. Otherwise the result names
  every failing path.
- **Moderator.** `password` and `email` are required, trimmed strings.
  `email` must also pass an email predicate. `accessToken` defaults to the
  hex text of 128 random bytes. The document tracks whether its password was
  modified since the last save. The `pre('save')` hook replaces the password
  by `hash(password, salt)` only when it was modified, so saving again does
  not hash the hash.

Module layout:

- `Wrappers`: `Option` and `Result`.
- `JsString`: JavaScript's `trim` and its UTF-16 `length`.
- `Hex`: Node's hex encoding of a byte buffer.
- `SchemaRules`: the Mongoose path options these schemas use, with their
  setter and validator meaning.
- `TestimonySchema`: the testimony rules, normalisation, validation and
  creation.
- `ModeratorSchema`: the moderator rules and the `ModeratorDocument` class
  with its pre-save hook.

The raw fields `when_weeks`, `physical_pain`, … are the Dafny fields
`whenWeeks`, `physicalPain`, ….

Mongoose behaviour the model relies on, as the library defines it:

- A setter (`trim`) runs when a value is assigned. Mongoose also runs it on a
  default, but both String defaults here (`"Anonymous"`, `"pending"`) have no
  whitespace to trim, so the model takes them as declared.
- A default applies only to a value that was left out.
- A required String fails on the empty string.
- `enum`, `min`, `max` and `maxlength` pass a value that was left out.
- `maxlength` compares JavaScript's `length`, which counts UTF-16 code units.
- Validation runs before the schema's own `pre('save')` hooks.
- A successful save clears the modified flags.
- Assigning a path on a saved document marks it modified only when the value
  changes.
- Validation reports every failing path, so the model returns the set of
  failing fields.

Foreign code and the environment are parameters:

- bcrypt's `hashSync` is `hash: (string, string) -> string`.
- `genSaltSync` is `genSalt: nat -> string`, called with cost 10.
- validator's `isEmail` is `isEmail: string -> bool`.
- `crypto.randomBytes(128)` is the `entropy` argument.
- The clock is the `now` argument of testimony creation.

Where the service's documented design and the code differ, the model follows the code:

- The status value is spelled `decline`, not `declined`.
  `DeclinedIsNotAState` shows that `"declined"` is rejected.
- The schema only supplies defaults for `post` and `createdAt`. A submission
  that gives `post: "approved"` or its own `createdAt` is stored with those
  values.
- `story` has no length bound. Its `maxlength` is commented out.
- `period_pain` is a boolean.
- An `accessToken` given at construction is kept. Only a missing one is
  generated.
- Password hashing is the save hook, not a separate step the caller takes.

## Model

| member | source | states |
|---|---|---|
| JsString.SkipForward | Schemas.js:11 | the index reached is the first non-whitespace one at or after the start, and everything skipped is whitespace |
| JsString.SkipBackward | Schemas.js:11 | the index reached is one past the last non-whitespace character before the end, and everything skipped is whitespace |
| JsString.TrimStart | Schemas.js:11 | drops exactly the longest whitespace prefix: what goes is all whitespace and what remains does not start with whitespace |
| JsString.TrimEnd | Schemas.js:11 | drops exactly the longest whitespace suffix |
| JsString.Trim | Schemas.js:11 | the trimmed string has whitespace at neither end and is no longer than the input |
| JsString.TrimSplits | Schemas.js:11 | the trimmed string is a slice of the input with only whitespace before and after it |
| JsString.TrimStartOfPadded | Schemas.js:11 | leading whitespace before a part that does not start with whitespace is exactly what trimming the start removes |
| JsString.TrimEndOfPadded | Schemas.js:11 | trailing whitespace after a part that does not end with whitespace is exactly what trimming the end removes |
| JsString.TrimOfPadded | Schemas.js:11 | whitespace around a trimmed core is exactly what trimming removes, so the split is unique |
| JsString.TrimIdempotent | Schemas.js:51 | trimming twice equals trimming once |
| JsString.TrimOfTrimmed | Schemas.js:51 | a string with whitespace at neither end is left as it is |
| JsString.TrimEmptyIff | Schemas.js:89 | trimming yields the empty string exactly when the input is all whitespace |
| JsString.Utf16Length | Schemas.js:10 | a string has between n and 2n UTF-16 code units, where n is its number of characters |
| JsString.CodeUnitsFrom | Schemas.js:10 | the suffix from index i has between n and 2n UTF-16 code units, where n is its number of characters |
| JsString.Utf16LengthOfBmp | Schemas.js:10 | a string of Basic Multilingual Plane characters has one code unit per character |
| JsString.BmpCodeUnitsFrom | Schemas.js:10 | a suffix of Basic Multilingual Plane characters has one code unit per character |
| Hex.Digit | Schemas.js:101 | each nibble becomes a lower-case hex digit |
| Hex.DigitValue | Schemas.js:101 | exactly the lower-case hex digits have a value below 16, and it inverts Digit |
| Hex.Encode | Schemas.js:101 | two hex digits per byte, nothing but hex digits |
| Hex.Decode | Schemas.js:101 | the inverse of the token's hex encoding (the source never decodes): a decoded buffer has half as many bytes as the text has characters; DecodeEncode uses it to show that the token keeps all 128 bytes |
| Hex.DecodeEncode | Schemas.js:101 | decoding the hex text gives back the bytes |
| Hex.EncodeInjective | Schemas.js:101 | distinct random bytes give distinct tokens |
| SchemaRules.CastString | Schemas.js:8-14 | a path holds a value iff one was given or it has a default; a trimmed path holds exactly the trimmed given value, which has whitespace at neither end; an untrimmed path holds the given value or else the default |
| TestimonySchema.Normalise | Schemas.js:7-69 | name is the trimmed given name or "Anonymous"; story is trimmed when given; post defaults to "pending"; createdAt defaults to now; every other path is kept as given |
| TestimonySchema.Faults | Schemas.js:7-69 | when_weeks fails iff missing or outside 5..20; when_weeks_noticed fails iff given and outside 5..25; name fails iff over 30 code units; story, the booleans and createdAt never fail |
| TestimonySchema.RestrictedPathFaults | Schemas.js:27-68 | each enumerated path fails iff given and outside its three values; post fails iff outside its three states |
| TestimonySchema.Create | Schemas.js:7-72 | every stored testimony satisfies the schema invariant (trimmed name of at most 30 code units, when_weeks in 5..20, when_weeks_noticed in 5..25 if given, the enumerations, a trimmed story, post among the three states); a submission is rejected on when_weeks iff its when_weeks is missing or outside 5..20; a rejection names at least one path |
| TestimonySchema.RejectedAreFaults | Schemas.js:7-72 | the paths a creation rejects are exactly the failing paths of the normalised document |
| TestimonySchema.WhenWeeksRequiredInRange | Schemas.js:15-20 | a submission is rejected for when_weeks iff it is missing or outside 5..20, so every stored one has it in range |
| TestimonySchema.WhenWeeksNoticedOptionalInRange | Schemas.js:21-26 | rejected for when_weeks_noticed iff it is given and outside 5..25 |
| TestimonySchema.NameTrimmedDefaultedBounded | Schemas.js:8-14 | rejected for name iff a given name is over 30 code units after trimming; a stored name is the trimmed given one or "Anonymous" |
| TestimonySchema.EnumPathsRestricted | Schemas.js:27-45 | physical_pain, mental_pain, period_volume and period_length are each rejected iff given outside their three values |
| TestimonySchema.PostDefaultedAndRestricted | Schemas.js:64-68 | rejected for post iff a given status is not pending, approved or decline; a stored status is the given one or "pending" |
| TestimonySchema.DeclinedIsNotAState | Schemas.js:66 | a submission with status "declined" is rejected for post |
| TestimonySchema.FaultsIgnoreStory | Schemas.js:49-55 | no validator depends on the story |
| TestimonySchema.StoryLeavesFaults | Schemas.js:49-55 | a submission with any story fails on the same paths as without one |
| TestimonySchema.StoryUnbounded | Schemas.js:49-55 | a story of any length never changes acceptance, and a stored story is the given one trimmed |
| TestimonySchema.NormaliseFixesValid | Schemas.js:7-69 | normalising a valid document changes nothing |
| TestimonySchema.PassingIsValid | Schemas.js:7-69 | a normalised document that passes every validator satisfies the schema invariant |
| TestimonySchema.PassingShape | Schemas.js:8-26 | such a document has a trimmed name of at most 30 code units, when_weeks in 5..20, when_weeks_noticed in 5..25 if given, and a trimmed story |
| TestimonySchema.PassingRestricted | Schemas.js:27-68 | a document that passes every validator holds only listed values on the enumerated paths and on post |
| TestimonySchema.ValidHasNoFaults | Schemas.js:7-69 | a document satisfying the schema invariant passes every validator |
| TestimonySchema.ResubmitIsIdentity | Schemas.js:7-69 | resubmitting a document stores it unchanged iff it satisfies the schema invariant |
| ModeratorSchema.Faults | Schemas.js:85-98 | password fails iff missing or empty; email fails iff missing, empty or rejected by the email predicate |
| ModeratorSchema.InitialToken | Schemas.js:99-102 | a given token is kept; otherwise the token is 256 lower-case hex digits that decode to the 128 random bytes |
| ModeratorSchema.NewDocumentFaults | Schemas.js:85-98 | a new document fails on a password that is missing or all whitespace, and on an email that is missing, all whitespace, or not an email once trimmed |
| ModeratorSchema.ModeratorDocument.constructor | Schemas.js:76-103 | given password and email are trimmed; the token comes from InitialToken; the document is new and its password counts as modified exactly when one was given |
| ModeratorSchema.ModeratorDocument.SetPassword | Schemas.js:85-91 | stores the trimmed password; marks it modified if it already was, if the document is new, or if the value changes |
| ModeratorSchema.ModeratorDocument.PreSave | Schemas.js:105-117 | if the password is modified it becomes hash(old password, genSalt(10)), put through the path's trim setter; otherwise nothing changes; no other field is touched |
| ModeratorSchema.ModeratorDocument.Save | Schemas.js:105-117 | returns the validation faults; on failure nothing changes; on success the password is the trimmed hash if it was modified and unchanged otherwise, email and token are unchanged, and the document is neither new nor modified |
| ModeratorSchema.SaveTwice | Schemas.js:105-117 | two saves without a password change hash at most once (the stored password is the trimmed hash of the first one, or unchanged), keep the token, and a failed first save leaves the document as it was |

## Left out

- `server.js`: the Express setup, CORS and JSON middleware, the Mongo connection and its readiness check, the hello-world route and `listen`. All of it is transport and I/O.
- Login, registration, token checks, listing and pagination: `server.js` defines no such routes (its only route is the hello-world one), so no code for them is in the source.
- The `unique: true` index on `email`: the database enforces it, not this code.
- The internals of bcrypt, `crypto.randomBytes` and `isEmail`: they are parameters, as above.
- The `createdAt` default `new Date()`: the clock reading is the `now` parameter, and a timestamp is an integer.
- Mongoose casting: a submitted value of the wrong JSON type, or a non-integer number, is not modelled. Every raw path already has its declared type, and JSON `null` is treated as a left-out value.
- Strict mode dropping unknown keys: a raw record has only the schema's paths.
- The validator messages (`'a password is required'`, `'invalid email'`): a failure names only the path.
- Lone UTF-16 surrogates: a JavaScript string may hold one (a JSON `"\ud800"` escape, say), and `length` counts it as one code unit. A Dafny `string` holds only Unicode scalar values, so such strings cannot be submitted to the model.
- ModeratorSchema.ModeratorDocument.Save: the database write always succeeds. A write that fails after the hook has run, such as a duplicate email rejected by the unique index, has no outcome in the model.
- The asynchronous `next()` callback of the hook: `PreSave` and `Save` are plain methods.
- SchemaRules.CastString: does not run the `trim` setter on a default, as Mongoose does; both String defaults here have no surrounding whitespace, so no stored value differs.
- The commented-out rules (`username`, the regular-expression validators, `story` maxlength 1000, `hearts`) and the old `Message` model: none of them is in effect.
