# Registration form: validator and submit gate

This project models the logic of a single React registration page
(`components/form/index.jsx`): the eight-field form record and its change
handler, the validator that turns the record into a dictionary from field
name to message, and the submit handler's decision to either show those
messages or clear them and send the record to the server.

- `text_patterns.dfy`, module `TextPatterns`: JavaScript's `trim()` and the
  three regular expressions the validator uses (`/^\d{10}$/`,
  `/\S+@\S+\.\S+/`, `/(?=.*\d)(?=.*[a-z])(?=.*[A-Z]).{8,}/`). Each regular
  expression is a predicate stating what `RegExp.prototype.test` decides for
  it: the unanchored ones hold when a match starts somewhere in the string,
  the lookaheads and `.` stop at line terminators, and `\s` is the
  ECMAScript whitespace set. Lemmas then say what each test amounts to.
- `registration_form.dfy`, module `RegistrationForm`: the `FormData` record,
  `WithField` (the object-spread update of `handleChange`), a specification
  of the validator in terms of what each rule means (`ValidationErrors`,
  built from one message function per key), the validator itself as the
  source writes it (`Validate`: an empty dictionary filled by successive
  conditional assignments, using `trim()` and the regular-expression tests),
  proved equal to that specification, and the page component as a class
  `RegistrationPage` whose fields are the form record, the `errors` state and
  the sequence of request bodies sent so far.

Details the model keeps from the code:

- The "required" checks trim the value, but the contact-number, email and
  password patterns test the untrimmed value: `" 1234567890"` is not blank,
  yet it fails `/^\d{10}$/` and gets the ten-digit message.
- The email and password patterns are unanchored; the contact-number
  pattern is anchored at both ends (`$` without the `m` flag matches only at
  the end of input).
- Day, month and year share one `date_of_birth` key; no `day`, `month` or
  `year` key is ever written, so the per-input error displays for those three
  inputs never show.
- The confirmation check runs whatever the password check found, and two
  empty passwords are equal, so an empty form gets five messages, not six.

The code's rules differ from their one-line summaries, and the model
follows the code: the email rule is not "an `@` and a `.` after it" but an
`@` preceded by a non-space character, followed by at least one non-space
character and then a `.` in the same run of non-space characters, followed
by a non-space character; and the password rule is applied per line, so
`"abcdefgh"` + U+2028 + `"A1"` is rejected although it has eleven characters and one of
each class (U+2028 is a line terminator that, unlike a typed line feed, a
text input keeps).

## Model

| member | source | states |
|---|---|---|
| TextPatterns.IsWhitespace | components/form/index.jsx:27 | decides membership in the set that `trim()` strips and `\s` matches (ECMAScript WhiteSpace and LineTerminator); no ASCII digit, ASCII letter, `@` or `.` is in it |
| TextPatterns.IsLineTerminator | components/form/index.jsx:49 | decides whether `.` and the lookaheads' `.*` stop at a character (line feed, carriage return, U+2028, U+2029); every line terminator is whitespace |
| TextPatterns.TrimStart | components/form/index.jsx:27 | the result is a suffix of the input, everything dropped is whitespace, and it does not start with whitespace |
| TextPatterns.TrimEnd | components/form/index.jsx:27 | the result is a prefix of the input, everything dropped is whitespace, and it does not end with whitespace |
| TextPatterns.Trim | components/form/index.jsx:27 | `trim()` leaves nothing exactly when the input is all whitespace, and otherwise a string that starts and ends with a non-whitespace character |
| TextPatterns.IsBlank | components/form/index.jsx:27-47 | decides `!value.trim()`: a value is empty after trimming exactly when every character of it is whitespace |
| TextPatterns.IsTenAsciiDigits | components/form/index.jsx:33 | decides `/^\d{10}$/.test`: exactly ten characters, each an ASCII digit; such a value has no whitespace and so never takes the "required" branch |
| TextPatterns.EmailPatternFound | components/form/index.jsx:39 | decides `/\S+@\S+\.\S+/.test` (some substring matches the whole pattern); holds exactly when there is an `@` with a non-space character before it and a later `.` with only non-space characters (at least one) between them and a non-space character after it |
| TextPatterns.SubstringMatchIffAtDot | components/form/index.jsx:39 | a substring matching `\S+@\S+\.\S+` exists exactly when such an `@` and `.` exist, in both directions |
| TextPatterns.EmailPatternNotBlank | components/form/index.jsx:37-39 | a value that passes the email pattern never takes the "required" branch |
| TextPatterns.ContainsNotBlank | components/form/index.jsx:47-49 | a value holding a digit or an ASCII letter is not blank after trimming |
| TextPatterns.PasswordPatternFound | components/form/index.jsx:49 | decides `/(?=.*\d)(?=.*[a-z])(?=.*[A-Z]).{8,}/.test` (a match starts at some position, its lookaheads and eight characters staying on one line); any string it accepts has at least eight characters and contains an ASCII digit, lower-case letter and upper-case letter |
| TextPatterns.PasswordPatternOneLine | components/form/index.jsx:49 | on a string without line terminators the password pattern accepts exactly the strings of eight or more characters containing a digit, a lower-case and an upper-case letter |
| TextPatterns.PasswordPatternLineBreak | components/form/index.jsx:49 | a line break splits the password: `"abcdefgh"` + U+2028 + `"A1"` has the length and all three classes but the pattern rejects it |
| RegistrationForm.WithField | components/form/index.jsx:18-20 | the edited field holds the new value and every other field keeps its old value |
| RegistrationForm.WithFieldCurrentValue | components/form/index.jsx:19 | writing a field's current value back gives the same record |
| RegistrationForm.WithFieldTwice | components/form/index.jsx:18-20 | of two edits to one field the later wins; edits to different fields commute |
| RegistrationForm.FullNameCheck | components/form/index.jsx:27-29 | the source's full-name check yields exactly the message the full-name rule specifies |
| RegistrationForm.ContactNumberCheck | components/form/index.jsx:31-35 | the source's two contact-number checks yield exactly the message the contact-number rule specifies |
| RegistrationForm.EmailCheck | components/form/index.jsx:37-41 | the source's blank check and regular-expression test yield exactly the message of the rule stated with `@` and `.` positions |
| RegistrationForm.DateOfBirthCheck | components/form/index.jsx:43-45 | the source's three-way blank check yields exactly the date-of-birth message the rule specifies |
| RegistrationForm.PasswordCheck | components/form/index.jsx:47-52 | the source's password checks yield exactly the message the password rule specifies |
| RegistrationForm.Validate | components/form/index.jsx:25-56 | filling the dictionary key by key as the source does yields one entry for each known key whose rule fails, with that rule's message, and nothing else |
| RegistrationForm.ErrorKeysKnown | components/form/index.jsx:43-45 | every key written is one of the six known names; `day`, `month` and `year` never appear |
| RegistrationForm.FullNameRule | components/form/index.jsx:27-29 | `full_name` has an entry, "Full name is required", exactly when the name is empty after trimming |
| RegistrationForm.ContactNumberRule | components/form/index.jsx:31-35 | no `contact_number` entry exactly when the untrimmed value is ten ASCII digits; "required" when blank; the ten-digit message otherwise |
| RegistrationForm.EmailRule | components/form/index.jsx:37-41 | no `email` entry exactly when some substring matches the pattern, equivalently when an `@` and `.` sit as described above; "required" when blank; "Invalid email format" otherwise |
| RegistrationForm.DateOfBirthRule | components/form/index.jsx:43-45 | one `date_of_birth` entry exactly when day, month or year is empty after trimming |
| RegistrationForm.PasswordRule | components/form/index.jsx:47-52 | "required" when blank; no `password` entry exactly when the pattern accepts the value; the strength message when the value is not blank and the pattern rejects it; an accepted password has eight characters and all three classes; on one line that is also enough |
| RegistrationForm.ConfirmPasswordRule | components/form/index.jsx:54-56 | `confirm_password` has an entry exactly when it differs from the password, whatever the password's own rule says |
| RegistrationForm.NoErrorsIffValid | components/form/index.jsx:25-58 | the dictionary is empty exactly when all six rules hold |
| RegistrationForm.EmptyFormErrors | components/form/index.jsx:5-14 | the initial record gets the five "required" messages and no confirmation message |
| RegistrationForm.ContactNumberExamples | components/form/index.jsx:31-35 | `"12345"` and `" 1234567890"` get the ten-digit message; `"1234567890"` passes |
| RegistrationForm.EmailExamples | components/form/index.jsx:37-41 | `"foo"` gets "Invalid email format"; `"foo@bar.com"` passes |
| RegistrationForm.PasswordExamples | components/form/index.jsx:47-52 | `"abc"` gets the strength message; `"Abcdefg1"` passes |
| RegistrationForm.EditKeepsOtherErrors | components/form/index.jsx:18-20 | editing one input leaves the entries of every key whose rule does not read that input unchanged |
| RegistrationForm.RegistrationPage.constructor | components/form/index.jsx:5-16 | the page starts with the empty record, no errors and no requests sent |
| RegistrationForm.RegistrationPage.HandleChange | components/form/index.jsx:18-20 | one field of the record takes the input's value; every other field, the errors and the requests are unchanged |
| RegistrationForm.RegistrationPage.HandleSubmit | components/form/index.jsx:22-62 | `errors` becomes the validator's dictionary; if it is non-empty no request is sent, otherwise exactly one request carrying the whole record is sent; the invariant that every request sent carried a valid record is kept |

## Left out

- The network request (lines 63-81): the `fetch` POST, its URL and headers, the JSON encoding of the body and the response handling are I/O. Entering the request path is modelled as appending the record to `requests`; what the server answers, and the catch that logs a failure, are not modelled.
- `showAlert` (lines 85-97): DOM manipulation and a five-second timer.
- The JSX rendering and the conditional CSS classes (lines 99-259): declarative presentation. Only the fact that `errors.day`, `errors.month` and `errors.year` are never set is stated (ErrorKeysKnown).
- `e.preventDefault()` (line 23): browser behaviour.
- React's `useState` scheduling: `setFormData` and `setErrors` are modelled as immediate assignments; stale closures and overlapping asynchronous submissions are not modelled.
- RegistrationPage.HandleChange: takes one of the eight fields rather than an arbitrary `name` string, because every input's `name` attribute is one of the eight; a foreign name, which the spread would add as a new property, is not modelled.
- PasswordRule: states the exact characterisation only for passwords without line terminators; for multi-line strings it states only the consequences of passing (PasswordPatternLineBreak shows the two differ). The predicate the validator uses, PasswordPatternFound, follows the regular expression on every string.
- Characters are Unicode scalar values, while JavaScript strings and non-`u` regular expressions work on UTF-16 code units: a character outside the Basic Multilingual Plane counts once here and twice in the source's `.{8,}`.
- The browser's narrowing of input values: text and password inputs drop line feeds and carriage returns, and the `type="email"` input (line 145) strips surrounding whitespace and, through the browser's own constraint validation, blocks submitting a non-empty malformed address before `handleSubmit` runs. The model takes the values as they reach the handler, with no such narrowing.
- The whitespace set is ECMAScript's WhiteSpace and LineTerminator code points with the space separators of current Unicode; no proof depends on anything but ASCII digits, ASCII letters, `@` and `.` lying outside it.
