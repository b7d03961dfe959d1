# Code Kids registration: the form's validator, submission flow and e-mail verification

This project models the two pieces of logic in the Code Kids enrolment site.

- **The registration form** (`RegistrationForm.tsx`):
  - a schema with one rule per field;
  - the mapping of the validated values to the row inserted into `registration_requests`;
  - the asynchronous `onSubmit` handler, which inserts the row, invokes the e-mail and SMS confirmation functions, and drives the `isSubmitting`, `isSuccess` and `error` state hooks;
  - a 3-second timer that resets the form after a success.
- **The verification page** (`VerifyEmail.tsx`): it reads the `email` query parameter, issues one status update for that address, and reports the result.

Modules, one per concern:

- `JsString`, `JsParseInt`: the JavaScript semantics the schema relies on. `s.length` counts UTF-16 code units. `parseInt` trims JavaScript white space, reads an optional sign and a hexadecimal `0x` prefix when no radix is given, and reads the longest digit prefix.
- `RegistrationSchema`: the field rules, the default values and `Validate`.
- `RegistrationStorage`: the insert mapping `ToStorage`.
- `Effects`: how a backend call settles, and the effects the components emit.
  - A call settles in one of three ways: it resolves, it resolves with an error object, or it throws.
  - The effects are the insert, the two function invocations, the status update, toast notices and the reset timer.
- `RegistrationTable`: the table as a sequence of rows, and the meaning of the two writes. `MarkVerified` is the status update.
- `Submission`: the `onSubmit` handler.
  - Each segment between two awaits is one pure transition of the component state.
  - `Run` chains the segments of one whole submission.
  - The class `RegistrationForm` performs the same transitions in place.
- `Verification`: the verification handler, in the same style, and the class `VerifyEmail`.
- `RegistrationExamples`: worked inputs.

The backend is never called. Each call's outcome is an input. The e-mail syntax check of the schema library is a parameter `isEmail`.

Some behaviour of the code that the model keeps as written:

- The e-mail and SMS invocations share one `try`, so an e-mail invocation that throws skips the SMS invocation. The two notifications are not independent.
- The results that `functions.invoke` returns are never inspected. Only a thrown exception produces the warning notice. An invocation that resolves with an error is treated like a success.
- The age is parsed twice. The rule uses `parseInt(val, 10)`. The insert uses `parseInt` with no radix, which would read `0x1A` as 26. `OmittedRadixAgreesOnPositive` proves the two readings agree on every age the rule accepts.
- The age rule accepts any text whose leading integer is positive. For example, `" 12 years"` is accepted and stored as 12.
- The reset-timer callback does not check the component state. That is harmless here: the success view replaces the form, so no submission can start while a timer is pending (the consequences stated with `Consistent`).
- `!email` also treats an empty `email` parameter as missing.

## Model

| member | source | states |
|---|---|---|
| JsString.Utf16Length | src/components/RegistrationForm.tsx:32-49 | `s.length` as the `min` rules read it: zero exactly for the empty text, and at least the code units of the first character otherwise. |
| JsString.Utf16LengthBounds | src/components/RegistrationForm.tsx:32-49 | The length the `min` rules measure lies between one and two code units per character. It equals the character count exactly for text in the Basic Multilingual Plane. |
| JsString.AtLeastTwoCodeUnits | src/components/RegistrationForm.tsx:32-43 | A length of at least 2 means two characters, or one character outside the Basic Multilingual Plane. |
| JsString.TrimStart | src/components/RegistrationForm.tsx:38 | `parseInt`'s first step drops exactly the leading JavaScript white space. The result is a suffix whose first character is not white space. |
| JsParseInt.ParseInt | src/components/RegistrationForm.tsx:89 | `parseInt` with radix 10 (line 38) or none (line 89). A number is read only when a decimal digit starts the text after white space and one sign, and with radix 10, or without a `0x` prefix, it is `NaN` exactly when no digit does. A negative result needs the minus sign and a positive one its absence. |
| JsParseInt.LeadingDigits | src/components/RegistrationForm.tsx:38 | The part `parseInt` reads is the longest prefix of radix digits: every character in it is a digit, and the next character is not. |
| JsParseInt.DigitsValuePositive | src/components/RegistrationForm.tsx:38-40 | A digit string has a positive value exactly when one of its digits is not zero. |
| JsParseInt.PositiveIntegerIff | src/components/RegistrationForm.tsx:38-40 | The refinement `!isNaN(parseInt(val, 10)) && parseInt(val, 10) > 0` holds exactly when two things are true. After white space there is no minus sign. After an optional sign, the leading decimal run is not all zeros. |
| JsParseInt.OmittedRadixAgreesOnPositive | src/components/RegistrationForm.tsx:89 | On every age the rule accepts, the insert's `parseInt` without a radix gives the same number as the rule's radix-10 parse. |
| JsParseInt.HexPrefixReadsZero | src/components/RegistrationForm.tsx:89 | In radix 10, the digits read from a text starting `0x` are the single digit 0. |
| JsParseInt.HexPrefixRejected | src/components/RegistrationForm.tsx:38-40 | The age rule rejects every text whose digits, after white space and sign, start with `0x`. |
| JsParseInt.ParseDigitString | src/components/RegistrationForm.tsx:89 | A plain decimal numeral reads as its value under both radix arguments. |
| JsParseInt.DecimalRoundTrip | src/components/RegistrationForm.tsx:38-40 | The decimal numeral of any natural number n parses back to n under both radix arguments. The rule accepts it exactly when n > 0. |
| RegistrationSchema.Defaults | src/components/RegistrationForm.tsx:66-75 | Every text field starts empty, the skill level starts at a value the enum rule accepts as `beginner`, and additional info starts as `''`. |
| RegistrationSchema.DefaultsRejected | src/components/RegistrationForm.tsx:31-75 | The form as first shown does not validate. Apart from the e-mail check, exactly the four fields with a `min` rule and the age are flagged on the defaults. |
| RegistrationSchema.MinLength | src/components/RegistrationForm.tsx:32-49 | A `min(n)` rule fails only with its own message. Text of at least n characters passes, text shorter than n/2 characters fails, and for BMP text it fails iff the text has fewer than n characters. |
| RegistrationSchema.SkillRule | src/components/RegistrationForm.tsx:50-52 | The enum rule accepts exactly the three names, giving the level with that name. A missing value gets the required message, and any other text gets the library's invalid-enum message naming that text. |
| RegistrationSchema.Issue | src/components/RegistrationForm.tsx:31-54 | Additional info is never flagged, and every error message is non-empty. |
| RegistrationSchema.ParseSkill | src/components/RegistrationForm.tsx:50-52 | Exactly the three names `beginner`, `intermediate` and `advanced` parse, and each parses to the enum value with that name. |
| RegistrationSchema.Issues | src/components/RegistrationForm.tsx:31-54 | Every reported error belongs to a listed field and carries that field's own message. Every listed field that fails is reported. |
| RegistrationSchema.Validate | src/components/RegistrationForm.tsx:31-54 | The record is valid iff every field rule holds, and then the values are passed through with the skill level typed. Otherwise the result is a non-empty error list in which (field, message) appears iff that field's rule fails with that message. |
| RegistrationSchema.IssueIsLocal | src/components/RegistrationForm.tsx:31-54 | A field's verdict depends only on that field's value. |
| RegistrationSchema.FlaggedIsLocal | src/components/RegistrationForm.tsx:31-54 | Two inputs that agree on a field get the same flag and message for that field from `Validate`. |
| RegistrationSchema.NameRules | src/components/RegistrationForm.tsx:32-43 | Child first name, child last name and parent name are each accepted iff they have at least two UTF-16 code units. Each fails with its own fixed message. |
| RegistrationSchema.PhoneRule | src/components/RegistrationForm.tsx:47-49 | The phone rule is a length check only. Any ten characters pass, and for BMP text ten characters are required. The only message is the phone message. |
| RegistrationSchema.AgeRule | src/components/RegistrationForm.tsx:38-40 | The age is accepted iff it has no minus sign and its leading decimal run, after an optional sign, is not all zeros. Otherwise the age message is given. |
| RegistrationSchema.SkillAndInfoRules | src/components/RegistrationForm.tsx:50-53 | The skill level is accepted iff it is one of the three names. A missing skill level gets the required message. The default `beginner` is accepted. Additional info is never flagged. |
| RegistrationSchema.IssuesOfOne | src/components/RegistrationForm.tsx:31-54 | Over distinct fields, when exactly one field fails, its error is the only error. |
| RegistrationSchema.OnlyFailingField | src/components/RegistrationForm.tsx:31-54 | When exactly one field is wrong, `Validate` reports exactly that field with its message, and no valid field. |
| RegistrationStorage.ToStorage | src/components/RegistrationForm.tsx:94 | `additional_info` is the text entered, or `''` when it is absent or empty. |
| RegistrationStorage.ValidatedRow | src/components/RegistrationForm.tsx:86-95 | A row built from validated input has these properties. `child_age` is a positive integer equal to the radix-10 reading of the age text. The names and the phone meet their lengths. The e-mail passed the check. The skill level is one of the three names. The text fields are as entered. |
| RegistrationTable.Inserted | src/components/RegistrationForm.tsx:84-95 | A successful insert appends exactly one `pending` row and keeps the existing rows. |
| RegistrationTable.MarkVerified | src/components/VerifyEmail.tsx:22-25 | The update keeps every row's data and its position. It sets status `verified` on the rows whose e-mail equals the parameter, and only on them. |
| RegistrationTable.Perform | src/components/VerifyEmail.tsx:22-25 | A carried-out write: only the two writes change the table, an insert adds one row and the update none, and no stored row's data changes. |
| RegistrationTable.PerformAll | src/components/RegistrationForm.tsx:84-95 | Carrying out a trace's writes in order adds at most one row per write and never alters a stored registration's data: only statuses change. |
| RegistrationTable.Settle | src/components/VerifyEmail.tsx:22-32 | A write whose call did not resolve leaves the table as it was. |
| RegistrationTable.MarkVerifiedFrame | src/components/VerifyEmail.tsx:24-25 | Rows with another e-mail address are left exactly as they were. |
| RegistrationTable.MarkVerifiedIdempotent | src/components/VerifyEmail.tsx:24-25 | Applying the update twice gives the same table as applying it once. |
| RegistrationTable.MarkVerifiedMonotone | src/components/VerifyEmail.tsx:24-25 | The update never turns a verified row back to pending. |
| RegistrationTable.MarkVerifiedCommutes | src/components/VerifyEmail.tsx:24-25 | Updates for two addresses give the same table in either order. |
| RegistrationTable.VerifyAfterInsert | src/components/VerifyEmail.tsx:22-25 | Verifying the address of a registration just inserted marks that row verified. |
| Submission.Initial | src/components/RegistrationForm.tsx:59-75 | The component mounts idle: the invariant holds, a submit is possible, the fields are the defaults, and there is no error. |
| Submission.Consistent | src/components/RegistrationForm.tsx:134 | Under the component invariant, a pending reset timer means the success view is shown and no handler is suspended, and a submission in flight has no timer pending. |
| Submission.CanSubmit | src/components/RegistrationForm.tsx:321 | When the form can be submitted and the invariant holds, no handler is suspended and no reset timer is pending. |
| Submission.ErrorText | src/components/RegistrationForm.tsx:125 | The error shown after a failed insert is the error's message when it is non-empty, and otherwise the fallback. It is never empty. |
| Submission.AfterEdit | src/components/RegistrationForm.tsx:166-173 | Typing changes the field values and nothing else, emits no effect, and keeps the component invariant. |
| Submission.AfterSubmit | src/components/RegistrationForm.tsx:78-95 | On entry `isSubmitting` is set and `error` is cleared. The one insert is issued, with the mapped row. The invariant is kept. |
| Submission.AfterInsert | src/components/RegistrationForm.tsx:97-129 | A resolved insert changes only the phase, which carries the same values into the e-mail invocation, and its only effect is that invocation with the parent's e-mail and name. On an error, `error` gets the message or the fallback, `isSubmitting` becomes false, `isSuccess` is untouched, and only the failure notice is emitted. |
| Submission.Finish | src/components/RegistrationForm.tsx:115-129 | The success path sets `isSuccess`, clears `isSubmitting` and schedules the reset. Its trace ends with the success notice and the timer. |
| Submission.AfterEmail | src/components/RegistrationForm.tsx:100-112 | A thrown e-mail invocation skips the SMS and ends in success; its trace is the warning, the success notice and the timer. Any other result keeps the values and its only effect is the SMS invocation with the parent's phone and name. |
| Submission.AfterSms | src/components/RegistrationForm.tsx:105-116 | After the SMS invocation the run ends in success whatever the invocation did: `isSuccess` set, `isSubmitting` cleared, no handler suspended, the timer pending, and nothing else changed. The trace is the warning if the invocation threw, then the success notice and the timer. |
| Submission.AfterReset | src/components/RegistrationForm.tsx:119-122 | The timer callback sets `isSuccess` false and restores the field defaults. It changes nothing else. |
| Submission.Run | src/components/RegistrationForm.tsx:78-130 | Every run ends with `isSubmitting` false and no handler suspended. The fields are unchanged, the first effect is the insert, and the invariant is kept. |
| Submission.InsertFailure | src/components/RegistrationForm.tsx:123-129 | A failed insert (returned error or throw) has these results. The error is the message or the fallback. `isSuccess` stays false. Neither notification is invoked. The trace is the insert and the failure notice. |
| Submission.NotificationTrace | src/components/RegistrationForm.tsx:100-112 | The notification part of a run always invokes the e-mail function. It invokes the SMS function iff the e-mail invocation did not throw. It warns iff an invocation threw. It never shows the failure notice and never writes. |
| Submission.SuccessTrace | src/components/RegistrationForm.tsx:100-122 | After a resolved insert, the trace is the insert, then the notification part, then the success notice and the timer. The end state is success with no error. |
| Submission.InsertSuccess | src/components/RegistrationForm.tsx:100-122 | After a resolved insert the run ends in success with no error, whatever the notifications did. The e-mail is invoked, and the SMS is invoked iff the e-mail invocation did not throw. The warning appears iff an invocation threw. |
| Submission.NotificationsDoNotAffectState | src/components/RegistrationForm.tsx:108-116 | After a resolved insert, the final state does not depend on the notification outcomes. |
| Submission.OneWritePerRun | src/components/RegistrationForm.tsx:84-95 | Every run issues exactly one table write. |
| Submission.RunStoresRow | src/components/RegistrationForm.tsx:84-98 | With the insert settling by its outcome, a run leaves the table with the mapped registration appended as a pending row when the insert resolved, and untouched otherwise; nothing after the insert writes. |
| Submission.SuccessThenResetIsInitial | src/components/RegistrationForm.tsx:119-122 | A successful run followed by its reset returns the component to its initial state. |
| Submission.ValidSubmissionStoresPositiveAge | src/components/RegistrationForm.tsx:89 | Submitting validated values inserts a row whose age is the positive radix-10 reading of the age text. |
| Submission.RegistrationForm.constructor | src/components/RegistrationForm.tsx:59-75 | The component starts idle: not submitting, no success, no error, the default values. |
| Submission.RegistrationForm.Edit | src/components/RegistrationForm.tsx:166-173 | Performs `AfterEdit` in place. |
| Submission.RegistrationForm.OnSubmit | src/components/RegistrationForm.tsx:78-95 | Performs `AfterSubmit` in place and returns its effects. |
| Submission.RegistrationForm.InsertSettled | src/components/RegistrationForm.tsx:97-129 | Performs `AfterInsert` in place. |
| Submission.RegistrationForm.EmailSettled | src/components/RegistrationForm.tsx:100-112 | Performs `AfterEmail` in place. |
| Submission.RegistrationForm.SmsSettled | src/components/RegistrationForm.tsx:105-116 | Performs `AfterSms` in place. |
| Submission.RegistrationForm.FinishInPlace | src/components/RegistrationForm.tsx:115-129 | Performs `Finish` in place. |
| Submission.RegistrationForm.ResetTimerFires | src/components/RegistrationForm.tsx:119-122 | Performs `AfterReset` in place. |
| Verification.Mount | src/components/VerifyEmail.tsx:10-11 | `isVerifying` starts true and the page shows the "Verifying" text. |
| Verification.AfterStart | src/components/VerifyEmail.tsx:15-25 | Without a truthy parameter, the invalid-link notice is shown and `isVerifying` becomes false, with no update. Otherwise exactly one update is issued for that address. |
| Verification.AfterUpdate | src/components/VerifyEmail.tsx:27-35 | `isVerifying` ends false. There is one notice, and it is the success notice iff the update resolved. |
| Verification.RunVerify | src/components/VerifyEmail.tsx:13-39 | Every path ends with `isVerifying` false. |
| Verification.MissingEmail | src/components/VerifyEmail.tsx:15-19 | A missing parameter gives only the invalid-link notice, no write, and an untouched table. |
| Verification.PresentEmail | src/components/VerifyEmail.tsx:21-32 | A present parameter gives exactly one write, the update for that address, which, once it resolves, rewrites the table to `MarkVerified`; a rejected update leaves the table as it was. Then comes the success or the failure notice according to the outcome. |
| Verification.Rendered | src/components/VerifyEmail.tsx:46-56 | The page shows the "Verifying" text exactly while verifying; afterwards it shows the thanks text iff the parameter is truthy. |
| Verification.VisitTable | src/components/VerifyEmail.tsx:13-39 | After one visit the table is `MarkVerified` for the address when the parameter is truthy and the update resolved, and untouched otherwise. |
| Verification.MessageIgnoresOutcome | src/components/VerifyEmail.tsx:46-56 | The final text depends only on whether an e-mail was given, never on the update's outcome. |
| Verification.VerifyTwice | src/components/VerifyEmail.tsx:22-25 | After two visits of the same link the address is verified iff either update resolved. Once one has resolved, a further visit leaves the table as it is. |
| Verification.VerifyEmail.constructor | src/components/VerifyEmail.tsx:9-11 | Performs `Mount`. |
| Verification.VerifyEmail.Start | src/components/VerifyEmail.tsx:15-25 | Performs `AfterStart` in place. |
| Verification.VerifyEmail.UpdateSettled | src/components/VerifyEmail.tsx:27-35 | Performs `AfterUpdate` in place. |
| RegistrationExamples.SampleIssues | src/components/RegistrationForm.tsx:31-54 | The sample passes every rule except possibly the e-mail check. |
| RegistrationExamples.SampleAccepted | src/components/RegistrationForm.tsx:31-54 | The sample validates when its address passes the e-mail check. |
| RegistrationExamples.ShortFirstName | src/components/RegistrationForm.tsx:32-34 | A first name of "A" gives exactly the first-name error. |
| RegistrationExamples.NegativeAge | src/components/RegistrationForm.tsx:38-40 | An age of "-3" gives exactly the age error. |
| RegistrationExamples.MinusThreeRejected | src/components/RegistrationForm.tsx:38-40 | "-3" fails the age refinement. |
| RegistrationExamples.BadEmail | src/components/RegistrationForm.tsx:44-46 | An address the e-mail check rejects gives exactly the e-mail error. |
| RegistrationExamples.LeadingIntegerAge | src/components/RegistrationForm.tsx:38-40 | " 12 years" is accepted, and it reads as 12. |
| RegistrationExamples.HexAgeRejected | src/components/RegistrationForm.tsx:38-40 | "0x1A" reads as 0 in radix 10 and is rejected. |
| RegistrationExamples.HexAgeWithoutRadix | src/components/RegistrationForm.tsx:89 | Without a radix, "0x1A" reads as 26. |

## Left out

- The schema library's e-mail syntax check, whose pattern is not part of this model. It is the parameter `isEmail`, and every property holds for any such check.
- `parseInt` returns a double. Ages beyond 2^53 would be rounded, and beyond about 1.8e308 they become `Infinity`, which is stored as `null`. Digits after the twentieth may be approximated. The model reads the exact integer and folds `-0` into 0.
- Values that are not strings, and the schema library's type errors for them. The form always hands strings to the schema. The browser's `type="number"` filtering of the age input is not modelled either: the model accepts any text.
- react-hook-form's plumbing: running the schema in `handleSubmit`, showing and revalidating field errors, and the field-state bookkeeping behind `form.reset()`. The model keeps the field values only.
- JSX rendering apart from the two texts the verification page shows, the toast display, `console.error` logging, and the navigation to the homepage.
- The hosted backend and its client. Each call's outcome is an input. `Perform` gives the table as it is after the backend carries out an issued write. `Settle` and `VisitTable` take a resolved write as carried out and one that returned an error or threw as not carried out; a call that threw after the database applied it is not modelled. The status column defaulting to `pending` belongs to the database schema. That schema, the edge functions under supabase/functions and src/pages/Index.tsx are not part of this model.
- Text holding an unpaired UTF-16 surrogate, which a JavaScript string (pasted text, say) can hold and a Dafny `string` cannot. `.length` and the `min` rules on such text are outside the model.
- A thrown value without properties (such as `null`). Reading its `message` would throw inside the catch block.
- The 3000 ms delay. The reset is an explicit event, enabled while a timer is pending.
- Submitting while a submission is in flight or while the success view is shown. The form prevents both, so `CanSubmit` is a precondition.
- Re-running the verification effect when the `email` parameter changes, or twice under React's development mode. The handler runs once per mount.
