# hubot-dynamic-conversation: the dialog engine

This project models the `Dialog` of `dialog.js`, a small state machine that asks a
chat user a fixed list of questions, one at a time. It then proves properties of
the model.

For each question the dialog:

- sends the question text;
- records the user as `data.source`;
- registers pattern → handler bindings on a switchboard dialog. Which bindings depends
  on the answer type: choice, text or attachment.

When a reply fires a handler, the handler updates one field of the `data` record or
sends a reply, and then it finishes the question. The questions run as an
`async-series`:

- the first error ends the run;
- otherwise a last step stamps `dateTime`;
- either way the user's callback is called once, with `(err, msg, dialog)`.

Files and modules:

- `wrappers.dfy` (`Wrappers`): `Option` and `Result`.
- `patterns.dfy` (`Patterns`): the three fixed regular expressions of dialog.js, modelled
  exactly, and the option matcher, which is a parameter.
  - `/(.*)/i` matches every text.
  - `/^(?!\s*$).+/i` matches a text that is not blank and whose first character is
    not a line terminator.
  - `/skip/i` matches a text that contains `skip` in any ASCII letter case. Without
    the `u` flag, JavaScript folds no other character onto these letters.
- `series.dfy` (`Series`): the documented semantics of `async-series`, as a function
  `Outcome` of the results the steps have reported, with lemmas about it.
- `dialog.dfy` (`DialogEngine`): questions, the data record, binding lists, handler
  effects, and the class `Dialog`. The class covers the constructor, `_go`,
  `_invokeDialog`, the handlers, `fetch`, and a `Receive` step for a reply arriving.

The switchboard is foreign code. The model makes these assumptions about it, and
nothing else:

- bindings are kept in the order they were registered;
- a reply goes to the FIRST binding whose pattern matches it (`FirstMatch`);
- the registered bindings are cleared before that binding's handler runs;
- a reply that no binding matches changes nothing.

A consequence that the model proves (`ChoiceDispatch`): a choice question registers
each option followed by a catch-all. Under first-match, only option 0 can ever fire.
Every other reply goes to the catch-all registered right after option 0.
`ExampleSecondOptionUnreachable` shows this on a concrete dialog.

The code has no skip or abort keywords, no retry loop, no mention stripping, no
list of answers and no timeout or completion messages. An attachment question only
reacts to `skip`. The model follows the code.

## Model

| member | source | states |
|---|---|---|
| `DialogEngine.Guard` | dialog.js:4-6 | Exactly a function as the options argument is rejected, with the error "Provide the dynamic message options array". Anything else passes on unchanged. The kept callback is the caller's function exactly when one was passed, and a no-op otherwise. |
| `DialogEngine.ReadQuestions` | dialog.js:79-81 | After the guard, reading `length` of a null or undefined options argument throws a TypeError, and a list gives its questions in order. |
| `DialogEngine.CheckArguments` | dialog.js:3-21 | Construction by these arguments fails exactly when they are not a list of questions. A function fails at the guard with the guard's error. A null or undefined options argument passes the guard and fails with the TypeError that `_go` throws reading its `length` (dialog.js:79). A TypeError is only ever thrown after the guard passed. On success the questions are the list and the callback is the one the guard keeps. |
| `DialogEngine.NewDialog` | dialog.js:3-22 | Construction fails exactly when the arguments fail the check above. Otherwise it gives a fresh, valid dialog with those questions, that callback and the started state. |
| `DialogEngine.Dialog.constructor` | dialog.js:8-21 | `data` starts as `{source: '', dateTime: null, type: 'private', description: '', attachment: ''}` and the series starts. With questions: only question 0 has been asked, its bindings are registered and `source` is the user. With none: the dialog has already ended without error, `dateTime` is set and the callback was called once. |
| `DialogEngine.Dialog.Go` | dialog.js:75-96 | Builds one step per question in array order, then the time-stamp step, and runs step 0. The result is the started state. |
| `DialogEngine.Dialog.RunStep` | dialog.js:80-91 | A question step asks its question and waits. The time-stamp step sets `dateTime`, succeeds and ends the series with no error, calling the callback once. |
| `DialogEngine.Dialog.InvokeDialog` | dialog.js:24-68 | Sends the question text and sets `source` to the user, changing no other data field. It registers exactly `QuestionBindings(q)` after the bindings already there. |
| `DialogEngine.QuestionBindings` | dialog.js:30-67 | A choice question with n options registers 2n bindings. A text question registers exactly the one not-blank binding, an attachment question exactly the one `skip` binding, and any other answer type none. |
| `DialogEngine.ChoiceBindings` | dialog.js:30-51 | A choice question with n options registers exactly 2n bindings: option i at position 2i and the catch-all at position 2i+1. No options means no bindings. |
| `DialogEngine.FirstMatch` | dialog.js:30-67 | The switchboard's dispatch, as assumed: the result is the index of a binding whose pattern matches the reply, and no earlier binding matches it. No result means no binding matches. |
| `DialogEngine.HandlerEffect` | dialog.js:34-66 | No handler changes `source`, `dateTime` or `attachment`. An option handler sends its response, sets `type` to the option's `match` string and fails exactly when the option is not valid. The catch-all sends the question's error text, changes no data and fails exactly when the question is required. The text handler sends nothing, sets `description` to the raw reply and succeeds. The skip handler sends the fixed skip message, changes no data and succeeds. A failure carries "User provided an invalid response" from an option and "Hubot cannot continue this conversation" from the catch-all. |
| `DialogEngine.ChoiceDispatch` | dialog.js:31-50 | Under first-match every reply to a choice question with options fires binding 0 or binding 1: binding 0 exactly when option 0's pattern matches. No other option can fire. |
| `DialogEngine.ChoiceAnswer` | dialog.js:33-49 | When option 0 matches, the reply sends its response, sets `type` to the option's `match` string (not the reply text) and fails with "User provided an invalid response" exactly when the option is not valid. Otherwise the catch-all sends the question's error text, leaves the data alone and fails with "Hubot cannot continue this conversation" exactly when the question is required. |
| `DialogEngine.ChoiceWithoutOptions` | dialog.js:30-31 | A choice question with no options reacts to no reply. |
| `DialogEngine.TextAnswer` | dialog.js:54-58 | A text question reacts exactly to replies its pattern accepts, and every accepted reply is not blank. Then it sets `description` to the raw reply, sends nothing, changes no other field and succeeds. |
| `DialogEngine.AttachmentAnswer` | dialog.js:62-67 | An attachment question reacts exactly to replies containing `skip`. Then it sends the fixed skip message, changes no data and succeeds. |
| `DialogEngine.UnrecognisedAnswer` | dialog.js:30-67 | A question whose answer type is none of the three registers nothing and reacts to no reply. |
| `DialogEngine.AnswerChanges` | dialog.js:34-66 | No handler changes `source`, `dateTime` or `attachment`. `type` can only become the first option's pattern of the question. `description` can only become a non-blank reply. Only a choice question can fail. |
| `DialogEngine.Dialog.Fire` | dialog.js:34-66 | Running a handler appends its replies to the outbox, leaves the data record its effect gives, and returns what it passes to `done`. |
| `DialogEngine.Dialog.Complete` | dialog.js:93-95 | The series' final callback ends the dialog with the error as given and records one call of the kept callback with that error and the original message. |
| `DialogEngine.Dialog.StepDone` | dialog.js:82-95 | After a question finishes, an error ends the series at once: no later question, no time stamp, one callback call. A success asks the next question, or after the last question stamps `dateTime` and ends the series without error. |
| `DialogEngine.Dialog.Receive` | dialog.js:34-91 | A reply that the waiting question does not react to changes nothing. Otherwise its handler's replies come before the next question's text, and the data and series move on as in `StepDone`. The dialog stays valid: `attachment` stays empty, `dateTime` is set exactly when the dialog ended without error, and at most one callback call is ever recorded. |
| `DialogEngine.Dialog.RunSummary` | dialog.js:88-95 | In every reachable state the callback has been called once exactly when the dialog ended. `dateTime` is set exactly when every question and the time stamp succeeded. An error is the one the last step reported, after every earlier step succeeded and before the time stamp. |
| `DialogEngine.Dialog.Fetch` | dialog.js:70-72 | Returns the data record. Its `attachment` is empty, `source` is the user once a question was asked, and `dateTime` is set exactly when every step succeeded. |
| `Patterns.NotBlankAcceptsNonBlank` | dialog.js:55 | `/^(?!\s*$).+/i` accepts only non-blank replies. It accepts every non-blank reply that does not start with a line terminator. |
| `Patterns.NotBlankMatchesRegex` | dialog.js:55 | The closed form used for `/^(?!\s*$).+/i` holds exactly when both parts of the regular expression succeed at index 0: the look-ahead finds no whitespace run that reaches the end of the text, and `.+` consumes at least one character that is not a line terminator. |
| `Patterns.SkipFromFindsOccurrence` | dialog.js:63 | The left-to-right search for `skip` from a position succeeds exactly when `skip`, in any ASCII letter case, occurs at or after that position. |
| `Patterns.ContainsSkipIff` | dialog.js:63 | `/skip/i` matches exactly the replies that contain `skip` in any ASCII letter case. |
| `Series.Outcome` | dialog.js:93 | What `async-series` reports. It is still running only while some step has not reported. It ends without error only once every step has reported. An error it ends with is one that a step reported. |
| `Series.RunningIff` | dialog.js:93 | The series is still waiting exactly when every step so far succeeded and some step has not reported yet. |
| `Series.CompletesIff` | dialog.js:93 | The final callback gets no error exactly when every step ran and succeeded. |
| `Series.EndsWithFirstError` | dialog.js:93 | The final callback gets error e exactly when some step failed with e and every step before it succeeded. |
| `Series.OutcomeAfterStep` | dialog.js:93 | After a run of successes, one more step's report either ends the series with its error, ends it without error if it was the last step, or leaves it running. |

## Left out

- `index.js` (the `DynamicConversation` manager) is not part of this model. It passes the robot as the callback, which the guard replaces with a no-op. It also calls `dialog.on` and `dialog.start`, which `Dialog` does not define.
- The switchboard library (`startDialog`, `addChoice`, dispatch, timeouts) cannot be seen. Its behaviour enters only through the dispatch assumptions above. Timeouts are not modelled.
- `async-series` is foreign code. Its documented semantics are modelled (`Series.Outcome`), not its implementation. The model also assumes its timing: step 0 runs before `series(...)` returns, and the next step runs inside the `done` call of the previous one. Two claims rest on this: a dialog with no questions has already called the callback when the constructor returns, and a handler's replies come before the next question's text.
- Option patterns (`new RegExp(option.match, 'i')`) go through a matcher function that is a parameter. A `match` string that is not a valid regular expression, which would throw while bindings are being registered, is not modelled.
- Chat I/O: replies are appended to an outbox sequence, and the user (`msg.envelope.user`) is an opaque string.
- `new Date()` is a timestamp token that the caller supplies.
- A null or undefined options argument throws only after dialog.js:8 has opened a switchboard dialog for the user. The model returns the error and does not capture the switchboard dialog left behind.
- `callback` and `messageOptions` values other than those in `CallbackArg` and `OptionsArg` are not modelled. For example, a string or a plain object as the options argument, or a question without an `answer` (which throws a TypeError).
- JavaScript truthiness of `option.valid` and `message.required` is modelled as `bool`. An absent `response` or `error` is modelled as a string.
- `DialogEngine.Dialog.Fetch`: returns the data record as a value. The aliasing of the returned object, where later handler updates are visible to whoever holds it, is not captured.
- Exceptions thrown by the user's callback and re-entrant calls into the dialog from handlers are not modelled.
