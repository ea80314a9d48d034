# valid_attribute: the `have_valid` matcher, modelled in Dafny

`valid_attribute` provides an RSpec matcher written
`have_valid(:attr).when(values...).message(text)`. The matcher assigns each
candidate value to an attribute of a model object in turn and calls the
object's `valid?` after each assignment. It passes when the attribute accepts
every candidate. A failing `valid?` counts as a rejection only when no message
is expected, or when the expected message is among `errors[attr]`. The first
rejection stops the scan. The candidate that decided the verdict is then
rendered into the two failure messages:

- `failure_message`: `" expected User#name to accept a value of 'Brian'"`
- `negative_failure_message`: `" expected User#name to not accept a value of 'Brian'"`.
  It also gets `" with a message of '<text>'"` when a message was configured.

If `matches?` runs before `.when`, it raises `NoValues` with a fixed
instructional text.

The matcher's own implementation is not part of this model. The behaviour is
taken from what `spec/valid_attribute_spec.rb` asserts about it. The subject
object of that file is modelled too: `User`, with attribute writers, an
`errors` hash, the model name `User`, and a stubbed `valid?`.

Modules:

- `Values` (`values.dfy`): the candidate values `Nil | Str | Int` and their
  rendering. A string renders in single quotes; an integer renders in decimal,
  as Ruby's `to_s` writes it. Rendering comes with a decimal parser and
  round-trip lemmas.
- `Subjects` (`subjects.dfy`): the `User` class, whose methods update its
  fields in place, and a `SubjectState` value for the specification.
  `valid?` gives a programmed sequence of answers, one per call.
- `Matching` (`matching.dfy`): the specification functions `Scan` and
  `Evaluate` of `matches?` and the lemmas about them. It also holds the
  message functions and the `Matcher` class. The class's `Matches` method is
  a loop proved to compute `Evaluate`, and to leave the subject as `AfterRun`
  describes.
- `Scenarios` (`scenarios.dfy`): one method per example of the test file.
  Each builds a `User` and a `Matcher` and promises the outcome that example
  asserts.

## Model

| member | source | states |
|---|---|---|
| Values.Render | spec/valid_attribute_spec.rb:86-92 | a string renders in single quotes, without escaping; an integer renders bare in canonical decimal and parses back to itself: all digits with no leading zero (zero alone is `0`) when non-negative, a `-` then such digits with a non-zero first digit when negative; nil renders as the empty string (never asserted, and not part of the contract) |
| Values.NatToDecimal | spec/valid_attribute_spec.rb:92 | an integer prints as a non-empty run of digits that starts with `0` exactly when the number is zero, and then is just `0` |
| Values.DecimalRoundTrip | spec/valid_attribute_spec.rb:89-93 | reading the printed digits back gives the number again |
| Values.IntRoundTrip | spec/valid_attribute_spec.rb:89-93 | the bare rendering of any integer, negative ones included, parses back to that integer |
| Values.RenderQuotesExactlyStrings | spec/valid_attribute_spec.rb:83-93 | a rendered value starts with a single quote if and only if the value is a string; integers render bare |
| Values.RenderInjective | spec/valid_attribute_spec.rb:83-93 | two values that render alike are equal, so the rendering identifies the deciding value |
| Subjects.User.constructor | spec/valid_attribute_spec.rb:7-18 | a new user has no attributes set, an empty `errors` hash, model name `User` and a `valid?` with no programmed answers |
| Subjects.User.Assign | spec/valid_attribute_spec.rb:8-9 | the attribute writer changes that one attribute to the value and leaves errors and stub state alone |
| Subjects.User.SetErrors | spec/valid_attribute_spec.rb:46 | `errors[attr] = msgs` replaces that attribute's messages and nothing else |
| Subjects.User.StubValid | spec/valid_attribute_spec.rb:67 | programming `valid?` installs the answer sequence and restarts its call count |
| Subjects.User.IsValid | spec/valid_attribute_spec.rb:29 | each `valid?` call gives the next programmed answer (the last one once they run out), counts exactly one call, and changes no attribute or error |
| Matching.GenuineRejection | spec/valid_attribute_spec.rb:43-62 | the message filter: a `valid?` answer of true never rejects; with no expected message every false answer rejects; an expected message absent from `errors[attr]` never rejects; one present there rejects exactly on a false answer |
| Matching.Scan | spec/valid_attribute_spec.rb:65-75 | the scan makes between one and all candidates' worth of `valid?` calls; the deciding value is the last candidate tried; a passing verdict means every candidate was tried |
| Matching.Evaluate | spec/valid_attribute_spec.rb:127-132 | evaluation fails with `NoValues` and the exact instructional text exactly when no candidates are configured (a lone `nil` counts as configured); otherwise no more `valid?` calls are made than there are candidates |
| Matching.ScanStopsAtFirstRejection | spec/valid_attribute_spec.rb:43-75 | the scan stops at the first genuine rejection: every earlier candidate was let through; the verdict is false exactly when some candidate is genuinely rejected, and then it is the deciding one |
| Matching.AlwaysValidAccepts | spec/valid_attribute_spec.rb:27-41 | when `valid?` answers true for every candidate, the matcher passes after trying all of them, and the last one decides |
| Matching.WithoutMessageEveryFailureCounts | spec/valid_attribute_spec.rb:43-52 | with no expected message, the matcher passes if and only if every per-candidate `valid?` call answers true; otherwise the first candidate answered false decides |
| Matching.UnmatchedMessageIgnoresFailures | spec/valid_attribute_spec.rb:54-57 | an expected message absent from `errors[attr]` makes every `valid?` failure irrelevant: the matcher passes after trying every candidate |
| Matching.MatchedMessageCountsFailures | spec/valid_attribute_spec.rb:59-62 | an expected message present in `errors[attr]` gives the same outcome as expecting no message, so a failing `valid?` rejects |
| Matching.AcceptMessage | spec/valid_attribute_spec.rb:86-92 | the positive template: `" expected " + model + "#" + attr + " to accept a value of " + Render(v)` |
| Matching.RejectMessage | spec/valid_attribute_spec.rb:105-117 | the negative template: `" expected " + model + "#" + attr + " to not accept a value of " + Render(v)`, followed by `" with a message of '" + text + "'"` exactly when a message `text` is configured |
| Matching.AcceptMessageIdentifiesValue | spec/valid_attribute_spec.rb:83-93 | two positive failure messages for the same model and attribute are equal only when the deciding values are equal |
| Matching.RejectMessageIdentifiesValue | spec/valid_attribute_spec.rb:102-118 | the same for the negative failure message, with or without the expected-message clause |
| Matching.Matcher.HaveValid | spec/valid_attribute_spec.rb:128 | `have_valid(attr)` gives a matcher for that attribute with no values, no message and nothing evaluated |
| Matching.Matcher.When | spec/valid_attribute_spec.rb:33 | `.when(values...)` replaces the candidate list, keeps the rest of the configuration, and returns the same matcher |
| Matching.Matcher.Message | spec/valid_attribute_spec.rb:55 | `.message(text)` sets the expected message, keeps the candidates, and returns the same matcher |
| Matching.Matcher.Matches | spec/valid_attribute_spec.rb:84-85 | `matches?` returns `NoValues` and changes nothing when unconfigured. Otherwise it returns the verdict of `Evaluate` and records the deciding value and the subject's model name. The subject ends with the deciding value in the attribute and one more `valid?` call per candidate tried |
| Matching.Matcher.FailureMessage | spec/valid_attribute_spec.rb:86 | `failure_message` is the positive message for the recorded model name, the matcher's attribute and the deciding value |
| Matching.Matcher.NegativeFailureMessage | spec/valid_attribute_spec.rb:105-117 | `negative_failure_message` is the negative message for the recorded model name, the attribute and the deciding value, including the configured expected message |
| Scenarios.PassesWithNoValueSet | spec/valid_attribute_spec.rb:32-35 | always-valid user, `when(nil)`: `matches?` is true |
| Scenarios.PassesWithValuesSet | spec/valid_attribute_spec.rb:37-40 | always-valid user, two strings: `matches?` is true and `valid?` was called twice |
| Scenarios.FailsWhenNoMessagePassed | spec/valid_attribute_spec.rb:49-52 | invalid user, no message: `matches?` is false |
| Scenarios.PassesWhenWrongMessagePassed | spec/valid_attribute_spec.rb:54-57 | invalid user, a message not among the errors: `matches?` is true |
| Scenarios.FailsWhenCorrectMessagePassed | spec/valid_attribute_spec.rb:59-62 | invalid user, the message among the errors: `matches?` is false |
| Scenarios.FailsWhenFirstValidThenInvalid | spec/valid_attribute_spec.rb:65-74 | `valid?` true then false over `'true'`, `'false'`: `matches?` is false, after two calls, with `'false'` deciding |
| Scenarios.FailureMessageForString | spec/valid_attribute_spec.rb:83-87 | the exact text `" expected User#name to accept a value of 'Brian'"` |
| Scenarios.FailureMessageForInteger | spec/valid_attribute_spec.rb:89-93 | the exact text `" expected User#name to accept a value of 123"` |
| Scenarios.NegativeFailureMessageForString | spec/valid_attribute_spec.rb:102-106 | the exact text `" expected User#name to not accept a value of 'Brian'"` |
| Scenarios.NegativeFailureMessageForInteger | spec/valid_attribute_spec.rb:108-112 | the exact text `" expected User#name to not accept a value of 123"` |
| Scenarios.NegativeFailureMessageWithMessage | spec/valid_attribute_spec.rb:114-118 | the exact text ending `" with a message of 'is not valid'"` |
| Scenarios.NegativeFailureMessageForUnseenAttribute | spec/valid_attribute_spec.rb:120-124 | for `email`, which has no `errors` entry, the exact text `" expected User#email to not accept a value of 123"` |
| Scenarios.RequiresWhen | spec/valid_attribute_spec.rb:127-132 | `matches?` without `.when` gives `NoValues` with the exact instructional text |

## Left out

- The RSpec DSL (`describe`, `it`, `before`, `should`, `raise_error`) and the
  spec helper are not modelled. Each example is a method whose `ensures`
  states what the example asserts.
- Mocha's stubbing machinery is not modelled. A stub is a sequence of answers
  indexed by call count. After the sequence runs out, its last answer repeats,
  as Mocha's does. An empty sequence answers false; in Ruby, a `User` never
  stubbed has no `valid?` at all.
- Ruby reflection is not modelled: `send("attr=")`, `include ValidAttribute`,
  and the lazy `@error ||= {}`. Attributes are map entries, and the errors map
  starts empty. The model accepts any attribute name; the Ruby `User` has
  writers only for `name` and `email`.
- A real validation engine behind `valid?` is not modelled. The stub neither
  reads the attributes nor writes `errors`.
- `nil` rendering: the test file never asserts it. The model renders `nil` as
  the empty string (Ruby's interpolation of `nil`). `RenderInjective`,
  `RenderQuotesExactlyStrings` and the two `*IdentifiesValue` message lemmas
  built on them cover `nil` as well. They rely only on `nil` rendering unlike
  any string or integer, which would hold just as well if it rendered as `nil`.
- Only single-quoted strings and bare integers are rendered; general Ruby
  `inspect` formatting is not modelled. A quote inside a string is not escaped.
- `.when()` with no values: the model raises `NoValues`, the same as never
  calling `.when`. The test file pins only the never-called case.
- An expected message with no `errors` entry for the attribute: the model
  treats the entry as an empty list, so the failure is disregarded.
- Matching.Matcher.FailureMessage and Matching.Matcher.NegativeFailureMessage:
  both require that `matches?` has run, which is where the model name comes
  from. In Ruby, calling them earlier fails on a `nil` subject.
