/** The examples of the matcher's test suite, each as a method that sets up
    a fresh `User`, runs the matcher, and promises the asserted outcome. */
module Scenarios {
  import opened Values
  import opened Subjects
  import opened Matching

  /** A fresh user whose `valid?` answers `answers`, with `errors[:name]`
      set to `["is not valid"]` when `nameErrors` holds. */
  method NewUser(answers: seq<bool>, nameErrors: bool) returns (user: User)
    ensures fresh(user)
    ensures user.State() == SubjectState(
      map[], if nameErrors then map["name" := ["is not valid"]] else map[], "User", answers, 0)
  {
    user := new User();
    user.StubValid(answers);
    if nameErrors {
      user.SetErrors("name", ["is not valid"]);
    }
  }

  /** `valid?` always true, `when(nil)`: passes; a lone nil counts as set. */
  method PassesWithNoValueSet() returns (r: Result<bool>)
    ensures r == Ok(true)
  {
    var user := NewUser([true], false);
    var m := new Matcher.HaveValid("name");
    m := m.When([Nil]);
    r := m.Matches(user);
  }

  /** `valid?` always true, `when('Brian', 'Stephanie')`: passes, trying both. */
  method PassesWithValuesSet() returns (r: Result<bool>, calls: nat)
    ensures r == Ok(true) && calls == 2
  {
    var user := NewUser([true], false);
    var m := new Matcher.HaveValid("name");
    m := m.When([Str("Brian"), Str("Stephanie")]);
    r := m.Matches(user);
    calls := user.validCalls;
  }

  /** `valid?` false, no message: fails. */
  method FailsWhenNoMessagePassed() returns (r: Result<bool>)
    ensures r == Ok(false)
  {
    var user := NewUser([false], true);
    var m := new Matcher.HaveValid("name");
    m := m.When([Nil]);
    r := m.Matches(user);
  }

  /** `valid?` false, a message not among the errors: the failure is
      disregarded and the matcher passes. */
  method PassesWhenWrongMessagePassed() returns (r: Result<bool>)
    ensures r == Ok(true)
  {
    var user := NewUser([false], true);
    var m := new Matcher.HaveValid("name");
    m := m.When([Nil]);
    m := m.Message("wrong message");
    r := m.Matches(user);
  }

  /** `valid?` false, the message that is among the errors: fails. */
  method FailsWhenCorrectMessagePassed() returns (r: Result<bool>)
    ensures r == Ok(false)
  {
    var user := NewUser([false], true);
    var m := new Matcher.HaveValid("name");
    m := m.When([Nil]);
    m := m.Message("is not valid");
    r := m.Matches(user);
  }

  /** `valid?` true then false over `'true'`, `'false'`: `valid?` is asked
      again for the second candidate, which decides a failing verdict. */
  method FailsWhenFirstValidThenInvalid() returns (r: Result<bool>, decided: Value, calls: nat)
    ensures r == Ok(false) && decided == Str("false") && calls == 2
  {
    var user := NewUser([true, false], true);
    var m := new Matcher.HaveValid("name");
    m := m.When([Str("true"), Str("false")]);
    r := m.Matches(user);
    decided := m.decided;
    calls := user.validCalls;
  }

  /** Runs `have_valid(attr).when(v)` (with `.message(text)` when given)
      against a user whose `valid?` is false and whose name is invalid. */
  method RunRejected(attr: string, v: Value, message: Option<string>) returns (m: Matcher)
    ensures fresh(m) && m.attr == attr && m.expectedMessage == message
    ensures m.subjectName == Some("User") && m.decided == v
  {
    var user := NewUser([false], true);
    m := new Matcher.HaveValid(attr);
    m := m.When([v]);
    if message.Some? {
      m := m.Message(message.value);
    }
    var _ := m.Matches(user);
  }

  /** The two renderings the suite asserts. */
  lemma RenderedExamples()
    ensures Render(Str("Brian")) == "'Brian'"
    ensures Render(Int(123)) == "123"
  {
    assert NatToDecimal(12) == "12";
  }

  lemma FailureMessageForStringSpelled()
    ensures AcceptMessage("User", "name", Str("Brian")) == " expected User#name to accept a value of 'Brian'"
  {
    RenderedExamples();
  }

  method FailureMessageForString() returns (text: string)
    ensures text == " expected User#name to accept a value of 'Brian'"
  {
    var m := RunRejected("name", Str("Brian"), None);
    text := m.FailureMessage();
    assert text == AcceptMessage("User", "name", Str("Brian"));
    FailureMessageForStringSpelled();
  }

  lemma FailureMessageForIntegerSpelled()
    ensures AcceptMessage("User", "name", Int(123)) == " expected User#name to accept a value of 123"
  {
    RenderedExamples();
  }

  method FailureMessageForInteger() returns (text: string)
    ensures text == " expected User#name to accept a value of 123"
  {
    var m := RunRejected("name", Int(123), None);
    text := m.FailureMessage();
    assert text == AcceptMessage("User", "name", Int(123));
    FailureMessageForIntegerSpelled();
  }

  lemma NegativeFailureMessageForStringSpelled()
    ensures RejectMessage("User", "name", Str("Brian"), None) == " expected User#name to not accept a value of 'Brian'"
  {
    RenderedExamples();
  }

  method NegativeFailureMessageForString() returns (text: string)
    ensures text == " expected User#name to not accept a value of 'Brian'"
  {
    var m := RunRejected("name", Str("Brian"), None);
    text := m.NegativeFailureMessage();
    assert text == RejectMessage("User", "name", Str("Brian"), None);
    NegativeFailureMessageForStringSpelled();
  }

  lemma NegativeFailureMessageForIntegerSpelled()
    ensures RejectMessage("User", "name", Int(123), None) == " expected User#name to not accept a value of 123"
  {
    RenderedExamples();
  }

  method NegativeFailureMessageForInteger() returns (text: string)
    ensures text == " expected User#name to not accept a value of 123"
  {
    var m := RunRejected("name", Int(123), None);
    text := m.NegativeFailureMessage();
    assert text == RejectMessage("User", "name", Int(123), None);
    NegativeFailureMessageForIntegerSpelled();
  }

  lemma NegativeFailureMessageForUnseenAttributeSpelled()
    ensures RejectMessage("User", "email", Int(123), None) == " expected User#email to not accept a value of 123"
  {
    RenderedExamples();
  }

  method NegativeFailureMessageForUnseenAttribute() returns (text: string)
    ensures text == " expected User#email to not accept a value of 123"
  {
    var m := RunRejected("email", Int(123), None);
    text := m.NegativeFailureMessage();
    assert text == RejectMessage("User", "email", Int(123), None);
    NegativeFailureMessageForUnseenAttributeSpelled();
  }

  lemma NegativeFailureMessageWithMessageSpelled()
    ensures RejectMessage("User", "name", Str("Brian"), Some("is not valid"))
      == " expected User#name to not accept a value of 'Brian' with a message of 'is not valid'"
  {
    NegativeFailureMessageForStringSpelled();
    assert RejectMessage("User", "name", Str("Brian"), Some("is not valid"))
      == " expected User#name to not accept a value of 'Brian'" + " with a message of '" + "is not valid" + "'";
  }

  method NegativeFailureMessageWithMessage() returns (text: string)
    ensures text == " expected User#name to not accept a value of 'Brian' with a message of 'is not valid'"
  {
    var m := RunRejected("name", Str("Brian"), Some("is not valid"));
    text := m.NegativeFailureMessage();
    assert text == RejectMessage("User", "name", Str("Brian"), Some("is not valid"));
    NegativeFailureMessageWithMessageSpelled();
  }

  /** `matches?` without `.when` raises NoValues with its instructions. */
  method RequiresWhen() returns (r: Result<bool>)
    ensures r == Err(NoValues("you need to set the values with .when on the matcher (ex. it { should have_valid(:name).when('Brian') })"))
  {
    var user := new User();
    var m := new Matcher.HaveValid("name");
    r := m.Matches(user);
  }
}
