/** The subject a matcher exercises: the `User` double of the suite, with
    attribute accessors, an `errors` hash, a fixed model name and a `valid?`
    stubbed to give a programmed sequence of answers. */
module Subjects {
  import opened Values

  /** A snapshot of a subject: what the matcher's specification reads and
      what it changes. `calls` counts the `valid?` calls answered so far. */
  datatype SubjectState = SubjectState(
    attributes: map<string, Value>,
    errors: map<string, seq<string>>,
    modelName: string,
    answers: seq<bool>,
    calls: nat)

  /** The answer a stub programmed with `answers` gives on call number `k`
      (from 0): the programmed answers in order, then the last one again and
      again; a stub with no programmed answer gives a falsy result. */
  function StubAnswer(answers: seq<bool>, k: nat): bool {
    if answers == [] then false
    else if k < |answers| then answers[k]
    else answers[|answers| - 1]
  }

  /** What `valid?` answers on the `j`-th call from snapshot `s` on. */
  function ValidAnswer(s: SubjectState, j: nat): bool {
    StubAnswer(s.answers, s.calls + j)
  }

  /** `errors[attr]`, with an attribute that has no entry read as having no
      messages. */
  function ErrorsOf(errors: map<string, seq<string>>, attr: string): seq<string> {
    if attr in errors then errors[attr] else []
  }

  class User {
    var attributes: map<string, Value>
    var errors: map<string, seq<string>>
    const modelName: string
    var answers: seq<bool>
    var validCalls: nat

    function State(): SubjectState
      reads this
    {
      SubjectState(attributes, errors, modelName, answers, validCalls)
    }

    /** A fresh user: no attribute set, an empty `errors` hash, the model
        name `User`, and a `valid?` not yet programmed. */
    constructor ()
      ensures attributes == map[] && errors == map[] && modelName == "User"
      ensures answers == [] && validCalls == 0
    {
      attributes := map[];
      errors := map[];
      modelName := "User";
      answers := [];
      validCalls := 0;
    }

    /** The writer `attr=`: sets one attribute and nothing else. */
    method Assign(attr: string, v: Value)
      modifies this
      ensures attributes == old(attributes)[attr := v]
      ensures errors == old(errors) && answers == old(answers) && validCalls == old(validCalls)
    {
      attributes := attributes[attr := v];
    }

    /** `errors[attr] = msgs`: replaces the messages of one attribute. */
    method SetErrors(attr: string, msgs: seq<string>)
      modifies this
      ensures errors == old(errors)[attr := msgs]
      ensures attributes == old(attributes) && answers == old(answers) && validCalls == old(validCalls)
    {
      errors := errors[attr := msgs];
    }

    /** Programs `valid?` to give `answers` on its next calls, as a stub
        with `returns(a).then.returns(b)...` does. */
    method StubValid(answers: seq<bool>)
      modifies this
      ensures this.answers == answers && validCalls == 0
      ensures attributes == old(attributes) && errors == old(errors)
    {
      this.answers := answers;
      validCalls := 0;
    }

    /** `valid?`: gives the next programmed answer and counts the call; it
        touches neither the attributes nor the errors. */
    method IsValid() returns (b: bool)
      modifies this
      ensures b == ValidAnswer(old(State()), 0)
      ensures validCalls == old(validCalls) + 1
      ensures attributes == old(attributes) && errors == old(errors) && answers == old(answers)
    {
      b := StubAnswer(answers, validCalls);
      validCalls := validCalls + 1;
    }
  }
}
