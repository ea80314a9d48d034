/** The `have_valid(attr).when(values...).message(text)` matcher: it tries
    each candidate value on the attribute, asks the subject whether it is
    `valid?`, decides whether the attribute accepts every candidate, and
    renders the two failure messages. */
module Matching {
  import opened Values
  import opened Subjects

  datatype Option<T> = None | Some(value: T)

  /** The one misuse condition: `matches?` on a matcher without values. */
  datatype MatchError = NoValues(text: string)

  datatype Result<T> = Ok(value: T) | Err(error: MatchError)

  const NoValuesText: string :=
    "you need to set the values with .when on the matcher (ex. it { should have_valid(:name).when('Brian') })"

  /** The result of one evaluation: whether every candidate was accepted,
      the candidate that decided it (the first genuinely rejected one, or
      the last one tried), and how many `valid?` calls were made. */
  datatype Outcome = Outcome(verdict: bool, decided: Value, calls: nat)

  /** The `j`-th candidate of an evaluation starting at `s` is genuinely
      rejected: `valid?` says no, and either no message is expected or the
      expected one is among the attribute's errors. */
  predicate GenuineRejection(attr: string, message: Option<string>, s: SubjectState, j: nat): (r: bool)
    ensures ValidAnswer(s, j) ==> !r
    ensures message.None? ==> (r <==> !ValidAnswer(s, j))
    ensures message.Some? && message.value !in ErrorsOf(s.errors, attr) ==> !r
    ensures message.Some? && message.value in ErrorsOf(s.errors, attr) ==> (r <==> !ValidAnswer(s, j))
  {
    !ValidAnswer(s, j) && (message.None? || message.value in ErrorsOf(s.errors, attr))
  }

  /** The scan of `matches?` from candidate `i` on: one `valid?` call per
      candidate, in order, stopping at the first genuine rejection. */
  function Scan(attr: string, values: seq<Value>, message: Option<string>, s: SubjectState, i: nat): (o: Outcome)
    requires i < |values|
    ensures i < o.calls <= |values|
    ensures o.decided == values[o.calls - 1]
    ensures o.verdict ==> o.calls == |values|
    decreases |values| - i
  {
    if GenuineRejection(attr, message, s, i) then Outcome(false, values[i], i + 1)
    else if i + 1 == |values| then Outcome(true, values[i], i + 1)
    else Scan(attr, values, message, s, i + 1)
  }

  /** `matches?` as a function of the configuration and the subject. */
  function Evaluate(attr: string, candidates: Option<seq<Value>>, message: Option<string>, s: SubjectState): (r: Result<Outcome>)
    ensures r.Err? <==> (candidates.None? || candidates.value == [])
    ensures r.Err? ==> r.error == NoValues("you need to set the values with .when on the matcher (ex. it { should have_valid(:name).when('Brian') })")
    ensures r.Ok? ==> r.value.calls <= |candidates.value|
  {
    if candidates.None? || candidates.value == [] then Err(NoValues(NoValuesText))
    else Ok(Scan(attr, candidates.value, message, s, 0))
  }

  /** The subject after an evaluation: the attribute holds the deciding
      candidate (the last one assigned) and `valid?` was called once per
      candidate tried. */
  function AfterRun(s: SubjectState, attr: string, o: Outcome): SubjectState {
    s.(attributes := s.attributes[attr := o.decided], calls := s.calls + o.calls)
  }

  /** The scan stops exactly at the first genuine rejection: every earlier
      candidate was let through, the deciding one was rejected exactly when
      the verdict is false, and the verdict is false exactly when some
      candidate would be genuinely rejected. */
  lemma {:induction false} ScanStopsAtFirstRejection(attr: string, values: seq<Value>, message: Option<string>, s: SubjectState, i: nat)
    requires i < |values|
    ensures var o := Scan(attr, values, message, s, i);
      && (forall j :: i <= j < o.calls - 1 ==> !GenuineRejection(attr, message, s, j))
      && (o.verdict <==> !GenuineRejection(attr, message, s, o.calls - 1))
      && (!o.verdict <==> exists j :: i <= j < |values| && GenuineRejection(attr, message, s, j))
    decreases |values| - i
  {
    if !GenuineRejection(attr, message, s, i) && i + 1 < |values| {
      ScanStopsAtFirstRejection(attr, values, message, s, i + 1);
    }
  }

  /** When `valid?` answers true for every candidate, the matcher passes
      having tried them all. */
  lemma AlwaysValidAccepts(attr: string, values: seq<Value>, message: Option<string>, s: SubjectState)
    requires values != []
    requires forall j :: 0 <= j < |values| ==> ValidAnswer(s, j)
    ensures Evaluate(attr, Some(values), message, s) == Ok(Outcome(true, values[|values| - 1], |values|))
  {
    ScanStopsAtFirstRejection(attr, values, message, s, 0);
  }

  /** Without an expected message, every failed `valid?` counts: the matcher
      passes exactly when each candidate's own `valid?` call answers true,
      and otherwise stops at the first candidate answered false. */
  lemma WithoutMessageEveryFailureCounts(attr: string, values: seq<Value>, s: SubjectState)
    requires values != []
    ensures var o := Evaluate(attr, Some(values), None, s).value;
      && (o.verdict <==> forall j :: 0 <= j < |values| ==> ValidAnswer(s, j))
      && (!o.verdict ==> !ValidAnswer(s, o.calls - 1) && forall j :: 0 <= j < o.calls - 1 ==> ValidAnswer(s, j))
  {
    ScanStopsAtFirstRejection(attr, values, None, s, 0);
    var o := Scan(attr, values, None, s, 0);
    if !o.verdict {
      forall j | 0 <= j < o.calls - 1 ensures ValidAnswer(s, j) {
        assert !GenuineRejection(attr, None, s, j);
      }
    } else {
      forall j | 0 <= j < |values| ensures ValidAnswer(s, j) {
        assert !GenuineRejection(attr, None, s, j);
      }
    }
  }

  /** An expected message that is not among the attribute's errors makes
      every failure of `valid?` irrelevant: the matcher passes having tried
      every candidate. */
  lemma UnmatchedMessageIgnoresFailures(attr: string, values: seq<Value>, text: string, s: SubjectState)
    requires values != []
    requires text !in ErrorsOf(s.errors, attr)
    ensures Evaluate(attr, Some(values), Some(text), s) == Ok(Outcome(true, values[|values| - 1], |values|))
  {
    ScanStopsAtFirstRejection(attr, values, Some(text), s, 0);
  }

  /** An expected message that is among the attribute's errors makes every
      failure of `valid?` count, as if no message were expected. */
  lemma MatchedMessageCountsFailures(attr: string, values: seq<Value>, text: string, s: SubjectState)
    requires text in ErrorsOf(s.errors, attr)
    ensures Evaluate(attr, Some(values), Some(text), s) == Evaluate(attr, Some(values), None, s)
  {
    if values != [] {
      MatchedMessageScan(attr, values, text, s, 0);
    }
  }

  lemma {:induction false} MatchedMessageScan(attr: string, values: seq<Value>, text: string, s: SubjectState, i: nat)
    requires i < |values|
    requires text in ErrorsOf(s.errors, attr)
    ensures Scan(attr, values, Some(text), s, i) == Scan(attr, values, None, s, i)
    decreases |values| - i
  {
    if i + 1 < |values| {
      MatchedMessageScan(attr, values, text, s, i + 1);
    }
  }

  /** The head shared by both failure messages: " expected ", the model
      name and the attribute joined by `#`, then the phrase. */
  function Expected(model: string, attr: string, phrase: string): string {
    " expected " + model + "#" + attr + phrase
  }

  /** `failure_message` for a subject of model `model` and deciding value `v`. */
  function AcceptMessage(model: string, attr: string, v: Value): (r: string)
    ensures r == " expected " + model + "#" + attr + " to accept a value of " + Render(v)
  {
    Expected(model, attr, " to accept a value of ") + Render(v)
  }

  /** `negative_failure_message`: like the positive one with "to not accept",
      followed by the expected message when one is configured. */
  function RejectMessage(model: string, attr: string, v: Value, message: Option<string>): (r: string)
    ensures message.None? ==>
      r == " expected " + model + "#" + attr + " to not accept a value of " + Render(v)
    ensures message.Some? ==>
      r == " expected " + model + "#" + attr + " to not accept a value of " + Render(v)
        + " with a message of '" + message.value + "'"
  {
    var base := Expected(model, attr, " to not accept a value of ") + Render(v);
    if message.Some? then base + " with a message of '" + message.value + "'" else base
  }

  lemma SamePrefixSameRest(head: string, x: string, y: string)
    requires head + x == head + y
    ensures x == y
  {
    assert x == (head + x)[|head|..];
    assert y == (head + y)[|head|..];
  }

  lemma SameSuffixSameRest(x: string, y: string, tail: string)
    requires x + tail == y + tail
    ensures x == y
  {
    assert x == (x + tail)[..|x|];
    assert y == (y + tail)[..|y|];
  }

  /** The positive failure message names the deciding value unambiguously. */
  lemma AcceptMessageIdentifiesValue(model: string, attr: string, v: Value, w: Value)
    requires AcceptMessage(model, attr, v) == AcceptMessage(model, attr, w)
    ensures v == w
  {
    SamePrefixSameRest(Expected(model, attr, " to accept a value of "), Render(v), Render(w));
    RenderInjective(v, w);
  }

  /** The negative failure message names the deciding value unambiguously
      too, whether or not a message is expected. */
  lemma RejectMessageIdentifiesValue(model: string, attr: string, v: Value, w: Value, message: Option<string>)
    requires RejectMessage(model, attr, v, message) == RejectMessage(model, attr, w, message)
    ensures v == w
  {
    var head := Expected(model, attr, " to not accept a value of ");
    if message.Some? {
      var bv, bw := head + Render(v), head + Render(w);
      var opening, text := " with a message of '", message.value;
      SameSuffixSameRest(bv + opening + text, bw + opening + text, "'");
      SameSuffixSameRest(bv + opening, bw + opening, text);
      SameSuffixSameRest(bv, bw, opening);
    }
    SamePrefixSameRest(head, Render(v), Render(w));
    RenderInjective(v, w);
  }

  class Matcher {
    const attr: string
    var candidates: Option<seq<Value>>
    var expectedMessage: Option<string>
    /** The candidate that decided the last evaluation. */
    var decided: Value
    /** The model name of the subject last evaluated; None before `matches?`. */
    var subjectName: Option<string>

    /** `have_valid(attr)`: a matcher with no values and no message. */
    constructor HaveValid(attr: string)
      ensures this.attr == attr && candidates == None && expectedMessage == None
      ensures decided == Nil && subjectName == None
    {
      this.attr := attr;
      candidates := None;
      expectedMessage := None;
      decided := Nil;
      subjectName := None;
    }

    /** `.when(values...)`: replaces the candidate list and returns the
        matcher itself. */
    method When(values: seq<Value>) returns (self: Matcher)
      modifies this
      ensures self == this && candidates == Some(values)
      ensures expectedMessage == old(expectedMessage) && decided == old(decided) && subjectName == old(subjectName)
    {
      candidates := Some(values);
      self := this;
    }

    /** `.message(text)`: sets the expected message and returns the matcher
        itself. */
    method Message(text: string) returns (self: Matcher)
      modifies this
      ensures self == this && expectedMessage == Some(text)
      ensures candidates == old(candidates) && decided == old(decided) && subjectName == old(subjectName)
    {
      expectedMessage := Some(text);
      self := this;
    }

    /** `matches?(subject)`: NoValues without candidates; otherwise assigns
        each candidate in turn, asks `valid?` once for it, and stops at the
        first genuine rejection. */
    method Matches(subject: User) returns (r: Result<bool>)
      modifies this, subject
      ensures candidates == old(candidates) && expectedMessage == old(expectedMessage)
      ensures match Evaluate(attr, candidates, expectedMessage, old(subject.State()))
        case Err(e) =>
          && r == Err(e)
          && subject.State() == old(subject.State())
          && decided == old(decided) && subjectName == old(subjectName)
        case Ok(o) =>
          && r == Ok(o.verdict)
          && subject.State() == AfterRun(old(subject.State()), attr, o)
          && decided == o.decided && subjectName == Some(subject.modelName)
    {
      if candidates.None? || candidates.value == [] {
        return Err(NoValues(NoValuesText));
      }
      var values := candidates.value;
      ghost var s0 := subject.State();
      subjectName := Some(subject.modelName);
      var i := 0;
      var rejected := false;
      while i < |values| && !rejected
        invariant 0 <= i <= |values|
        invariant candidates == old(candidates) && expectedMessage == old(expectedMessage)
        invariant subjectName == Some(subject.modelName)
        invariant subject.errors == s0.errors && subject.answers == s0.answers
        invariant subject.validCalls == s0.calls + i
        invariant subject.attributes == if i == 0 then s0.attributes else s0.attributes[attr := values[i - 1]]
        invariant i > 0 ==> decided == values[i - 1]
        invariant rejected ==> i > 0 && Scan(attr, values, expectedMessage, s0, 0) == Outcome(false, values[i - 1], i)
        invariant !rejected && i < |values| ==> Scan(attr, values, expectedMessage, s0, 0) == Scan(attr, values, expectedMessage, s0, i)
        invariant !rejected && i == |values| ==> Scan(attr, values, expectedMessage, s0, 0) == Outcome(true, values[i - 1], i)
        decreases |values| - i
      {
        decided := values[i];
        subject.Assign(attr, values[i]);
        var ok := subject.IsValid();
        if !ok && (expectedMessage.None? || expectedMessage.value in ErrorsOf(subject.errors, attr)) {
          rejected := true;
        }
        i := i + 1;
      }
      r := Ok(!rejected);
    }

    /** `failure_message`, read after `matches?`: the positive message for
        the state `Matches` recorded. The template is AcceptMessage's
        contract; the exact texts are pinned by the Scenarios module. */
    function FailureMessage(): (m: string)
      reads this
      requires subjectName.Some?
      ensures m == AcceptMessage(subjectName.value, attr, decided)
    {
      AcceptMessage(subjectName.value, attr, decided)
    }

    /** `negative_failure_message`, read after `matches?`: the negative
        message for the recorded state and the configured message. The
        template is RejectMessage's contract. */
    function NegativeFailureMessage(): (m: string)
      reads this
      requires subjectName.Some?
      ensures m == RejectMessage(subjectName.value, attr, decided, expectedMessage)
    {
      RejectMessage(subjectName.value, attr, decided, expectedMessage)
    }
  }
}
