/** The Chancenblatt questionnaire: one question at a time, answers by question id, and the scoring at the end. */
module ChancenblattFlow {
  import opened Wrappers
  import opened ChancenblattQuestions

  /** How many of the questions in `qs` the answers assign to `kind`. */
  function Tally(qs: seq<Question>, answers: map<string, string>, kind: ResultType): nat
  {
    if qs == [] then 0
    else Tally(qs[..|qs| - 1], answers, kind) + (if MatchedKind(qs[|qs| - 1], answers) == Some(kind) then 1 else 0)
  }

  /** How many of the questions in `qs` have an answer matching one of their options. */
  function Matched(qs: seq<Question>, answers: map<string, string>): nat
  {
    if qs == [] then 0
    else Matched(qs[..|qs| - 1], answers) + (if MatchedKind(qs[|qs| - 1], answers).Some? then 1 else 0)
  }

  /** Every matched question scores exactly one point, for exactly one type. */
  lemma {:induction false} TallyTotal(qs: seq<Question>, answers: map<string, string>)
    ensures Tally(qs, answers, O) + Tally(qs, answers, A) + Tally(qs, answers, S) + Tally(qs, answers, V)
      == Matched(qs, answers) <= |qs|
  {
    if qs != [] {
      TallyTotal(qs[..|qs| - 1], answers);
      var init, last := qs[..|qs| - 1], qs[|qs| - 1];
      var m := MatchedKind(last, answers);
      forall k ensures Tally(qs, answers, k) == Tally(init, answers, k) + (if m == Some(k) then 1 else 0) {
      }
      assert Matched(qs, answers) == Matched(init, answers) + (if m.Some? then 1 else 0);
      if m.Some? {
        match m.value
        case O =>
        case A =>
        case S =>
        case V =>
      }
    }
  }

  /** Position in the tie-break order. */
  function Rank(k: ResultType): nat {
    match k
    case O => 0
    case A => 1
    case S => 2
    case V => 3
  }

  function CountOf(k: ResultType, o: nat, a: nat, s: nat, v: nat): nat {
    match k
    case O => o
    case A => a
    case S => s
    case V => v
  }

  /** The result of `finish`: a type with the highest count, the earliest of them in the order O, A, S, V. */
  function PickResult(o: nat, a: nat, s: nat, v: nat): (r: ResultType)
    ensures forall k :: CountOf(k, o, a, s, v) <= CountOf(r, o, a, s, v)
    ensures forall k :: Rank(k) < Rank(r) ==> CountOf(k, o, a, s, v) < CountOf(r, o, a, s, v)
  {
    var max := if o >= a && o >= s && o >= v then o
      else if a >= s && a >= v then a
      else if s >= v then s
      else v;
    if o == max then O
    else if a == max then A
    else if s == max then S
    else V
  }

  /** The questionnaire component's state. */
  class Flow {
    var step: nat
    var answers: map<string, string>
    var finished: bool
    var resultType: Option<ResultType>

    /** The step indexes a question, and a result type exists exactly when the flow is finished. */
    predicate Valid()
      reads this
    {
      step < |Questions| && (finished <==> resultType.Some?)
    }

    constructor ()
      ensures Valid()
      ensures step == 0 && answers == map[] && !finished && resultType == None
    {
      step := 0;
      answers := map[];
      finished := false;
      resultType := None;
    }

    /** The id of the question on screen. */
    function CurrentId(): string
      reads this
      requires Valid()
    {
      Questions[step].id
    }

    /** An answer counts only when it is present and not the empty string. */
    predicate CurrentAnswered()
      reads this
      requires Valid()
    {
      CurrentId() in answers && answers[CurrentId()] != ""
    }

    /** The evaluation replaces the questionnaire once `finish` has run. */
    predicate ShowsEvaluation()
      reads this
    {
      finished && resultType.Some?
    }

    /** `handleSelect`: records the answer for the current question only. */
    method HandleSelect(value: string)
      requires Valid()
      modifies this
      ensures Valid()
      ensures answers == old(answers)[Questions[old(step)].id := value]
      ensures step == old(step) && finished == old(finished) && resultType == old(resultType)
    {
      answers := answers[CurrentId() := value];
    }

    /** `next`: stays put without an answer; otherwise moves on, or finishes on the last question. */
    method Next()
      requires Valid()
      modifies this
      ensures Valid()
      ensures answers == old(answers)
      ensures !old(CurrentAnswered()) ==> step == old(step) && finished == old(finished) && resultType == old(resultType)
      ensures old(CurrentAnswered()) && old(step) + 1 < |Questions| ==>
        step == old(step) + 1 && finished == old(finished) && resultType == old(resultType)
      ensures old(CurrentAnswered()) && old(step) + 1 == |Questions| ==>
        step == old(step) && ShowsEvaluation() && resultType == Some(Outcome(answers))
    {
      if !CurrentAnswered() {
        return;
      }
      if step + 1 < |Questions| {
        step := step + 1;
      } else {
        Finish();
      }
    }

    /** `back`: nothing at the first question, otherwise one question back. */
    method Back()
      requires Valid()
      modifies this
      ensures Valid()
      ensures answers == old(answers) && finished == old(finished) && resultType == old(resultType)
      ensures old(step) == 0 ==> step == 0
      ensures old(step) > 0 ==> step == old(step) - 1
    {
      if step == 0 {
        return;
      }
      step := step - 1;
    }

    /** `finish`: counts one point per matched question for its option's type, then picks the result. */
    method Finish()
      requires Valid()
      modifies this
      ensures Valid()
      ensures step == old(step) && answers == old(answers)
      ensures finished && resultType == Some(Outcome(answers))
    {
      var o, a, s, v := CountKinds(Questions, answers);
      resultType := Some(PickResult(o, a, s, v));
      finished := true;
    }
  }

  /** The counting loop of `finish`: one point per question whose answer matches an option, for that option's type. */
  method CountKinds(qs: seq<Question>, answers: map<string, string>) returns (o: nat, a: nat, s: nat, v: nat)
    ensures o == Tally(qs, answers, O) && a == Tally(qs, answers, A)
    ensures s == Tally(qs, answers, S) && v == Tally(qs, answers, V)
  {
    o, a, s, v := 0, 0, 0, 0;
    for i := 0 to |qs|
      invariant o == Tally(qs[..i], answers, O)
      invariant a == Tally(qs[..i], answers, A)
      invariant s == Tally(qs[..i], answers, S)
      invariant v == Tally(qs[..i], answers, V)
    {
      assert qs[..i + 1][..i] == qs[..i];
      var q := qs[i];
      if q.id in answers {
        var opt := FindOption(q.options, answers[q.id]);
        if opt.Some? {
          match opt.value.kind {
            case O => o := o + 1;
            case A => a := a + 1;
            case S => s := s + 1;
            case V => v := v + 1;
          }
        }
      }
    }
    assert qs[..|qs|] == qs;
  }

  /** The result type the answers lead to. */
  function Outcome(answers: map<string, string>): ResultType {
    PickResult(
      Tally(Questions, answers, O), Tally(Questions, answers, A),
      Tally(Questions, answers, S), Tally(Questions, answers, V))
  }

  /** With no matching answer at all, every count is zero and the tie-break gives O. */
  lemma NoAnswersGivesO(answers: map<string, string>)
    requires forall i :: 0 <= i < |Questions| ==> MatchedKind(Questions[i], answers).None?
    ensures Outcome(answers) == O
  {
    NoMatchesTallyZero(Questions, answers);
  }

  lemma {:induction false} NoMatchesTallyZero(qs: seq<Question>, answers: map<string, string>)
    requires forall i :: 0 <= i < |qs| ==> MatchedKind(qs[i], answers).None?
    ensures forall k :: Tally(qs, answers, k) == 0
  {
    if qs != [] {
      NoMatchesTallyZero(qs[..|qs| - 1], answers);
    }
  }
}
