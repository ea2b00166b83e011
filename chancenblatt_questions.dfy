/** The six Chancenblatt questions, each with four answers that point to one of the four result types. */
module ChancenblattQuestions {
  import opened Wrappers

  /** The four profiles the questionnaire can end in, in their tie-break order. */
  datatype ResultType = O | A | S | V

  datatype AnswerOption = AnswerOption(caption: string, value: string, kind: ResultType)

  datatype Question = Question(id: string, text: string, optional: bool, options: seq<AnswerOption>)

  const Questions: seq<Question> := [
    Question("q1", "Wenn du neuen Menschen begegnest – was beschreibt dich am ehesten?", false, [
      AnswerOption("Ich gehe offen auf andere zu und komme schnell ins Gespräch", "q1_o", O),
      AnswerOption("Im Gespräch entwickelt sich die Verbindung Schritt für Schritt", "q1_a", A),
      AnswerOption("Ich brauche etwas Zeit, um mich zu öffnen", "q1_v", V),
      AnswerOption("Ich bin anfangs eher zurückhaltend und beobachte", "q1_v2", V)]),
    Question("q2", "Wie nimmst du das Thema finanzielle Planung aktuell für dich wahr?", false, [
      AnswerOption("Ich beschäftige mich bewusst und aktiv damit", "q2_o", O),
      AnswerOption("Es ist mir wichtig, auch wenn es nicht ständig präsent ist", "q2_a", A),
      AnswerOption("Ich mache mir gelegentlich Gedanken darüber", "q2_a2", A),
      AnswerOption("Bisher hatte das Thema für mich keine große Priorität", "q2_v", V)]),
    Question("q3", "Wie gehst du vor, wenn sich eine neue Möglichkeit ergibt?", false, [
      AnswerOption("Ich prüfe sie offen und entscheide mich zügig", "q3_o", O),
      AnswerOption("Ich analysiere die Situation in Ruhe", "q3_a", A),
      AnswerOption("Ich hole mir gern zusätzliche Meinungen ein", "q3_v", V),
      AnswerOption("Ich entscheide selbstständig, wenn es sich stimmig anfühlt", "q3_s", S)]),
    Question("q4", "Welche Bedeutung hat persönliche Weiterentwicklung aktuell für dich?", false, [
      AnswerOption("Sie ist ein fester Bestandteil meines Alltags", "q4_o", O),
      AnswerOption("Ich beschäftige mich regelmäßig damit", "q4_a", A),
      AnswerOption("Ich weiß, dass sie wichtig ist und gehe meinen Weg Schritt für Schritt", "q4_s", S),
      AnswerOption("Im Moment stehen andere Themen im Vordergrund", "q4_v", V)]),
    Question("q5", "Wie arbeitest du am liebsten an neuen Themen oder Aufgaben?", false, [
      AnswerOption("In einem unterstützenden Umfeld mit Austausch", "q5_o", O),
      AnswerOption("Strukturiert, klar und gut vorbereitet", "q5_a", A),
      AnswerOption("Eigenständig, mit Freiheit und gelegentlichem Input", "q5_s", S),
      AnswerOption("Überwiegend allein und in meinem eigenen Tempo", "q5_v", V)]),
    Question("q6", "Was ist dir bei einer möglichen Zusammenarbeit grundsätzlich wichtig?", true, [
      AnswerOption("Klare Strukturen und Entwicklungsmöglichkeiten", "q6_a", A),
      AnswerOption("Eine sinnvolle Tätigkeit mit Perspektive", "q6_o", O),
      AnswerOption("Flexibilität und Eigenverantwortung", "q6_s", S),
      AnswerOption("Stabilität, Verlässlichkeit und Sicherheit", "q6_v", V)])
  ]

  /** `options.find(o => o.value === val)`: the first answer with that value, if any. */
  function FindOption(options: seq<AnswerOption>, val: string): (r: Option<AnswerOption>)
    ensures r.Some? ==> r.value in options && r.value.value == val
  {
    if options == [] then None
    else if options[0].value == val then Some(options[0])
    else FindOption(options[1..], val)
  }

  /** `find` comes back empty exactly when no option carries the value. */
  lemma {:induction false} FindOptionNone(options: seq<AnswerOption>, val: string)
    ensures FindOption(options, val).None? <==> forall o :: o in options ==> o.value != val
    decreases |options|
  {
    if options != [] && options[0].value != val {
      FindOptionNone(options[1..], val);
      assert forall o :: o in options ==> o == options[0] || o in options[1..];
    }
  }

  /** The option an answer map selects for one question: none when it has no answer or none of its options matches. */
  function MatchedOption(q: Question, answers: map<string, string>): (r: Option<AnswerOption>)
    ensures r.Some? ==> q.id in answers && r.value in q.options && r.value.value == answers[q.id]
  {
    if q.id !in answers then None else FindOption(q.options, answers[q.id])
  }

  /** A question is matched exactly when it has an answer and one of its options carries that answer. */
  lemma MatchedOptionIff(q: Question, answers: map<string, string>)
    ensures MatchedOption(q, answers).Some? <==> q.id in answers && exists o :: o in q.options && o.value == answers[q.id]
  {
    if q.id in answers {
      FindOptionNone(q.options, answers[q.id]);
    }
  }

  /** The type an answer map gives one question: the type of its matched option, if any. */
  function MatchedKind(q: Question, answers: map<string, string>): (r: Option<ResultType>)
    ensures r.Some? <==> MatchedOption(q, answers).Some?
    ensures r.Some? ==> r.value == MatchedOption(q, answers).value.kind
  {
    match MatchedOption(q, answers)
    case Some(opt) => Some(opt.kind)
    case None => None
  }

  /** The shape of the table: six questions with distinct ids, four answers each, only the last one optional. */
  lemma QuestionTableShape()
    ensures |Questions| == 6
    ensures forall i, j :: 0 <= i < j < |Questions| ==> Questions[i].id != Questions[j].id
    ensures forall i :: 0 <= i < |Questions| ==> |Questions[i].options| == 4
    ensures forall i :: 0 <= i < |Questions| ==> (Questions[i].optional <==> Questions[i].id == "q6")
  {
  }

  /** Every answer value starts with its question's id and an underscore, so values of different questions differ. */
  lemma AnswerValuesPrefixed()
    ensures forall i, k :: 0 <= i < |Questions| && 0 <= k < |Questions[i].options| ==>
      var id := Questions[i].id;
      var v := Questions[i].options[k].value;
      |v| > |id| && v[..|id|] == id && v[|id|] == '_'
  {
  }

  /** Within a question the four values differ, so `FindOption` picks the only match. */
  lemma AnswerValuesDistinctWithinQuestion()
    ensures forall i, k, l :: 0 <= i < |Questions| && 0 <= k < l < |Questions[i].options| ==>
      Questions[i].options[k].value != Questions[i].options[l].value
  {
  }

  /** No two answers in the whole table share a value. */
  lemma AnswerValuesDistinct()
    ensures forall i, k, j, l ::
      0 <= i < |Questions| && 0 <= k < |Questions[i].options| &&
      0 <= j < |Questions| && 0 <= l < |Questions[j].options| && (i, k) != (j, l)
      ==> Questions[i].options[k].value != Questions[j].options[l].value
  {
    QuestionTableShape();
    AnswerValuesPrefixed();
    AnswerValuesDistinctWithinQuestion();
    forall i, k, j, l |
      0 <= i < |Questions| && 0 <= k < |Questions[i].options| &&
      0 <= j < |Questions| && 0 <= l < |Questions[j].options| && (i, k) != (j, l)
      ensures Questions[i].options[k].value != Questions[j].options[l].value
    {
      var v, w := Questions[i].options[k].value, Questions[j].options[l].value;
      if i != j {
        assert |Questions[i].id| == 2 && |Questions[j].id| == 2;
        assert v[..2] == Questions[i].id && w[..2] == Questions[j].id;
      } else if k > l {
        assert Questions[i].options[l].value != Questions[i].options[k].value;
      }
    }
  }
}
