/**
 * The ABS page of the presentation: three phase flags decide which of the
 * four sub-flows (opening, analysis, advice, service) is on screen, and each
 * sub-flow's completion sets the flag of the next one.
 */
module AbsPage {
  import opened Wrappers
  import opened PresentationMode

  datatype Phase = FlowPhase | AnalysePhase | BeratungPhase | ServicePhase

  /** The render conditions of the four sub-flows, as the page writes them. */
  predicate FlowRendered(showAnalyse: bool, showBeratung: bool, showService: bool) {
    !showAnalyse && !showBeratung && !showService
  }

  predicate AnalyseRendered(showAnalyse: bool, showBeratung: bool, showService: bool) {
    showAnalyse && !showBeratung && !showService
  }

  predicate BeratungRendered(showBeratung: bool, showService: bool) {
    showBeratung && !showService
  }

  predicate ServiceRendered(showService: bool) {
    showService
  }

  /** For every combination of the three flags exactly one sub-flow is rendered. */
  lemma ExactlyOneRendered(a: bool, b: bool, s: bool)
    ensures (if FlowRendered(a, b, s) then 1 else 0) + (if AnalyseRendered(a, b, s) then 1 else 0) +
            (if BeratungRendered(b, s) then 1 else 0) + (if ServiceRendered(s) then 1 else 0) == 1
  {
  }

  /** The sub-flow on screen. */
  function Rendered(showAnalyse: bool, showBeratung: bool, showService: bool): (p: Phase)
    ensures p == FlowPhase <==> FlowRendered(showAnalyse, showBeratung, showService)
    ensures p == AnalysePhase <==> AnalyseRendered(showAnalyse, showBeratung, showService)
    ensures p == BeratungPhase <==> BeratungRendered(showBeratung, showService)
    ensures p == ServicePhase <==> ServiceRendered(showService)
  {
    if showService then ServicePhase
    else if showBeratung then BeratungPhase
    else if showAnalyse then AnalysePhase
    else FlowPhase
  }

  /** The phase a completion leads to; the service sub-flow has no completion, so it is the last. */
  function NextPhase(p: Phase): (q: Option<Phase>)
    ensures q.None? <==> p == ServicePhase
    ensures q.Some? ==> PhaseIndex(q.value) == PhaseIndex(p) + 1
  {
    match p
    case FlowPhase => Some(AnalysePhase)
    case AnalysePhase => Some(BeratungPhase)
    case BeratungPhase => Some(ServicePhase)
    case ServicePhase => None
  }

  function PhaseIndex(p: Phase): nat {
    match p
    case FlowPhase => 0
    case AnalysePhase => 1
    case BeratungPhase => 2
    case ServicePhase => 3
  }

  class Page {
    var mode: Mode
    var showAnalyse: bool
    var showBeratung: bool
    var showService: bool

    constructor ()
      ensures mode == Normal && Rendered(showAnalyse, showBeratung, showService) == FlowPhase
    {
      mode := Normal;
      showAnalyse := false;
      showBeratung := false;
      showService := false;
    }

    function Current(): Phase
      reads this
    {
      Rendered(showAnalyse, showBeratung, showService)
    }

    /** The drawing overlay takes input in draw and erase mode only. */
    predicate DrawingActive()
      reads this
    {
      mode == Draw || mode == Erase
    }

    /** A sub-flow reports completion; only the rendered one can, and there is none for the service sub-flow. */
    method Complete()
      requires Current() != ServicePhase
      modifies this
      ensures Some(Current()) == NextPhase(old(Current()))
      ensures mode == old(mode)
    {
      match Current() {
        case FlowPhase => showAnalyse := true;
        case AnalysePhase => showBeratung := true;
        case BeratungPhase => showService := true;
      }
    }

    method SetMode(m: Mode)
      modifies this
      ensures mode == m && Current() == old(Current())
    {
      mode := m;
    }
  }

  /** The phase after `n` completions from `p`; `None` once a completion is asked of the service sub-flow. */
  function AfterCompletions(p: Phase, n: nat): Option<Phase>
    decreases n
  {
    if n == 0 then Some(p)
    else match NextPhase(p)
      case None => None
      case Some(q) => AfterCompletions(q, n - 1)
  }

  /**
   * `n` completions from `p` are possible exactly while they stay within the
   * four phases, and each moves one phase on; so the service sub-flow is
   * reached after exactly `3 - PhaseIndex(p)` completions and no completion
   * leads past it.
   */
  lemma {:induction false} CompletionsAdvance(p: Phase, n: nat)
    ensures AfterCompletions(p, n).Some? <==> PhaseIndex(p) + n <= 3
    ensures AfterCompletions(p, n).Some? ==> PhaseIndex(AfterCompletions(p, n).value) == PhaseIndex(p) + n
    ensures AfterCompletions(p, n) == Some(ServicePhase) <==> PhaseIndex(p) + n == 3
    decreases n
  {
    if n > 0 && NextPhase(p).Some? {
      CompletionsAdvance(NextPhase(p).value, n - 1);
    }
  }
}
