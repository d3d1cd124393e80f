/** The feedback flow of the customer feedback widget, as values: the four pieces
    of component state, the user and network events that change them, which events
    the rendered page makes available in which state, and the properties that hold
    of every state the flow can reach from a freshly mounted component. */
module FeedbackFlow {

  /** The three presentation stages; exactly one is active at a time. */
  datatype Stage = Initial | Survey | ThankYou

  /** The closed set of reasons for a negative experience, in the order the
      survey lists them. */
  datatype Reason = Quality | Price | Waiting | Other {
    /** The string stored in the reason field and sent in the payload. */
    function Value(): (v: string)
      ensures v in ReasonValues
      ensures v != ""
    {
      match this
      case Quality => "quality"
      case Price => "price"
      case Waiting => "waiting"
      case Other => "other"
    }
  }

  /** Every value a reason option can put into the reason field. */
  const ReasonValues: seq<string> := ["quality", "price", "waiting", "other"]

  /** Every reason option, in the order the survey lists them. */
  const AllReasons: seq<Reason> := [Quality, Price, Waiting, Other]

  /** The component state: stage, selected reason ("" while none is selected),
      free-text comments and the submission-in-flight flag. */
  datatype FlowState = FlowState(stage: Stage, reason: string, comments: string, submitting: bool)

  /** The state of a freshly mounted component. */
  const Mounted: FlowState := FlowState(Initial, "", "", false)

  /** The data sent to the feedback endpoint. */
  datatype Payload = Payload(reason: string, comments: string, timestamp: string)

  /** How the request to the feedback endpoint ended: the request itself was
      rejected (network failure), or a response arrived with an HTTP status that
      was or was not in the success range and a body that did or did not parse
      as JSON. */
  datatype FetchResult = Rejected | Resolved(ok: bool, jsonBody: bool)

  /** A request succeeds only when a response arrived, its status was ok and its
      body parsed; every other ending is caught as one "submission failed". */
  predicate Succeeded(res: FetchResult) {
    res.Resolved? && res.ok && res.jsonBody
  }

  /** The events of the flow: the handlers the page wires to its controls, and the
      completion of an outstanding submission. The timestamp of a submission is the
      wall-clock time at the click, passed in as an opaque string. */
  datatype Event =
    | PositiveClick
    | NegativeClick
    | ReasonClick(choice: Reason)
    | CommentsChange(text: string)
    | BeginSubmit(timestamp: string)
    | CompleteSubmit(result: FetchResult)
    | DismissClick

  /** The disabled attribute of the submit button. */
  predicate SubmitDisabled(s: FlowState) {
    s.reason == "" || s.submitting
  }

  /** Whether the page offers event e in state s: each stage renders only its own
      controls, the submit button is usable only while not disabled, and a
      completion arrives only for a submission in flight. */
  predicate Enabled(s: FlowState, e: Event) {
    match e
    case PositiveClick => s.stage == Initial
    case NegativeClick => s.stage == Initial
    case ReasonClick(_) => s.stage == Survey
    case CommentsChange(_) => s.stage == Survey
    case BeginSubmit(_) => s.stage == Survey && !SubmitDisabled(s)
    case CompleteSubmit(_) => s.submitting
    case DismissClick => s.stage == ThankYou
  }

  /** The consistency of a state: the reason is empty or one of the closed set; the
      initial stage holds no survey data; the thank-you stage follows a selected
      reason; a submission is in flight only from the survey stage with a reason. */
  predicate Inv(s: FlowState) {
    && (s.reason == "" || s.reason in ReasonValues)
    && (s.stage == Initial ==> s.reason == "" && s.comments == "" && !s.submitting)
    && (s.stage == ThankYou ==> s.reason != "")
    && (s.submitting ==> s.stage == Survey && s.reason != "")
  }

  /** The payload a submission sends from state s at the given time. */
  function SubmitPayload(s: FlowState, timestamp: string): Payload {
    Payload(s.reason, s.comments, timestamp)
  }

  /** The effect of one event, as its handler applies it. */
  function Step(s: FlowState, e: Event): (t: FlowState)
    ensures Inv(s) && Enabled(s, e) ==> Inv(t)
  {
    match e
    case PositiveClick => s
    case NegativeClick => s.(stage := Survey)
    case ReasonClick(r) => s.(reason := r.Value())
    case CommentsChange(text) => s.(comments := text)
    case BeginSubmit(_) => s.(submitting := true)
    case CompleteSubmit(res) =>
      if Succeeded(res) then s.(stage := ThankYou, submitting := false)
      else s.(submitting := false)
    case DismissClick => s.(reason := "", comments := "", stage := Initial)
  }

  /** The state after the events es, applied in order from s. */
  function Run(s: FlowState, es: seq<Event>): FlowState
    decreases |es|
  {
    if es == [] then s else Run(Step(s, es[0]), es[1..])
  }

  /** Whether the page offers each event of es in the state it is applied to. */
  predicate Allowed(s: FlowState, es: seq<Event>)
    decreases |es|
  {
    es == [] || (Enabled(s, es[0]) && Allowed(Step(s, es[0]), es[1..]))
  }

  /** The states a user can bring a freshly mounted component into. */
  ghost predicate Reachable(t: FlowState) {
    exists es :: Allowed(Mounted, es) && Run(Mounted, es) == t
  }

  /** Number of submissions begun in es. */
  function Begins(es: seq<Event>): nat
    decreases |es|
  {
    if es == [] then 0 else (if es[0].BeginSubmit? then 1 else 0) + Begins(es[1..])
  }

  /** Number of submissions completed in es. */
  function Completions(es: seq<Event>): nat
    decreases |es|
  {
    if es == [] then 0 else (if es[0].CompleteSubmit? then 1 else 0) + Completions(es[1..])
  }

  /** The four reason values are exactly the values of the four options, and no
      two options share a value. */
  lemma ReasonValuesMatchOptions(v: string)
    ensures v in ReasonValues <==> exists r: Reason :: r.Value() == v
    ensures forall r1: Reason, r2: Reason :: r1.Value() == r2.Value() ==> r1 == r2
  {
    if v in ReasonValues {
      var i :| 0 <= i < |ReasonValues| && ReasonValues[i] == v;
      assert AllReasons[i].Value() == v;
    }
  }

  /** Any sequence of offered events keeps the state consistent. */
  lemma {:induction false} RunPreservesInv(s: FlowState, es: seq<Event>)
    requires Inv(s) && Allowed(s, es)
    ensures Inv(Run(s, es))
    decreases |es|
  {
    if es != [] {
      RunPreservesInv(Step(s, es[0]), es[1..]);
    }
  }

  /** Appending one event to a run applies that event to the run's final state. */
  lemma {:induction false} RunAppend(s: FlowState, es: seq<Event>, e: Event)
    ensures Run(s, es + [e]) == Step(Run(s, es), e)
    ensures Allowed(s, es + [e]) <==> Allowed(s, es) && Enabled(Run(s, es), e)
    decreases |es|
  {
    if es == [] {
      assert es + [e] == [e];
    } else {
      assert (es + [e])[0] == es[0];
      assert (es + [e])[1..] == es[1..] + [e];
      RunAppend(Step(s, es[0]), es[1..], e);
    }
  }

  /** A freshly mounted component is reachable, and every event the page offers in a
      reachable state leads to a reachable state. */
  lemma ReachableClosed(t: FlowState, e: Event)
    ensures Reachable(Mounted)
    ensures Reachable(t) && Enabled(t, e) ==> Reachable(Step(t, e))
  {
    assert Allowed(Mounted, []) && Run(Mounted, []) == Mounted;
    if Reachable(t) && Enabled(t, e) {
      var es :| Allowed(Mounted, es) && Run(Mounted, es) == t;
      RunAppend(Mounted, es, e);
      assert Allowed(Mounted, es + [e]) && Run(Mounted, es + [e]) == Step(t, e);
    }
  }

  /** The invariants of every reachable state: a submission is in flight only in the
      survey stage, the thank-you stage always has a reason, and the reason is always
      empty or one of the four fixed values. */
  lemma ReachableIsConsistent(t: FlowState)
    requires Reachable(t)
    ensures t.submitting ==> t.stage == Survey
    ensures t.stage == ThankYou ==> t.reason != ""
    ensures t.reason == "" || t.reason in ReasonValues
    ensures t.stage == Initial ==> t == Mounted
  {
    var es :| Allowed(Mounted, es) && Run(Mounted, es) == t;
    RunPreservesInv(Mounted, es);
  }

  /** The consistency invariant describes the reachable states exactly: every
      reachable state is consistent, and every consistent state can be reached from
      a freshly mounted component by some sequence of events the page offers. */
  lemma ReachableIffInv(t: FlowState)
    ensures Reachable(t) <==> Inv(t)
  {
    if Reachable(t) {
      var es :| Allowed(Mounted, es) && Run(Mounted, es) == t;
      RunPreservesInv(Mounted, es);
    }
    if Inv(t) {
      ReachableClosed(Mounted, NegativeClick);
      if t.stage == Initial {
        return;
      }
      var surveyed := FlowState(Survey, "", "", false);
      ReachableClosed(surveyed, CommentsChange(t.comments));
      var commented := surveyed.(comments := t.comments);
      if t.reason == "" {
        assert t == commented;
        return;
      }
      ReasonValuesMatchOptions(t.reason);
      var r: Reason :| r.Value() == t.reason;
      ReachableClosed(commented, ReasonClick(r));
      var selected := commented.(reason := t.reason);
      if t.stage == Survey && !t.submitting {
        assert t == selected;
        return;
      }
      ReachableClosed(selected, BeginSubmit(""));
      var sending := selected.(submitting := true);
      if t.stage == Survey {
        assert t == sending;
        return;
      }
      ReachableClosed(sending, CompleteSubmit(Resolved(true, true)));
      assert t == Step(sending, CompleteSubmit(Resolved(true, true)));
    }
  }

  /** Every begun submission but at most one has completed: starting from s, the
      begun submissions of an offered run, plus the one already in flight in s, are
      the completed ones plus the one still in flight at the end. */
  lemma {:induction false} SubmissionsBalance(s: FlowState, es: seq<Event>)
    requires Allowed(s, es)
    ensures (if s.submitting then 1 else 0) + Begins(es)
         == Completions(es) + (if Run(s, es).submitting then 1 else 0)
    decreases |es|
  {
    if es != [] {
      SubmissionsBalance(Step(s, es[0]), es[1..]);
    }
  }

  /** From a freshly mounted component, submissions never overlap: at every point
      of an offered run at most one submission is outstanding, and exactly one
      while the in-flight flag is set. */
  lemma AtMostOneInFlight(es: seq<Event>)
    requires Allowed(Mounted, es)
    ensures Begins(es) == Completions(es) + (if Run(Mounted, es).submitting then 1 else 0)
    ensures Begins(es) <= Completions(es) + 1
  {
    SubmissionsBalance(Mounted, es);
  }

  /** A second submission cannot start while one is in flight, whatever the
      comments hold. */
  lemma NoSubmitWhileInFlight(s: FlowState, timestamp: string, text: string)
    ensures s.submitting ==> !Enabled(s, BeginSubmit(timestamp))
    ensures s.reason == "" ==> !Enabled(s, BeginSubmit(timestamp))
    ensures Enabled(s, BeginSubmit(timestamp)) <==> Enabled(s.(comments := text), BeginSubmit(timestamp))
  {
  }

  /** For every reason, selecting it in the survey and then submitting sends a
      payload carrying that reason's value and the current comments. */
  lemma SelectThenSubmit(s: FlowState, r: Reason, timestamp: string)
    requires s.stage == Survey && !s.submitting
    ensures Enabled(s, ReasonClick(r))
    ensures Enabled(Step(s, ReasonClick(r)), BeginSubmit(timestamp))
    ensures SubmitPayload(Step(s, ReasonClick(r)), timestamp)
         == Payload(r.Value(), s.comments, timestamp)
  {
  }

  /** The thank-you stage of a reachable state can always be dismissed, and
      dismissing it gives back exactly the freshly mounted state: the flow can
      restart indefinitely. */
  lemma DismissRestarts(t: FlowState)
    requires Reachable(t) && t.stage == ThankYou
    ensures Enabled(t, DismissClick)
    ensures Step(t, DismissClick) == Mounted
    ensures Reachable(Step(t, DismissClick))
  {
    ReachableIsConsistent(t);
    ReachableClosed(t, DismissClick);
  }

  /** A failed submission, whatever its cause, leaves the survey with the entered
      reason and comments and the in-flight flag cleared; a successful one moves to
      the thank-you stage. */
  lemma CompletionOutcome(t: FlowState, res: FetchResult)
    requires Reachable(t) && Enabled(t, CompleteSubmit(res))
    ensures !Succeeded(res) ==> Step(t, CompleteSubmit(res)) == FlowState(Survey, t.reason, t.comments, false)
    ensures Succeeded(res) ==> Step(t, CompleteSubmit(res)) == FlowState(ThankYou, t.reason, t.comments, false)
  {
    ReachableIsConsistent(t);
  }
}
