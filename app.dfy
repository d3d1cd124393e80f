/** The feedback widget component: its four pieces of local state, updated in place
    by its event handlers. Each handler is proved to change the state exactly as the
    flow's Step does for the matching event, and to keep the flow's consistency
    invariant. The network request of a submission is split into the click that
    starts it and the completion that delivers its result. */
module FeedbackApp {
  import opened FeedbackFlow

  class CustomerFeedbackApp {
    var feedbackStage: Stage
    var feedbackReason: string
    var additionalComments: string
    var isSubmitting: bool

    /** The component state as a flow value. */
    function State(): FlowState
      reads this
    {
      FlowState(feedbackStage, feedbackReason, additionalComments, isSubmitting)
    }

    /** The component is consistent. */
    ghost predicate Valid()
      reads this
    {
      Inv(State())
    }

    /** Mounting the component: initial stage, nothing selected, no comments, no
        submission in flight. */
    constructor ()
      ensures Valid()
      ensures feedbackStage == Initial && feedbackReason == ""
      ensures additionalComments == "" && !isSubmitting
      ensures State() == Mounted
    {
      feedbackStage := Initial;
      feedbackReason := "";
      additionalComments := "";
      isSubmitting := false;
    }

    /** "Esperienza Positiva": opens the external review page and changes no state. */
    method HandlePositiveFeedback()
      requires Valid() && Enabled(State(), PositiveClick)
      ensures Valid()
      ensures State() == old(State()) == Step(old(State()), PositiveClick)
    {
    }

    /** "Esperienza Negativa": moves to the survey, leaving the rest untouched. */
    method HandleNegativeFeedback()
      requires Valid() && Enabled(State(), NegativeClick)
      modifies this
      ensures Valid()
      ensures feedbackStage == Survey
      ensures feedbackReason == old(feedbackReason) && additionalComments == old(additionalComments)
      ensures isSubmitting == old(isSubmitting)
      ensures State() == Step(old(State()), NegativeClick)
    {
      feedbackStage := Survey;
    }

    /** Clicking one of the four reason options: replaces any previous selection by
        that option's value. */
    method SelectReason(choice: Reason)
      requires Valid() && Enabled(State(), ReasonClick(choice))
      modifies this
      ensures Valid()
      ensures feedbackReason == choice.Value() && feedbackReason in ReasonValues
      ensures feedbackStage == Survey == old(feedbackStage)
      ensures additionalComments == old(additionalComments) && isSubmitting == old(isSubmitting)
      ensures State() == Step(old(State()), ReasonClick(choice))
    {
      feedbackReason := choice.Value();
    }

    /** Typing in the comments box: the comments become the box's new text. */
    method EditComments(text: string)
      requires Valid() && Enabled(State(), CommentsChange(text))
      modifies this
      ensures Valid()
      ensures additionalComments == text
      ensures feedbackStage == old(feedbackStage) && feedbackReason == old(feedbackReason)
      ensures isSubmitting == old(isSubmitting)
      ensures State() == Step(old(State()), CommentsChange(text))
    {
      additionalComments := text;
    }

    /** Clicking the submit button, offered only while it is not disabled: marks a
        submission in flight and returns the payload to send, built from the reason
        and comments as they are now. */
    method BeginSurveySubmit(timestamp: string) returns (payload: Payload)
      requires Valid() && Enabled(State(), BeginSubmit(timestamp))
      modifies this
      ensures Valid()
      ensures isSubmitting && !old(isSubmitting)
      ensures payload.reason == feedbackReason && payload.reason in ReasonValues
      ensures payload.comments == additionalComments && payload.timestamp == timestamp
      ensures feedbackStage == Survey == old(feedbackStage)
      ensures feedbackReason == old(feedbackReason) && additionalComments == old(additionalComments)
      ensures payload == SubmitPayload(old(State()), timestamp)
      ensures State() == Step(old(State()), BeginSubmit(timestamp))
    {
      isSubmitting := true;
      payload := Payload(feedbackReason, additionalComments, timestamp);
    }

    /** The outstanding request has ended: on success the stage becomes the
        thank-you stage; on any failure the survey stays with its data; in both
        cases the in-flight flag is cleared. */
    method CompleteSurveySubmit(result: FetchResult)
      requires Valid() && Enabled(State(), CompleteSubmit(result))
      modifies this
      ensures Valid()
      ensures !isSubmitting
      ensures feedbackStage == (if Succeeded(result) then ThankYou else Survey)
      ensures old(feedbackStage) == Survey
      ensures feedbackReason == old(feedbackReason) && additionalComments == old(additionalComments)
      ensures State() == Step(old(State()), CompleteSubmit(result))
    {
      if Succeeded(result) {
        feedbackStage := ThankYou;
      }
      isSubmitting := false;
    }

    /** "Chiudi" on the thank-you stage: clears reason and comments and returns to
        the initial stage, the same state as a freshly mounted component. */
    method Dismiss()
      requires Valid() && Enabled(State(), DismissClick)
      modifies this
      ensures Valid()
      ensures feedbackStage == Initial && feedbackReason == "" && additionalComments == ""
      ensures isSubmitting == old(isSubmitting) == false
      ensures State() == Mounted == Step(old(State()), DismissClick)
    {
      feedbackReason := "";
      additionalComments := "";
      feedbackStage := Initial;
    }
  }

  /** A user session driving one component through the successful scenario: the
      survey receives reason "waiting" and comments "too slow", the payload carries
      them, the successful completion shows the thank-you stage, and after it is
      dismissed the component is back in its mounted state. */
  method SuccessfulSession(timestamp: string) returns (sent: Payload, thanked: FlowState, final: FlowState)
    ensures sent == Payload("waiting", "too slow", timestamp)
    ensures thanked == FlowState(ThankYou, "waiting", "too slow", false)
    ensures final == Mounted
  {
    var app := new CustomerFeedbackApp();
    app.HandleNegativeFeedback();
    app.SelectReason(Waiting);
    app.EditComments("too slow");
    sent := app.BeginSurveySubmit(timestamp);
    app.CompleteSurveySubmit(Resolved(true, true));
    thanked := app.State();
    app.Dismiss();
    final := app.State();
  }

  /** The same session when the endpoint answers with an error status: the
      component stays in the survey with the entered data and no request in flight,
      and the user can submit again. */
  method FailedSession(timestamp: string) returns (final: FlowState)
    ensures final == FlowState(Survey, "waiting", "too slow", false)
    ensures Enabled(final, BeginSubmit(timestamp))
  {
    var app := new CustomerFeedbackApp();
    app.HandleNegativeFeedback();
    app.SelectReason(Waiting);
    app.EditComments("too slow");
    var _ := app.BeginSurveySubmit(timestamp);
    app.CompleteSurveySubmit(Resolved(false, true));
    final := app.State();
  }
}
