# Customer feedback widget: the feedback flow

`CustomerFeedbackApp` is a single client-side component. It asks a user how an
experience went. "Esperienza Positiva" sends the user to an external review page.
"Esperienza Negativa" opens a survey, where the user picks one of four reasons
(`quality`, `price`, `waiting`, `other`), may type comments, and submits them to a
feedback endpoint. A successful submission shows a thank-you stage, and "Chiudi"
there returns to the start.

The component keeps four pieces of local state: the stage, the selected reason
(`""` until one is picked), the comments, and the submission-in-flight flag. Its
event handlers update these in place. This project models them in two modules:

- `FeedbackFlow` (flow.dfy) is the flow as values. It holds the state
  (`FlowState`), the events (`Event`) and the effect of each handler (`Step`). It
  also holds `Enabled`, which says which events the rendered page offers in a
  state. Each stage renders only its own controls, and the submit button is usable
  only while its `disabled` attribute is false. `Inv` is the consistency
  invariant. `Mounted` is the state of a freshly mounted component (the
  `useState` defaults of feedback.tsx:5-8), and `Reachable` is every state a user
  can reach from it; the reachable states are exactly the consistent ones. The
  lemmas here relate several steps: the invariants of all reachable states, at
  most one request in flight, restarting, and what a submission sends.
- `FeedbackApp` (app.dfy) is the component itself: the class
  `CustomerFeedbackApp` with the four fields and one method per handler. Each
  method requires that the page offers its event, since the handlers themselves
  check nothing. Each method ensures its effect field by field and
  `State() == Step(old(State()), e)`, and it keeps `Valid()`. Two client methods
  drive one component through the successful and the failing session.

The asynchronous submit handler is split in two steps. `BeginSurveySubmit` sets the
flag and builds the payload from the current reason and comments, plus a
timestamp. `CompleteSurveySubmit` receives how the request ended (`FetchResult`):
the request was rejected, or a response arrived whose status was or was not ok and
whose body did or did not parse as JSON. Only an ok status with a parsable body
counts as success. Every other ending falls into the one `catch`, leaves the
survey data as it is, and clears the flag.

The stage is a datatype here, while the component stores the strings `'initial'`,
`'survey'` and `'thankyou'`. Only those three literals are ever assigned. The reason
field stays a string, as in the component, so the invariant "empty or one of the
four values" is a real statement about it.

While a request is in flight, the survey stays interactive. Only the submit button
is disabled. The model therefore lets the user change the reason or comments during
flight, as the component does. The payload already sent keeps the values from the
click, and a failed completion keeps whatever the fields hold at that moment.

## Model

| member | source | states |
|---|---|---|
| `FeedbackApp.CustomerFeedbackApp.constructor` | feedback.tsx:5-8 | a mounted component is in the initial stage with empty reason, empty comments and no submission in flight, and it is consistent |
| `FeedbackApp.CustomerFeedbackApp.HandlePositiveFeedback` | feedback.tsx:51-53 | the positive click changes no state |
| `FeedbackApp.CustomerFeedbackApp.HandleNegativeFeedback` | feedback.tsx:105-109 | the negative click moves the stage to the survey and leaves reason, comments and the flag unchanged |
| `FeedbackApp.CustomerFeedbackApp.SelectReason` | feedback.tsx:128-133 | selecting an option replaces the reason with that option's value, which is one of the four values; stage, comments and flag are unchanged |
| `FeedbackApp.CustomerFeedbackApp.EditComments` | feedback.tsx:142-147 | the comments become the text box's new value; nothing else changes |
| `FeedbackApp.CustomerFeedbackApp.BeginSurveySubmit` | feedback.tsx:55-61 | offered only when the button is enabled; sets the flag, and returns a payload whose reason (one of the four values) and comments equal the current fields and whose timestamp is the click time |
| `FeedbackApp.CustomerFeedbackApp.CompleteSurveySubmit` | feedback.tsx:63-84 | success moves to the thank-you stage; any failure stays in the survey; reason and comments are unchanged and the flag ends false in both cases |
| `FeedbackApp.CustomerFeedbackApp.Dismiss` | feedback.tsx:170-178 | dismissing the thank-you stage clears reason and comments and returns to the initial stage, which is exactly the mounted state |
| `FeedbackApp.SuccessfulSession` | feedback.tsx:105-178 | negative, "waiting", "too slow", submit and success send exactly that reason and those comments; the successful completion shows the thank-you stage with them kept and no flag set; dismissing then gives back the mounted state |
| `FeedbackApp.FailedSession` | feedback.tsx:55-85 | the same session with an error status ends in the survey with "waiting" and "too slow" kept, no flag set, and the submit button enabled again for a retry |
| `FeedbackFlow.Reason.Value` | feedback.tsx:10-49 | every option's value is a non-empty member of the four reason values |
| `FeedbackFlow.ReasonValuesMatchOptions` | feedback.tsx:10-49 | a string is one of the four reason values exactly when some option has it as its value, and no two options share a value |
| `FeedbackFlow.Succeeded` | feedback.tsx:63-84 | a submission succeeds only when a response arrived, its status was ok and its body parsed as JSON; a rejected request, a non-ok status and an unparsable body all reach the one `catch` and count as failure |
| `FeedbackFlow.SubmitDisabled` | feedback.tsx:153 | the submit button is disabled while no reason is selected or while a submission is in flight |
| `FeedbackFlow.Enabled` | feedback.tsx:188-190 | which events the page offers: the positive and negative buttons (lines 101, 109) only in the initial stage, the reason options and the comments box (lines 133, 147) only in the survey, submit (lines 153-154) only in the survey while not disabled, "Chiudi" (line 174) only in the thank-you stage, and a completion only while a submission is in flight |
| `FeedbackFlow.SubmitPayload` | feedback.tsx:57-61 | the payload carries the current reason and comments and the time of the click |
| `FeedbackFlow.Inv` | feedback.tsx:5-8 | a consistent state has a reason that is empty or one of the four values, holds no survey data in the initial stage, has a reason in the thank-you stage, and has a submission in flight only in the survey with a reason |
| `FeedbackFlow.Step` | feedback.tsx:51-178 | every handler, applied when the page offers it, keeps a consistent state consistent |
| `FeedbackFlow.RunPreservesInv` | feedback.tsx:5-8 | every sequence of offered events keeps a consistent state consistent |
| `FeedbackFlow.ReachableClosed` | feedback.tsx:185-193 | the mounted state is reachable, and every event offered in a reachable state leads to a reachable state |
| `FeedbackFlow.ReachableIsConsistent` | feedback.tsx:5-8 | in every reachable state, a submission in flight implies the survey stage, the thank-you stage implies a non-empty reason, the reason is empty or one of the four values, and the initial stage is the mounted state |
| `FeedbackFlow.ReachableIffInv` | feedback.tsx:5-190 | a state is reachable from a freshly mounted component through offered events exactly when it is consistent, so `Valid()` of the component means "reachable" |
| `FeedbackFlow.SubmissionsBalance` | feedback.tsx:149-157 | over any offered run, the submissions begun plus the one in flight at the start equal the completions plus the one in flight at the end |
| `FeedbackFlow.AtMostOneInFlight` | feedback.tsx:153 | from a mounted component, submissions never overlap: begun minus completed is one while the flag is set and zero otherwise |
| `FeedbackFlow.NoSubmitWhileInFlight` | feedback.tsx:153 | submit is not offered while a submission is in flight or while no reason is selected, and the comments never affect whether it is offered |
| `FeedbackFlow.SelectThenSubmit` | feedback.tsx:55-61 | for every reason, selecting it in the survey and then submitting is offered and sends that reason's value with the current comments |
| `FeedbackFlow.DismissRestarts` | feedback.tsx:174-178 | a reachable thank-you stage can always be dismissed, and doing so yields the mounted state again, so the flow restarts indefinitely |
| `FeedbackFlow.CompletionOutcome` | feedback.tsx:72-84 | in a reachable state, a failed completion of any kind leaves the survey with reason and comments intact and the flag cleared; a successful one moves to the thank-you stage with the flag cleared |

## Left out

- Rendering: the markup, animation properties, styles, icons and Italian labels are presentation only. The model keeps only which controls each stage renders and the submit button's `disabled` condition, as `Enabled`.
- `window.open` of the review page in the positive handler is an outbound navigation with no state. `HandlePositiveFeedback` has no effect in the model.
- The network request and its JSON encoding and decoding: the request body's serialisation, the `Content-Type` header, the endpoint URL and the parsed response body are not modelled. How the request ended is a `FetchResult` parameter of `CompleteSurveySubmit`.
- `alert` on failure and `console.log` / `console.error` are side effects with no state. The failure notice is not modelled.
- `new Date().toISOString()`: the timestamp is an opaque string parameter of the begin step. Its format is not checked.
- Asynchronous interleaving and React's batching of state updates: each handler, and each half of the submit, is one atomic step. A completion that arrives after the component is unmounted is not modelled.
