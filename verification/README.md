# LinkedIn AI Post Automator — pipeline state machine

This project models the orchestration core of the LinkedIn AI Post Automator
in Dafny. That core is a four-stage content pipeline: detect a trending topic,
write a post about it, render an image for the post, then publish by hand.

The model covers the two records the `App` component keeps:

- `AppState` holds the trend, the post, the image URL, the last error, the pipeline `step` and the copy acknowledgement.
- `LoadingState` holds one busy flag per generating stage.

It also covers the handlers that update these records and the predicates that enable the four buttons.

Each generating handler has the same shape:

1. A gate: the upstream result must be present.
2. A begin phase: raise the busy flag, clear the error and every result from this stage on.
3. A call to the generative service.
4. A settle phase: store the result and advance `step`, or set a fixed error message.
5. A `finally` that lowers the flag.

The model writes these phases as `App.Begin`, `App.Settle` and `App.Release`.
Each handler returns the state it leaves plus the effects it issued, such as a
service request carrying the current trend or post, or a clipboard write.
This makes "no service call when gated" something a contract can state.

The service is opaque. Its reply (`Service.Reply`: `Ok(text)` or `Failed`) is
an input of each handler. The model assumes that handlers run one at a time,
each finishing before the next starts. The interface does not guarantee this:
a busy flag only disables its own stage's button, so the user can, for
instance, start detect-trend while an image is still being generated.
`Pipeline.Run` plays a sequence of user events under the serial assumption.

Modules:
- `Types` (`types.dfy`): the records of `types.ts`, JavaScript truthiness, the consistency invariant `Inv`.
- `Service` (`service.dfy`): service replies and requests.
- `App` (`app.dfy`): the component's initial state, handlers and button predicates.
- `Pipeline` (`pipeline.dfy`): event sequences, retry, a session walkthrough.

Where the code and the intended design differ, the model follows the code:

- **Gates test truthiness, not presence.** `if (!appState.trend) return;` also stops on an empty string. A service reply of `""` is therefore stored as the trend and moves `step` to 2, yet the post stage never runs (`Pipeline.EmptyTrendStallsPipeline`). The same holds for the post (image gate, copy) and the image URL (publish button).
- **A failed detect-trend leaves `step == 1`, not the step it had before.** The begin phase resets `step` to 1 (App.tsx:27).
- **`step` can go down.** It is not monotone outside a detect-trend. A successful generate-post sets `step := 3` even when it was 4. A failed generate-post run from step 4 keeps `step == 4` with the post and image cleared.
- **There is no re-entrancy guard and no generation counter.** A disabled button only stops a stage from overlapping itself (App.tsx:112, 134, 163); different stages can still overlap, and serial execution is an assumption of the model, not of the code.

## Model

| member | source | states |
|---|---|---|
| App.Init | App.tsx:10-23 | The component starts with no trend, post, image or error, at step 1, with the copy acknowledgement off and every busy flag down; this state satisfies the consistency invariant. |
| App.Begin | App.tsx:26-27 | The begin phase of a stage (also lines 41-42 and 56-57) raises only that stage's flag, clears the error and the results of this and every later stage, keeps earlier results and `copied`, resets `step` to 1 for detect-trend only, and preserves the invariant. |
| App.Settle | App.tsx:29-33 | The settle phase (also lines 44-48 and 59-63): success stores the reply in the stage's result and sets `step` just past the stage; failure sets that stage's message and keeps `step` and the result; other results, flags and `copied` are untouched. |
| App.Release | App.tsx:34-35 | The `finally` (also lines 49-50 and 64-65) lowers that stage's flag, leaves the other two flags and the app state alone. |
| App.HandleDetectTrend | App.tsx:25-37 | Always requests a trend. Success: trend stored, step 2, no error. Failure: detect error message, trend absent, step 1. In both cases post and image are cleared, the trend flag ends down, the other flags and `copied` are unchanged, and the resulting state is consistent from any start. |
| App.HandleGeneratePost | App.tsx:39-52 | Without a truthy trend: no state change and no request. Otherwise it requests a post for the held trend and clears the image, keeping trend, other flags and `copied`. Success stores the post, sets step 3 and clears the error. Failure leaves the post absent, keeps `step` and sets the post error. The invariant is preserved. |
| App.HandleGenerateImage | App.tsx:54-67 | Without a truthy post: no state change and no request. Otherwise it requests an image for the held post, keeping trend, post, other flags and `copied`. Success stores the image URL, sets step 4 and clears the error. Failure leaves the image absent, keeps `step` and sets the image error. The invariant is preserved. |
| App.HandleCopyToClipboard | App.tsx:74-80 | Without a truthy post: no change and no effect. Otherwise it writes the post to the clipboard, schedules the reset and turns `copied` on, changing nothing else. |
| App.CopyResetElapsed | App.tsx:78 | The timer callback turns `copied` off and changes nothing else. |
| App.HandlePublish | App.tsx:69-72 | Publishing shows a notice and changes no state. |
| App.DetectEnabled | App.tsx:112 | The find-trend button is enabled exactly when the trend flag is down. |
| App.PostEnabled | App.tsx:134 | The post button is enabled exactly when the trend is truthy, the post flag is down and `step >= 2`. |
| App.ImageEnabled | App.tsx:163 | The image button is enabled exactly when the post is truthy, the image flag is down and `step >= 3`. |
| App.PublishEnabled | App.tsx:186 | The publish button is enabled exactly when the image URL is truthy and `step >= 4`. |
| Types.Truthy | App.tsx:40 | JavaScript truthiness of a nullable string field as tested by the gates (also lines 55 and 75): `null` and `""` are both falsy. |
| App.ButtonsMatchGates | App.tsx:110-186 | In a consistent, idle state, the find-trend button is enabled. Each other button is enabled exactly when its handler's gate passes, so the `step` tests on the buttons are implied by the invariant. |
| App.PublishMeansComplete | App.tsx:184-186 | An enabled publish button in a consistent state means trend, post and image are all present and `step == 4`. |
| App.CopyThenResetRestores | App.tsx:74-80 | Copying and then letting the timer fire returns to the original state when the acknowledgement was off. |
| Pipeline.Step | App.tsx:110-186 | Each button click or timer callback preserves the invariant and leaves an idle component idle. |
| Pipeline.Run | App.tsx:25-80 | Any sequence of non-overlapping events preserves the invariant and idleness. |
| Pipeline.ReachableStatesAreConsistent | App.tsx:10-80 | Every state between completed events, reached from the initial one by serial events, is consistent and has every busy flag down (states while a call is in flight have a flag up and are described by `App.Begin`). |
| Pipeline.FailedRunForgotten | App.tsx:26-60 | For each stage, a failed run followed by a successful run gives the same state and the same service request as the successful run alone. |
| Pipeline.FailureIdempotent | App.tsx:26-63 | For each stage, two failed runs in a row end where one does. |
| Pipeline.RetryForgetsFailures | App.tsx:26-60 | Any number of failed runs of a stage before a successful one leave no trace in the final state or request. |
| Pipeline.EmptyTrendStallsPipeline | App.tsx:30-40 | An empty-string trend is stored with step 2, but the post button is disabled and generate-post does nothing, whatever the service would reply. |
| Pipeline.Walkthrough | App.tsx:25-67 | A session runs as follows. A trend is found: step 2, no post. A post is written: step 3. An image attempt fails: the image error is set, the post is kept, there is no image and step stays 3. The retry succeeds: step 4, image stored, error cleared, all flags down. |

## Left out

- The generative service (`services/geminiService.ts`) is not modelled: its prompts, model names, `.trim()` of replies, the two-phase image request and the data-URI assembly. Each call is an arbitrary `Reply`.
- Rendering is not modelled: the JSX, `components/PipelineStep.tsx` and the CSS choices from `isActive`/`isCompleted`. This is presentation only.
- Logging (`console.error`) is dropped entirely: it has no effect on state.
- The browser calls `navigator.clipboard.writeText` and `alert` are not modelled; they appear only as the `App.Effect` values `WriteClipboard` and `ShowPublishNotice`.
- The 2-second delay of the copy reset is not modelled. The timer is an event (`CopyTimerFired`) that may come at any later point.
- React scheduling is not modelled: batching of `setState`, handlers overlapping while a call is in flight, and `useCallback` closures reading a stale `appState.trend`/`appState.post`. Serial execution is assumed. Under overlap the data-dependency invariant can break. For example, a detect-trend started while an image is in flight can end with an image and no post.
