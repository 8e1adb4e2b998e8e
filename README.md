# AddImageLongJob — a Dafny model

ZStack runs "add image" as a long job: `AddImageLongJob` starts the add request on the
message bus and stores the job's outcome in its `LongJobVO` row. It can also resume a job
that a management-node restart interrupted, and it can cancel one. Every path that
finishes the job goes through `AddImageCompletion`, a first-wins guard around the
caller's completion. The guard can be finished by the add request's reply, by an image
tracking event, or by the clean-up after a cancellation. Whichever comes first writes the
job result and answers the caller. Everything after that is ignored.

The model has two layers.

* Pure layer (`CompletionGuard`, `TrackFilter`, `AddImageFlow`, `TrackRace`).
  * `CompletionGuard.Step` is one guard call: success, fail or track.
  * `CompletionGuard.Run` applies any sequence of guard calls.
  * The driver operations (start, the reply handler, cleanImage, resume, cancel) are
    functions from their inputs to an ordered trace of effects.
  * Lemmas about traces state the guarantees: first wins, at most one answer, the result
    is written before the caller hears, read-after-write, the tracking filter, cleanup
    after cancellation, resume always fails, and cancel deletes nothing.
* Imperative layer (`AddImageJob`). The Java objects become classes:
  * `AddImageCompletion` keeps its `done` flag, its event and its refreshed job row, and
    updates them in place.
  * `AddImageLongJob` keeps its audit resource uuid.
  * `LongJobVO` is the job row.
  * The anonymous bus callbacks become callback classes whose `Run` methods handle the
    reply.
  * `Env` stands for all the collaborators: the job table (`records`) and an ordered log
    of effects (`log`). The effects are saves, result writes, state changes,
    subscriptions, sends, answers to the caller and warnings.
  * Each method's `ensures` ties its new state and log to the pure layer. For example,
    `Success` ensures that the guard took exactly `Step(old state, CallSuccess(inv))`.
    `CompletionGuard.RunSnoc` shows that one more call extends `Run` by exactly that
    call's step. With the per-call contracts, it carries "state and log are those of
    `Run` over the calls so far" from one method call to the next. So the trace lemmas
    cover every sequence of method calls.

Inputs the job reads from outside are parameters of the model:

* what `jobCanceled` reports;
* the error `cancelErr` builds;
* the clock;
* the fresh uuid from `Platform.getUuid`;
* the global long-job timeout;
* bus replies.

What the code does that a reader might not expect:

* The guard writes the job result but never the job state. Moving the job to
  succeeded or failed is left to the long-job framework.
* `track` writes a job result while the job is still running. So "result set" does
  not mean "terminal".
* A successful cancel answers the cancel completion with `success(false)`.
* When tracking is requested, a successful reply to an uncancelled job only tracks. If
  no tracking event about the resource arrives, that caller is never answered.
  `CompletionGuard.RunWithoutTerminal` states this. A failed reply, and the clean-up
  after a cancelled success, still fail the guard.
* A cancelled job whose add succeeded is not always reported as failed. With tracking,
  a success event can finish the guard before the clean-up's reply does. The caller is
  then told success while the image is deleted (`AddImageFlow.TrackedSuccessDuringCleanUpWins`).

## Model

| member | source | states |
|---|---|---|
| CompletionGuard.Step | image/src/main/java/org/zstack/image/AddImageLongJob.java:61-83 | One call leaves a finished guard untouched. A success or fail that finds it open finishes it, answers the caller once with the winner's outcome and writes that same outcome as the job result. A track only updates the event's inventory and writes it, and leaves the guard open. |
| CompletionGuard.RunSnoc | image/src/main/java/org/zstack/image/AddImageLongJob.java:61-83 | One more guard call extends the run by exactly that call's step: the final state is the step's next state, and the trace gains exactly the step's effects at its end. |
| CompletionGuard.RunSendsNothing | image/src/main/java/org/zstack/image/AddImageLongJob.java:61-83 | No sequence of guard calls sends anything on the bus. |
| CompletionGuard.RunAfterDone | image/src/main/java/org/zstack/image/AddImageLongJob.java:61-83 | Once the guard is finished, no sequence of calls changes its state or has any effect. |
| CompletionGuard.RunWithoutTerminal | image/src/main/java/org/zstack/image/AddImageLongJob.java:78-83 | Track calls alone never finish the guard and never answer the caller. |
| CompletionGuard.FirstTerminalWins | image/src/main/java/org/zstack/image/AddImageLongJob.java:52-76 | From an open guard, the caller receives exactly one outcome: that of the first success or fail in the sequence, whatever follows it. |
| CompletionGuard.AtMostOneDelivery | image/src/main/java/org/zstack/image/AddImageLongJob.java:52-76 | For any sequence of calls, the caller is answered once if the guard was open and some call is terminal, and never otherwise. |
| CompletionGuard.RunPersistsBeforeDelivering | image/src/main/java/org/zstack/image/AddImageLongJob.java:63-75 | In every trace, each answer to the caller comes right after the write of the job result that encodes the same outcome. |
| CompletionGuard.ReadAfterWrite | image/src/main/java/org/zstack/image/AddImageLongJob.java:61-83 | Once the caller has been answered, the stored job result is exactly that answer's serialised event or wrapped error, whatever calls come after it. |
| TrackFilter.Decide | image/src/main/java/org/zstack/image/AddImageLongJob.java:88-107 | The callback calls the guard if and only if the event is about the job's target resource. A successful event gives success with its inventory, a failed one gives fail with its error, and the callback returns true. For any other event it leaves the guard alone and returns true exactly while the clock is before the deadline. |
| TrackFilter.EventsAreGuardCalls | image/src/main/java/org/zstack/image/AddImageLongJob.java:87-108 | Delivering a sequence of tracking events has the same effect as making their guard calls, so every guard guarantee covers the tracking channel. |
| TrackFilter.UnmatchedEventsNeverTouchGuard | image/src/main/java/org/zstack/image/AddImageLongJob.java:86-98 | Events about other resources never touch the guard. For each one, the callback returns true if and only if fewer than the timeout's seconds have passed since registration. |
| TrackFilter.EventsAfterDoneAreIgnored | image/src/main/java/org/zstack/image/AddImageLongJob.java:89-107 | Once the guard is finished, tracking events change nothing. |
| TrackFilter.TrackingDeliversAtMostOnce | image/src/main/java/org/zstack/image/AddImageLongJob.java:85-109 | The tracking channel answers the caller at most once. |
| TrackRace.TrackRaceOverwritesResult | image/src/main/java/org/zstack/image/AddImageLongJob.java:61-83 | The guard as written can be interleaved as: track checks the flag, success wins, track writes. The caller is then answered with one inventory while the stored job result holds another. |
| AddImageFlow.BuildDeletionMsg | image/src/main/java/org/zstack/image/AddImageLongJob.java:213-221 | The clean-up request is a forced deletion, under the Direct policy, of the image the add request names, from the same backup storages, routed by that image's uuid. |
| AddImageFlow.AssignResourceUuid | image/src/main/java/org/zstack/image/AddImageLongJob.java:114-120 | A uuid is generated if and only if the request has none. Then the request carries the fresh uuid, and nothing else in it changes. |
| AddImageFlow.StartedRecord | image/src/main/java/org/zstack/image/AddImageLongJob.java:114-120 | After start, the job data always names a resource. A generated uuid goes into both the job data and the target resource uuid. A job that already named a resource is unchanged. Identity, state and result are never changed. |
| AddImageFlow.StartSubscribesBeforeSending | image/src/main/java/org/zstack/image/AddImageLongJob.java:113-130 | Start sends exactly one message, the add request, last, routed by the started record's resource uuid. The tracking callback is registered before that send, with the deadline `timeout` seconds after now, if and only if the request asks for tracking. The caller is not answered. |
| AddImageFlow.OnAddReply | image/src/main/java/org/zstack/image/AddImageLongJob.java:132-152 | A failed reply fails the guard with the reply's error. A successful reply cleans up if and only if the job was cancelled. Otherwise it tracks if and only if tracking was asked for, else succeeds, in both cases with the reply's inventory. |
| AddImageFlow.CancelledSuccessIsCleanedUp | image/src/main/java/org/zstack/image/AddImageLongJob.java:141-146 | When the add succeeds after the job was cancelled, and no tracking event reaches the guard before the deletion's reply: one forced deletion is sent first, routed like the add request, and the caller then hears the cancellation error, never success. If the guard was already finished, the deletion is still sent and the caller hears nothing more. |
| AddImageFlow.TrackedSuccessDuringCleanUpWins | image/src/main/java/org/zstack/image/AddImageLongJob.java:173-180 | With tracking, a matching success event that reaches the guard while the clean-up deletion is in flight wins. The deletion is sent all the same, the caller is told success with the tracked inventory, and the deletion's reply, failing the guard, is dropped. |
| AddImageFlow.UncancelledReplyIsOneGuardCall | image/src/main/java/org/zstack/image/AddImageLongJob.java:132-151 | Any reply other than a cancelled success makes exactly one guard call and sends nothing. |
| AddImageFlow.ResumeAlwaysFails | image/src/main/java/org/zstack/image/AddImageLongJob.java:157-171 | Whatever the deletion's reply, resume sends exactly one message, the forced deletion. It ends with the job failed and holding the restart text, and it never answers start's caller. |
| AddImageFlow.CancelRequest | image/src/main/java/org/zstack/image/AddImageLongJob.java:185-190 | The cancel request carries the job's add request, names and is routed by its resource uuid, and carries the job's api id as the cancellation's. |
| AddImageFlow.CancelAnswerFor | image/src/main/java/org/zstack/image/AddImageLongJob.java:191-199 | The cancel completion gets success if and only if the reply succeeded, and then with the value false. Otherwise it gets the reply's error. |
| AddImageFlow.CancelDeletesNothing | image/src/main/java/org/zstack/image/AddImageLongJob.java:184-201 | Cancel sends only the cancel request. It sends no deletion and never answers start's caller. |
| AddImageJob.AddImageCompletion.constructor | image/src/main/java/org/zstack/image/AddImageLongJob.java:54-59 | A new guard is open, holds the given event and job row, and has no tracking deadline. |
| AddImageJob.AddImageCompletion.Success | image/src/main/java/org/zstack/image/AddImageLongJob.java:61-68 | The guard's new state, the appended log, the job table and the refreshed row are exactly one `Step` with a success call. |
| AddImageJob.AddImageCompletion.Fail | image/src/main/java/org/zstack/image/AddImageLongJob.java:70-76 | Same as Success, for one `Step` with a fail call carrying the error. |
| AddImageJob.AddImageCompletion.Track | image/src/main/java/org/zstack/image/AddImageLongJob.java:78-83 | Same as Success, for one `Step` with a track call. |
| AddImageJob.AddImageCompletion.StartTrack | image/src/main/java/org/zstack/image/AddImageLongJob.java:85-87 | Stores the deadline (now plus the timeout in milliseconds) and appends exactly one subscription for this job. The table is unchanged. |
| AddImageJob.AddImageCompletion.OnTrackEvent | image/src/main/java/org/zstack/image/AddImageLongJob.java:89-107 | Returns `Decide`'s answer. The guard takes `Decide`'s call as one `Step`, or nothing when there is none. |
| AddImageJob.AddImageLongJob.Start | image/src/main/java/org/zstack/image/AddImageLongJob.java:112-131 | The row becomes `StartedRecord`, and it is saved only when a uuid was generated. The log grows by `StartTrace`. Start returns a fresh open guard over the refreshed row, with a deadline if and only if tracking was asked for, and the reply callback for the sent request. |
| AddImageJob.AddImageCallback.Run | image/src/main/java/org/zstack/image/AddImageLongJob.java:132-152 | Records the audit uuid: the image's on success, the request's on failure. On a cancelled success it sends the deletion and returns its callback, leaving the guard and the table alone. Otherwise the guard takes one `Step` with the call `OnAddReply` chooses. |
| AddImageJob.AddImageLongJob.CleanImage | image/src/main/java/org/zstack/image/AddImageLongJob.java:173-175 | Sends exactly the forced deletion and returns a callback bound to the guard and the cancellation error. The table is unchanged. |
| AddImageJob.CleanImageCallback.Run | image/src/main/java/org/zstack/image/AddImageLongJob.java:175-180 | Whatever the deletion's reply, the guard takes one `Step` with a fail call carrying the cancellation error. |
| AddImageJob.AddImageLongJob.Resume | image/src/main/java/org/zstack/image/AddImageLongJob.java:157-160 | Sends exactly the forced deletion of the job's resource. The table is unchanged. |
| AddImageJob.ResumeCallback.Run | image/src/main/java/org/zstack/image/AddImageLongJob.java:160-170 | Warns only when the deletion failed. Then, whatever the reply, the job's row becomes failed with the restart text, and no other row changes. |
| AddImageJob.AddImageLongJob.Cancel | image/src/main/java/org/zstack/image/AddImageLongJob.java:184-191 | Sends exactly `CancelRequest` of the job. The table is unchanged. |
| AddImageJob.CancelCallback.Run | image/src/main/java/org/zstack/image/AddImageLongJob.java:191-200 | Appends exactly one answer to cancel's completion, `CancelAnswerFor` the reply. The table is unchanged. |

## Left out

- Message-bus transport and service routing: `makeTargetServiceIdByResourceUuid` is modelled only as the `ImageService(uuid)` route carried by the message.
- JSON serialisation: job data is held as the decoded `AddImageMsg`, and `toJsonString(event)` as the opaque result `EventJson(event)`.
- Database mechanics: `updateByUuid` and `updateAndRefresh` are map updates on the job table, and `LongJobUtils.changeState` is modelled only for the fail event, which sets the state to failed. The long-job state machine is not part of this model.
- `LongJobUtils.jobCanceled` and `cancelErr` are inputs; `wrapDefaultReuslt` is modelled as `WrappedError(err)`, without its dependence on the row.
- The clock, `Platform.getUuid` and `LONG_JOB_DEFAULT_TIMEOUT` are parameters; Java `long` overflow of the deadline is not modelled (integers are unbounded).
- `AutoOffEventCallback` unsubscription: only the callback's return value is modelled, not the event facade's reaction to it.
- AddImageFlow.CancelledSuccessIsCleanedUp: holds only when no tracking event reaches the guard between the add reply and the deletion's reply. With tracking, a success event in that window, or before the add reply, answers the caller with success while the image is still deleted. `AddImageFlow.TrackedSuccessDuringCleanUpWins` states the first order.
- Concurrency: each guard method is modelled as atomic, and the scheduling of bus and event threads is left out; `TrackRace` models the one interleaving the non-atomic `track` allows.
- `AddImageJob.AddImageLongJob.Start` requires the job's row to be in the table unless start saves it; the source would fail later, inside `updateByUuid`.
- `AddImageJob.ResumeCallback.Run` requires the job's row to be in the table, for the same reason.
- Logging: the warning in resume is the effect `DeleteFailedWarning(resourceUuid)`; its text is not modelled.
- `getAuditType` and `getAuditResourceUuid` are plain getters; the audit uuid is the field `auditResourceUuid`.
- A tracking event whose uuid is null (a `NullPointerException` in the source) is not modelled: uuids are strings.
- The `LongJobState` values are an assumed state list (pending, running, succeeded, failed, cancelled), since the `LongJobState` enum is not in the modelled file.

## Findings

| source | as written | input that shows it | evidently intended | confidence | as-written member | corrected member |
|---|---|---|---|---|---|---|
| image/src/main/java/org/zstack/image/AddImageLongJob.java:78-83 | `track` checks `done` with a plain read and writes afterwards. `success` and `fail` use compare-and-set, but a `track` that has passed its check can still write after they have finished. | A tracking update checks the flag, then a success with inventory B finishes the guard and answers the caller with B, then the track writes inventory A. The stored job result says A, and the shared event object now shows A too. | After the guard is finished, `track` has no effect, so the stored result stays the answer the caller received. | medium, not executed | TrackRace.TrackRaceOverwritesResult | CompletionGuard.ReadAfterWrite |
