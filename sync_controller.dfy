/** The bulk-sync progress controller of the customer dashboard
    (src/pages/CustomerDashboard.tsx): the `useState` progress snapshot, the refs
    `eventSourceRef`, `elapsedIntervalRef` and `startTimeRef`, and one method per
    callback. What the code would read from I/O — the clock in milliseconds, a
    decoded stream message, an HTTP reply — is a method parameter. */
module SyncControl {
  import opened Wrappers
  import opened Handles
  import opened SyncProgress
  import opened Pagination

  /** The refs own every live handle, so at most one stream and one timer are live
      and they are live together; a running timer (or one a pending start reply will
      start) has a start time to measure from. */
  ghost predicate OwnedHandles(streams: seq<bool>, eventSourceRef: Option<nat>, timers: seq<bool>,
                               elapsedIntervalRef: Option<nat>, startTimeRef: Option<int>, pendingStarts: nat)
  {
    OwnsAllLive(streams, eventSourceRef) && OwnsAllLive(timers, elapsedIntervalRef) &&
    (IsLive(streams, eventSourceRef) <==> IsLive(timers, elapsedIntervalRef)) &&
    (IsLive(timers, elapsedIntervalRef) || pendingStarts > 0 ==> startTimeRef.Some?)
  }

  class SyncController<C> {
    // the progress snapshot, one `useState` each
    var uploadProgress: real
    var processed: int
    var totalRows: int
    var totalPages: int
    var elapsed: int
    var eta: int
    var isUploading: bool
    var error: Option<string>
    var customers: seq<C>

    // every EventSource created so far (true while open) and `eventSourceRef`
    var streams: seq<bool>
    var eventSourceRef: Option<nat>
    // every interval created so far (true while active) and `elapsedIntervalRef`
    var timers: seq<bool>
    var elapsedIntervalRef: Option<nat>
    // `startTimeRef`, in milliseconds
    var startTimeRef: Option<int>

    // start requests whose reply has not arrived, and whether the status request
    // issued on mount is still unanswered
    var pendingStarts: nat
    var statusPending: bool

    function View(): Snapshot<C>
      reads this
    {
      Snapshot(uploadProgress, processed, totalRows, totalPages, elapsed, eta, isUploading, error, customers)
    }

    /** The stream `eventSourceRef` holds has not been closed by the page (the
        network connection behind it is not modelled). */
    predicate StreamOpen()
      reads this
    {
      IsLive(streams, eventSourceRef)
    }

    predicate TimerActive()
      reads this
    {
      IsLive(timers, elapsedIntervalRef)
    }

    /** The refs own every live handle: at most one stream and one timer are live,
        and they are live together. */
    ghost predicate Valid()
      reads this
      ensures Valid() ==> (StreamOpen() <==> TimerActive())
    {
      OwnedHandles(streams, eventSourceRef, timers, elapsedIntervalRef, startTimeRef, pendingStarts)
    }

    /** Mounting the dashboard: the initial state, and the status request of
        `checkSyncStatus` in flight (src/pages/CustomerDashboard.tsx:299-323). */
    constructor ()
      ensures Valid()
      ensures View() == InitialSnapshot()
      ensures streams == [] && eventSourceRef == None
      ensures timers == [] && elapsedIntervalRef == None
      ensures startTimeRef == None && pendingStarts == 0 && statusPending
    {
      uploadProgress, processed, totalRows, totalPages := 0.0, 0, InitialTotalRows, 1;
      elapsed, eta, isUploading, error, customers := 0, 0, false, None, [];
      streams, eventSourceRef, timers, elapsedIntervalRef := [], None, [], None;
      startTimeRef, pendingStarts, statusPending := None, 0, true;
    }

    /** At every moment at most one stream and at most one timer are live, and they
        are live together. */
    lemma AtMostOneStreamAndTimer()
      requires Valid()
      ensures LiveCount(streams) <= 1 && LiveCount(timers) <= 1
      ensures LiveCount(streams) == LiveCount(timers)
      ensures LiveCount(streams) == 1 <==> StreamOpen()
    {
      AtMostOneLive(streams, eventSourceRef);
      AtMostOneLive(timers, elapsedIntervalRef);
    }

    /** `connectToSSE`: close the stream the ref holds, then open a new one. */
    method ConnectToSSE()
      requires OwnsAllLive(streams, eventSourceRef)
      modifies this`streams, this`eventSourceRef
      ensures streams == Reopen(old(streams), old(eventSourceRef))
      ensures eventSourceRef == Some(|old(streams)|)
      ensures OwnsAllLive(streams, eventSourceRef) && StreamOpen() && LiveCount(streams) == 1
    {
      ReopenOwned(streams, eventSourceRef);
      if eventSourceRef.Some? {
        streams := Close(streams, eventSourceRef);
      }
      streams := streams + [true];
      eventSourceRef := Some(|streams| - 1);
    }

    /** `startElapsedTimer`: clear the interval the ref holds, then start a new one. */
    method StartElapsedTimer()
      requires OwnsAllLive(timers, elapsedIntervalRef)
      modifies this`timers, this`elapsedIntervalRef
      ensures timers == Reopen(old(timers), old(elapsedIntervalRef))
      ensures elapsedIntervalRef == Some(|old(timers)|)
      ensures OwnsAllLive(timers, elapsedIntervalRef) && TimerActive() && LiveCount(timers) == 1
    {
      ReopenOwned(timers, elapsedIntervalRef);
      if elapsedIntervalRef.Some? {
        timers := Close(timers, elapsedIntervalRef);
      }
      timers := timers + [true];
      elapsedIntervalRef := Some(|timers| - 1);
    }

    /** `connectToSSE(); startElapsedTimer();`, as both the start reply and the status
        reply do: afterwards exactly one stream and one timer are live. */
    method OpenStreamAndTimer()
      requires OwnsAllLive(streams, eventSourceRef) && OwnsAllLive(timers, elapsedIntervalRef)
      modifies this`streams, this`eventSourceRef, this`timers, this`elapsedIntervalRef
      ensures streams == Reopen(old(streams), old(eventSourceRef))
      ensures timers == Reopen(old(timers), old(elapsedIntervalRef))
      ensures eventSourceRef == Some(|old(streams)|)
      ensures elapsedIntervalRef == Some(|old(timers)|)
      ensures OwnsAllLive(streams, eventSourceRef) && OwnsAllLive(timers, elapsedIntervalRef)
      ensures StreamOpen() && TimerActive()
    {
      ConnectToSSE();
      StartElapsedTimer();
    }

    /** The synchronous part of `handleStartSync`, up to the `await`. It has no
        guard of its own: a call while uploading starts again. */
    method StartSync(nowMs: int)
      requires Valid()
      modifies this`error, this`isUploading, this`processed, this`uploadProgress,
               this`elapsed, this`eta, this`startTimeRef, this`pendingStarts
      ensures Valid()
      ensures View() == old(View()).(error := None, isUploading := true, processed := 0,
                                     uploadProgress := 0.0, elapsed := 0, eta := 0)
      ensures startTimeRef == Some(nowMs) && pendingStarts == old(pendingStarts) + 1
    {
      ghost var v0 := View();
      assert StreamOpen() <==> TimerActive();
      error := None;
      isUploading := true;
      processed := 0;
      uploadProgress := 0.0;
      elapsed := 0;
      eta := 0;
      assert View() == v0.(error := None, isUploading := true, processed := 0,
                           uploadProgress := 0.0, elapsed := 0, eta := 0);
      startTimeRef := Some(nowMs);
      pendingStarts := pendingStarts + 1;
    }

    /** A click on "Start sync": the button is `disabled={isUploading}`
        (src/components/UploadProgress.tsx:51-54), so a click while uploading is not
        delivered. */
    method PressStartButton(nowMs: int)
      requires Valid()
      modifies this`error, this`isUploading, this`processed, this`uploadProgress,
               this`elapsed, this`eta, this`startTimeRef, this`pendingStarts
      ensures Valid()
      ensures old(isUploading) ==>
                View() == old(View()) && startTimeRef == old(startTimeRef) &&
                pendingStarts == old(pendingStarts)
      ensures !old(isUploading) ==>
                View() == old(View()).(error := None, isUploading := true, processed := 0,
                                       uploadProgress := 0.0, elapsed := 0, eta := 0) &&
                startTimeRef == Some(nowMs) && pendingStarts == old(pendingStarts) + 1
    {
      if !isUploading {
        StartSync(nowMs);
      }
    }

    /** The rest of `handleStartSync`: on success copy the totals and open one stream
        and one timer; on failure stop uploading and show the error, opening nothing. */
    method OnStartReply(reply: Reply<StartResponse>)
      requires Valid() && pendingStarts > 0
      modifies this`totalRows, this`totalPages, this`isUploading, this`error,
               this`streams, this`eventSourceRef, this`timers, this`elapsedIntervalRef,
               this`pendingStarts
      ensures Valid()
      ensures pendingStarts == old(pendingStarts) - 1
      ensures reply.Received? ==>
                View() == old(View()).(totalRows := reply.body.totalRows,
                                       totalPages := reply.body.totalPages) &&
                streams == Reopen(old(streams), old(eventSourceRef)) &&
                timers == Reopen(old(timers), old(elapsedIntervalRef)) &&
                eventSourceRef == Some(|old(streams)|) &&
                elapsedIntervalRef == Some(|old(timers)|) &&
                StreamOpen() && TimerActive()
      ensures reply.RequestFailed? ==>
                View() == old(View()).(isUploading := false,
                                       error := Some(StartErrorMessage(reply.message))) &&
                streams == old(streams) && timers == old(timers) &&
                eventSourceRef == old(eventSourceRef) &&
                elapsedIntervalRef == old(elapsedIntervalRef)
    {
      assert StreamOpen() <==> TimerActive();
      pendingStarts := pendingStarts - 1;
      match reply
      case Received(body) =>
        totalRows := body.totalRows;
        totalPages := body.totalPages;
        OpenStreamAndTimer();
      case RequestFailed(message) =>
        isUploading := false;
        error := Some(StartErrorMessage(message));
    }

    /** `eventSource.onmessage` of stream `id` at `nowMs`; `msg` is None when the data
        does not parse, which is only logged. A closed EventSource dispatches nothing.
        A terminal status stops uploading, closes this stream and clears the interval
        `elapsedIntervalRef` holds. */
    method OnMessage(id: nat, msg: Option<ProgressEvent<C>>, nowMs: int)
      requires Valid()
      modifies this`uploadProgress, this`processed, this`totalRows, this`totalPages,
               this`eta, this`isUploading, this`error, this`customers,
               this`streams, this`timers
      ensures Valid()
      ensures var delivered := id < |old(streams)| && old(streams)[id] && msg.Some?;
              if delivered then
                View() == ApplyEvent(old(View()), msg.value, nowMs) &&
                if IsTerminal(msg.value.status) then
                  streams == old(streams)[id := false] &&
                  timers == Close(old(timers), elapsedIntervalRef) &&
                  !StreamOpen() && !TimerActive()
                else
                  streams == old(streams) && timers == old(timers)
              else
                View() == old(View()) && streams == old(streams) && timers == old(timers)
    {
      if id < |streams| && streams[id] {
        match msg
        case None =>
        case Some(data) =>
          CopyProgress(data, nowMs);
          if IsTerminal(data.status) {
            EndStream(id, data.status == "failed");
          }
      }
    }

    /** Lines 103-119 of `onmessage`: copy the counters, recompute the ETA when the
        message has one, and show the preview rows when there are any. */
    method CopyProgress(data: ProgressEvent<C>, nowMs: int)
      modifies this`uploadProgress, this`processed, this`totalRows, this`totalPages,
               this`eta, this`customers
      ensures processed == data.processedRows && totalRows == data.totalRows
      ensures totalPages == data.totalPages && uploadProgress == data.progress
      ensures eta == if data.estimatedCompletion.Some?
                     then EtaSeconds(data.estimatedCompletion.value, nowMs) else old(eta)
      ensures customers == if |data.recentRows| > 0 then data.recentRows else old(customers)
    {
      processed := data.processedRows;
      totalRows := data.totalRows;
      totalPages := data.totalPages;
      uploadProgress := data.progress;
      if data.estimatedCompletion.Some? {
        eta := EtaSeconds(data.estimatedCompletion.value, nowMs);
      }
      if |data.recentRows| > 0 {
        customers := data.recentRows;
      }
    }

    /** Lines 126-133 of `onmessage` on a terminal status: stop uploading, close stream
        `id`, clear the interval the ref holds, and on "failed" show the error. */
    method EndStream(id: nat, failed: bool)
      requires OwnsAllLive(streams, eventSourceRef) && OwnsAllLive(timers, elapsedIntervalRef)
      requires id < |streams| && streams[id]
      modifies this`isUploading, this`error, this`streams, this`timers
      ensures !isUploading && error == if failed then Some(SyncFailedMessage) else old(error)
      ensures streams == old(streams)[id := false]
      ensures timers == Close(old(timers), elapsedIntervalRef)
      ensures OwnsAllLive(streams, eventSourceRef) && OwnsAllLive(timers, elapsedIntervalRef)
      ensures !StreamOpen() && !TimerActive()
    {
      isUploading := false;
      CloseOwnedLeavesNoneLive(streams, eventSourceRef);
      streams := streams[id := false];
      CloseOwnedLeavesNoneLive(timers, elapsedIntervalRef);
      if elapsedIntervalRef.Some? {
        timers := Close(timers, elapsedIntervalRef);
      }
      if failed {
        error := Some(SyncFailedMessage);
      }
    }

    /** `eventSource.onerror`: the failure is only logged. */
    method OnTransportError(id: nat)
      requires Valid()
      ensures Valid()
      ensures View() == old(View()) && StreamOpen() == old(StreamOpen())
    {
    }

    /** One beat of interval `id` at `nowMs`: elapsed becomes the whole seconds since
        the start time. A cleared interval never fires, so with no timer running
        elapsed stays frozen. */
    method Tick(id: nat, nowMs: int)
      requires Valid()
      modifies this`elapsed
      ensures Valid()
      ensures id < |timers| && timers[id] ==>
                startTimeRef.Some? && elapsed == ElapsedSeconds(startTimeRef.value, nowMs)
      ensures !(id < |timers| && timers[id]) ==> elapsed == old(elapsed)
      ensures !TimerActive() ==> elapsed == old(elapsed)
    {
      if id < |timers| && timers[id] {
        if startTimeRef.Some? {
          elapsed := ElapsedSeconds(startTimeRef.value, nowMs);
        }
      }
    }

    /** The reply to `checkSyncStatus`: a pending or processing job is resumed — the
        counters are seeded from it, the clock measures from its `startedAt` (or now),
        and one stream and one timer are opened. Any other reply, failures included,
        changes nothing and sets no error. */
    method OnStatusReply(reply: Reply<Option<SyncJob>>, nowMs: int)
      requires Valid() && statusPending
      modifies this`isUploading, this`processed, this`totalRows, this`uploadProgress,
               this`startTimeRef, this`streams, this`eventSourceRef, this`timers,
               this`elapsedIntervalRef, this`statusPending
      ensures Valid() && !statusPending
      ensures ResumableJob(reply).Some? ==>
                var job := ResumableJob(reply).value;
                View() == old(View()).(isUploading := true, processed := job.processedRows,
                                       totalRows := job.totalRows, uploadProgress := job.progress) &&
                startTimeRef == Some(job.startedAt.GetOr(nowMs)) &&
                streams == Reopen(old(streams), old(eventSourceRef)) &&
                timers == Reopen(old(timers), old(elapsedIntervalRef)) &&
                eventSourceRef == Some(|old(streams)|) &&
                elapsedIntervalRef == Some(|old(timers)|) &&
                StreamOpen() && TimerActive()
      ensures ResumableJob(reply).None? ==>
                View() == old(View()) && startTimeRef == old(startTimeRef) &&
                streams == old(streams) && timers == old(timers) &&
                eventSourceRef == old(eventSourceRef) &&
                elapsedIntervalRef == old(elapsedIntervalRef)
    {
      assert StreamOpen() <==> TimerActive();
      statusPending := false;
      if reply.Received? && reply.body.Some? && IsActive(reply.body.value.status) {
        ResumeJob(reply.body.value, nowMs);
      }
    }

    /** Lines 308-316 of `checkSyncStatus`, for a job that is still running. */
    method ResumeJob(job: SyncJob, nowMs: int)
      requires OwnsAllLive(streams, eventSourceRef) && OwnsAllLive(timers, elapsedIntervalRef)
      modifies this`isUploading, this`processed, this`totalRows, this`uploadProgress,
               this`startTimeRef, this`streams, this`eventSourceRef, this`timers,
               this`elapsedIntervalRef
      ensures isUploading && processed == job.processedRows
      ensures totalRows == job.totalRows && uploadProgress == job.progress
      ensures startTimeRef == Some(job.startedAt.GetOr(nowMs))
      ensures streams == Reopen(old(streams), old(eventSourceRef))
      ensures timers == Reopen(old(timers), old(elapsedIntervalRef))
      ensures eventSourceRef == Some(|old(streams)|)
      ensures elapsedIntervalRef == Some(|old(timers)|)
      ensures OwnsAllLive(streams, eventSourceRef) && OwnsAllLive(timers, elapsedIntervalRef)
      ensures StreamOpen() && TimerActive()
    {
      isUploading := true;
      processed := job.processedRows;
      totalRows := job.totalRows;
      uploadProgress := job.progress;
      startTimeRef := if job.startedAt.Some? then job.startedAt else Some(nowMs);
      OpenStreamAndTimer();
    }

    /** The reply to `fetchCustomers`: the page's rows and `totalPages || 1`; a failed
        request is only logged. */
    method OnCustomersReply(reply: Reply<CustomerPage<C>>)
      requires Valid()
      modifies this`customers, this`totalPages
      ensures Valid()
      ensures reply.Received? ==>
                View() == old(View()).(customers := reply.body.data,
                                       totalPages := TotalPagesOrOne(reply.body.totalPages))
      ensures reply.RequestFailed? ==> View() == old(View())
    {
      if reply.Received? {
        customers := reply.body.data;
        totalPages := TotalPagesOrOne(reply.body.totalPages);
      }
    }

    /** The unmount cleanup: close the stream and clear the interval the refs hold.
        Afterwards nothing is live, and a second call changes nothing. */
    method Dispose()
      requires Valid()
      modifies this`streams, this`timers
      ensures Valid()
      ensures streams == Close(old(streams), eventSourceRef)
      ensures timers == Close(old(timers), elapsedIntervalRef)
      ensures LiveCount(streams) == 0 && LiveCount(timers) == 0
      ensures !old(StreamOpen()) ==> streams == old(streams) && timers == old(timers)
    {
      CloseOwnedLeavesNoneLive(streams, eventSourceRef);
      CloseOwnedLeavesNoneLive(timers, elapsedIntervalRef);
      if eventSourceRef.Some? {
        streams := Close(streams, eventSourceRef);
      }
      if elapsedIntervalRef.Some? {
        timers := Close(timers, elapsedIntervalRef);
      }
    }
  }
}
