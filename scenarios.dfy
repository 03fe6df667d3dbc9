/** Runs of the controller that follow the page through whole interactions, checked
    from the method contracts alone. */
module SyncScenarios {
  import opened Wrappers
  import opened Handles
  import opened SyncProgress
  import opened SyncControl

  /** No job on mount; a sync of 100 rows in 10 pages starts and completes. */
  method CompletedSync() {
    var c := new SyncController<int>();
    c.OnStatusReply(RequestFailed(None), 0);
    assert c.View() == InitialSnapshot() && !c.StreamOpen();
    c.PressStartButton(1000);
    c.OnStartReply(Received(StartResponse(100, 10)));
    assert c.eventSourceRef == Some(0);
    c.OnMessage(0, None, 3600);
    assert c.StreamOpen();
    c.OnMessage(0, Some(ProgressEvent(100, 100, 10, 100.0, "completed", None, [])), 4000);
    assert c.View() == Snapshot(100.0, 100, 100, 10, 0, 0, false, None, []);
    assert !c.StreamOpen() && !c.TimerActive();
  }

  /** The timer measures from the recorded start, and stops with a terminal message. */
  method ElapsedFreezesAtEnd() {
    var c := new SyncController<int>();
    c.StartSync(1000);
    c.OnStartReply(Received(StartResponse(100, 10)));
    assert c.TimerActive() && c.elapsedIntervalRef == Some(0) && c.startTimeRef == Some(1000);
    c.Tick(0, 3500);
    assert c.elapsed == 2;
    c.OnMessage(0, Some(ProgressEvent(100, 100, 10, 100.0, "cancelled", None, [])), 4000);
    assert c.error == None && !c.TimerActive();
    c.Tick(0, 9000);
    assert c.elapsed == 2;
  }

  /** A job found running on mount is resumed: elapsed is measured from its
      `startedAt`, not from zero. */
  method ResumedJob() {
    var c := new SyncController<int>();
    c.OnStatusReply(Received(Some(SyncJob("processing", 500, 2000000, 0.025, Some(10000)))), 70000);
    assert c.isUploading && c.processed == 500 && c.totalRows == 2000000 && c.error == None;
    c.Tick(0, 72000);
    assert c.elapsed == 62;
    c.OnMessage(0, Some(ProgressEvent(900, 2000000, 200000, 0.045, "failed", Some(80000), [])), 73000);
    assert c.error == Some(SyncFailedMessage) && !c.isUploading && c.eta == 7;
    c.Dispose();
    c.Dispose();
    assert !c.StreamOpen() && !c.TimerActive();
  }

  /** After the page is disposed the stream and the interval are closed, so neither
      a tick nor a message on the resumed job's handles changes the snapshot. */
  method NothingChangesAfterDispose(msg: ProgressEvent<int>) {
    var c := new SyncController<int>();
    c.OnStatusReply(Received(Some(SyncJob("pending", 0, 10, 0.0, None))), 1000);
    assert c.eventSourceRef == Some(0) && c.elapsedIntervalRef == Some(0);
    c.Dispose();
    ghost var v := c.View();
    c.Tick(0, 5000);
    assert c.View() == v;
    c.OnMessage(0, Some(msg), 6000);
    assert c.View() == v;
  }

  /** Two starts without waiting (the handler has no guard of its own): the second
      reply closes the first stream and timer, so only one of each is live. */
  method DoubleStart() {
    var c := new SyncController<int>();
    c.OnStatusReply(Received(None), 0);
    c.StartSync(1000);
    c.StartSync(1100);
    c.OnStartReply(Received(StartResponse(10, 1)));
    c.OnStartReply(Received(StartResponse(10, 1)));
    c.AtMostOneStreamAndTimer();
    assert LiveCount(c.streams) == 1 && LiveCount(c.timers) == 1;
  }

  /** The page's flag and its stream can disagree: a start request that fails after
      the mount-time status reply resumed a job clears `isUploading` while the
      resumed stream and timer keep running. */
  method StartFailsWhileResumed() {
    var c := new SyncController<int>();
    c.PressStartButton(0);
    c.OnStatusReply(Received(Some(SyncJob("pending", 0, 50, 0.0, None))), 10);
    c.OnStartReply(RequestFailed(Some("Sync already running")));
    assert !c.isUploading && c.StreamOpen() && c.TimerActive();
    assert c.error == Some("Sync already running");
  }

  /** A status reply that arrives after the page was disposed still opens a stream and
      a timer that nothing closes. */
  method StatusReplyAfterDispose() {
    var c := new SyncController<int>();
    c.Dispose();
    c.OnStatusReply(Received(Some(SyncJob("processing", 1, 2, 50.0, None))), 0);
    assert c.StreamOpen() && c.TimerActive();
  }
}
