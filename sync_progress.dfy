/** The values the bulk-sync progress controller works with, and the pure part of
    its callbacks: the elapsed and ETA arithmetic and the effect of one decoded
    stream message on the progress snapshot (src/pages/CustomerDashboard.tsx). */
module SyncProgress {
  import opened Wrappers

  /** One decoded message of the progress stream. `estimatedCompletion` is the
      decoded instant in milliseconds, None when the field is absent or empty; an
      absent `recentRows` is decoded as []. */
  datatype ProgressEvent<C> = ProgressEvent(
    processedRows: int,
    totalRows: int,
    totalPages: int,
    progress: real,
    status: string,
    estimatedCompletion: Option<int>,
    recentRows: seq<C>)

  /** The body of a successful `POST /customers/sync`. */
  datatype StartResponse = StartResponse(totalRows: int, totalPages: int)

  /** The body of `GET /customers/sync/status` when a job exists; `startedAt` is the
      decoded instant in milliseconds. */
  datatype SyncJob = SyncJob(
    status: string,
    processedRows: int,
    totalRows: int,
    progress: real,
    startedAt: Option<int>)

  /** The dashboard's state fields that the sync updates. */
  datatype Snapshot<C> = Snapshot(
    uploadProgress: real,
    processed: int,
    totalRows: int,
    totalPages: int,
    elapsed: int,
    eta: int,
    isUploading: bool,
    error: Option<string>,
    customers: seq<C>)

  const InitialTotalRows: int := 2000000
  const SyncFailedMessage: string := "Sync failed"
  const StartFailedMessage: string := "Failed to start sync"

  /** The state the dashboard mounts with (src/pages/CustomerDashboard.tsx:16-22, 32-34). */
  function InitialSnapshot<C>(): Snapshot<C> {
    Snapshot(0.0, 0, InitialTotalRows, 1, 0, 0, false, None, [])
  }

  predicate IsTerminal(status: string) {
    status == "completed" || status == "failed" || status == "cancelled"
  }

  /** A job the dashboard attaches to when it mounts. */
  predicate IsActive(status: string) {
    status == "pending" || status == "processing"
  }

  /** `Math.floor((now - start) / 1000)`: whole seconds since the start instant,
      rounded down, so negative when the start lies in the future. */
  function ElapsedSeconds(startMs: int, nowMs: int): (r: int)
    ensures r * 1000 <= nowMs - startMs < r * 1000 + 1000
  {
    (nowMs - startMs) / 1000
  }

  /** `Math.max(0, Math.floor((eta - now) / 1000))`: whole seconds left, never negative. */
  function EtaSeconds(etaMs: int, nowMs: int): (r: nat)
    ensures r == 0 <==> etaMs - nowMs < 1000
    ensures etaMs >= nowMs ==> r * 1000 <= etaMs - nowMs < r * 1000 + 1000
  {
    var q := (etaMs - nowMs) / 1000;
    if q < 0 then 0 else q
  }

  /** The error text after a failed start request: the server's `message` when it is
      a non-empty string, else the generic fallback. */
  function StartErrorMessage(message: Option<string>): (r: string)
    ensures r != ""
    ensures message.Some? && message.value != "" ==> r == message.value
    ensures message.None? || message.value == "" ==> r == StartFailedMessage
  {
    if message.Some? && message.value != "" then message.value else StartFailedMessage
  }

  /** The job a status reply makes the dashboard resume, if any: only a received job
      whose status is pending or processing. */
  function ResumableJob(reply: Reply<Option<SyncJob>>): (r: Option<SyncJob>)
    ensures r.Some? ==> reply == Received(Some(r.value)) && IsActive(r.value.status)
    ensures r.None? ==> reply.RequestFailed? || reply.body.None? || !IsActive(reply.body.value.status)
  {
    if reply.Received? && reply.body.Some? && IsActive(reply.body.value.status) then reply.body else None
  }

  /** The snapshot after one decoded stream message received at `nowMs`. */
  function ApplyEvent<C>(s: Snapshot<C>, e: ProgressEvent<C>, nowMs: int): (r: Snapshot<C>)
    // the counters are copied as they come
    ensures r.processed == e.processedRows && r.totalRows == e.totalRows
    ensures r.totalPages == e.totalPages && r.uploadProgress == e.progress
    // the ETA is recomputed only when the message carries one, and is never negative
    ensures e.estimatedCompletion.None? ==> r.eta == s.eta
    ensures e.estimatedCompletion.Some? ==>
              r.eta >= 0 && r.eta == EtaSeconds(e.estimatedCompletion.value, nowMs)
    // the preview rows are replaced only by a non-empty list
    ensures r.customers == (if e.recentRows == [] then s.customers else e.recentRows)
    // a terminal status ends the upload; any other status leaves the flag alone
    ensures r.isUploading == (s.isUploading && !IsTerminal(e.status))
    // only "failed" touches the error, and it sets it
    ensures e.status == "failed" ==> r.error == Some(SyncFailedMessage)
    ensures e.status != "failed" ==> r.error == s.error
    ensures r.elapsed == s.elapsed
  {
    var eta := if e.estimatedCompletion.Some? then EtaSeconds(e.estimatedCompletion.value, nowMs) else s.eta;
    var customers := if |e.recentRows| > 0 then e.recentRows else s.customers;
    var s1 := s.(processed := e.processedRows, totalRows := e.totalRows, totalPages := e.totalPages,
                 uploadProgress := e.progress, eta := eta, customers := customers);
    if IsTerminal(e.status) then
      s1.(isUploading := false, error := if e.status == "failed" then Some(SyncFailedMessage) else s1.error)
    else
      s1
  }

  /** One message as it reaches the page: the decoded event and the clock reading. */
  datatype Delivery<C> = Delivery(event: ProgressEvent<C>, nowMs: int)

  /** The snapshot after the messages of one stream are applied in order. */
  function Replay<C>(s: Snapshot<C>, ds: seq<Delivery<C>>): Snapshot<C>
    decreases |ds|
  {
    if ds == [] then s else Replay(ApplyEvent(s, ds[0].event, ds[0].nowMs), ds[1..])
  }

  /** After a stream, `processed`, `totalRows` and `uploadProgress` are those of its
      last message: nothing is accumulated or smoothed on the client. */
  lemma {:induction false} ReplayShowsLatestCounters<C>(s: Snapshot<C>, ds: seq<Delivery<C>>)
    requires ds != []
    ensures Replay(s, ds).processed == ds[|ds| - 1].event.processedRows
    ensures Replay(s, ds).totalRows == ds[|ds| - 1].event.totalRows
    ensures Replay(s, ds).uploadProgress == ds[|ds| - 1].event.progress
    decreases |ds|
  {
    if |ds| > 1 {
      ReplayShowsLatestCounters(ApplyEvent(s, ds[0].event, ds[0].nowMs), ds[1..]);
    }
  }

  /** Once any message of the stream carries a terminal status the upload flag is
      off, whatever follows; and a stream of non-terminal messages leaves it as it was. */
  lemma {:induction false} ReplayTerminalStops<C>(s: Snapshot<C>, ds: seq<Delivery<C>>)
    ensures Replay(s, ds).isUploading ==
              (s.isUploading && forall k :: 0 <= k < |ds| ==> !IsTerminal(ds[k].event.status))
    decreases |ds|
  {
    if ds != [] {
      ReplayTerminalStops(ApplyEvent(s, ds[0].event, ds[0].nowMs), ds[1..]);
      assert forall k :: 1 <= k < |ds| ==> ds[k] == ds[1..][k - 1];
    }
  }

  /** The error after a stream: "Sync failed" when some message failed, else the
      error it started with. */
  lemma {:induction false} ReplayErrorOnlyOnFailure<C>(s: Snapshot<C>, ds: seq<Delivery<C>>)
    ensures (exists k :: 0 <= k < |ds| && ds[k].event.status == "failed") ==>
              Replay(s, ds).error == Some(SyncFailedMessage)
    ensures (forall k :: 0 <= k < |ds| ==> ds[k].event.status != "failed") ==>
              Replay(s, ds).error == s.error
    decreases |ds|
  {
    if ds != [] {
      var s1 := ApplyEvent(s, ds[0].event, ds[0].nowMs);
      ReplayErrorOnlyOnFailure(s1, ds[1..]);
      assert forall k :: 1 <= k < |ds| ==> ds[k] == ds[1..][k - 1];
      if ds[0].event.status == "failed" {
        ReplayKeepsFailure(s1, ds[1..]);
      }
    }
  }

  /** Messages never clear an error. */
  lemma {:induction false} ReplayKeepsFailure<C>(s: Snapshot<C>, ds: seq<Delivery<C>>)
    requires s.error == Some(SyncFailedMessage)
    ensures Replay(s, ds).error == Some(SyncFailedMessage)
    decreases |ds|
  {
    if ds != [] {
      ReplayKeepsFailure(ApplyEvent(s, ds[0].event, ds[0].nowMs), ds[1..]);
    }
  }

  /** When the server's `processedRows` never decreases along a stream, neither does
      the `processed` the page shows after each message. */
  lemma ReplayProcessedMonotone<C>(s: Snapshot<C>, ds: seq<Delivery<C>>, i: nat, j: nat)
    requires forall k :: 0 < k < |ds| ==> ds[k - 1].event.processedRows <= ds[k].event.processedRows
    requires s.processed <= (if ds == [] then s.processed else ds[0].event.processedRows)
    requires i <= j <= |ds|
    ensures Replay(s, ds[..i]).processed <= Replay(s, ds[..j]).processed
  {
    if j > 0 {
      ReplayShowsLatestCounters(s, ds[..j]);
      if i > 0 {
        ReplayShowsLatestCounters(s, ds[..i]);
        SortedBetween(ds, i - 1, j - 1);
      } else {
        assert ds[..i] == [];
        SortedBetween(ds, 0, j - 1);
      }
    }
  }

  lemma {:induction false} SortedBetween<C>(ds: seq<Delivery<C>>, i: nat, j: nat)
    requires forall k :: 0 < k < |ds| ==> ds[k - 1].event.processedRows <= ds[k].event.processedRows
    requires i <= j < |ds|
    ensures ds[i].event.processedRows <= ds[j].event.processedRows
    decreases j - i
  {
    if i < j {
      SortedBetween(ds, i, j - 1);
    }
  }
}
