/** Bookkeeping for the platform objects the dashboard owns: every `EventSource`
    and every `setInterval` timer it has ever created, each either live or closed,
    and the ref (`eventSourceRef`, `elapsedIntervalRef`) that points at one of them.
    Closing a handle does not reset its ref to null (src/pages/CustomerDashboard.tsx:
    91-93, 127-130, 327-332), so a ref may point at a closed handle. */
module Handles {
  import opened Wrappers

  /** Every live handle in `hs` is the one `ref` points at. */
  predicate OwnsAllLive(hs: seq<bool>, ref: Option<nat>) {
    (ref.Some? ==> ref.value < |hs|) &&
    forall i :: 0 <= i < |hs| && hs[i] ==> ref == Some(i)
  }

  /** The handle `ref` points at exists and is live. */
  predicate IsLive(hs: seq<bool>, ref: Option<nat>) {
    ref.Some? && ref.value < |hs| && hs[ref.value]
  }

  /** How many handles are live. */
  function LiveCount(hs: seq<bool>): nat {
    if hs == [] then 0 else LiveCount(hs[..|hs| - 1]) + (if hs[|hs| - 1] then 1 else 0)
  }

  /** `ref.close()` / `clearInterval(ref)` when the ref is set; closing an already
      closed handle changes nothing. */
  function Close(hs: seq<bool>, ref: Option<nat>): (r: seq<bool>)
    ensures |r| == |hs|
    ensures forall i :: 0 <= i < |hs| ==> r[i] == (hs[i] && ref != Some(i))
  {
    if ref.Some? && ref.value < |hs| then hs[ref.value := false] else hs
  }

  /** Close the handle the ref points at, then create a new live one (the new ref
      is `Some(|hs|)`). */
  function Reopen(hs: seq<bool>, ref: Option<nat>): (r: seq<bool>)
    ensures |r| == |hs| + 1 && r[|hs|]
    ensures forall i :: 0 <= i < |hs| ==> r[i] == (hs[i] && ref != Some(i))
  {
    Close(hs, ref) + [true]
  }

  lemma {:induction false} LiveCountAppend(a: seq<bool>, b: seq<bool>)
    ensures LiveCount(a + b) == LiveCount(a) + LiveCount(b)
    decreases |b|
  {
    if b != [] {
      var b' := b[..|b| - 1];
      assert (a + b)[..|a + b| - 1] == a + b';
      LiveCountAppend(a, b');
    } else {
      assert a + b == a;
    }
  }

  lemma {:induction false} NoneLive(hs: seq<bool>)
    requires forall i :: 0 <= i < |hs| ==> !hs[i]
    ensures LiveCount(hs) == 0
  {
    if hs != [] {
      NoneLive(hs[..|hs| - 1]);
    }
  }

  /** When the ref owns every live handle, at most one handle is live, and one is
      live exactly when the ref points at a live handle. */
  lemma {:induction false} AtMostOneLive(hs: seq<bool>, ref: Option<nat>)
    requires OwnsAllLive(hs, ref)
    ensures LiveCount(hs) <= 1
    ensures LiveCount(hs) == 1 <==> IsLive(hs, ref)
  {
    if IsLive(hs, ref) {
      var k := ref.value;
      assert hs == hs[..k] + [true] + hs[k + 1..];
      NoneLive(hs[..k]);
      NoneLive(hs[k + 1..]);
      LiveCountAppend(hs[..k] + [true], hs[k + 1..]);
      LiveCountAppend(hs[..k], [true]);
      assert LiveCount([true]) == LiveCount([]) + 1;
    } else {
      NoneLive(hs);
    }
  }

  /** Closing through the owning ref leaves nothing live, and closing again is a
      no-op. */
  lemma CloseOwnedLeavesNoneLive(hs: seq<bool>, ref: Option<nat>)
    requires OwnsAllLive(hs, ref)
    ensures OwnsAllLive(Close(hs, ref), ref)
    ensures LiveCount(Close(hs, ref)) == 0
    ensures Close(Close(hs, ref), ref) == Close(hs, ref)
  {
    NoneLive(Close(hs, ref));
  }

  /** Closing the owned handle before creating a new one keeps the ownership
      invariant for the new ref, and exactly one handle is then live. */
  lemma ReopenOwned(hs: seq<bool>, ref: Option<nat>)
    requires OwnsAllLive(hs, ref)
    ensures OwnsAllLive(Reopen(hs, ref), Some(|hs|))
    ensures IsLive(Reopen(hs, ref), Some(|hs|))
    ensures LiveCount(Reopen(hs, ref)) == 1
  {
    AtMostOneLive(Reopen(hs, ref), Some(|hs|));
  }
}
