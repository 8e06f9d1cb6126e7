/** The animation-frame callback registry a presenting session keeps: an
    ordered list of (handle, optional callback) entries. Cancelling clears an
    entry's callback in place; a drain takes the whole list and invokes the
    callbacks still present, in registration order, with one timestamp. */
module RafRegistry {
  import opened WebVRTypes

  datatype Entry = Entry(handle: nat, callback: Option<Callback>)

  /** One call of a frame callback with the timestamp it received. */
  datatype Invocation = Invocation(callback: Callback, time: Float64)

  /** The registry invariant: handles are at least 1, below the next handle to
      be issued, and strictly increase in registration order. */
  ghost predicate WellFormed(list: seq<Entry>, next: nat) {
    && (forall j, k :: 0 <= j < k < |list| ==> list[j].handle < list[k].handle)
    && (forall j :: 0 <= j < |list| ==> 1 <= list[j].handle < next)
  }

  /** The positions of the entries that still hold a callback, in order. */
  function LiveIndices(batch: seq<Entry>): (r: seq<nat>)
    ensures forall k :: 0 <= k < |r| ==> r[k] < |batch| && batch[r[k]].callback.Some?
    ensures forall j, k :: 0 <= j < k < |r| ==> r[j] < r[k]
    ensures forall j :: 0 <= j < |batch| && batch[j].callback.Some? ==> j in r
    decreases |batch|
  {
    if |batch| == 0 then []
    else
      var init := batch[..|batch| - 1];
      var prev := LiveIndices(init);
      assert forall k :: 0 <= k < |prev| ==> batch[prev[k]] == init[prev[k]];
      if batch[|batch| - 1].callback.Some? then prev + [|batch| - 1] else prev
  }

  /** The calls a drain of `batch` makes when the timer reads `now`. */
  function Invocations(batch: seq<Entry>, now: Float64): (r: seq<Invocation>)
    ensures |r| == |LiveIndices(batch)|
    ensures forall k :: 0 <= k < |r| ==>
      r[k] == Invocation(batch[LiveIndices(batch)[k]].callback.value, now)
    decreases |batch|
  {
    if |batch| == 0 then []
    else
      var init := batch[..|batch| - 1];
      var prev := Invocations(init, now);
      assert forall k :: 0 <= k < |prev| ==> batch[LiveIndices(init)[k]] == init[LiveIndices(init)[k]];
      var e := batch[|batch| - 1];
      if e.callback.Some? then prev + [Invocation(e.callback.value, now)] else prev
  }

  /** The position of the first entry with handle `h`, if any. */
  function FirstWithHandle(list: seq<Entry>, h: nat): (r: Option<nat>)
    ensures r.Some? ==>
      r.value < |list| && list[r.value].handle == h &&
      forall j :: 0 <= j < r.value ==> list[j].handle != h
    ensures r.None? ==> forall j :: 0 <= j < |list| ==> list[j].handle != h
  {
    if |list| == 0 then None
    else if list[0].handle == h then Some(0)
    else
      match FirstWithHandle(list[1..], h)
      case None => None
      case Some(i) => Some(i + 1)
  }

  /** The registry after cancelling handle `h`: the first entry with that
      handle loses its callback and keeps its place; every other entry and
      every handle stay as they were, and an unknown handle changes nothing. */
  function CancelEntry(list: seq<Entry>, h: nat): (r: seq<Entry>)
    ensures |r| == |list|
    ensures forall k :: 0 <= k < |list| ==> r[k].handle == list[k].handle
    ensures FirstWithHandle(list, h).None? ==> r == list
    ensures FirstWithHandle(list, h).Some? ==>
      r[FirstWithHandle(list, h).value].callback.None? &&
      forall k :: 0 <= k < |list| && k != FirstWithHandle(list, h).value ==> r[k] == list[k]
  {
    match FirstWithHandle(list, h)
    case None => list
    case Some(i) => list[i := Entry(h, None)]
  }

  /** Every handle in the registry is at least `m`. */
  ghost predicate HandlesFrom(list: seq<Entry>, m: nat) {
    forall k :: 0 <= k < |list| ==> list[k].handle >= m
  }

  /** The search a cancellation makes: a front-to-back scan for the handle. */
  method FindHandle(list: seq<Entry>, h: nat) returns (found: Option<nat>)
    ensures found == FirstWithHandle(list, h)
  {
    var i := 0;
    while i < |list|
      invariant 0 <= i <= |list|
      invariant forall j :: 0 <= j < i ==> list[j].handle != h
    {
      if list[i].handle == h {
        return Some(i);
      }
      i := i + 1;
    }
    return None;
  }

  /** Runs a batch taken from the registry: every entry still holding a
      callback is invoked, front to back, with the same timestamp. */
  method DrainBatch(batch: seq<Entry>, now: Float64) returns (calls: seq<Invocation>)
    ensures calls == Invocations(batch, now)
  {
    calls := [];
    for i := 0 to |batch|
      invariant calls == Invocations(batch[..i], now)
    {
      assert batch[..i + 1][..i] == batch[..i];
      match batch[i].callback {
        case Some(cb) =>
          calls := calls + [Invocation(cb, now)];
        case None =>
      }
    }
    assert batch[..|batch|] == batch;
  }

  /** Draining two batches one after the other makes the same calls as draining
      their concatenation. */
  lemma {:induction false} InvocationsAppend(a: seq<Entry>, b: seq<Entry>, now: Float64)
    ensures Invocations(a + b, now) == Invocations(a, now) + Invocations(b, now)
    decreases |b|
  {
    if |b| == 0 {
      assert a + b == a;
    } else {
      var b' := b[..|b| - 1];
      assert (a + b)[..|a + b| - 1] == a + b';
      InvocationsAppend(a, b', now);
    }
  }

  /** Registering under the next handle keeps the registry invariant for the
      handle after it. */
  lemma RegisterKeepsWellFormed(list: seq<Entry>, next: nat, cb: Callback)
    requires WellFormed(list, next) && next >= 1
    ensures WellFormed(list + [Entry(next, Some(cb))], next + 1)
  {
  }

  /** A callback registered at the end runs last in the next drain, after
      every call the registry already held. */
  lemma RegisterRunsLast(list: seq<Entry>, h: nat, cb: Callback, now: Float64)
    ensures Invocations(list + [Entry(h, Some(cb))], now) == Invocations(list, now) + [Invocation(cb, now)]
  {
    assert (list + [Entry(h, Some(cb))])[..|list|] == list;
  }

  /** Within a well-formed registry a handle names exactly one entry. */
  lemma HandleIsUnique(list: seq<Entry>, next: nat, i: nat)
    requires WellFormed(list, next) && i < |list|
    ensures FirstWithHandle(list, list[i].handle) == Some(i)
  {
  }

  /** A drain of a registry is the drain of the entries before position `i`,
      then of entry `i` alone, then of the entries after it. */
  lemma InvocationsAround(list: seq<Entry>, i: nat, now: Float64)
    requires i < |list|
    ensures Invocations(list, now) == Invocations(list[..i], now) + Invocations([list[i]], now) + Invocations(list[i + 1..], now)
  {
    var pre, post := list[..i], list[i + 1..];
    assert list == pre + [list[i]] + post;
    InvocationsAppend(pre, [list[i]], now);
    InvocationsAppend(pre + [list[i]], post, now);
  }

  /** Clearing the callback at position `i` drops exactly that entry's call:
      the drain makes the calls before it and then the calls after it. */
  lemma ClearedEntryIsSkipped(list: seq<Entry>, i: nat, h: nat, now: Float64)
    requires i < |list|
    ensures Invocations(list[i := Entry(h, None)], now) == Invocations(list[..i], now) + Invocations(list[i + 1..], now)
  {
    var c := list[i := Entry(h, None)];
    assert c[..i] == list[..i] && c[i + 1..] == list[i + 1..];
    assert Invocations([c[i]], now) == [] by {
      assert [c[i]][..0] == [];
    }
    InvocationsAround(c, i, now);
  }

  /** Cancelling a registered handle removes exactly that entry's callback from
      the next drain and leaves every other call in its place. */
  lemma CancelSkipsEntry(list: seq<Entry>, h: nat, i: nat, now: Float64)
    requires FirstWithHandle(list, h) == Some(i)
    ensures Invocations(CancelEntry(list, h), now) == Invocations(list[..i], now) + Invocations(list[i + 1..], now)
    ensures Invocations(list, now) == Invocations(list[..i], now) + Invocations([list[i]], now) + Invocations(list[i + 1..], now)
  {
    assert CancelEntry(list, h) == list[i := Entry(h, None)];
    ClearedEntryIsSkipped(list, i, h, now);
    InvocationsAround(list, i, now);
  }

  /** Cancelling the same handle twice is the same as cancelling it once, and a
      cancellation keeps the registry invariant. */
  lemma CancelIdempotent(list: seq<Entry>, next: nat, h: nat)
    requires WellFormed(list, next)
    ensures WellFormed(CancelEntry(list, h), next)
    ensures CancelEntry(CancelEntry(list, h), h) == CancelEntry(list, h)
  {
    var c := CancelEntry(list, h);
    match FirstWithHandle(list, h)
    case None =>
    case Some(i) =>
      assert forall k :: 0 <= k < |list| ==> c[k].handle == list[k].handle;
      assert FirstWithHandle(c, h) == Some(i) by {
        HandleIsUnique(c, next, i);
      }
  }

  /** A handle below every handle the registry still holds, such as one whose
      batch was already drained, is not found: cancelling it changes nothing. */
  lemma CancelDrainedHandle(list: seq<Entry>, m: nat, h: nat)
    requires HandlesFrom(list, m) && h < m
    ensures CancelEntry(list, h) == list
  {
  }
}
