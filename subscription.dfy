/**
 * Event subscribers (scene/src/programs/subscription.rs).
 *
 * The sinks are opaque handles and the scene context is not modelled: whether `context.send`
 * could connect to a subscriber is a parameter of `Subscribe`, and the outcome of sending the
 * event to each receiver (which the source awaits) is a parameter of `Send`.
 */
module Subscriptions {
  import opened Wrappers
  import opened SceneTypes
  import opened SubProgramIds

  /** An `OutputSink<TEventMessage>` (opaque). */
  datatype EventSink = EventSink(key: nat)

  /** The receivers from index `from` on whose send succeeded, in their original order. */
  function Survivors<R>(receivers: seq<R>, succeeded: seq<bool>, from: nat): seq<R>
    requires |receivers| == |succeeded| && from <= |receivers|
    decreases |receivers| - from
  {
    if from == |receivers| then []
    else (if succeeded[from] then [receivers[from]] else []) + Survivors(receivers, succeeded, from + 1)
  }

  /**
   * The indices from `from` on of the successful sends: increasing, each a success, and every
   * success listed.
   */
  function SuccessIndices(succeeded: seq<bool>, from: nat): (idx: seq<nat>)
    requires from <= |succeeded|
    decreases |succeeded| - from
    ensures forall k :: 0 <= k < |idx| ==> from <= idx[k] < |succeeded| && succeeded[idx[k]]
    ensures forall k, l :: 0 <= k < l < |idx| ==> idx[k] < idx[l]
    ensures forall i :: from <= i < |succeeded| && succeeded[i] ==> i in idx
  {
    if from == |succeeded| then []
    else (if succeeded[from] then [from] else []) + SuccessIndices(succeeded, from + 1)
  }

  /**
   * After a broadcast exactly the receivers whose send failed are gone: the survivors are the
   * receivers at the successful indices, in increasing index order.
   */
  lemma {:induction false} SurvivorsAreSuccesses<R>(receivers: seq<R>, succeeded: seq<bool>, from: nat)
    requires |receivers| == |succeeded| && from <= |receivers|
    ensures var idx := SuccessIndices(succeeded, from);
      && |Survivors(receivers, succeeded, from)| == |idx|
      && forall k :: 0 <= k < |idx| ==> Survivors(receivers, succeeded, from)[k] == receivers[idx[k]]
  {
    SurvivorsLength(receivers, succeeded, from);
    forall k | 0 <= k < |SuccessIndices(succeeded, from)|
      ensures Survivors(receivers, succeeded, from)[k] == receivers[SuccessIndices(succeeded, from)[k]]
    {
      SurvivorAt(receivers, succeeded, from, k);
    }
  }

  /** There are as many survivors as successful sends. */
  lemma {:induction false} SurvivorsLength<R>(receivers: seq<R>, succeeded: seq<bool>, from: nat)
    requires |receivers| == |succeeded| && from <= |receivers|
    decreases |receivers| - from
    ensures |Survivors(receivers, succeeded, from)| == |SuccessIndices(succeeded, from)|
  {
    if from < |receivers| {
      SurvivorsLength(receivers, succeeded, from + 1);
    }
  }

  /** The `k`-th survivor is the receiver at the `k`-th successful index. */
  lemma {:induction false} SurvivorAt<R>(receivers: seq<R>, succeeded: seq<bool>, from: nat, k: nat)
    requires |receivers| == |succeeded| && from <= |receivers|
    requires k < |SuccessIndices(succeeded, from)|
    decreases |receivers| - from
    ensures k < |Survivors(receivers, succeeded, from)|
    ensures Survivors(receivers, succeeded, from)[k] == receivers[SuccessIndices(succeeded, from)[k]]
  {
    SurvivorsLength(receivers, succeeded, from);
    var rest := Survivors(receivers, succeeded, from + 1);
    var restIdx := SuccessIndices(succeeded, from + 1);
    if succeeded[from] {
      assert Survivors(receivers, succeeded, from) == [receivers[from]] + rest;
      assert SuccessIndices(succeeded, from) == [from] + restIdx;
      if k > 0 {
        SurvivorAt(receivers, succeeded, from + 1, k - 1);
      }
    } else {
      assert Survivors(receivers, succeeded, from) == rest;
      assert SuccessIndices(succeeded, from) == restIdx;
      SurvivorAt(receivers, succeeded, from + 1, k);
    }
  }

  /** When every send succeeds nobody is removed; when every send fails everybody is. */
  lemma {:induction false} SurvivorsAllOrNothing<R>(receivers: seq<R>, succeeded: seq<bool>, from: nat)
    requires |receivers| == |succeeded| && from <= |receivers|
    decreases |receivers| - from
    ensures false !in succeeded[from..] ==> Survivors(receivers, succeeded, from) == receivers[from..]
    ensures true !in succeeded[from..] ==> Survivors(receivers, succeeded, from) == []
  {
    if from < |receivers| {
      SurvivorsAllOrNothing(receivers, succeeded, from + 1);
      assert succeeded[from..] == [succeeded[from]] + succeeded[from + 1..];
      assert receivers[from..] == [receivers[from]] + receivers[from + 1..];
    }
  }

  /** `EventSubscribers<TEventMessage>` */
  class EventSubscribers<M> {
    var receivers: seq<(SubProgramId, EventSink)>

    /** `new` (lines 35-39): no receivers. */
    constructor ()
      ensures receivers == []
    {
      receivers := [];
    }

    /**
     * `subscribe` (lines 44-50): `connection` is what `context.send(program)` gave; only a
     * sink that could be created is appended.
     */
    method Subscribe(program: SubProgramId, connection: Result<EventSink, ConnectionError>)
      modifies this
      ensures connection.Ok? ==> receivers == old(receivers) + [(program, connection.value)]
      ensures connection.Err? ==> receivers == old(receivers)
    {
      if connection.Err? {
        return;
      }
      receivers := receivers + [(program, connection.value)];
    }

    /**
     * `send` (lines 57-84). Every receiver is offered the same message (`offers`);
     * `succeeded[i]` says whether the send to receiver `i` succeeded. Going through the
     * results from the last index down, each failed receiver is removed; the result is whether
     * any send succeeded.
     */
    method Send(message: M, succeeded: seq<bool>) returns (sentSuccessfully: bool, offers: seq<(EventSink, M)>)
      requires |succeeded| == |receivers|
      modifies this
      ensures |offers| == |old(receivers)|
      ensures forall i :: 0 <= i < |offers| ==> offers[i] == (old(receivers)[i].1, message)
      ensures receivers == Survivors(old(receivers), succeeded, 0)
      ensures sentSuccessfully <==> true in succeeded
    {
      var current := receivers;
      offers := seq(|current|, i requires 0 <= i < |current| => (current[i].1, message));
      sentSuccessfully := false;
      var idx := |succeeded|;
      while idx > 0
        invariant 0 <= idx <= |current|
        invariant receivers == current[..idx] + Survivors(current, succeeded, idx)
        invariant sentSuccessfully <==> true in succeeded[idx..]
        decreases idx
      {
        idx := idx - 1;
        assert succeeded[idx..] == [succeeded[idx]] + succeeded[idx + 1..];
        assert current[..idx + 1] == current[..idx] + [current[idx]];
        if !succeeded[idx] {
          assert receivers[..idx] == current[..idx];
          assert receivers[idx + 1..] == Survivors(current, succeeded, idx + 1);
          receivers := receivers[..idx] + receivers[idx + 1..];
        } else {
          sentSuccessfully := true;
        }
      }
      assert succeeded[0..] == succeeded;
    }
  }
}
