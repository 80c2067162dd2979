/**
 * A countdown run by the engine's per-frame systems: once started it subtracts each
 * frame's time from the remaining time, and when that reaches zero it runs its
 * callback once, unregisters itself and rewinds to the full time.
 */
module TimerUtils {
  import opened Values

  /** The total of a series of frame times. */
  function Sum(dts: seq<real>): real
    decreases |dts|
  {
    if |dts| == 0 then 0.0 else dts[0] + Sum(dts[1..])
  }

  /** Adding one more frame adds its time. */
  lemma {:induction false} SumSnoc(dts: seq<real>, dt: real)
    ensures Sum(dts + [dt]) == Sum(dts) + dt
    decreases |dts|
  {
    if |dts| > 0 {
      assert (dts + [dt])[1..] == dts[1..] + [dt];
      SumSnoc(dts[1..], dt);
    }
  }

  /** The time used up by frames 0 to `j`. */
  function TimeUsed(dts: seq<real>, j: nat): real
    requires j < |dts|
  {
    Sum(dts[..j + 1])
  }

  /**
   * The frame, counted from 0, on which a countdown with `remaining` seconds left fires
   * when the frames take `dts`: the first one after which the time used reaches
   * `remaining`, or none if the frames run out first.
   */
  function FiringFrame(remaining: real, dts: seq<real>): (k: Option<nat>)
    ensures k.Some? ==> k.value < |dts| && remaining - TimeUsed(dts, k.value) <= 0.0
    ensures k.Some? ==> forall j :: 0 <= j < k.value ==> remaining - TimeUsed(dts, j) > 0.0
    ensures k.None? ==> forall j :: 0 <= j < |dts| ==> remaining - TimeUsed(dts, j) > 0.0
    decreases |dts|
  {
    if |dts| == 0 then None
    else
      PrefixSums(dts);
      if remaining - dts[0] <= 0.0 then Some(0)
      else
        var rest := FiringFrame(remaining - dts[0], dts[1..]);
        if rest.Some? then Some(rest.value + 1) else None
  }

  /** The time used up to frame `j` is the first frame's time plus what the rest used up to frame `j - 1`. */
  lemma PrefixSums(dts: seq<real>)
    requires |dts| > 0
    ensures TimeUsed(dts, 0) == dts[0]
    ensures forall j :: 1 <= j < |dts| ==> TimeUsed(dts, j) == dts[0] + TimeUsed(dts[1..], j - 1)
  {
    assert dts[..1] == [dts[0]];
    assert Sum(dts[..1]) == dts[0] + Sum(dts[..1][1..]);
    forall j | 1 <= j < |dts|
      ensures TimeUsed(dts, j) == dts[0] + TimeUsed(dts[1..], j - 1)
    {
      assert dts[..j + 1][1..] == dts[1..][..j];
    }
  }

  /** The engine calls the timer makes: registering and unregistering its per-frame system. */
  datatype EngineCall = AddSystem | RemoveSystem

  datatype TimerConfig = TimerConfig(seconds: real, callback: Callback)

  class Timer {
    const seconds: real
    const callback: Callback
    var timer: real
    /** The frame times since the countdown was last rewound. */
    ghost var elapsed: seq<real>
    /** Every engine call made so far, oldest first. */
    ghost var engineCalls: seq<EngineCall>

    ghost predicate Valid()
      reads this
    {
      timer == seconds - Sum(elapsed)
    }

    constructor (config: TimerConfig)
      ensures Valid() && timer == seconds == config.seconds && callback == config.callback
      ensures elapsed == [] && engineCalls == []
    {
      seconds := config.seconds;
      callback := config.callback;
      timer := config.seconds;
      elapsed := [];
      engineCalls := [];
    }

    /**
     * Registers the per-frame system, but only before the countdown has moved; a start
     * while it is running is ignored.
     */
    method Start()
      requires Valid()
      modifies this
      ensures Valid() && timer == old(timer) && elapsed == old(elapsed)
      ensures engineCalls == old(engineCalls) + (if old(timer) == seconds then [AddSystem] else [])
    {
      if timer != seconds {
        return;
      }
      engineCalls := engineCalls + [AddSystem];
    }

    /** Unregisters the system and rewinds to the full time. */
    method Stop()
      modifies this
      ensures Valid() && timer == seconds && elapsed == []
      ensures engineCalls == old(engineCalls) + [RemoveSystem]
    {
      engineCalls := engineCalls + [RemoveSystem];
      timer := seconds;
      elapsed := [];
    }

    /**
     * `_timeOutSystemHandle`, called with the timer as receiver: takes the frame time off;
     * once the time left is at most 0 it runs the callback and stops.
     */
    method Tick(dt: real) returns (fired: Option<Callback>)
      requires Valid()
      modifies this
      ensures Valid()
      ensures fired.Some? <==> seconds - Sum(old(elapsed) + [dt]) <= 0.0
      ensures fired.Some? ==>
        fired.value == callback && timer == seconds && elapsed == [] && engineCalls == old(engineCalls) + [RemoveSystem]
      ensures fired.None? ==> elapsed == old(elapsed) + [dt] && engineCalls == old(engineCalls)
    {
      SumSnoc(elapsed, dt);
      timer := timer - dt;
      elapsed := elapsed + [dt];
      if timer <= 0.0 {
        fired := Some(callback);
        Stop();
      } else {
        fired := None;
      }
    }
  }

  /**
   * `Tick` and `FiringFrame` agree: from a rewound timer that has not fired on frames
   * 0 to `k - 1`, the tick of frame `k` fires exactly when `FiringFrame` names `k`.
   */
  lemma TickFiresOnFiringFrame(seconds: real, dts: seq<real>, k: nat)
    requires k < |dts|
    requires forall j :: 0 <= j < k ==> seconds - TimeUsed(dts, j) > 0.0
    ensures seconds - Sum(dts[..k] + [dts[k]]) <= 0.0 <==> FiringFrame(seconds, dts) == Some(k)
  {
    assert dts[..k] + [dts[k]] == dts[..k + 1];
    if seconds - TimeUsed(dts, k) <= 0.0 {
      FiringFrameUnique(seconds, dts, k);
    }
  }

  lemma {:induction false} SumNonNegative(dts: seq<real>)
    requires forall i :: 0 <= i < |dts| ==> dts[i] >= 0.0
    ensures Sum(dts) >= 0.0
    decreases |dts|
  {
    if |dts| > 0 {
      SumNonNegative(dts[1..]);
    }
  }

  /**
   * With frame times that are never negative, the countdown fires during a series of
   * frames exactly when the series is not empty and its total reaches the time left.
   */
  lemma {:induction false} FiresIffTotalReaches(remaining: real, dts: seq<real>)
    requires forall i :: 0 <= i < |dts| ==> dts[i] >= 0.0
    ensures FiringFrame(remaining, dts).Some? <==> |dts| > 0 && remaining - Sum(dts) <= 0.0
    decreases |dts|
  {
    if |dts| > 0 {
      SumNonNegative(dts[1..]);
      if remaining - dts[0] > 0.0 {
        FiresIffTotalReaches(remaining - dts[0], dts[1..]);
      }
    }
  }

  /** `FiringFrame` is pinned down by its contract: the first frame whose prefix reaches the time. */
  lemma FiringFrameUnique(remaining: real, dts: seq<real>, k: nat)
    requires k <= |dts|
    requires forall j :: 0 <= j < k ==> remaining - TimeUsed(dts, j) > 0.0
    requires k < |dts| ==> remaining - TimeUsed(dts, k) <= 0.0
    ensures FiringFrame(remaining, dts) == if k < |dts| then Some(k) else None
  {
    var r := FiringFrame(remaining, dts);
    if r.Some? {
      assert !(r.value < k);
      if k < |dts| {
        assert !(k < r.value);
      }
    }
  }

  /**
   * The handle as the source registers it: the method is passed by itself and loses
   * its receiver, so the countdown it runs is not the timer's own. Depending on how the
   * engine calls a system it either fails or works on some other object; in neither case
   * does the timer's time go down or its callback run. `None` stands for that frame;
   * `Some` is the bound behaviour, the time left after the frame.
   */
  function HandleAsWritten(receiverBound: bool, timer: real, dt: real): (r: Option<real>)
    ensures receiverBound <==> r.Some?
    ensures r.Some? ==> r.value == timer - dt
  {
    if receiverBound then Some(timer - dt) else None
  }

  /** `start` registers the handle unbound. */
  const RegisteredReceiverBound := false

  /**
   * As written, a one-second timer given a two-second frame does not count that frame
   * and never runs its callback, while the bound countdown fires on it.
   */
  lemma AsWrittenNeverCounts()
    ensures HandleAsWritten(RegisteredReceiverBound, 1.0, 2.0).None?
    ensures FiringFrame(1.0, [2.0]) == Some(0)
  {
    assert [2.0][..1] == [2.0];
    FiringFrameUnique(1.0, [2.0], 0);
  }
}
