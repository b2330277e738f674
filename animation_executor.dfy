/**
 * The animation-flow executor (ui.Component_AnimationExecutor): a frame-stepped
 * interpreter of an ordered list of animation steps.
 *
 * The pure part (Scan, Tick, Ticks) says what one `update` call does to the
 * executor's state; the class Executor is the component itself, whose methods
 * change its fields and the flow array in place and are proved against Tick.
 * Whatever the component hands to collaborators (the animator's clips, the
 * audio manager, the completion callback, the visual refresh) is recorded in
 * an effect log, an abstract sink.
 */
module AnimationExecutor {
  import opened Common

  /** The clip kinds the animator can start. */
  datatype Clip =
    | MaskTo | ChangeImages | ChangeTo | BlendTo | ColorTo | TintTo | MoveTo | Rotate
    | RotateTo | MoveBy | ZoomTo | Scroll | Move | Shake | Appear | Disappear

  /** A call startAnimation makes to a collaborator. */
  datatype Call =
    | SoundPlayed                              // AudioManager.playSound
    | RecordPlayed(animationId: string)        // animator.playAnimation(record)
    | ClipStarted(clip: Clip, duration: nat)   // animator.<clip>(..., duration, easing)
    | VisualRefreshed                          // object.visual.update()
    | BehaviorRefreshed                        // object.behavior.update()

  /** What the executor hands to the outside, in order: one entry per startAnimation call, and the completion callback. */
  datatype Effect =
    | Started(calls: seq<Call>)
    | CallbackCalled                           // callback(object)

  /**
   * What a step's `type` string selects in startAnimation: a sound, a named
   * animation record, one of the animator's clips, or nothing the switch knows.
   */
  datatype Kind = Sound | PlayAnimation | Animate(clip: Clip) | Unknown(name: string)

  /**
   * One step of a flow. `kind` is the step's `type`, already classified by
   * KindOf (None for a step without a type: a pure delay), `duration` its
   * duration as resolved against the object, `wait` is 0 when the step does not
   * wait and otherwise its `wait` value (a `wait: true` flag behaves as 1: it
   * passes the `> 0` test and one decrement clears it), and `executed` is the
   * flag the executor sets once it has dispatched the step.
   */
  datatype Step = Step(kind: Option<Kind>, duration: nat, wait: nat, animationId: string, executed: bool)

  /** What the executor sees of its object: its components and the animation records table. */
  datatype Target = Target(hasVisual: bool, hasBehavior: bool, records: set<string>)

  /** The `type` string that selects a clip. */
  function ClipName(c: Clip): string {
    match c
    case MaskTo => "maskTo"
    case ChangeImages => "changeImages"
    case ChangeTo => "changeTo"
    case BlendTo => "blendTo"
    case ColorTo => "colorTo"
    case TintTo => "tintTo"
    case MoveTo => "moveTo"
    case Rotate => "rotate"
    case RotateTo => "rotateTo"
    case MoveBy => "moveBy"
    case ZoomTo => "zoomTo"
    case Scroll => "scroll"
    case Move => "move"
    case Shake => "shake"
    case Appear => "appear"
    case Disappear => "disappear"
  }

  /** The case of startAnimation's switch that a `type` string selects. */
  function KindOf(name: string): (k: Kind)
    ensures k.Unknown? ==> k.name == name
  {
    if name == "sound" then Sound
    else if name == "playAnimation" then PlayAnimation
    else if name == "maskTo" then Animate(MaskTo)
    else if name == "changeImages" then Animate(ChangeImages)
    else if name == "changeTo" then Animate(ChangeTo)
    else if name == "blendTo" then Animate(BlendTo)
    else if name == "colorTo" then Animate(ColorTo)
    else if name == "tintTo" then Animate(TintTo)
    else if name == "moveTo" then Animate(MoveTo)
    else if name == "rotate" then Animate(Rotate)
    else if name == "rotateTo" then Animate(RotateTo)
    else if name == "moveBy" then Animate(MoveBy)
    else if name == "zoomTo" then Animate(ZoomTo)
    else if name == "scroll" then Animate(Scroll)
    else if name == "move" then Animate(Move)
    else if name == "shake" then Animate(Shake)
    else if name == "appear" then Animate(Appear)
    else if name == "disappear" then Animate(Disappear)
    else Unknown(name)
  }

  /** Every clip is selected by its own name. */
  lemma KindOfClipName(c: Clip)
    ensures KindOf(ClipName(c)) == Animate(c)
  {
  }

  /** No two clips share a name. */
  lemma ClipNamesDistinct(c: Clip, d: Clip)
    ensures ClipName(c) == ClipName(d) ==> c == d
  {
    KindOfClipName(c);
    KindOfClipName(d);
  }

  /** A string selects a clip exactly when it is that clip's name. */
  lemma KindOfAnimate(name: string)
    ensures KindOf(name).Animate? ==> ClipName(KindOf(name).clip) == name
  {
  }

  /** The calls the type switch of startAnimation makes for a step. */
  function KindCalls(s: Step, t: Target): seq<Call> {
    match s.kind
    case None => []
    case Some(Sound) => [SoundPlayed]
    case Some(PlayAnimation) => if s.animationId in t.records then [RecordPlayed(s.animationId)] else []
    // a scroll clip is always started with duration 0
    case Some(Animate(c)) => [ClipStarted(c, if c == Scroll then 0 else s.duration)]
    case Some(Unknown(_)) => []
  }

  /** The synchronous refresh after a step whose resolved duration is 0. */
  function RefreshCalls(duration: nat, t: Target): seq<Call> {
    if t.hasVisual then (if duration == 0 then [VisualRefreshed] else [])
    else if t.hasBehavior && duration == 0 then [BehaviorRefreshed]
    else []
  }

  /** Everything startAnimation does for a step; a shake step returns before the refresh. */
  function StartCalls(s: Step, t: Target): seq<Call> {
    if s.kind == Some(Animate(Shake)) then KindCalls(s, t)
    else KindCalls(s, t) + RefreshCalls(s.duration, t)
  }

  /** A step of no known type only triggers the zero-duration refresh, when the object has a visual or a behavior. */
  lemma UnknownTypeOnlyRefreshes(s: Step, t: Target)
    requires s.kind.None? || s.kind.value.Unknown?
    ensures StartCalls(s, t) == RefreshCalls(s.duration, t)
    ensures |StartCalls(s, t)| == if s.duration == 0 && (t.hasVisual || t.hasBehavior) then 1 else 0
  {
  }

  /** A shake step starts its clip and never refreshes; every other clip with duration 0 refreshes a visual. */
  lemma ShakeNeverRefreshes(s: Step, t: Target)
    ensures s.kind == Some(Animate(Shake)) ==> StartCalls(s, t) == [ClipStarted(Shake, s.duration)]
    ensures s.kind.Some? && s.kind.value.Animate? && s.kind.value.clip != Shake && s.duration == 0 && t.hasVisual ==>
      StartCalls(s, t) == [ClipStarted(s.kind.value.clip, 0), VisualRefreshed]
  {
  }

  /** The value waitCounter takes when a waiting step is dispatched. */
  function WaitFor(s: Step): nat {
    if s.kind.Some? then s.duration else s.wait
  }

  /**
   * Where one pass of processAnimation from some pointer stops: the new pointer,
   * and the new waitCounter when the pass stopped at a waiting step.
   */
  datatype ScanResult = ScanResult(pointer: nat, waitCounter: Option<nat>)

  /** The dispatch loop of processAnimation over the flow as it was when the pass began. */
  function Scan(flow: seq<Step>, p: nat): (r: ScanResult)
    requires p <= |flow|
    ensures p <= r.pointer <= |flow|
    ensures p < |flow| ==> p < r.pointer
    decreases |flow| - p
  {
    if p == |flow| then ScanResult(p, None)
    else if !flow[p].executed && flow[p].wait > 0 then ScanResult(p + 1, Some(WaitFor(flow[p])))
    else Scan(flow, p + 1)
  }

  /** The indices in [lo, hi) of the steps not yet executed, in order: the steps a pass over that range dispatches. */
  function Pending(flow: seq<Step>, lo: nat, hi: nat): (ds: seq<nat>)
    requires lo <= hi <= |flow|
    ensures |ds| <= hi - lo
    ensures forall j :: 0 <= j < |ds| ==> lo <= ds[j] < hi
    decreases hi
  {
    if hi == lo then []
    else Pending(flow, lo, hi - 1) + (if flow[hi - 1].executed then [] else [hi - 1])
  }

  /** Step `i` of the flow after the steps in [lo, hi) have been dispatched. */
  function MarkAt(flow: seq<Step>, lo: nat, hi: nat, i: nat): Step
    requires i < |flow|
  {
    if lo <= i < hi then flow[i].(executed := true) else flow[i]
  }

  /** The flow after the steps in [lo, hi) have been dispatched: each is marked executed. */
  function Mark(flow: seq<Step>, lo: nat, hi: nat): (r: seq<Step>)
    ensures |r| == |flow|
    ensures forall i :: 0 <= i < |flow| ==> r[i] == MarkAt(flow, lo, hi, i)
  {
    seq(|flow|, i requires 0 <= i < |flow| => MarkAt(flow, lo, hi, i))
  }

  /** The calls made while dispatching the pending steps in [lo, hi), in order. */
  function EffectsBetween(flow: seq<Step>, lo: nat, hi: nat, t: Target): seq<Effect>
    requires lo <= hi <= |flow|
    decreases hi
  {
    if hi == lo then []
    else EffectsBetween(flow, lo, hi - 1, t) + (if flow[hi - 1].executed then [] else [Started(StartCalls(flow[hi - 1], t))])
  }

  /** The executor's state: `flow` is None when no animation is installed. */
  datatype ExecState = ExecState(
    flow: Option<seq<Step>>,
    pointer: nat,
    waitCounter: nat,
    repeat: bool,
    hasCallback: bool,
    animatorAttached: bool,
    log: seq<Effect>)

  /** The bounded-pointer invariant. */
  predicate WellFormed(st: ExecState) {
    st.flow.Some? ==> st.pointer <= |st.flow.value|
  }

  /** The start of updateAnimation once the wait is over and the pointer has reached the end. */
  function EndOfFlow(st: ExecState): ExecState {
    st.(pointer := 0,
        log := st.log + (if st.hasCallback then [CallbackCalled] else []),
        flow := if st.repeat then st.flow else None)
  }

  /** One processAnimation pass on an installed flow. */
  function Dispatch(st: ExecState, t: Target): (r: ExecState)
    requires st.flow.Some? && WellFormed(st)
    ensures WellFormed(r) && r.flow.Some? && |r.flow.value| == |st.flow.value|
  {
    var flow := st.flow.value;
    var s := Scan(flow, st.pointer);
    st.(flow := Some(Mark(flow, st.pointer, s.pointer)),
        pointer := s.pointer,
        waitCounter := s.waitCounter.GetOr(st.waitCounter),
        animatorAttached := st.animatorAttached || Pending(flow, st.pointer, s.pointer) != [],
        log := st.log + EffectsBetween(flow, st.pointer, s.pointer, t))
  }

  /** What one call of `update` does to the executor's state. */
  function Tick(st: ExecState, t: Target): (r: ExecState)
    requires WellFormed(st)
    ensures WellFormed(r)
    ensures r.flow.Some? ==> st.flow.Some? && |r.flow.value| == |st.flow.value|
  {
    if st.flow.None? then st
    else if st.waitCounter > 0 then st.(waitCounter := st.waitCounter - 1)
    else
      var st1 := if st.pointer >= |st.flow.value| then EndOfFlow(st) else st;
      if st1.flow.None? then st1 else Dispatch(st1, t)
  }

  /** The indices of the steps that the next `update` dispatches. */
  function DispatchedBy(st: ExecState): (ds: seq<nat>)
    requires WellFormed(st)
  {
    if st.flow.None? || st.waitCounter > 0 then []
    else
      var st1 := if st.pointer >= |st.flow.value| then EndOfFlow(st) else st;
      if st1.flow.None? then []
      else Pending(st1.flow.value, st1.pointer, Scan(st1.flow.value, st1.pointer).pointer)
  }

  /** `n` consecutive calls of `update`. */
  function Ticks(st: ExecState, t: Target, n: nat): (r: ExecState)
    requires WellFormed(st)
    ensures WellFormed(r)
    decreases n
  {
    if n == 0 then st else Ticks(Tick(st, t), t, n - 1)
  }

  // ---------------------------------------------------------------------
  // Properties of one dispatch pass
  // ---------------------------------------------------------------------

  /** The pending indices of a range are exactly its steps not yet executed, in strictly increasing order. */
  lemma {:induction false} PendingIsUnexecuted(flow: seq<Step>, lo: nat, hi: nat)
    requires lo <= hi <= |flow|
    ensures forall i :: i in Pending(flow, lo, hi) <==> lo <= i < hi && !flow[i].executed
    ensures forall a, b :: 0 <= a < b < |Pending(flow, lo, hi)| ==> Pending(flow, lo, hi)[a] < Pending(flow, lo, hi)[b]
    decreases hi
  {
    if hi > lo {
      PendingIsUnexecuted(flow, lo, hi - 1);
      var ds := Pending(flow, lo, hi - 1);
      assert forall a :: 0 <= a < |ds| ==> ds[a] in ds;
    }
  }

  /** One startAnimation entry per pending step of the range, in array order. */
  lemma {:induction false} EffectsFollowPending(flow: seq<Step>, lo: nat, hi: nat, t: Target)
    requires lo <= hi <= |flow|
    ensures var ds := Pending(flow, lo, hi);
      |EffectsBetween(flow, lo, hi, t)| == |ds| &&
      forall j :: 0 <= j < |ds| ==> EffectsBetween(flow, lo, hi, t)[j] == Started(StartCalls(flow[ds[j]], t))
    decreases hi
  {
    if hi > lo {
      EffectsFollowPending(flow, lo, hi - 1, t);
      PendingIsUnexecuted(flow, lo, hi - 1);
    }
  }

  /** A range whose steps have all run has nothing pending, causes no calls and is left as it is by marking. */
  lemma {:induction false} AllExecutedRange(flow: seq<Step>, lo: nat, hi: nat, t: Target)
    requires lo <= hi <= |flow|
    requires forall i :: lo <= i < hi ==> flow[i].executed
    ensures Pending(flow, lo, hi) == [] && EffectsBetween(flow, lo, hi, t) == []
    ensures Mark(flow, lo, hi) == flow
    decreases hi
  {
    if hi > lo {
      AllExecutedRange(flow, lo, hi - 1, t);
    }
  }

  /** A range of steps none of which has run is pending in full, in array order. */
  lemma {:induction false} FreshRangeAllPending(flow: seq<Step>, lo: nat, hi: nat)
    requires lo <= hi <= |flow|
    requires forall i :: lo <= i < hi ==> !flow[i].executed
    ensures |Pending(flow, lo, hi)| == hi - lo
    ensures forall j :: 0 <= j < hi - lo ==> Pending(flow, lo, hi)[j] == lo + j
    decreases hi
  {
    if hi > lo {
      FreshRangeAllPending(flow, lo, hi - 1);
    }
  }

  /**
   * A pass stops right after the first unexecuted step that waits: no earlier
   * unexecuted step in the pass waits, the counter is set from that step, and a
   * pass that does not reach the end of the flow is one that stopped at a wait.
   */
  lemma {:induction false} ScanStopsAtFirstWait(flow: seq<Step>, p: nat)
    requires p <= |flow|
    ensures var r := Scan(flow, p);
      (forall i :: p <= i < r.pointer - 1 ==> flow[i].executed || flow[i].wait == 0) &&
      (r.waitCounter.Some? <==> p < r.pointer && !flow[r.pointer - 1].executed && flow[r.pointer - 1].wait > 0) &&
      (r.waitCounter.Some? ==> r.waitCounter.value == WaitFor(flow[r.pointer - 1])) &&
      (r.pointer < |flow| ==> r.waitCounter.Some?)
    decreases |flow| - p
  {
    if p < |flow| && !(!flow[p].executed && flow[p].wait > 0) {
      ScanStopsAtFirstWait(flow, p + 1);
    }
  }

  /** When no step from the pointer on waits, one pass runs to the end of the flow and leaves the counter alone. */
  lemma {:induction false} ScanWithoutWaits(flow: seq<Step>, p: nat)
    requires p <= |flow|
    requires forall i :: p <= i < |flow| ==> flow[i].wait == 0
    ensures Scan(flow, p) == ScanResult(|flow|, None)
    decreases |flow| - p
  {
    if p < |flow| {
      ScanWithoutWaits(flow, p + 1);
    }
  }

  /** Over a flow whose steps have all run, a pass runs to the end of the flow. */
  lemma {:induction false} ScanWithoutRunning(flow: seq<Step>, p: nat)
    requires p <= |flow|
    requires forall i :: p <= i < |flow| ==> flow[i].executed
    ensures Scan(flow, p) == ScanResult(|flow|, None)
    decreases |flow| - p
  {
    if p < |flow| {
      ScanWithoutRunning(flow, p + 1);
    }
  }

  /** A run of steps that neither wait nor have run is dispatched in one pass, in array order. */
  lemma PlainStepsInOnePass(flow: seq<Step>, p: nat)
    requires p <= |flow|
    requires forall i :: p <= i < |flow| ==> !flow[i].executed && flow[i].wait == 0
    ensures Scan(flow, p) == ScanResult(|flow|, None)
    ensures var ds := Pending(flow, p, |flow|);
      |ds| == |flow| - p && forall j :: 0 <= j < |ds| ==> ds[j] == p + j
  {
    ScanWithoutWaits(flow, p);
    FreshRangeAllPending(flow, p, |flow|);
  }

  // ---------------------------------------------------------------------
  // Properties of update
  // ---------------------------------------------------------------------

  /** While the counter is positive, D ticks only count it down to 0. */
  lemma {:induction false} CountdownTicks(st: ExecState, t: Target, j: nat)
    requires WellFormed(st) && st.flow.Some? && j <= st.waitCounter
    ensures Ticks(st, t, j) == st.(waitCounter := st.waitCounter - j)
    decreases j
  {
    if j > 0 {
      var st' := st.(waitCounter := st.waitCounter - 1);
      assert Tick(st, t) == st';
      CountdownTicks(st', t, j - 1);
    }
  }

  /** With the counter at D, the next dispatch happens on tick D+1, exactly as if the wait had been 0. */
  lemma NextDispatchAfterWait(st: ExecState, t: Target)
    requires WellFormed(st) && st.flow.Some?
    ensures Ticks(st, t, st.waitCounter + 1) == Tick(st.(waitCounter := 0), t)
  {
    CountdownTicks(st, t, st.waitCounter);
    TicksSplit(st, t, st.waitCounter, 1);
  }

  /**
   * A step that waits holds the flow for its duration: with a 5-frame moveTo
   * that waits followed by a blendTo, the first update dispatches the moveTo,
   * the next five only count down, and the seventh update dispatches the blendTo.
   */
  lemma WaitingStepHoldsFlow(t: Target)
    ensures var flow := [Step(Some(Animate(MoveTo)), 5, 1, "", false), Step(Some(Animate(BlendTo)), 0, 0, "", false)];
      var st := ExecState(Some(flow), 0, 0, false, false, false, []);
      DispatchedBy(st) == [0] &&
      (forall k :: 1 <= k <= 5 ==> DispatchedBy(Ticks(st, t, k)) == []) &&
      DispatchedBy(Ticks(st, t, 6)) == [1]
  {
    var flow := [Step(Some(Animate(MoveTo)), 5, 1, "", false), Step(Some(Animate(BlendTo)), 0, 0, "", false)];
    var st := ExecState(Some(flow), 0, 0, false, false, false, []);
    assert Scan(flow, 0) == ScanResult(1, Some(5));
    var st1 := Tick(st, t);
    assert st1.waitCounter == 5 && st1.pointer == 1 && st1.flow.Some?;
    forall k | 1 <= k <= 6
      ensures Ticks(st, t, k) == st1.(waitCounter := 5 - (k - 1))
    {
      CountdownTicks(st1, t, k - 1);
    }
    var st6 := st1.(waitCounter := 0);
    assert st6.flow.value[1] == flow[1];
    assert Scan(st6.flow.value, 1) == ScanResult(2, None);
  }

  lemma {:induction false} TicksSplit(st: ExecState, t: Target, m: nat, n: nat)
    requires WellFormed(st)
    ensures Ticks(st, t, m + n) == Ticks(Ticks(st, t, m), t, n)
    decreases m
  {
    if m > 0 {
      TicksSplit(Tick(st, t), t, m - 1, n);
    }
  }

  /** Once no animation is installed (after stop, or a non-repeating flow ended), update changes nothing. */
  lemma StoppedIsIdle(st: ExecState, t: Target, n: nat)
    requires WellFormed(st) && st.flow.None?
    ensures Ticks(st, t, n) == st
  {
    if n > 0 {
      StoppedIsIdle(st, t, n - 1);
    }
  }

  /**
   * With `repeat` set and every step executed, each later tick calls the
   * callback again and dispatches nothing.
   */
  lemma RepeatLoopsWithoutDispatch(st: ExecState, t: Target)
    requires WellFormed(st) && st.flow.Some? && st.repeat && st.waitCounter == 0
    requires st.pointer == |st.flow.value|
    requires forall i :: 0 <= i < |st.flow.value| ==> st.flow.value[i].executed
    ensures DispatchedBy(st) == []
    ensures Tick(st, t) == st.(log := st.log + (if st.hasCallback then [CallbackCalled] else []))
  {
    ScanWithoutRunning(st.flow.value, 0);
    AllExecutedRange(st.flow.value, 0, |st.flow.value|, t);
  }

  /**
   * Re-executing a descriptor whose steps all ran: the first tick dispatches
   * nothing and moves the pointer to the end; the second calls the callback
   * and, without repeat, uninstalls the flow.
   */
  lemma ReexecutedFlowDispatchesNothing(st: ExecState, t: Target)
    requires st.flow.Some? && st.pointer == 0 && st.waitCounter == 0 && !st.repeat
    requires forall i :: 0 <= i < |st.flow.value| ==> st.flow.value[i].executed
    ensures DispatchedBy(st) == [] && DispatchedBy(Tick(st, t)) == []
    ensures Ticks(st, t, 2) == st.(pointer := 0, flow := None,
      log := st.log + (if st.hasCallback then [CallbackCalled] else []))
  {
    var flow := st.flow.value;
    if |flow| > 0 {
      ScanWithoutRunning(flow, 0);
      AllExecutedRange(flow, 0, |flow|, t);
      assert Tick(st, t) == st.(pointer := |flow|);
    } else {
      assert Tick(st, t) == EndOfFlow(st);
    }
  }

  /** A dispatch pass only ever logs startAnimation entries, never the callback. */
  lemma DispatchLogsNoCallback(st: ExecState, t: Target)
    requires st.flow.Some? && WellFormed(st)
    ensures |st.log| <= |Dispatch(st, t).log| && Dispatch(st, t).log[..|st.log|] == st.log
    ensures CallbackCalled !in Dispatch(st, t).log[|st.log|..]
  {
    var flow := st.flow.value;
    var q := Scan(flow, st.pointer).pointer;
    var es := EffectsBetween(flow, st.pointer, q, t);
    EffectsFollowPending(flow, st.pointer, q, t);
    assert Dispatch(st, t).log == st.log + es;
    assert Dispatch(st, t).log[|st.log|..] == es;
    assert forall j :: 0 <= j < |es| ==> es[j] != CallbackCalled;
  }

  /**
   * The completion callback of any tick: a tick appends to the log, and it
   * calls the callback exactly when a flow is installed, no wait is pending,
   * the pointer has reached the end and a callback was given. A tick that
   * reaches the end keeps the flow exactly when `repeat` is set; a tick that
   * starts before the end never calls the callback.
   */
  lemma EndOfFlowCallback(st: ExecState, t: Target)
    requires WellFormed(st)
    ensures |st.log| <= |Tick(st, t).log| && Tick(st, t).log[..|st.log|] == st.log
    ensures CallbackCalled in Tick(st, t).log[|st.log|..] <==>
      st.flow.Some? && st.waitCounter == 0 && st.pointer >= |st.flow.value| && st.hasCallback
    ensures st.flow.Some? && st.waitCounter == 0 && st.pointer >= |st.flow.value| ==>
      (Tick(st, t).flow.None? <==> !st.repeat)
    ensures st.flow.Some? && st.waitCounter == 0 && st.pointer >= |st.flow.value| && st.hasCallback ==>
      Tick(st, t).log[|st.log|] == CallbackCalled
    ensures st.flow.Some? && st.pointer < |st.flow.value| ==> CallbackCalled !in Tick(st, t).log[|st.log|..]
  {
    if st.flow.Some? && st.waitCounter == 0 {
      if st.pointer >= |st.flow.value| {
        var st1 := EndOfFlow(st);
        if st1.flow.Some? {
          DispatchLogsNoCallback(st1, t);
          var r := Dispatch(st1, t);
          assert r.log[..|st1.log|] == st1.log;
          if st.hasCallback {
            assert st1.log == st.log + [CallbackCalled];
            assert r.log[|st.log|] == st1.log[|st.log|];
            assert CallbackCalled in r.log[|st.log|..];
          } else {
            assert st1.log == st.log;
          }
        } else {
          assert Tick(st, t).log[|st.log|..] == if st.hasCallback then [CallbackCalled] else [];
        }
      } else {
        DispatchLogsNoCallback(st, t);
      }
    }
  }

  /** A dispatched step was not executed before the tick and is executed after it. */
  lemma TickMarksDispatched(st: ExecState, t: Target, i: nat)
    requires WellFormed(st) && i in DispatchedBy(st)
    ensures st.flow.Some? && i < |st.flow.value| && !st.flow.value[i].executed
    ensures Tick(st, t).flow.Some? && Tick(st, t).flow.value[i].executed
  {
    var st1 := if st.pointer >= |st.flow.value| then EndOfFlow(st) else st;
    PendingIsUnexecuted(st1.flow.value, st1.pointer, Scan(st1.flow.value, st1.pointer).pointer);
  }

  /** A tick never clears an executed flag. */
  lemma TickKeepsExecuted(st: ExecState, t: Target, i: nat)
    requires WellFormed(st) && st.flow.Some? && i < |st.flow.value| && st.flow.value[i].executed
    ensures Tick(st, t).flow.Some? ==> Tick(st, t).flow.value[i].executed
  {
  }

  /** Executed flags survive any number of ticks, and an executed step is never dispatched. */
  lemma {:induction false} ExecutedStaysExecuted(st: ExecState, t: Target, i: nat, n: nat)
    requires WellFormed(st) && st.flow.Some? && i < |st.flow.value| && st.flow.value[i].executed
    ensures i !in DispatchedBy(Ticks(st, t, n))
    ensures Ticks(st, t, n).flow.Some? ==> i < |Ticks(st, t, n).flow.value| && Ticks(st, t, n).flow.value[i].executed
    decreases n
  {
    if n == 0 {
      if i in DispatchedBy(st) {
        TickMarksDispatched(st, t, i);
      }
    } else {
      var st' := Tick(st, t);
      TickKeepsExecuted(st, t, i);
      if st'.flow.Some? {
        ExecutedStaysExecuted(st', t, i, n - 1);
      } else {
        StoppedIsIdle(st', t, n - 1);
      }
    }
  }

  /** Exactly-once dispatch: a step dispatched by one tick is dispatched by no later tick. */
  lemma NoStepDispatchedTwice(st: ExecState, t: Target, i: nat, n: nat)
    requires WellFormed(st) && i in DispatchedBy(st)
    ensures i !in DispatchedBy(Ticks(Tick(st, t), t, n))
  {
    TickMarksDispatched(st, t, i);
    ExecutedStaysExecuted(Tick(st, t), t, i, n);
  }

  /** Dispatch spelled out for a pass whose outcome is known. */
  lemma DispatchResult(st: ExecState, t: Target, flow: seq<Step>, q: nat, wc: Option<nat>, flow': seq<Step>, attached: bool, log: seq<Effect>)
    requires st.flow == Some(flow) && st.pointer <= q <= |flow|
    requires Scan(flow, st.pointer) == ScanResult(q, wc)
    requires flow' == Mark(flow, st.pointer, q)
    requires attached == (st.animatorAttached || Pending(flow, st.pointer, q) != [])
    requires log == st.log + EffectsBetween(flow, st.pointer, q, t)
    ensures Dispatch(st, t) == ExecState(Some(flow'), q, wc.GetOr(st.waitCounter), st.repeat, st.hasCallback, attached, log)
  {
  }

  // ---------------------------------------------------------------------
  // The component
  // ---------------------------------------------------------------------

  /**
   * ui.Component_AnimationExecutor together with the fields of its object that
   * it touches (`animator`, `needsUpdate`). `flow` is the flow array of the
   * installed animation descriptor, or null when none is installed.
   */
  class Executor {
    var flow: array?<Step>
    var pointer: nat
    var waitCounter: nat
    var repeat: bool
    var hasCallback: bool
    var animatorAttached: bool
    var needsUpdate: bool
    var log: seq<Effect>
    const target: Target

    ghost predicate Valid()
      reads this
    {
      flow != null ==> pointer <= flow.Length
    }

    ghost function State(): (st: ExecState)
      reads this, flow
    {
      ExecState(if flow == null then None else Some(flow[..]),
        pointer, waitCounter, repeat, hasCallback, animatorAttached, log)
    }

    constructor (target: Target, animatorAttached: bool)
      ensures Valid() && this.target == target
      ensures State() == ExecState(None, 0, 0, false, false, animatorAttached, [])
    {
      this.target := target;
      this.animatorAttached := animatorAttached;
      flow := null;
      pointer := 0;
      waitCounter := 0;
      repeat := false;
      hasCallback := false;
      needsUpdate := false;
      log := [];
    }

    /** Installs a descriptor's flow and callback; the steps' executed flags are left as they are. */
    method Execute(animation: array<Step>, callback: bool)
      modifies this
      ensures Valid()
      ensures flow == animation && animation[..] == old(animation[..])
      ensures State() == old(State()).(flow := Some(animation[..]), hasCallback := callback, pointer := 0, waitCounter := 0)
      ensures needsUpdate == old(needsUpdate)
    {
      flow := animation;
      hasCallback := callback;
      pointer := 0;
      waitCounter := 0;
    }

    /** Uninstalls the flow; pointer, counter and callback are kept. */
    method Stop()
      modifies this
      ensures Valid()
      ensures State() == old(State()).(flow := None)
      ensures needsUpdate == old(needsUpdate)
    {
      flow := null;
    }

    /** The type dispatch of startAnimation followed by the zero-duration refresh. */
    method StartAnimation(step: Step)
      modifies this`log
      ensures log == old(log) + [Started(StartCalls(step, target))]
    {
      var calls: seq<Call> := [];
      match step.kind {
        case None =>
        case Some(Sound) =>
          calls := calls + [SoundPlayed];
        case Some(PlayAnimation) =>
          if step.animationId in target.records {
            calls := calls + [RecordPlayed(step.animationId)];
          }
        case Some(Animate(clip)) =>
          if clip == Shake {
            calls := [ClipStarted(Shake, step.duration)];
            assert step.kind == Some(Animate(Shake)) && calls == StartCalls(step, target);
            log := log + [Started(calls)];
            return;
          }
          calls := calls + [ClipStarted(clip, if clip == Scroll then 0 else step.duration)];
        case Some(Unknown(_)) =>
      }
      assert calls == KindCalls(step, target);
      ghost var kindCalls := calls;
      if target.hasVisual {
        if step.duration == 0 {
          calls := calls + [VisualRefreshed];
        }
      } else if target.hasBehavior {
        if step.duration == 0 {
          calls := calls + [BehaviorRefreshed];
        }
      }
      assert calls == kindCalls + RefreshCalls(step.duration, target);
      log := log + [Started(calls)];
    }

    /**
     * The loop of processAnimation: from step `p0`, dispatch every step not yet
     * executed until one that waits (its counter value is returned in `stop`)
     * or the end of the flow; `dispatchedAny` tells whether any step was
     * dispatched (the animator is attached on the first one).
     */
    method RunPass(a: array<Step>, p0: nat) returns (p: nat, stop: Option<nat>, dispatchedAny: bool)
      requires p0 <= a.Length
      modifies a, this`log
      ensures Scan(old(a[..]), p0) == ScanResult(p, stop)
      ensures p0 <= p <= a.Length
      ensures a[..] == Mark(old(a[..]), p0, p)
      ensures log == old(log) + EffectsBetween(old(a[..]), p0, p, target)
      ensures dispatchedAny == (Pending(old(a[..]), p0, p) != [])
    {
      ghost var flow0 := a[..];
      p := p0;
      stop := None;
      dispatchedAny := false;
      while p < a.Length
        invariant p0 <= p <= a.Length && stop.None?
        invariant Scan(flow0, p0) == Scan(flow0, p)
        invariant forall i :: 0 <= i < a.Length ==> a[i] == MarkAt(flow0, p0, p, i)
        invariant log == old(log) + EffectsBetween(flow0, p0, p, target)
        invariant dispatchedAny == (Pending(flow0, p0, p) != [])
        decreases a.Length - p
      {
        var step := a[p];
        assert step == flow0[p];
        p := p + 1;
        if step.executed {
          continue;
        }
        dispatchedAny := true;
        StartAnimation(step);
        a[p - 1] := step.(executed := true);
        if step.wait > 0 {
          stop := Some(WaitFor(step));
          return;
        }
      }
      assert a[..] == Mark(flow0, p0, p);
    }

    /** processAnimation: dispatches steps from the pointer until a waiting step or the end of the flow. */
    method ProcessAnimation()
      requires Valid() && flow != null
      modifies this, flow
      ensures Valid() && flow == old(flow)
      ensures State() == Dispatch(old(State()), target)
      ensures needsUpdate == old(needsUpdate)
    {
      ghost var st0 := State();
      var p, stop, dispatchedAny := RunPass(flow, pointer);
      if dispatchedAny {
        animatorAttached := true;
      }
      pointer := p;
      if stop.Some? {
        waitCounter := stop.value;
      }
      DispatchResult(st0, target, st0.flow.value, p, stop, flow[..], animatorAttached, log);
    }

    /** updateAnimation: count down, or restart/finish the flow at its end, then dispatch. */
    method UpdateAnimation()
      requires Valid() && flow != null
      modifies this, flow
      ensures Valid()
      ensures State() == Tick(old(State()), target)
      ensures needsUpdate == old(needsUpdate)
    {
      if waitCounter > 0 {
        waitCounter := waitCounter - 1;
        return;
      }
      if pointer >= flow.Length {
        pointer := 0;
        if hasCallback {
          log := log + [CallbackCalled];
        }
        if !repeat {
          flow := null;
        }
      }
      if flow != null {
        ProcessAnimation();
      }
    }

    /** update: marks the object for update and advances the installed flow by one frame. */
    method Update()
      requires Valid()
      modifies this, flow
      ensures Valid() && needsUpdate
      ensures State() == Tick(old(State()), target)
    {
      needsUpdate := true;
      if flow != null {
        UpdateAnimation();
      }
    }
  }
}
