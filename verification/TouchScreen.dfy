/**
 The calibration screen and the calibrated input driver: a step machine over touch reads,
 a start-delay timer and a recalibration timeout. The machine is given first as a transition
 function with claims about every run; `CalibrationScreen.Screen` updates its fields in place and is
 proved to follow it.
 */
module TouchScreen {
  import opened Text
  import opened TouchSolver

  const FIRST: nat := 1
  const FINISH: nat := 4
  const RECALIBRATE_SECONDS: nat := 30

  /** What the driver hands on to the UI for one read. */
  datatype Report = Swallowed | Passed(pressed: bool, at: Option<Pixel>)

  /**
   `delays` counts pending start-delay timers: a restart creates one without deleting an older
   one. `recal` is the recalibration timer the screen still points at, `orphans` those whose
   pointer a second finish overwrote.
   */
  datatype State = State(
    scr: seq<Pixel>, tch: seq<Pixel>, step: nat, inputEnabled: bool,
    indicator: Option<Pixel>,
    delays: nat, recal: Option<nat>, orphans: seq<nat>, registered: bool,
    cal: Calibration, saved: seq<Calibration>,
    lastPoint: Pixel, lastPressed: bool)

  ghost predicate Shape(s: State) {
    |s.scr| == 3 && |s.tch| == 3 && s.step <= FINISH
  }

  function Corners(ps: seq<Pixel>): Triple
    requires |ps| == 3
  {
    Triple(At(ps[0]), At(ps[1]), At(ps[2]))
  }

  datatype Event =
    | Read(pressed: bool, at: Pixel, active: bool)
    | Start
    | DelayFires
    | RecalTick
    | OrphanTick(i: nat)
    | Accept

  /** The freshly constructed screen on a w x h display, not yet started. */
  function Created(w: nat, h: nat): (s: State)
    ensures Shape(s)
  {
    var (a, b, c) := AutoPoints(w, h);
    var z := Pixel(0, 0);
    State([a, b, c], [z, z, z], 0, true, None, 0, None, [], false, Uncalibrated, [], z, false)
  }

  // ---- transitions ----

  /** Finishing creates a new timeout; a timeout still pending is no longer pointed at. */
  function Finish(s: State): State {
    s.(orphans := if s.recal.Some? then s.orphans + [s.recal.value] else s.orphans,
       recal := Some(RECALIBRATE_SECONDS))
  }

  function StepTo(s: State, k: nat, p: Pixel): State
    requires Shape(s) && k <= FINISH
  {
    var s1 := s.(step := k, tch := if k > FIRST then s.tch[k - 2 := p] else s.tch);
    if k == FINISH then Finish(s1.(cal := ComputeCoeff(Corners(s1.scr), Corners(s1.tch))))
    else s1.(indicator := if k == 0 then None else Some(s1.scr[k - 1]))
  }

  function DoStart(s: State): State
    requires Shape(s)
  {
    var s1 := StepTo(s.(recal := None), 0, Pixel(0, 0));
    s1.(registered := true, delays := s1.delays + 1)
  }

  /** Does this read record a calibration touch? */
  predicate Takes(s: State, e: Event) {
    e.Read? && e.pressed && e.active && s.registered && s.inputEnabled && FIRST <= s.step < FINISH
  }

  function ProcessInput(s: State, p: Pixel): State
    requires Shape(s)
  {
    if s.step == 0 then s
    else if s.step < FINISH then StepTo(s.(inputEnabled := false), s.step + 1, p)
    else s.(indicator := TransformPoint(s.cal, p))
  }

  function InputCb(s: State, pressed: bool, p: Pixel): State
    requires Shape(s)
  {
    var s1 := if s.inputEnabled && pressed then ProcessInput(s, p) else s;
    if pressed then s1 else s1.(inputEnabled := true)
  }

  /** A press is reported where it is, its release where the press was last seen. */
  function Track(s: State, pressed: bool, p: Pixel): (State, Option<Pixel>) {
    if pressed then (s.(lastPoint := p, lastPressed := true), TransformPoint(s.cal, p))
    else if s.lastPressed then (s.(lastPressed := false), TransformPoint(s.cal, s.lastPoint))
    else (s, Some(Pixel(0, 0)))
  }

  function OnRead(s: State, pressed: bool, p: Pixel, active: bool): (State, Report)
    requires Shape(s)
  {
    var s1 := if s.registered && active then InputCb(s, pressed, p) else s;
    if s.registered && active && s1.step < FINISH then (s1, Swallowed)
    else var (s2, q) := Track(s1, pressed, p); (s2, Passed(pressed, q))
  }

  function OnRecalTick(s: State): State
    requires Shape(s)
  {
    if s.recal.None? || s.recal.value == 0 then s
    else if s.recal.value == 1 then DoStart(s)
    else s.(recal := Some(s.recal.value - 1))
  }

  /** The last tick restarts the calibration and the timer deletes itself. */
  function OnOrphanTick(s: State, i: nat): State
    requires Shape(s)
  {
    if i >= |s.orphans| || s.orphans[i] == 0 then s
    else if s.orphans[i] == 1 then DoStart(s.(orphans := s.orphans[..i] + s.orphans[i + 1..]))
    else s.(orphans := s.orphans[i := s.orphans[i] - 1])
  }

  function Next(s: State, e: Event): State
    requires Shape(s)
  {
    match e
    case Read(pressed, p, active) => OnRead(s, pressed, p, active).0
    case Start => DoStart(s)
    case DelayFires => if s.delays == 0 then s else StepTo(s.(delays := s.delays - 1), FIRST, Pixel(0, 0))
    case RecalTick => OnRecalTick(s)
    case OrphanTick(i) => OnOrphanTick(s, i)
    case Accept => s.(saved := s.saved + [s.cal], recal := None)
  }

  lemma ReadShape(s: State, pressed: bool, p: Pixel, active: bool)
    requires Shape(s)
    ensures var t := OnRead(s, pressed, p, active).0; Shape(t) && t.scr == s.scr
  {
    hide ComputeCoeff, TransformPoint, Corners;
  }

  lemma NextShape(s: State, e: Event)
    requires Shape(s)
    ensures Shape(Next(s, e)) && Next(s, e).scr == s.scr
  {
    hide ComputeCoeff, TransformPoint, Corners, OnRead;
    if e.Read? {
      ReadShape(s, e.pressed, e.at, e.active);
    }
  }

  function Run(s: State, es: seq<Event>): (r: State)
    requires Shape(s)
    ensures Shape(r) && r.scr == s.scr
    decreases |es|
  {
    if es == [] then s
    else
      NextShape(s, es[0]);
      Run(Next(s, es[0]), es[1..])
  }

  lemma {:induction false} RunSplit(s: State, es: seq<Event>, fs: seq<Event>)
    requires Shape(s)
    ensures Run(s, es + fs) == Run(Run(s, es), fs)
    decreases |es|
  {
    if es == [] {
      assert es + fs == fs;
    } else {
      NextShape(s, es[0]);
      assert (es + fs)[1..] == es[1..] + fs;
      RunSplit(Next(s, es[0]), es[1..], fs);
    }
  }

  lemma RunSnoc(s: State, es: seq<Event>, e: Event)
    requires Shape(s)
    ensures Run(s, es + [e]) == Next(Run(s, es), e)
  {
    RunSplit(s, es, [e]);
    var r := Run(s, es);
    NextShape(r, e);
    assert Run(Next(r, e), []) == Next(r, e);
  }

  // ---- the touches of the current attempt ----

  /** Does this event begin a fresh attempt? */
  predicate Begins(s: State, e: Event) {
    e.DelayFires? && s.delays > 0
  }

  /** The presses recorded since the latest first step, oldest first. */
  function Touches(s: State, es: seq<Event>): (ts: seq<Pixel>)
    requires Shape(s)
    decreases |es|
  {
    if es == [] then []
    else
      var before, e := es[..|es| - 1], es[|es| - 1];
      var here := Run(s, before);
      if Begins(here, e) then []
      else if Takes(here, e) then Touches(s, before) + [e.at]
      else Touches(s, before)
  }

  /** The screen's touch store agrees with the history of the attempt. */
  ghost predicate Faithful(s: State, ts: seq<Pixel>) {
    && Shape(s)
    && (s.step >= FIRST ==> |ts| == s.step - 1 && ts == s.tch[..s.step - 1])
    && (s.step == FINISH ==> s.cal == ComputeCoeff(Corners(s.scr), Corners(ts)))
    && (FIRST <= s.step < FINISH ==> s.indicator == Some(s.scr[s.step - 1]))
    && (s.step == 0 ==> s.indicator == None)
  }

  lemma TakeFaithful(s: State, ts: seq<Pixel>, p: Pixel)
    requires Faithful(s, ts) && FIRST <= s.step < FINISH
    ensures Faithful(StepTo(s.(inputEnabled := false), s.step + 1, p), ts + [p])
  {
    var k := s.step + 1;
    var tch := s.tch[k - 2 := p];
    assert tch[..k - 1] == ts + [p];
    if k == FINISH {
      assert tch == ts + [p];
    }
  }

  /** The fields `Faithful` is about. */
  ghost predicate SameCore(a: State, b: State) {
    a.scr == b.scr && a.tch == b.tch && a.step == b.step && a.cal == b.cal && a.indicator == b.indicator
  }

  lemma FaithfulCore(a: State, b: State, ts: seq<Pixel>)
    requires Faithful(a, ts) && SameCore(a, b)
    ensures Faithful(b, ts)
  {
  }

  lemma ReadTakes(s: State, p: Pixel)
    requires Shape(s) && Takes(s, Read(true, p, true))
    ensures SameCore(StepTo(s.(inputEnabled := false), s.step + 1, p), Next(s, Read(true, p, true)))
  {
    assert InputCb(s, true, p) == StepTo(s.(inputEnabled := false), s.step + 1, p);
  }

  lemma ReadKeeps(s: State, e: Event)
    requires Shape(s) && e.Read? && !Takes(s, e)
    ensures SameCore(s.(indicator := Next(s, e).indicator), Next(s, e))
    ensures s.step < FINISH ==> Next(s, e).indicator == s.indicator
  {
  }

  /** Restarting goes to step 0, where nothing is claimed about older touches. */
  lemma StartFaithful(s: State, ts: seq<Pixel>)
    requires Shape(s)
    ensures Faithful(DoStart(s), ts)
  {
  }

  lemma OrphanFaithful(s: State, ts: seq<Pixel>, i: nat)
    requires Faithful(s, ts) && i < |s.orphans|
    ensures Faithful(OnOrphanTick(s, i), ts)
  {
    StartFaithful(s.(orphans := s.orphans[..i] + s.orphans[i + 1..]), ts);
    FaithfulCore(s, s.(orphans := s.orphans[i := s.orphans[i]]), ts);
  }

  lemma TimerFaithful(s: State, ts: seq<Pixel>, e: Event)
    requires Faithful(s, ts) && !e.Read? && !e.DelayFires?
    ensures Faithful(Next(s, e), ts)
  {
    match e
    case Start => StartFaithful(s, ts);
    case RecalTick =>
      StartFaithful(s, ts);
      FaithfulCore(s, s.(recal := Next(s, e).recal), ts);
    case OrphanTick(i) =>
      if i < |s.orphans| {
        OrphanFaithful(s, ts, i);
      }
    case Accept => FaithfulCore(s, Next(s, e), ts);
  }

  lemma ReadFaithful(s: State, ts: seq<Pixel>, e: Event)
    requires Faithful(s, ts) && e.Read?
    ensures Faithful(Next(s, e), if Takes(s, e) then ts + [e.at] else ts)
  {
    if Takes(s, e) {
      TakeFaithful(s, ts, e.at);
      ReadTakes(s, e.at);
      FaithfulCore(StepTo(s.(inputEnabled := false), s.step + 1, e.at), Next(s, e), ts + [e.at]);
    } else {
      ReadKeeps(s, e);
      FaithfulCore(s.(indicator := Next(s, e).indicator), Next(s, e), ts);
    }
  }

  lemma StepFaithful(s: State, ts: seq<Pixel>, e: Event)
    requires Faithful(s, ts)
    ensures Faithful(Next(s, e), if Begins(s, e) then [] else if Takes(s, e) then ts + [e.at] else ts)
  {
    if e.Read? {
      ReadFaithful(s, ts, e);
    } else if !e.DelayFires? {
      TimerFaithful(s, ts, e);
    }
  }

  lemma {:induction false} RunFaithful(w: nat, h: nat, es: seq<Event>)
    ensures Faithful(Run(Created(w, h), es), Touches(Created(w, h), es))
    decreases |es|
  {
    var s := Created(w, h);
    if es != [] {
      var before, e := es[..|es| - 1], es[|es| - 1];
      RunFaithful(w, h, before);
      assert es == before + [e];
      RunSnoc(s, before, e);
      StepFaithful(Run(s, before), Touches(s, before), e);
    }
  }

  /**
   In every run the step stays in 0..4, the crosshair marks the target the next touch is paired
   with, and at the finish step the stored touches are the three recorded since the latest first
   step, in order, with the coefficients their fit.
   */
  lemma FinishedRun(w: nat, h: nat, es: seq<Event>)
    ensures var s, ts := Run(Created(w, h), es), Touches(Created(w, h), es);
            && s.step <= FINISH
            && (FIRST <= s.step < FINISH ==> s.indicator == Some(s.scr[s.step - 1]))
            && (s.step == FINISH ==> |ts| == 3 && s.tch == ts && s.cal == ComputeCoeff(Corners(s.scr), Corners(ts)))
  {
    RunFaithful(w, h, es);
    var s := Run(Created(w, h), es);
    assert s.step == FINISH ==> s.tch[..3] == s.tch;
  }

  // ---- one held touch records at most one point ----

  predicate IsRelease(e: Event) {
    e.Read? && !e.pressed
  }

  lemma {:induction false} BlockedUntilRelease(s: State, es: seq<Event>)
    requires Shape(s) && !s.inputEnabled
    requires forall i :: 0 <= i < |es| ==> !IsRelease(es[i])
    ensures !Run(s, es).inputEnabled
    decreases |es|
  {
    if es != [] {
      NextShape(s, es[0]);
      BlockedUntilRelease(Next(s, es[0]), es[1..]);
    }
  }

  lemma TakeBlocks(s: State, e: Event)
    requires Shape(s) && Takes(s, e)
    ensures !Next(s, e).inputEnabled
  {
  }

  /** A touch still held after it was recorded is never recorded again, at any later event. */
  lemma HeldTouchTakenOnce(s: State, e: Event, held: seq<Event>, f: Event)
    requires Shape(s) && Takes(s, e)
    requires forall i :: 0 <= i < |held| ==> !IsRelease(held[i])
    ensures Shape(Next(s, e)) && !Takes(Run(Next(s, e), held), f)
  {
    TakeBlocks(s, e);
    NextShape(s, e);
    BlockedUntilRelease(Next(s, e), held);
  }

  // ---- what the UI sees ----

  /** Before the first start nothing is pending and the screen is not registered. */
  ghost predicate Dormant(s: State) {
    !s.registered ==> s.step == 0 && s.recal.None? && s.orphans == [] && s.delays == 0
  }

  lemma NextDormant(s: State, e: Event)
    requires Shape(s) && Dormant(s)
    ensures Dormant(Next(s, e)) && (Next(s, e).registered <==> s.registered || e.Start?)
  {
  }

  ghost predicate Started(es: seq<Event>) {
    exists k :: 0 <= k < |es| && es[k].Start?
  }

  lemma {:induction false} RegisteredIff(w: nat, h: nat, es: seq<Event>)
    ensures var s := Run(Created(w, h), es); Dormant(s) && (s.registered <==> Started(es))
    decreases |es|
  {
    hide Next, AutoPoints;
    if es != [] {
      var before, e := es[..|es| - 1], es[|es| - 1];
      RegisteredIff(w, h, before);
      assert es == before + [e];
      RunSnoc(Created(w, h), before, e);
      NextDormant(Run(Created(w, h), before), e);
      if k :| 0 <= k < |before| && before[k].Start? {
        assert es[k].Start?;
      }
      if k :| 0 <= k < |es| && es[k].Start? {
        assert k < |before| ==> before[k].Start?;
      }
    }
  }

  /** A read is kept from the UI before the finish step, except the press that completes the fit. */
  lemma SwallowedBefore(s: State, pressed: bool, p: Pixel, active: bool)
    requires Shape(s)
    ensures OnRead(s, pressed, p, active).1 == Swallowed
            <==> s.registered && active && s.step < FINISH && !(s.step == 3 && s.inputEnabled && pressed)
  {
  }

  /**
   Over every run: a read is swallowed if and only if a calibration was ever started, its screen is
   in front, and it waits for its first step or has fewer than three touches, this read's included.
   */
  lemma SwallowedUntilFinish(w: nat, h: nat, es: seq<Event>, e: Event)
    requires e.Read?
    ensures var s := Run(Created(w, h), es);
            OnRead(s, e.pressed, e.at, e.active).1 == Swallowed
            <==> Started(es) && e.active && (s.step == 0 || |Touches(Created(w, h), es + [e])| < 3)
  {
    hide Next, OnRead, AutoPoints, Started;
    var s := Run(Created(w, h), es);
    RegisteredIff(w, h, es);
    RunFaithful(w, h, es);
    SwallowedBefore(s, e.pressed, e.at, e.active);
    assert (es + [e])[..|es|] == es;
  }

  /** The latest press the UI was told of, while its release is still to come. */
  function Pending(s: State, es: seq<Event>): Option<Pixel>
    requires Shape(s)
    decreases |es|
  {
    if es == [] then None
    else
      var before, e := es[..|es| - 1], es[|es| - 1];
      if e.Read? && OnRead(Run(s, before), e.pressed, e.at, e.active).1 != Swallowed then
        if e.pressed then Some(e.at) else None
      else Pending(s, before)
  }

  /** The tracker holds that press. */
  ghost predicate Tracks(s: State, p: Option<Pixel>) {
    (s.lastPressed <==> p.Some?) && (p.Some? ==> s.lastPoint == p.value)
  }

  lemma NextTracks(s: State, e: Event, p: Option<Pixel>)
    requires Shape(s) && Tracks(s, p)
    ensures Tracks(Next(s, e),
                   if e.Read? && OnRead(s, e.pressed, e.at, e.active).1 != Swallowed then (if e.pressed then Some(e.at) else None) else p)
  {
  }

  lemma {:induction false} RunTracks(w: nat, h: nat, es: seq<Event>)
    ensures Tracks(Run(Created(w, h), es), Pending(Created(w, h), es))
    decreases |es|
  {
    hide Next, OnRead, AutoPoints;
    if es != [] {
      var before, e := es[..|es| - 1], es[|es| - 1];
      RunTracks(w, h, before);
      assert es == before + [e];
      RunSnoc(Created(w, h), before, e);
      NextTracks(Run(Created(w, h), before), e, Pending(Created(w, h), before));
    }
  }

  lemma ReleaseReport(s: State, r: Pixel, active: bool)
    requires Shape(s)
    ensures var report := OnRead(s, false, r, active).1;
            report != Swallowed ==>
              report == Passed(false, if s.lastPressed then TransformPoint(s.cal, s.lastPoint) else Some(Pixel(0, 0)))
  {
  }

  /**
   Over every run a release that reaches the UI is reported where the latest press that reached it
   was, by the coefficients in force; presses and releases swallowed in between do not count, so a
   restart that swallows a release leaves its press to the next one.
   */
  lemma ReleaseWherePressed(w: nat, h: nat, es: seq<Event>, r: Pixel, active: bool)
    ensures var s, p := Run(Created(w, h), es), Pending(Created(w, h), es);
            var report := OnRead(s, false, r, active).1;
            && (report != Swallowed ==>
                  report == Passed(false, if p.Some? then TransformPoint(s.cal, p.value) else Some(Pixel(0, 0))))
            && Pending(Created(w, h), es + [Read(false, r, active)]) == if report == Swallowed then p else None
  {
    hide Next, OnRead, AutoPoints, TransformPoint;
    RunTracks(w, h, es);
    ReleaseReport(Run(Created(w, h), es), r, active);
    assert (es + [Read(false, r, active)])[..|es|] == es;
  }

  /** The third touch completes the fit and is itself reported exactly on the third target. */
  lemma CompletingTouchLandsOnTarget(s: State, p: Pixel)
    requires Shape(s) && s.step == 3 && s.registered && s.inputEnabled
    requires Divisor(Corners(s.tch[2 := p])) != 0.0
    ensures OnRead(s, true, p, true).0.step == FINISH
    ensures OnRead(s, true, p, true).1 == Passed(true, Some(s.scr[2]))
  {
    var scr, tch := Corners(s.scr), Corners(s.tch[2 := p]);
    FitIsExact(scr, tch);
    RoundNearest(s.scr[2].x as real);
    RoundNearest(s.scr[2].y as real);
    assert Apply(ComputeCoeff(scr, tch).fit, At(p)) == At(s.scr[2]);
  }

  // ---- it does finish ----

  lemma FirstStepBegins(s: State)
    requires Shape(s)
    ensures var t := Next(Next(s, Start), DelayFires);
            Shape(t) && t.step == FIRST && t.registered && t.scr == s.scr
  {
    hide ComputeCoeff, TransformPoint;
    NextShape(s, Start);
    NextShape(Next(s, Start), DelayFires);
  }

  /** A release and a press record the press as the next touch. */
  lemma TouchRecorded(s: State, r: Pixel, p: Pixel)
    requires Shape(s) && s.registered && FIRST <= s.step < FINISH
    ensures var t := Next(Next(s, Read(false, r, true)), Read(true, p, true));
            && Shape(t) && t.step == s.step + 1 && t.registered && t.scr == s.scr && t.tch == s.tch[s.step - 1 := p]
            && (t.step == FINISH ==> t.cal == ComputeCoeff(Corners(t.scr), Corners(t.tch)) && t.recal == Some(30))
  {
    hide ComputeCoeff, TransformPoint;
    var u := Next(s, Read(false, r, true));
    NextShape(s, Read(false, r, true));
    NextShape(u, Read(true, p, true));
    assert u.inputEnabled && u.step == s.step && u.tch == s.tch && u.scr == s.scr && u.registered;
    assert InputCb(u, true, p) == StepTo(u.(inputEnabled := false), u.step + 1, p);
  }

  /**
   From any state whatever, a start, its delay and three touches with releases between them finish
   the calibration with exactly those touches, in order, and arm the 30 s timeout.
   */
  lemma CalibrationCompletes(s: State, r: Pixel, p0: Pixel, p1: Pixel, p2: Pixel)
    requires Shape(s)
    ensures var t := Run(s, [Start, DelayFires, Read(false, r, true), Read(true, p0, true), Read(false, r, true), Read(true, p1, true),
                             Read(false, r, true), Read(true, p2, true)]);
            && t.step == FINISH && t.tch == [p0, p1, p2] && t.recal == Some(30)
            && t.cal == ComputeCoeff(Corners(s.scr), Corners([p0, p1, p2]))
  {
    hide Next, Run, ComputeCoeff;
    var up := Read(false, r, true);
    var d0, d1, d2 := Read(true, p0, true), Read(true, p1, true), Read(true, p2, true);
    RunTwo(s, Start, DelayFires, [up, d0, up, d1, up, d2]);
    var s1 := Next(Next(s, Start), DelayFires);
    FirstStepBegins(s);
    RunTwo(s1, up, d0, [up, d1, up, d2]);
    var s2 := Next(Next(s1, up), d0);
    TouchRecorded(s1, r, p0);
    RunTwo(s2, up, d1, [up, d2]);
    var s3 := Next(Next(s2, up), d1);
    TouchRecorded(s2, r, p1);
    RunTwo(s3, up, d2, []);
    var s4 := Next(Next(s3, up), d2);
    TouchRecorded(s3, r, p2);
    RunNothing(s4);
    assert s4.tch == [p0, p1, p2];
    assert [Start, DelayFires] + [up, d0, up, d1, up, d2] == [Start, DelayFires, up, d0, up, d1, up, d2];
    assert [up, d0] + [up, d1, up, d2] == [up, d0, up, d1, up, d2];
    assert [up, d1] + [up, d2] == [up, d1, up, d2];
    assert [up, d2] + [] == [up, d2];
  }

  lemma RunNothing(s: State)
    requires Shape(s)
    ensures Run(s, []) == s
  {
  }

  lemma RunTwo(s: State, a: Event, b: Event, es: seq<Event>)
    requires Shape(s)
    ensures Shape(Next(s, a)) && Shape(Next(Next(s, a), b)) && Run(s, [a, b] + es) == Run(Next(Next(s, a), b), es)
  {
    hide Next;
    NextShape(s, a);
    NextShape(Next(s, a), b);
    assert ([a, b] + es)[1..] == [b] + es && ([b] + es)[1..] == es;
  }

  /** `n` seconds of the timeout with nothing else happening. */
  function Ticked(s: State, n: nat): (t: State)
    requires Shape(s)
    ensures Shape(t)
  {
    if n == 0 then s
    else
      NextShape(Ticked(s, n - 1), RecalTick);
      Next(Ticked(s, n - 1), RecalTick)
  }

  /** The timeout restarts the calibration at its thirtieth second and not before. */
  lemma {:induction false} TimeoutRestarts(s: State, n: nat)
    requires Shape(s) && s.recal == Some(30) && s.step == FINISH && n <= 30
    ensures var t := Ticked(s, n);
            if n < 30 then t == s.(recal := Some(30 - n)) else t.step == 0 && t.recal.None? && t.delays == s.delays + 1
  {
    hide ComputeCoeff;
    if n > 0 {
      TimeoutRestarts(s, n - 1);
    }
  }

  /** The coefficients in force at each accept of a run, in order. */
  function Accepted(s: State, es: seq<Event>): seq<Calibration>
    requires Shape(s)
    decreases |es|
  {
    if es == [] then []
    else
      var before := es[..|es| - 1];
      Accepted(s, before) + if es[|es| - 1].Accept? then [Run(s, before).cal] else []
  }

  lemma ReadSavesNothing(s: State, pressed: bool, p: Pixel, active: bool)
    requires Shape(s)
    ensures OnRead(s, pressed, p, active).0.saved == s.saved
  {
    hide ComputeCoeff, TransformPoint, Corners;
  }

  lemma SavedStep(s: State, e: Event)
    requires Shape(s)
    ensures Next(s, e).saved == s.saved + if e.Accept? then [s.cal] else []
    ensures e.Accept? ==> Next(s, e).recal.None? && Next(s, e).cal == s.cal
  {
    hide ComputeCoeff, TransformPoint, Corners, OnRead;
    if e.Read? {
      ReadSavesNothing(s, e.pressed, e.at, e.active);
    }
  }

  /** Exactly the accepted coefficients are saved. */
  lemma {:induction false} SavedAreAccepted(s: State, es: seq<Event>)
    requires Shape(s)
    ensures Run(s, es).saved == s.saved + Accepted(s, es)
    decreases |es|
  {
    hide Next;
    if es != [] {
      var before, e := es[..|es| - 1], es[|es| - 1];
      SavedAreAccepted(s, before);
      assert es == before + [e];
      RunSnoc(s, before, e);
      SavedStep(Run(s, before), e);
    }
  }

  /** After the finish the cursor follows a press to where it is reported. */
  lemma CursorFollows(s: State, p: Pixel)
    requires Shape(s) && s.registered && s.step == FINISH && s.inputEnabled
    ensures OnRead(s, true, p, true).1 == Passed(true, OnRead(s, true, p, true).0.indicator)
  {
  }

  // ---- end to end ----

  /**
   On every display of at least 1x1, after any run that reaches the finish step with the three
   touches made on the targets through an invertible affine panel, every further touch is
   reported at the screen pixel it was made on.
   */
  lemma CalibrationRecovers(w: nat, h: nat, es: seq<Event>, panel: Affine, on: Pixel, touch: Pixel, active: bool)
    requires w >= 1 && h >= 1 && Det(panel) != 0.0
    requires Run(Created(w, h), es).step == FINISH
    requires Image(panel, Corners(Created(w, h).scr)) == Corners(Run(Created(w, h), es).tch)
    requires At(touch) == Apply(panel, At(on))
    ensures OnRead(Run(Created(w, h), es), true, touch, active).1 == Passed(true, Some(on))
  {
    var s := Run(Created(w, h), es);
    FinishedRun(w, h, es);
    AutoPointsSpread(w, h);
    assert Corners(Created(w, h).scr) == AutoTriple(w, h);
    TransformRecovers(panel, AutoTriple(w, h), on, touch);
  }
}
