/** The calibration screen as the object the program updates in place. */
module CalibrationScreen {
  import opened Text
  import opened TouchSolver
  import opened TouchScreen

  class Screen {
    const scrPoints: seq<Pixel>
    const tchPoints: array<Pixel>
    var currentStep: nat
    var inputEnabled: bool
    var indicator: Option<Pixel>
    var startDelays: nat
    var recalibrateTimer: Option<nat>
    var orphanTimers: seq<nat>
    var registered: bool
    var calibResult: Calibration
    var saved: seq<Calibration>
    var lastPoint: Pixel
    var lastPressed: bool

    ghost predicate Valid()
      reads this
    {
      |scrPoints| == 3 && tchPoints.Length == 3 && currentStep <= FINISH
    }

    /** The state the object stands for. */
    ghost function View(): (s: State)
      requires Valid()
      reads this, tchPoints
      ensures Shape(s)
    {
      State(scrPoints, tchPoints[..], currentStep, inputEnabled, indicator, startDelays, recalibrateTimer,
            orphanTimers, registered, calibResult, saved, lastPoint, lastPressed)
    }

    constructor (w: nat, h: nat)
      ensures Valid() && View() == Created(w, h)
      ensures fresh(tchPoints)
    {
      var (a, b, c) := AutoPoints(w, h);
      scrPoints := [a, b, c];
      var zero := Pixel(0, 0);
      tchPoints := new Pixel[3](_ => zero);
      currentStep, inputEnabled, indicator := 0, true, None;
      startDelays, recalibrateTimer, orphanTimers, registered := 0, None, [], false;
      calibResult, saved, lastPoint, lastPressed := Uncalibrated, [], zero, false;
      new;
      assert tchPoints[..] == [zero, zero, zero];
    }

    method FinishCalibration()
      requires Valid()
      modifies this`recalibrateTimer, this`orphanTimers
      ensures View() == Finish(old(View()))
    {
      if recalibrateTimer.Some? {
        orphanTimers := orphanTimers + [recalibrateTimer.value];
      }
      recalibrateTimer := Some(RECALIBRATE_SECONDS);
    }

    /** Every write to the touch buffer stays in bounds for every step up to the finish. */
    method Step(k: nat, p: Pixel)
      requires Valid() && k <= FINISH
      modifies this, tchPoints
      ensures Valid() && View() == StepTo(old(View()), k, p)
    {
      currentStep := k;
      if k > FIRST {
        tchPoints[k - 2] := p;
      }
      assert tchPoints[..] == if k > FIRST then old(tchPoints[..])[k - 2 := p] else old(tchPoints[..]);
      if k == FINISH {
        calibResult := ComputeCoeff(Corners(scrPoints), Corners(tchPoints[..]));
        FinishCalibration();
      } else if k > 0 {
        indicator := Some(scrPoints[k - 1]);
      } else {
        indicator := None;
      }
    }

    method Start()
      requires Valid()
      modifies this, tchPoints
      ensures Valid() && View() == DoStart(old(View()))
    {
      recalibrateTimer := None;
      Step(0, Pixel(0, 0));
      registered := true;
      startDelays := startDelays + 1;
    }

    method ProcessTouch(p: Pixel)
      requires Valid()
      modifies this, tchPoints
      ensures Valid() && View() == ProcessInput(old(View()), p)
    {
      if currentStep > 0 {
        if currentStep < FINISH {
          inputEnabled := false;
          Step(currentStep + 1, p);
        } else {
          indicator := TransformPoint(calibResult, p);
        }
      }
    }

    method Input(pressed: bool, p: Pixel) returns (handOn: bool)
      requires Valid()
      modifies this, tchPoints
      ensures Valid() && View() == InputCb(old(View()), pressed, p)
      ensures handOn == (View().step >= FINISH)
    {
      if inputEnabled && pressed {
        ProcessTouch(p);
      }
      if !pressed {
        inputEnabled := true;
      }
      handOn := currentStep >= FINISH;
    }

    method TransformIndev(pressed: bool, p: Pixel) returns (at: Option<Pixel>)
      requires Valid()
      modifies this`lastPoint, this`lastPressed
      ensures (View(), at) == Track(old(View()), pressed, p)
    {
      if pressed {
        lastPoint, lastPressed := p, true;
        at := TransformPoint(calibResult, p);
      } else if lastPressed {
        lastPressed := false;
        at := TransformPoint(calibResult, lastPoint);
      } else {
        at := Some(Pixel(0, 0));
      }
    }

    /** The driver's read callback, with the raw read as its parameters. */
    method ReadTouch(pressed: bool, p: Pixel, active: bool) returns (r: Report)
      requires Valid()
      modifies this, tchPoints
      ensures Valid() && (View(), r) == OnRead(old(View()), pressed, p, active)
    {
      if registered && active {
        var handOn := Input(pressed, p);
        if !handOn {
          return Swallowed;
        }
      }
      var at := TransformIndev(pressed, p);
      r := Passed(pressed, at);
    }

    method RecalibrateTick()
      requires Valid()
      modifies this, tchPoints
      ensures Valid() && View() == OnRecalTick(old(View()))
    {
      if recalibrateTimer.Some? && recalibrateTimer.value > 0 {
        if recalibrateTimer.value == 1 {
          Start();
        } else {
          recalibrateTimer := Some(recalibrateTimer.value - 1);
        }
      }
    }

    method OrphanTick(i: nat)
      requires Valid()
      modifies this, tchPoints
      ensures Valid() && View() == OnOrphanTick(old(View()), i)
    {
      if i < |orphanTimers| && orphanTimers[i] > 0 {
        if orphanTimers[i] == 1 {
          orphanTimers := orphanTimers[..i] + orphanTimers[i + 1..];
          Start();
        } else {
          orphanTimers := orphanTimers[i := orphanTimers[i] - 1];
        }
      }
    }

    /** Any event, so that any run of the object is a run of the machine. */
    method Handle(e: Event)
      requires Valid()
      modifies this, tchPoints
      ensures Valid() && View() == Next(old(View()), e)
    {
      match e
      case Read(pressed, p, active) => var _ := ReadTouch(pressed, p, active);
      case Start => Start();
      case DelayFires =>
        if startDelays > 0 {
          startDelays := startDelays - 1;
          Step(FIRST, Pixel(0, 0));
        }
      case RecalTick => RecalibrateTick();
      case OrphanTick(i) => OrphanTick(i);
      case Accept =>
        saved := saved + [calibResult];
        recalibrateTimer := None;
    }
  }

  /** Driving a new screen through any events lands in the state the run claims speak of. */
  method Drive(w: nat, h: nat, es: seq<Event>) returns (screen: Screen)
    ensures screen.Valid() && screen.View() == Run(Created(w, h), es)
    ensures fresh(screen) && fresh(screen.tchPoints)
  {
    screen := new Screen(w, h);
    for i := 0 to |es|
      invariant fresh(screen) && fresh(screen.tchPoints)
      invariant screen.Valid() && screen.View() == Run(Created(w, h), es[..i])
    {
      assert es[..i + 1] == es[..i] + [es[i]];
      RunSnoc(Created(w, h), es[..i], es[i]);
      screen.Handle(es[i]);
    }
    assert es[..|es|] == es;
  }
}
