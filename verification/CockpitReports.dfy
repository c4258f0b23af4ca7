/**
 The cockpit from the outside: its caches are what the printer last reported, so the interlocks hold of
 the reported state, each control sends its own command, and the glass shows the reported values.
 Everything here is said of the events of a run, not of the state the run leaves.
 */
module CockpitReports {
  import opened Text
  import opened TopLayer
  import opened Cockpit
  import opened CockpitSafety
  import opened CockpitClaims
  import Cal = CalMessage

  // ---- what was reported ----

  /** What a status message reports, of one field. */
  function Reported<T>(e: Event, field: Status -> Option<T>): Option<T> {
    match e
    case Delta(d) => field(d)
    case Subscribed(d) => field(d)
    case _ => None
  }

  /** The latest report of a field in a run. */
  function Latest<T>(es: seq<Event>, field: Status -> Option<T>): Option<T> {
    if es == [] then None
    else
      var r := Reported(es[|es| - 1], field);
      if r.Some? then r else Latest(es[..|es| - 1], field)
  }

  function LatestState(es: seq<Event>): Option<string> {
    Latest(es, (d: Status) => d.state)
  }

  function LatestOr0(es: seq<Event>, field: Status -> Option<int>): int {
    if Latest(es, field).Some? then Latest(es, field).value else 0
  }

  function LatestNozzle(es: seq<Event>): int {
    LatestOr0(es, (d: Status) => d.nozzle)
  }

  function LatestNozzleTarget(es: seq<Event>): int {
    LatestOr0(es, (d: Status) => d.nozzleSet)
  }

  function LatestBed(es: seq<Event>): int {
    LatestOr0(es, (d: Status) => d.bed)
  }

  function LatestBedTarget(es: seq<Event>): int {
    LatestOr0(es, (d: Status) => d.bedSet)
  }

  /** The latest word on activity: a delta's idle state, or the loss of the link. */
  predicate BusyReported(es: seq<Event>) {
    es != [] &&
    var e := es[|es| - 1];
    if e.Delta? && e.delta.idle.Some? then e.delta.idle.value == "Printing"
    else !e.LinkLost? && BusyReported(es[..|es| - 1])
  }

  predicate Printing(es: seq<Event>) {
    LatestState(es) == Some("printing")
  }

  predicate Paused(es: seq<Event>) {
    LatestState(es) == Some("paused")
  }

  lemma LatestSnoc<T>(es: seq<Event>, field: Status -> Option<T>)
    requires es != []
    ensures var r := Reported(es[|es| - 1], field);
            Latest(es, field) == if r.Some? then r else Latest(es[..|es| - 1], field)
  {
  }

  lemma JobStep(p: Printer, e: Event)
    ensures var r, q := Reported(e, (d: Status) => d.state), PrinterAfter(p, e);
            q.job == if r.Some? then Job(r.value == "printing", r.value == "paused") else p.job
  {
    hide TempsAfter, MessageAfter;
  }

  lemma BusyStep(p: Printer, e: Event)
    ensures PrinterAfter(p, e).busy <==>
              if e.Delta? && e.delta.idle.Some? then e.delta.idle.value == "Printing" else !e.LinkLost? && p.busy
  {
    hide TempsAfter, MessageAfter, JobAfter;
  }

  lemma TempStep(p: Printer, e: Event)
    ensures PrinterAfter(p, e).temps
         == Temps(Or(Reported(e, (d: Status) => d.nozzle), p.temps.nozzle), Or(Reported(e, (d: Status) => d.nozzleSet), p.temps.nozzleSet),
                  Or(Reported(e, (d: Status) => d.bed), p.temps.bed), Or(Reported(e, (d: Status) => d.bedSet), p.temps.bedSet))
  {
    hide MessageAfter, JobAfter;
  }

  /** The cached job and activity are the reported ones. */
  lemma {:induction false} JobFollows(es: seq<Event>)
    ensures var p := Run(Initial, es).pr;
            (p.job.printing <==> Printing(es)) && (p.job.paused <==> Paused(es)) && (p.busy <==> BusyReported(es))
    decreases |es|
  {
    hide Next, Reported, PrinterAfter, Latest;
    if es == [] {
      NothingReported();
    } else {
      var before, e := es[..|es| - 1], es[|es| - 1];
      JobFollows(before);
      var s := Run(Initial, before);
      BadgesNext(s, e);
      JobStep(s.pr, e);
      BusyStep(s.pr, e);
      LatestSnoc(es, (d: Status) => d.state);
    }
  }

  /** So are the cached temperatures; 0 before the first report. */
  lemma {:induction false} TempsFollow(es: seq<Event>)
    ensures Run(Initial, es).pr.temps
         == Temps(LatestNozzle(es), LatestNozzleTarget(es), LatestBed(es), LatestBedTarget(es))
    decreases |es|
  {
    hide Next, Reported, PrinterAfter, Latest;
    if es == [] {
      NothingReported();
    } else {
      var before, e := es[..|es| - 1], es[|es| - 1];
      TempsFollow(before);
      var s := Run(Initial, before);
      BadgesNext(s, e);
      TempStep(s.pr, e);
      LatestSnoc(es, (d: Status) => d.nozzle);
      LatestSnoc(es, (d: Status) => d.nozzleSet);
      LatestSnoc(es, (d: Status) => d.bed);
      LatestSnoc(es, (d: Status) => d.bedSet);
    }
  }

  lemma NothingReported()
    ensures LatestState([]).None? && !BusyReported([])
    ensures LatestNozzle([]) == 0 && LatestNozzleTarget([]) == 0 && LatestBed([]) == 0 && LatestBedTarget([]) == 0
  {
  }

  /** The cached step text: what a delta brings, else nothing once the machine leaves an operation. */
  lemma MessageFollows(es: seq<Event>, d: Status)
    ensures var was, now := Run(Initial, es).pr.calMsg, Run(Initial, es + [Delta(d)]).pr.calMsg;
            && (d.message.Some? ==> now == d.message.value)
            && (d.message.None? && d.idle.Some? && d.idle.value != "Printing" && BusyReported(es) ==> now == "")
            && (d.message.None? && (d.idle.None? || d.idle.value == "Printing" || !BusyReported(es)) ==> now == was)
  {
    hide Next, Run, TempsAfter, JobAfter;
    RunSnoc(Initial, es, Delta(d));
    JobFollows(es);
    BadgesNext(Run(Initial, es), Delta(d));
  }

  // ---- interlocks ----

  /** A command the printer may be sent, given its reported state and nozzle temperature. */
  predicate Permitted(c: Command, state: Option<string>, nozzle: int) {
    var idle := state != Some("printing") && state != Some("paused");
    match c
    case Jog(_, _, _) => state != Some("printing")
    case HomeXY => state != Some("printing")
    case HomeAll => state != Some("printing")
    case MotorsOff => idle
    case CalStandard => idle
    case CalFull => idle
    case CalMesh => idle
    case CalShaper => idle
    case Flash => idle
    case Extrude => nozzle >= 170
    case Retract => nozzle >= 170
    case Pause => state == Some("printing")
    case Resume => state == Some("paused")
    case SetNozzle(t) => 0 <= t <= 300
    case SetBed(t) => 0 <= t <= 120
    case Speed(p) => 10 <= p <= 300
    case Flow(p) => 50 <= p <= 200
    case Advance(v) => 0.0 <= v <= 1.0
    case PartFan(p) => 0 <= p <= 255
    case NamedFan(_, p) => 0 <= p <= 100
    case _ => true
  }

  /** Every command of every run was sent by an event before which the reports permitted it. */
  lemma SentCommandsPermitted(es: seq<Event>, i: nat) returns (k: nat)
    requires i < |Run(Initial, es).sent|
    ensures k < |es|
    ensures var c := Run(Initial, es).sent[i].cmd;
            Dispatch(Run(Initial, es[..k]), es[k]) == Some(c) && Permitted(c, LatestState(es[..k]), LatestNozzle(es[..k]))
  {
    hide Run, Dispatch, Next;
    k := SentByAnEvent(es, i);
    var s := Run(Initial, es[..k]);
    RunInv(es[..k]);
    JobFollows(es[..k]);
    TempsFollow(es[..k]);
    InvJob(s);
    DispatchAllowed(s, es[k]);
    AllowedIsPermitted(Sent(Dispatch(s, es[k]).value, s.pr.job, s.pr.temps.nozzle), LatestState(es[..k]));
  }

  lemma InvJob(s: Panel)
    requires Inv(s)
    ensures JobOk(s.pr)
  {
    hide SentOk, ScrimOk, ConfirmOk, LogOk, PaintOk, LayerOk;
  }

  lemma AllowedIsPermitted(x: Sent, state: Option<string>)
    requires Allowed(x) && (x.job.printing <==> state == Some("printing")) && (x.job.paused <==> state == Some("paused"))
    ensures Permitted(x.cmd, state, x.nozzle)
  {
  }

  // ---- controls ----

  /** The latest setting a run leaves of the jog step, the material and the load length. */
  function StepSetting(es: seq<Event>): real {
    if es == [] then 1.0
    else if es[|es| - 1].Tap? && es[|es| - 1].button.StepBtn? then es[|es| - 1].button.mm
    else StepSetting(es[..|es| - 1])
  }

  function MaterialSetting(es: seq<Event>): nat {
    if es == [] then 2
    else if es[|es| - 1].Tap? && es[|es| - 1].button.MaterialBtn? then es[|es| - 1].button.material
    else MaterialSetting(es[..|es| - 1])
  }

  function LengthSetting(es: seq<Event>): int {
    if es == [] then 100
    else if es[|es| - 1].LengthSlider? then es[|es| - 1].mm
    else LengthSetting(es[..|es| - 1])
  }

  lemma PadNext(s: Panel, e: Event)
    ensures Next(s, e).pad == PadAfter(s.pad, e)
  {
    hide PrinterAfter, PaintAfter, ScrimAfter, OverlayAfter, LogAfter, ConfirmAfter, NoticeAfter, LayerAfter, FilesAfter, PadAfter,
      SentAfter, BadgesAfter;
  }

  lemma {:induction false} SettingsFollow(es: seq<Event>)
    ensures Run(Initial, es).pad.knobs == Knobs(StepSetting(es), MaterialSetting(es), LengthSetting(es))
    decreases |es|
  {
    hide Next;
    if es != [] {
      SettingsFollow(es[..|es| - 1]);
      PadNext(Run(Initial, es[..|es| - 1]), es[|es| - 1]);
    }
  }

  /** 220 for PLA, 240 for PETG, 260 for PA-CF. */
  predicate MaterialTemp(material: nat, t: int) {
    (material == 0 ==> t == 220) && (material == 1 ==> t == 240) && (material >= 2 ==> t == 260)
  }

  /** Which table a button's command comes from. */
  lemma MotionTap(p: Printer, k: Knobs, b: Button)
    requires b.JogBtn? || b.HomeXYBtn? || b.HomeAllBtn? || b.MotorsOffBtn? || b.LoadBtn? || b.UnloadBtn? || b.ExtrudeBtn? || b.RetractBtn?
    ensures TapCommand(p, k, b) == MotionCommand(p, k, b)
  {
  }

  lemma OtherTap(p: Printer, k: Knobs, b: Button)
    requires b.PauseStopBtn? || b.StandardTile? || b.FullTile? || b.StopCalBtn?
    ensures TapCommand(p, k, b) == OtherCommand(p.job, b)
  {
  }

  /** Motion controls: what each sends, and exactly when, over every run. */
  lemma MotionControls(es: seq<Event>, axis: Axis, forward: bool)
    ensures var s := Run(Initial, es);
            && Dispatch(s, Tap(JogBtn(axis, forward))) == (if Printing(es) then None else Some(Jog(axis, forward, StepSetting(es))))
            && Dispatch(s, Tap(HomeXYBtn)) == (if Printing(es) then None else Some(HomeXY))
            && Dispatch(s, Tap(HomeAllBtn)) == (if Printing(es) then None else Some(HomeAll))
            && Dispatch(s, Tap(MotorsOffBtn)) == (if Printing(es) || Paused(es) then None else Some(MotorsOff))
  {
    hide Run, LatestState, StepSetting, MaterialSetting, LengthSetting, TapCommand;
    JobFollows(es);
    SettingsFollow(es);
    JobExclusive(es);
    var p, k := Run(Initial, es).pr, Run(Initial, es).pad.knobs;
    MotionTap(p, k, JogBtn(axis, forward));
    MotionTap(p, k, HomeXYBtn);
    MotionTap(p, k, HomeAllBtn);
    MotionTap(p, k, MotorsOffBtn);
  }

  /** Filament controls, the same way: the selected material's temperature, the slider's length, 170 degrees. */
  lemma FilamentControls(es: seq<Event>)
    ensures var s := Run(Initial, es);
            && (exists t :: MaterialTemp(MaterialSetting(es), t)
                  && Dispatch(s, Tap(LoadBtn)) == Some(LoadFilament(t, LengthSetting(es)))
                  && Dispatch(s, Tap(UnloadBtn)) == Some(UnloadFilament(t)))
            && Dispatch(s, Tap(ExtrudeBtn)) == (if LatestNozzle(es) < 170 then None else Some(Extrude))
            && Dispatch(s, Tap(RetractBtn)) == (if LatestNozzle(es) < 170 then None else Some(Retract))
            && (LatestNozzle(es) < 170 ==>
                  && Opens(s, Tap(ExtrudeBtn)) == Some(Question(HeatFirst, NoAction))
                  && Opens(s, Tap(RetractBtn)) == Some(Question(HeatFirst, NoAction)))
  {
    hide Run, LatestNozzle, StepSetting, MaterialSetting, LengthSetting, TapCommand;
    TempsFollow(es);
    SettingsFollow(es);
    assert MaterialTemp(MaterialSetting(es), FilamentTemp(MaterialSetting(es)));
    var p, k := Run(Initial, es).pr, Run(Initial, es).pad.knobs;
    MotionTap(p, k, LoadBtn);
    MotionTap(p, k, UnloadBtn);
    MotionTap(p, k, ExtrudeBtn);
    MotionTap(p, k, RetractBtn);
  }

  lemma JobExclusive(es: seq<Event>)
    ensures !(Printing(es) && Paused(es))
  {
  }

  /** Job, calibration and stop controls, the same way. */
  lemma JobControls(es: seq<Event>)
    ensures var s := Run(Initial, es);
            var live := Printing(es) || Paused(es);
            && Dispatch(s, Tap(PauseStopBtn)) == (if Paused(es) then Some(Resume) else if Printing(es) then Some(Pause) else None)
            && Dispatch(s, Tap(StandardTile)) == (if live then None else Some(CalStandard))
            && Dispatch(s, Tap(FullTile)) == (if live then None else Some(CalFull))
            && Dispatch(s, Tap(StopCalBtn)) == Some(CalStop)
  {
    hide Run, Dispatch, Printing, Paused;
    JobFollows(es);
    JobTaps(Run(Initial, es));
  }

  lemma JobTaps(s: Panel)
    ensures var j := s.pr.job;
            && Dispatch(s, Tap(PauseStopBtn)) == (if j.paused then Some(Resume) else if j.printing then Some(Pause) else None)
            && Dispatch(s, Tap(StandardTile)) == (if j.printing || j.paused then None else Some(CalStandard))
            && Dispatch(s, Tap(FullTile)) == (if j.printing || j.paused then None else Some(CalFull))
            && Dispatch(s, Tap(StopCalBtn)) == Some(CalStop)
  {
    hide TapCommand;
    var p, k := s.pr, s.pad.knobs;
    OtherTap(p, k, PauseStopBtn);
    OtherTap(p, k, StandardTile);
    OtherTap(p, k, FullTile);
    OtherTap(p, k, StopCalBtn);
  }

  /** Over a reported job every calibration tile answers with the refusal card and nothing else. */
  lemma TilesRefuse(es: seq<Event>, b: Button)
    requires b.StandardTile? || b.FullTile? || b.MeshTile? || b.ShaperTile?
    ensures Printing(es) || Paused(es) ==>
              Opens(Run(Initial, es), Tap(b)) == Some(Question(JobLoaded, NoAction)) && Dispatch(Run(Initial, es), Tap(b)).None?
  {
    hide Run, LatestState;
    JobFollows(es);
  }

  /** Heater buttons name their own heater and the temperature on their face. */
  lemma HeaterControls(t: Temps, i: nat)
    ensures HeaterCommand(t, NozzleOff) == Some(SetNozzle(0)) && HeaterCommand(t, BedOff) == Some(SetBed(0))
    ensures HeaterCommand(t, CooldownBtn) == Some(HeatersOff)
    ensures exists n :: MaterialTemp(i, n) && HeaterCommand(t, NozzlePreset(i)) == Some(SetNozzle(n))
                     && HeaterCommand(t, MaterialBtn(i)) == Some(SetNozzle(n))
    ensures HeaterCommand(t, BedPreset(i)) == Some(SetBed(if i == 0 then 60 else if i == 1 then 80 else 45))
  {
    assert MaterialTemp(i, FilamentTemp(i));
  }

  /** Expert Tune presets, babysteps and lights send what is on their face. */
  lemma PresetControls(j: Job, i: nat, up: bool, hotend: bool)
    ensures OtherCommand(j, SpeedPreset(i)) == Some(Speed(if i == 0 then 50 else if i == 1 then 100 else 150))
    ensures OtherCommand(j, FlowPreset(i)) == Some(Flow(if i == 0 then 95 else if i == 1 then 100 else 105))
    ensures OtherCommand(j, FanPreset(i)) == Some(PartFan(if i == 0 then 0 else if i == 1 then 128 else 255))
    ensures OtherCommand(j, ZNudge(up)) == Some(ZAdjust(up)) && OtherCommand(j, LightBtn(hotend, i)) == Some(Light(hotend, i))
  {
  }

  /** Each slider sends its own percentage to its own actuator, held to the slider's range. */
  lemma SliderControls(at: int)
    ensures 50 <= at <= 200 ==> SliderCommand(SpeedSlider, at) == Speed(at)
    ensures 0 <= at <= 100 ==>
              && SliderCommand(ModelFanSlider, at) == NamedFan(false, at) && SliderCommand(BoxFanSlider, at) == NamedFan(true, at)
              && (exists pwm :: SliderCommand(PartFanSlider, at) == PartFan(pwm) && 100 * pwm <= 255 * at < 100 * (pwm + 1))
  {
    assert 0 <= at <= 100 ==> SliderCommand(PartFanSlider, at) == PartFan(at * 255 / 100);
  }

  predicate KeepsBusy(b: Button) {
    || b.HomeXYBtn? || b.HomeAllBtn? || b.LoadBtn? || b.UnloadBtn? || b.ExtrudeBtn? || b.RetractBtn?
    || b.StandardTile? || b.FullTile? || b.PauseStopBtn?
  }

  lemma BusyCommands(p: Printer, k: Knobs, b: Button)
    ensures var m, h, o := MotionCommand(p, k, b), HeaterCommand(p.temps, b), OtherCommand(p.job, b);
            && (m.Some? ==> (Blocking(m.value) <==> KeepsBusy(b)))
            && (m.None? && h.Some? ==> !Blocking(h.value) && !KeepsBusy(b))
            && (m.None? && h.None? && o.Some? ==> (Blocking(o.value) <==> KeepsBusy(b)))
            && m != Some(Flash) && h != Some(Flash) && o != Some(Flash)
  {
    hide ClampTo;
  }

  /** Controls that keep the printer busy put the scrim up at once, and no other control does. */
  lemma WorkingScrim(s: Panel, b: Button)
    ensures Shows(s, Tap(b)).Some? <==> Dispatch(s, Tap(b)).Some? && KeepsBusy(b)
    ensures Shows(s, Tap(b)).Some? ==> Shows(s, Tap(b)).value == ForCommand(Dispatch(s, Tap(b)).value)
  {
    hide MotionCommand, HeaterCommand, OtherCommand, Blocking, KeepsBusy;
    BusyCommands(s.pr, s.pad.knobs, b);
  }

  // ---- questions ----

  /** What each question button leaves pending. */
  lemma TapPends(s: Panel, b: Button)
    ensures var pending := Next(s, Tap(b)).confirm.pending;
            && (b.EStopBtn? ==> pending == Some(DoEmergencyStop)) && (b.CancelBtn? ==> pending == Some(DoCancelPrint))
            && (b.PowerBtn? ==> pending == Some(DoPower(b.kind)))
            && (b.MeshTile? ==> pending == Some(if Live(s.pr.job) then NoAction else DoMeshCal))
            && (b.ShaperTile? ==> pending == Some(if Live(s.pr.job) then NoAction else DoShaperCal))
            && (b.InstallBtn? && s.pad.update != "" && !Live(s.pr.job) ==> pending == Some(DoInstall))
  {
    hide PrinterAfter, PaintAfter, ScrimAfter, OverlayAfter, LogAfter, NoticeAfter, LayerAfter, FilesAfter, PadAfter, SentAfter, BadgesAfter,
      Live;
  }

  /** What confirming each pending action sends, given the job cached then. */
  lemma PendingSends(t: Panel)
    requires t.confirm.pending.Some?
    ensures var a, sent := t.confirm.pending.value, Dispatch(t, ConfirmTap(true));
            && (a.DoEmergencyStop? ==> sent == Some(EmergencyStop)) && (a.DoCancelPrint? ==> sent == Some(CancelPrint))
            && (a.DoPower? ==> sent == Some(PowerCommand(a.kind))) && (a.NoAction? ==> sent.None?)
            && (a.DoMeshCal? ==> sent == if Live(t.pr.job) then None else Some(CalMesh))
            && (a.DoShaperCal? ==> sent == if Live(t.pr.job) then None else Some(CalShaper))
            && (a.DoInstall? ==> sent == if Live(t.pr.job) then None else Some(Flash))
            && ((a.DoMeshCal? || a.DoShaperCal? || a.DoInstall?) && Live(t.pr.job) ==> Notifies(t, ConfirmTap(true)))
  {
    hide Live;
  }

  /** A question asked and left standing: the state at the answer, its question and its reported job. */
  lemma AskedAndStanding(before: seq<Event>, b: Button, es: seq<Event>)
    ensures var s := Next(Run(Initial, before), Tap(b));
            var t, all := Run(s, es), before + [Tap(b)] + es;
            && (Stands(s, es) ==> t.confirm == s.confirm)
            && (Live(t.pr.job) <==> Printing(all) || Paused(all))
            && (Live(Run(Initial, before).pr.job) <==> Printing(before) || Paused(before))
  {
    hide Run, Next, LatestState, Stands;
    QuestionKept(Next(Run(Initial, before), Tap(b)), es);
    JobFollows(before);
    JobFollows(before + [Tap(b)] + es);
    RunSnoc(Initial, before, Tap(b));
    RunAppend(Initial, before + [Tap(b)], es);
  }

  /** Tap, let anything happen that neither answers nor replaces the question, confirm: what goes out. */
  lemma ConfirmedActionSends(before: seq<Event>, b: Button, es: seq<Event>)
    ensures var s := Next(Run(Initial, before), Tap(b));
            var t, all := Run(s, es), before + [Tap(b)] + es;
            var asked, live := Printing(before) || Paused(before), Printing(all) || Paused(all);
            var sent := Dispatch(t, ConfirmTap(true));
            Stands(s, es) ==>
              && (b.EStopBtn? ==> sent == Some(EmergencyStop))
              && (b.CancelBtn? ==> sent == Some(CancelPrint))
              && (b.PowerBtn? ==> sent == Some(PowerCommand(b.kind)))
              && (b.MeshTile? && !asked ==> sent == if live then None else Some(CalMesh))
              && (b.ShaperTile? && !asked ==> sent == if live then None else Some(CalShaper))
              && ((b.MeshTile? || b.ShaperTile?) && asked ==> sent.None?)
              && ((b.MeshTile? || b.ShaperTile?) && !asked && live ==> Notifies(t, ConfirmTap(true)))
  {
    hide Run, Next, LatestState, Stands, Dispatch, Notifies, Live;
    AskedAndStanding(before, b, es);
    TapPends(Run(Initial, before), b);
    var t := Run(Next(Run(Initial, before), Tap(b)), es);
    if t.confirm.pending.Some? {
      PendingSends(t);
    }
  }

  lemma {:induction false} RunAppend(s: Panel, a: seq<Event>, b: seq<Event>)
    ensures Run(s, a + b) == Run(Run(s, a), b)
    decreases |b|
  {
    hide Next;
    if b == [] {
      assert a + b == a;
    } else {
      assert (a + b)[..|a + b| - 1] == a + b[..|b| - 1];
      RunAppend(s, a, b[..|b| - 1]);
    }
  }

  /** An offered update that is confirmed flashes exactly when no job is reported at that moment. */
  lemma ConfirmedInstallSends(before: seq<Event>, es: seq<Event>)
    ensures var s := Next(Run(Initial, before), Tap(InstallBtn));
            var all := before + [Tap(InstallBtn)] + es;
            Run(Initial, before).pad.update != "" && !Printing(before) && !Paused(before) && Stands(s, es) ==>
              Dispatch(Run(s, es), ConfirmTap(true)) == if Printing(all) || Paused(all) then None else Some(Flash)
  {
    hide Run, Next, LatestState, Stands, Dispatch, Notifies, Live;
    AskedAndStanding(before, InstallBtn, es);
    TapPends(Run(Initial, before), InstallBtn);
    var t := Run(Next(Run(Initial, before), Tap(InstallBtn)), es);
    if t.confirm.pending.Some? {
      PendingSends(t);
    }
  }

  /** What confirming shows on the scrim: power actions and the update, nothing else. */
  lemma PendingShows(t: Panel)
    requires t.confirm.pending.Some?
    ensures var a := t.confirm.pending.value;
            Shows(t, ConfirmTap(true)) == if a.DoPower? then Some(ForCommand(PowerCommand(a.kind)))
                                          else if a.DoInstall? && !Live(t.pr.job) then Some(Updating) else None
  {
  }

  /** Power questions warn of a reported job. */
  lemma PowerWarns(es: seq<Event>, k: Power)
    ensures Opens(Run(Initial, es), Tap(PowerBtn(k)))
         == Some(Question(AskAction(DoPower(k), Printing(es) || Paused(es)), DoPower(k)))
  {
    hide Run, LatestState;
    JobFollows(es);
  }

  /** The latest version a check found. */
  function LatestVersion(es: seq<Event>): string {
    if es == [] then ""
    else if es[|es| - 1].UpdateChecked? then es[|es| - 1].version
    else LatestVersion(es[..|es| - 1])
  }

  lemma {:induction false} VersionFollows(es: seq<Event>)
    ensures Run(Initial, es).pad.update == LatestVersion(es)
    decreases |es|
  {
    hide Next;
    if es != [] {
      VersionFollows(es[..|es| - 1]);
      PadNext(Run(Initial, es[..|es| - 1]), es[|es| - 1]);
    }
  }

  /** The install button asks if and only if the latest check found a version and no job is reported. */
  lemma InstallAsksIff(es: seq<Event>)
    ensures Opens(Run(Initial, es), Tap(InstallBtn))
         == if LatestVersion(es) != "" && !Printing(es) && !Paused(es) then Some(Question(AskAction(DoInstall, false), DoInstall)) else None
  {
    hide Run, LatestState;
    JobFollows(es);
    VersionFollows(es);
  }

  /** A refused start is shown with its reason; an accepted one asks nothing. */
  lemma StartFailureShown(s: Panel, reason: string)
    ensures Opens(s, PrintReply(Some(reason))) == Some(Question(StartFailed(reason), NoAction))
    ensures Opens(s, PrintReply(None)).None?
  {
  }

  /** What raises a notice: a stopped calibration, a refused update, an unofficial build, an action overtaken by a job. */
  lemma NoticeRaisedIff(s: Panel, e: Event)
    ensures Notifies(s, e) <==>
              || e == Tap(StopCalBtn) || (e.InstallEnded? && e.failed && e.refused) || e.BuildNotice?
              || (e == ConfirmTap(true) && s.confirm.pending.Some? && (s.pr.job.printing || s.pr.job.paused)
                  && s.confirm.pending.value in {DoMeshCal, DoShaperCal, DoInstall})
  {
  }

  /** The notice is up exactly from an event that raises it to the tap that dismisses it. */
  lemma NoticeStep(s: Panel, e: Event)
    ensures Next(s, e).notice <==> Notifies(s, e) || (s.notice && e != NoticeTap)
  {
    hide PrinterAfter, PaintAfter, ScrimAfter, OverlayAfter, LogAfter, ConfirmAfter, LayerAfter, FilesAfter, PadAfter, SentAfter,
      BadgesAfter, Notifies;
  }

  /** Cancelling a question sends nothing and forgets it. */
  lemma DeclineSendsNothing(s: Panel)
    ensures Dispatch(s, ConfirmTap(false)).None?
    ensures ConfirmAfter(s, ConfirmTap(false)).pending.None? && Dispatch(s.(confirm := ConfirmAfter(s, ConfirmTap(false))), ConfirmTap(true)).None?
  {
  }

  /** The card names a file by its last path component, shortened past 38 characters. */
  lemma {:induction false} CardNamesFile(dir: string, base: string)
    requires Avoids(base, {'/'}) && (dir == "" || dir[|dir| - 1] == '/')
    ensures ShownName(dir + base) == if |base| > 38 then base[..36] + ".." else base
  {
    LastComponent(dir, base);
  }

  lemma {:induction false} LastComponent(dir: string, base: string)
    requires Avoids(base, {'/'}) && (dir == "" || dir[|dir| - 1] == '/')
    ensures AfterSlash(dir + base) == base
    decreases |base|
  {
    if base == "" {
      assert dir + base == dir;
    } else {
      var init := base[..|base| - 1];
      assert (dir + base)[..|dir + base| - 1] == dir + init;
      LastComponent(dir, init);
    }
  }

  /** The keypad sends to the field it was last opened for. */
  lemma {:induction false} KeypadSendsItsField(s: Panel, f: Field, es: seq<Event>, v: real)
    requires forall k :: 0 <= k < |es| ==> !OpensKeypad(es[k])
    ensures Run(Next(s, Tap(KeypadBtn(f))), es).pad.field == Some(f)
    ensures Dispatch(Run(Next(s, Tap(KeypadBtn(f))), es), KeypadOk(v)) == Some(KeypadCommand(f, v))
    decreases |es|
  {
    hide Next, KeypadCommand;
    var t := Next(s, Tap(KeypadBtn(f)));
    PadNext(s, Tap(KeypadBtn(f)));
    if es != [] {
      var before, e := es[..|es| - 1], es[|es| - 1];
      KeypadSendsItsField(s, f, before, v);
      assert !OpensKeypad(es[|es| - 1]);
      PadNext(Run(t, before), e);
    }
  }

  // ---- what the glass shows ----

  /** A target as written: its mark and number, or "off". */
  predicate ShowsTarget(shown: string, mark: string, target: int) {
    if target > 0 then shown == mark + DecInt(target) else shown == "off"
  }

  /** Every report at the value the program keeps for "not painted yet". */
  predicate AllUnpainted(es: seq<Event>) {
    && LatestNozzle(es) == -2147483648 && LatestNozzleTarget(es) == -2147483648
    && LatestBed(es) == -2147483648 && LatestBedTarget(es) == -2147483648
  }

  /** After a delta that keeps the layout, every label shows its own latest reported value. */
  lemma LabelsShowReports(es: seq<Event>, d: Status)
    ensures var all := es + [Delta(d)];
            var face := Run(Initial, all).paint.face;
            Printing(all) == Printing(es) && Paused(all) == Paused(es) && !AllUnpainted(all) ==>
              && face.home.nozzle == DecInt(LatestNozzle(all)) && face.sub.nozzle == DecInt(LatestNozzle(all))
              && face.home.bed == DecInt(LatestBed(all)) && face.sub.bed == DecInt(LatestBed(all))
              && ShowsTarget(face.home.nozzleSet, "/ ", LatestNozzleTarget(all)) && ShowsTarget(face.home.bedSet, "/ ", LatestBedTarget(all))
              && ShowsTarget(face.sub.nozzleSet, "set ", LatestNozzleTarget(all)) && ShowsTarget(face.sub.bedSet, "set ", LatestBedTarget(all))
              && (LatestNozzleTarget(all) > 0 ==>
                    face.sub.filament == DecInt(LatestNozzle(all)) + " / " + DecInt(LatestNozzleTarget(all)))
              && (LatestNozzleTarget(all) <= 0 ==> face.sub.filament == DecInt(LatestNozzle(all)) + " / off")
  {
    hide Run, LatestState, LatestNozzle, LatestNozzleTarget, LatestBed, LatestBedTarget, DecInt, Next, PaintAfter;
    var all := es + [Delta(d)];
    JobFollows(es);
    JobFollows(all);
    TempsFollow(all);
    RunSnoc(Initial, es, Delta(d));
    BadgesNext(Run(Initial, es), Delta(d));
    if Printing(all) == Printing(es) && Paused(all) == Paused(es) && !AllUnpainted(all) {
      LabelsAgree(es, d);
    }
  }

  /** The home labels are right after any status message at all, flips and reconnects included. */
  lemma HomeShowsReports(es: seq<Event>, e: Event)
    ensures var all := es + [e];
            var home := Run(Initial, all).paint.face.home;
            (e.Delta? || e.Subscribed?) && !AllUnpainted(all) ==>
              && home.nozzle == DecInt(LatestNozzle(all)) && home.bed == DecInt(LatestBed(all))
              && ShowsTarget(home.nozzleSet, "/ ", LatestNozzleTarget(all)) && ShowsTarget(home.bedSet, "/ ", LatestBedTarget(all))
  {
    hide Run, LatestNozzle, LatestNozzleTarget, LatestBed, LatestBedTarget, DecInt, PrinterAfter, PaintAfter, ScrimAfter, OverlayAfter,
      LogAfter, ConfirmAfter, NoticeAfter, LayerAfter, FilesAfter, PadAfter, SentAfter, BadgesAfter, LogOk, SentOk, LayerOk;
    TempsFollow(es + [e]);
    RunSnoc(Initial, es, e);
    RunInv(es);
    if (e.Delta? || e.Subscribed?) && !AllUnpainted(es + [e]) {
      HomeLabelsAgree(Run(Initial, es), e);
    }
  }

  /** A rebuilt home screen leaves the next delta to repaint everything. */
  lemma FlipForcesRepaint(w: Painted, p: Printer, e: Event)
    requires e.Subscribed? || (e.Delta? && PrinterAfter(p, e).job != p.job)
    ensures PaintAfter(w, p, e).shadow == Temps(-2147483648, -2147483648, -2147483648, -2147483648)
    ensures PaintAfter(w, p, e).face.sub == w.face.sub
  {
    hide HomeLabels;
  }

  /** The narration is up exactly during a reported campaign. */
  lemma NarrationIff(es: seq<Event>, d: Status)
    ensures var all := es + [Delta(d)];
            var t := Run(Initial, all);
            t.log.box.visible <==>
              && (BusyReported(all) || Printing(all))
              && ("Make Pono" <= t.pr.calMsg || "Full Cal" <= t.pr.calMsg)
  {
    hide Run, LatestState, BusyReported, StepView, Cal.Parse;
    JobFollows(es + [Delta(d)]);
    NarrationFollows(es, d);
  }

  /** A printed step is drawn as printed: the step, the next one, the count and the bar. */
  lemma NarrationShowsStep(es: seq<Event>, d: Status, step: Cal.Step)
    requires Cal.Printable(step) && 0 < step.total && step.done <= step.total
    ensures var t := Run(Initial, es + [Delta(d)]);
            t.pr.calMsg == Cal.Print("Make Pono ", step) && t.log.box.visible && !t.log.book.fault ==>
              && t.log.box.now == Said(step.now) && t.log.box.next == Said(step.next)
              && t.log.box.count == Some((step.done, step.total)) && !t.log.box.fault
              && t.log.box.bar == Cal.DrawBar(step.done, step.total)
  {
    hide Run, Cal.Parse, Cal.Print, Cal.DrawBar;
    NarrationFollows(es, d);
    Cal.CampaignNames();
    Cal.RoundTrip("Make Pono ", step);
  }

  /** Ten seconds of silence turn the box into an alarm that tells how long, with the count kept. */
  lemma AlarmSays(l: Log, q: Printer, age: int)
    requires l.book.shown && age >= 10000
    ensures var m := LogAfter(l, q, StaleCheck(age));
            && m.box.visible && m.box.fault && m.book.fault && m.box.next == TapStop
            && (exists sec :: m.box.now == NoWordFor(sec) && 1000 * sec <= age < 1000 * (sec + 1))
            && (l.book.step.total > 0 ==> m.box.count.Some? && m.box.count.value.1 == l.book.step.total)
  {
    var sec := age / 1000;
    assert LogAfter(l, q, StaleCheck(age)).box.now == NoWordFor(sec);
  }

  /** Losing the link drops every overlay and forgets the activity, and keeps the question. */
  lemma LinkLossResets(s: Panel)
    ensures var t := Next(s, LinkLost);
            && !t.scrim.visible && t.scrim.watchdog.None? && !t.overlay.on && !t.log.box.visible && !t.log.book.shown && !t.log.book.fault
            && !t.pr.busy && !t.pr.prompt && t.pr.job == s.pr.job && t.pr.temps == s.pr.temps && t.confirm == s.confirm && t.sent == s.sent
  {
    hide Raise;
  }

  /** The chip is offered for a newer version exactly when no job is reported. */
  lemma ChipOfferedIff(es: seq<Event>, version: string)
    ensures Run(Initial, es + [UpdateChecked(version)]).badges.chip <==> version != "" && !Printing(es) && !Paused(es)
  {
    hide Run, Next, LatestState;
    RunSnoc(Initial, es, UpdateChecked(version));
    JobFollows(es);
    BadgesNext(Run(Initial, es), UpdateChecked(version));
  }

  /** What hides the chip: a new check, a failed update, and a delta that loads a job. */
  lemma ChipHidden(s: Panel, e: Event)
    requires s.badges.chip && !e.UpdateChecked?
    ensures !BadgesAfter(s.badges, s.pr, e).chip <==>
              || (e.CheckStarted? && !s.badges.checking)
              || (e.InstallEnded? && e.failed)
              || (e.Delta? && var job := PrinterAfter(s.pr, e).job; job != s.pr.job && (job.printing || job.paused))
  {
  }

  /** The latest word on the prompt dialog. */
  predicate PromptUp(es: seq<Event>) {
    es != [] &&
    var e := es[|es| - 1];
    e.PromptShown? || (!e.PromptEnded? && !e.LinkLost? && PromptUp(es[..|es| - 1]))
  }

  lemma {:induction false} PromptFollows(es: seq<Event>)
    ensures Run(Initial, es).pr.prompt <==> PromptUp(es)
    decreases |es|
  {
    hide Next, JobAfter, TempsAfter, MessageAfter;
    if es != [] {
      PromptFollows(es[..|es| - 1]);
      BadgesNext(Run(Initial, es[..|es| - 1]), es[|es| - 1]);
    }
  }

  /** After a delta the calibration overlay is on exactly while a reported calibration has the screen to itself. */
  lemma CalibrationOverlayIff(es: seq<Event>, d: Status)
    ensures var all := es + [Delta(d)];
            var t := Run(Initial, all);
            && (t.overlay.on <==> BusyReported(all) && !Printing(all) && "Calibrating" <= t.pr.calMsg && !PromptUp(all))
            && (t.overlay.on ==> t.overlay.text == t.pr.calMsg)
  {
    hide Run, LatestState, BusyReported, PromptUp, PrinterAfter, PaintAfter, ScrimAfter, LogAfter, ConfirmAfter, NoticeAfter, LayerAfter,
      FilesAfter, PadAfter, SentAfter, BadgesAfter;
    JobFollows(es + [Delta(d)]);
    PromptFollows(es + [Delta(d)]);
    RunSnoc(Initial, es, Delta(d));
  }

  /** Exactly what takes a visible scrim down: a reply, a lost link, an ended update, a prompt, a finished calibration, or 180 s. */
  lemma ScrimFate(s: Panel, e: Event)
    requires s.scrim.visible && s.scrim.watchdog.Some? && Shows(s, e).None?
    ensures !ScrimAfter(s, e).visible <==>
              || e.ActionReply? || e.LinkLost? || e.InstallEnded? || e.PromptShown?
              || (e.Delta? && s.overlay.on && !CalActive(PrinterAfter(s.pr, e)))
              || (e.TimerPass? && s.scrim.watchdog.value + e.ms >= 180000)
  {
    hide Shows, CalActive, PrinterAfter;
  }

  /** A visible scrim outlasts every event that neither drops it nor completes its 180 s. */
  lemma ScrimLasts(s: Panel, e: Event)
    requires ScrimOk(s.scrim) && s.scrim.visible && !Drops(s, e)
    requires e.TimerPass? ==> s.scrim.watchdog.value + e.ms < 180000
    ensures ScrimAfter(s, e).visible
  {
    hide Drops, Shows;
  }
}
