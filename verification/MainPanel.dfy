/**
 The cockpit as the object whose handlers update its fields in place, in the program's order.
 Every handler is proved to do what the observations of `Cockpit` say its event does.
 */
module MainPanelObject {
  import opened Text
  import opened TopLayer
  import opened Cockpit
  import Cal = CalMessage
  import FL = FileList

  // ---- taps, in one place ----

  /** A tap changes nothing but what its command, question, notice and keypad bring. */
  function TapResult(s: Panel, cmd: Option<Command>, ask: Option<Question>, note: bool, keypad: bool, pad: Pad): Panel {
    var shows := cmd.Some? && Blocking(cmd.value);
    s.(scrim := if shows then Scrim(true, ForCommand(cmd.value), Some(0)) else s.scrim,
       confirm := if ask.Some? then Confirm(true, ask.value.prompt, Some(ask.value.action)) else s.confirm,
       notice := note || s.notice,
       layer := Stack(s.layer, shows, false, ask.Some?, note, keypad, false),
       pad := pad,
       sent := if cmd.Some? then s.sent + [Sent(cmd.value, s.pr.job, s.pr.temps.nozzle)] else s.sent)
  }

  /** What a tap never touches. */
  lemma TapKeeps(s: Panel, b: Button)
    ensures PrinterAfter(s.pr, Tap(b)) == s.pr && PaintAfter(s.paint, s.pr, Tap(b)) == s.paint
    ensures OverlayAfter(s.overlay, s.pr, Tap(b)) == s.overlay && LogAfter(s.log, s.pr, Tap(b)) == s.log
    ensures FilesAfter(s.files, Tap(b)) == s.files && !Draws(s.log, s.pr, Tap(b))
    ensures BadgesAfter(s.badges, s.pr, Tap(b)) == s.badges
  {
  }

  lemma TapScrim(s: Panel, b: Button)
    ensures var cmd := TapCommand(s.pr, s.pad.knobs, b);
            Shows(s, Tap(b)) == if cmd.Some? && Blocking(cmd.value) then Some(ForCommand(cmd.value)) else None
    ensures !Drops(s, Tap(b))
  {
    hide Blocking;
    assert TapCommand(s.pr, s.pad.knobs, b) != Some(Flash);
  }

  lemma TapIs(s: Panel, b: Button)
    ensures Next(s, Tap(b)) == TapResult(s, TapCommand(s.pr, s.pad.knobs, b), TapQuestion(s, b),
                                         b.StopCalBtn?, b.KeypadBtn?, PadAfter(s.pad, Tap(b)))
    ensures TapResult(s, None, None, false, false, s.pad) == s
  {
    hide TapQuestion, Blocking, TapCommand, Shows, Drops, PadAfter, Raise;
    hide PrinterAfter, PaintAfter, OverlayAfter, LogAfter, FilesAfter, Draws, BadgesAfter;
    TapKeeps(s, b);
    TapScrim(s, b);
  }

  /** Buttons that only send a value. */
  predicate Immediate(b: Button) {
    match b
    case MaterialBtn(_) => true
    case CooldownBtn => true
    case NozzlePreset(_) => true
    case NozzleOff => true
    case BedPreset(_) => true
    case BedOff => true
    case NudgeNozzle(_) => true
    case NudgeBed(_) => true
    case SpeedPreset(_) => true
    case FlowPreset(_) => true
    case FanPreset(_) => true
    case ZNudge(_) => true
    case LightBtn(_, _) => true
    case _ => false
  }

  lemma ImmediateSends(s: Panel, b: Button)
    requires Immediate(b)
    ensures var c := TapCommand(s.pr, s.pad.knobs, b); c.Some? && !Blocking(c.value)
    ensures TapQuestion(s, b).None? && !b.StopCalBtn? && !b.KeypadBtn?
    ensures PadAfter(s.pad, Tap(b)) ==
            if b.MaterialBtn? then s.pad.(knobs := s.pad.knobs.(material := b.material)) else s.pad
  {
    hide ClampTo;
  }

  lemma StackNothing(l: Layer)
    ensures Stack(l, false, false, false, false, false, false) == l
  {
  }

  lemma StopIs(s: Panel)
    ensures TapResult(s, Some(CalStop), None, true, false, s.pad) ==
            s.(notice := true, layer := RaisePair(s.layer, true, NoticeScrim, NoticeCard),
               sent := s.sent + [Sent(CalStop, s.pr.job, s.pr.temps.nozzle)])
  {
    hide Raise;
  }

  lemma KeypadNeverBlocks(field: Option<Field>, v: real)
    ensures field.Some? ==> !Blocking(KeypadCommand(field.value, v))
  {
    hide Trunc;
  }

  /** A question opened by a row or a failed start does no more than one opened by a button. */
  lemma AskIs(s: Panel, e: Event)
    requires e.RowTap? || e.PrintReply?
    ensures Next(s, e) == TapResult(s, None, Opens(s, e), false, false, s.pad)
    ensures TapResult(s, None, None, false, false, s.pad) == s
  {
    hide Raise, RowQuestion;
  }

  /** Running a confirmed action, or refusing it with a notice. */
  function Performed(s: Panel, a: Action): Panel {
    var cmd, note := ActionCommand(s.pr.job, a), Refused(s.pr.job, a);
    var shows := cmd.Some? && Blocking(cmd.value);
    s.(scrim := if shows then Scrim(true, if cmd.value.Flash? then Updating else ForCommand(cmd.value), Some(0)) else s.scrim,
       notice := note || s.notice,
       layer := RaisePair(RaiseOne(s.layer, shows, BusyScrim), note, NoticeScrim, NoticeCard),
       sent := if cmd.Some? then s.sent + [Sent(cmd.value, s.pr.job, s.pr.temps.nozzle)] else s.sent)
  }

  /** Answering the card: sink it, run the action if confirmed, forget it. */
  lemma ConfirmIs(s: Panel, ok: bool)
    ensures var c, l := s.confirm.(shown := false), Lower(Lower(s.layer, ConfirmCard), ConfirmScrim);
            Next(s, ConfirmTap(ok)) ==
            (if ok && s.confirm.pending.Some? then Performed(s.(confirm := c, layer := l), s.confirm.pending.value)
             else s.(layer := l)).(confirm := c.(pending := None))
  {
    hide Raise, Lower, Blocking, ActionCommand, Refused;
  }

  /** The timers: the watchdog, the lost-contact check and the keepalive. */
  lemma TimersAre(s: Panel, e: Event)
    requires e.TimerPass? || e.StaleCheck? || e.Keepalive?
    ensures Next(s, e) == s.(scrim := if e.TimerPass? then Aged(s.scrim, e.ms) else s.scrim,
                             log := LogAfter(s.log, s.pr, e),
                             layer := RaiseOne(RaiseOne(s.layer, Draws(s.log, s.pr, e), LogBox), Rescues(s, e), EStop),
                             badges := BadgesAfter(s.badges, s.pr, e))
  {
    hide Raise, Aged, Rescues, LogAfter, Draws, BadgesAfter;
  }

  /** Replies, prompts and checks dispatch nothing and ask nothing. */
  predicate Quiet(e: Event) {
    || e.ActionReply? || e.InstallEnded? || e.PromptShown? || e.PromptEnded?
    || e.LengthSlider? || e.CheckStarted? || e.UpdateChecked? || e.BuildNotice?
  }

  lemma QuietIs(s: Panel, e: Event)
    requires Quiet(e)
    ensures Next(s, e) == s.(pr := PrinterAfter(s.pr, e),
                             scrim := if Drops(s, e) then Lowered(s.scrim) else s.scrim,
                             overlay := OverlayAfter(s.overlay, s.pr, e),
                             notice := Notifies(s, e) || s.notice,
                             layer := RaisePair(s.layer, Notifies(s, e), NoticeScrim, NoticeCard),
                             pad := PadAfter(s.pad, e),
                             badges := BadgesAfter(s.badges, s.pr, e))
  {
    hide Raise, Lowered, BadgesAfter, PadAfter;
  }

  lemma FilesAre(s: Panel, e: Event)
    requires e.FilesReply? || e.MetaReply?
    ensures Next(s, e) == s.(files := FilesAfter(s.files, e))
  {
    hide FilesAfter, Raise;
  }

  /** A delta draws on the layer at most the scrim and the log box, and touches no dialog. */
  lemma DeltaKeeps(s: Panel, d: Status)
    ensures ConfirmAfter(s, Delta(d)) == s.confirm && NoticeAfter(s, Delta(d)) == s.notice
    ensures FilesAfter(s.files, Delta(d)) == s.files && PadAfter(s.pad, Delta(d)) == s.pad && SentAfter(s, Delta(d)) == s.sent
    ensures LayerAfter(s, Delta(d)) ==
            RaiseOne(RaiseOne(s.layer, Shows(s, Delta(d)).Some?, BusyScrim), Draws(s.log, PrinterAfter(s.pr, Delta(d)), Delta(d)), LogBox)
  {
    hide Raise, Shows, Draws, PrinterAfter;
  }

  class MainPanel {
    var pr: Printer
    var paint: Painted
    var scrim: Scrim
    var calOverlay: CalOverlay
    var log: Log
    var confirm: Confirm
    var noticeShown: bool
    var layer: Layer
    var files: FL.Files
    var pad: Pad
    var sent: seq<Sent>
    var badges: Badges

    /** The machine state the object stands for. */
    ghost function View(): Panel
      reads this
    {
      Panel(pr, paint, scrim, calOverlay, log, confirm, noticeShown, layer, files, pad, sent, badges)
    }

    constructor ()
      ensures View() == Initial
    {
      pr := Printer(Job(false, false), Temps(0, 0, 0, 0), false, "", false);
      paint := Painted(Sentinel, Face(HomeLabels(Temps(0, 0, 0, 0)), SubFace("--", "off", "--", "off", "-- / --")));
      scrim, calOverlay := Scrim(false, Updating, None), CalOverlay(false, "");
      log := Log(Book(false, "", Cal.Step("", "", 0, 0), false), LogView(false, Said(""), Said(""), None, Cal.NoBar, false));
      confirm, noticeShown := Confirm(false, Unasked, None), false;
      layer := [KeypadCard, KeypadScrim, ConfirmScrim, ConfirmCard, NoticeScrim, NoticeCard, EStop];
      files, pad, sent := FL.Empty, Pad(None, Knobs(1.0, 2, 100), 200, ""), [];
      badges := Badges(false, false, false);
    }

    // ---- shared pieces ----

    method Send(c: Command)
      modifies this`sent
      ensures sent == old(sent) + [Sent(c, pr.job, pr.temps.nozzle)]
    {
      sent := sent + [Sent(c, pr.job, pr.temps.nozzle)];
    }

    /** Show the scrim, put it in front and (re)arm its watchdog. */
    method BusyShow(text: Banner)
      modifies this`scrim, this`layer
      ensures scrim == Scrim(true, text, Some(0)) && layer == Raise(old(layer), BusyScrim)
    {
      scrim := scrim.(text := text, visible := true);
      layer := Raise(layer, BusyScrim);
      scrim := scrim.(watchdog := None);
      scrim := scrim.(watchdog := Some(0));
    }

    method BusyHide()
      modifies this`scrim
      ensures scrim == Lowered(old(scrim))
    {
      scrim := scrim.(watchdog := None);
      scrim := scrim.(visible := false);
    }

    method HideBusyOverlay()
      modifies this`scrim, this`calOverlay
      ensures scrim == Lowered(old(scrim)) && calOverlay == CalOverlay(false, "")
    {
      BusyHide();
      calOverlay := CalOverlay(false, "");
    }

    method AskConfirm(prompt: Prompt, action: Action)
      modifies this`confirm, this`layer
      ensures confirm == Confirm(true, prompt, Some(action))
      ensures layer == RaisePair(old(layer), true, ConfirmScrim, ConfirmCard)
    {
      confirm := confirm.(pending := Some(action));
      confirm := confirm.(prompt := prompt);
      layer := Raise(layer, ConfirmScrim);
      layer := Raise(layer, ConfirmCard);
      confirm := confirm.(shown := true);
    }

    method ShowNotice()
      modifies this`noticeShown, this`layer
      ensures noticeShown && layer == RaisePair(old(layer), true, NoticeScrim, NoticeCard)
    {
      noticeShown := true;
      layer := Raise(layer, NoticeScrim);
      layer := Raise(layer, NoticeCard);
    }

    method RebuildHome()
      modifies this`paint
      ensures paint == Rebuilt(old(paint), pr.temps)
    {
      paint := paint.(face := paint.face.(home := HomeLabels(pr.temps)));
      paint := paint.(shadow := Sentinel);
    }

    method LogShow(view: LogView)
      modifies this`log, this`layer
      ensures log == old(log).(box := view) && layer == Raise(old(layer), LogBox)
    {
      log := log.(box := view);
      layer := Raise(layer, LogBox);
    }

    method LogHide()
      modifies this`log
      ensures log == LogHidden(old(log))
    {
      log := log.(box := log.box.(visible := false));
      log := log.(book := log.book.(shown := false, text := "", fault := false));
    }

    // ---- status messages ----

    method CacheTemps(d: Status)
      modifies this`pr
      ensures pr == old(pr).(temps := TempsAfter(old(pr).temps, d))
    {
      var t := pr.temps;
      if d.nozzle.Some? { t := t.(nozzle := d.nozzle.value); }
      if d.nozzleSet.Some? { t := t.(nozzleSet := d.nozzleSet.value); }
      if d.bed.Some? { t := t.(bed := d.bed.value); }
      if d.bedSet.Some? { t := t.(bedSet := d.bedSet.value); }
      pr := pr.(temps := t);
    }

    /** The subscribe reply seeds the caches and rebuilds the home screen. */
    method Init(d: Status)
      modifies this`pr, this`paint
      ensures View() == Next(old(View()), Subscribed(d))
    {
      hide TempsAfter, Rebuilt, Raise;
      CacheTemps(d);
      if d.state.Some? {
        pr := pr.(job := Job(d.state.value == "printing", d.state.value == "paused"));
      }
      RebuildHome();
    }

    method CacheIdle(d: Status)
      modifies this`pr
      ensures pr == old(pr).(
                busy := if d.idle.Some? then d.idle.value == "Printing" else old(pr).busy,
                calMsg := if d.idle.Some? && d.idle.value != "Printing" && old(pr).busy then "" else old(pr).calMsg)
    {
      if d.idle.Some? {
        var nb := d.idle.value == "Printing";
        if pr.busy && !nb {
          pr := pr.(calMsg := "");
        }
        pr := pr.(busy := nb);
      }
    }

    /** Rebuild on a layout flip, otherwise repaint only what moved. */
    method Render(d: Status)
      modifies this`pr, this`paint, this`badges
      ensures badges == old(badges).(chip := old(badges).chip && !(pr.job != old(pr).job && Live(pr.job)))
      ensures pr == old(pr).(job := JobAfter(old(pr).job, d))
      ensures paint == if pr.job != old(pr).job then Rebuilt(old(paint), pr.temps)
                       else if pr.temps != old(paint).shadow then Painted(pr.temps, Paint(pr.temps)) else old(paint)
    {
      hide HomeLabels;
      var printing := if d.state.None? then pr.job.printing else d.state.value == "printing";
      var paused := if d.state.None? then pr.job.paused else d.state.value == "paused";
      if printing != pr.job.printing || paused != pr.job.paused {
        pr := pr.(job := Job(printing, paused));
        RebuildHome();
        if printing || paused {
          badges := badges.(chip := false);
        }
      } else {
        var t, r := pr.temps, paint.shadow;
        if t.nozzle != r.nozzle || t.nozzleSet != r.nozzleSet || t.bed != r.bed || t.bedSet != r.bedSet {
          paint := paint.(face := paint.face.(home := HomeLabels(t)));
          paint := paint.(face := paint.face.(sub := Paint(t).sub));
          paint := paint.(shadow := t);
        }
      }
    }

    /** The first half of a delta: caches and labels. */
    method CacheAndRender(d: Status)
      modifies this`pr, this`paint, this`badges
      ensures badges == BadgesAfter(old(badges), old(pr), Delta(d))
      ensures pr == PrinterAfter(old(pr), Delta(d))
      ensures paint == PaintAfter(old(paint), old(pr), Delta(d))
    {
      hide Paint, Rebuilt, TempsAfter, JobAfter, Live;
      badges := badges.(stale := false);
      CacheTemps(d);
      CacheIdle(d);
      Render(d);
      if d.message.Some? {
        pr := pr.(calMsg := d.message.value);
      }
    }

    /** The calibration overlay on the scrim, redrawn only when its text changes. */
    method DriveOverlay(ghost s: Panel, ghost d: Status)
      requires pr == PrinterAfter(s.pr, Delta(d)) && scrim == s.scrim && calOverlay == s.overlay && layer == s.layer
      modifies this`scrim, this`calOverlay, this`layer
      ensures scrim == ScrimAfter(s, Delta(d)) && calOverlay == OverlayAfter(s.overlay, pr, Delta(d))
      ensures layer == RaiseOne(s.layer, Shows(s, Delta(d)).Some?, BusyScrim)
    {
      hide PrinterAfter, Raise;
      var active := pr.busy && !pr.job.printing && "Calibrating" <= pr.calMsg && !pr.prompt;
      if active {
        if !calOverlay.on || pr.calMsg != calOverlay.text {
          BusyShow(CalText(pr.calMsg));
          calOverlay := CalOverlay(true, pr.calMsg);
        }
      } else if calOverlay.on {
        HideBusyOverlay();
      }
    }

    /** The narration logbook, redrawn only when its text changes. */
    method DriveLogbook(ghost d: Status)
      modifies this`log, this`layer
      ensures log == LogAfter(old(log), pr, Delta(d))
      ensures layer == RaiseOne(old(layer), Draws(old(log), pr, Delta(d)), LogBox)
    {
      hide Raise, Cal.Parse, StepView;
      var run := (pr.busy || pr.job.printing) && ("Make Pono" <= pr.calMsg || "Full Cal" <= pr.calMsg);
      if run {
        if !log.book.shown || pr.calMsg != log.book.text {
          var step := Cal.ParseCalMsg(pr.calMsg);
          LogShow(StepView(step));
          log := log.(book := Book(true, pr.calMsg, step, false));
        }
      } else if log.book.shown {
        LogHide();
      }
    }

    /** A status delta, in the program's order. */
    method Consume(d: Status)
      modifies this
      ensures View() == Next(old(View()), Delta(d))
    {
      hide PrinterAfter, PaintAfter, ScrimAfter, OverlayAfter, LogAfter, ConfirmAfter, NoticeAfter, LayerAfter, FilesAfter,
        PadAfter, SentAfter, Shows, Draws, RaiseOne, BadgesAfter;
      ghost var s := View();
      DeltaKeeps(s, d);
      CacheAndRender(d);
      DriveOverlay(s, d);
      DriveLogbook(d);
    }

    method ResetOverlayState()
      modifies this`scrim, this`calOverlay, this`log, this`pr
      ensures View() == Next(old(View()), LinkLost)
    {
      hide Raise;
      HideBusyOverlay();
      LogHide();
      pr := pr.(prompt := false);
      pr := pr.(busy := false);
    }

    // ---- taps ----

    method SendOnly(c: Command)
      requires !Blocking(c)
      modifies this`sent
      ensures View() == TapResult(old(View()), Some(c), None, false, false, pad)
    {
      hide Raise, Blocking;
      Send(c);
    }

    /** Commands that run for a while put the scrim up first. */
    method ShowAndSend(c: Command)
      requires Blocking(c)
      modifies this`scrim, this`layer, this`sent
      ensures View() == TapResult(old(View()), Some(c), None, false, false, pad)
    {
      hide Raise, Blocking;
      BusyShow(ForCommand(c));
      Send(c);
    }

    method AskOnly(prompt: Prompt, action: Action)
      modifies this`confirm, this`layer
      ensures View() == TapResult(old(View()), None, Some(Question(prompt, action)), false, false, pad)
    {
      hide Raise;
      AskConfirm(prompt, action);
    }

    method MotionTap(b: Button)
      requires b.JogBtn? || b.HomeXYBtn? || b.HomeAllBtn? || b.MotorsOffBtn? || b.LoadBtn? || b.UnloadBtn?
      modifies this`scrim, this`layer, this`sent
      ensures View() == Next(old(View()), Tap(b))
    {
      hide Next, TapResult;
      TapIs(View(), b);
      var printing := pr.job.printing && !pr.job.paused;
      var held := pr.job.printing || pr.job.paused;
      if (printing && (b.JogBtn? || b.HomeXYBtn? || b.HomeAllBtn?)) || (held && b.MotorsOffBtn?) {
        return;
      }
      if b.JogBtn? {
        SendOnly(Jog(b.axis, b.forward, pad.knobs.step));
      } else if b.HomeXYBtn? {
        ShowAndSend(HomeXY);
      } else if b.HomeAllBtn? {
        ShowAndSend(HomeAll);
      } else if b.MotorsOffBtn? {
        SendOnly(MotorsOff);
      } else if b.LoadBtn? {
        ShowAndSend(LoadFilament(FilamentTemp(pad.knobs.material), pad.knobs.length));
      } else {
        ShowAndSend(UnloadFilament(FilamentTemp(pad.knobs.material)));
      }
    }

    /** Raw extruder moves need a hot nozzle. */
    method ExtrudeTap(b: Button)
      requires b.ExtrudeBtn? || b.RetractBtn?
      modifies this`scrim, this`layer, this`sent, this`confirm
      ensures View() == Next(old(View()), Tap(b))
    {
      hide Next, TapResult;
      TapIs(View(), b);
      if pr.temps.nozzle < MIN_EXTRUDE_TEMP {
        AskOnly(HeatFirst, NoAction);
      } else if b.ExtrudeBtn? {
        ShowAndSend(Extrude);
      } else {
        ShowAndSend(Retract);
      }
    }

    /** Heater buttons, Expert Tune presets and lights send one command at once. */
    method ValueTap(b: Button)
      requires Immediate(b)
      modifies this`sent, this`pad
      ensures View() == Next(old(View()), Tap(b))
    {
      hide Next, Stack, TapCommand, TapQuestion, Immediate, Blocking;
      ghost var s := View();
      TapIs(s, b);
      ImmediateSends(s, b);
      StackNothing(s.layer);
      var c := TapCommand(pr, pad.knobs, b);
      if b.MaterialBtn? {
        pad := pad.(knobs := pad.knobs.(material := b.material));
      }
      Send(c.value);
    }

    method PauseTap()
      modifies this`scrim, this`layer, this`sent
      ensures View() == Next(old(View()), Tap(PauseStopBtn))
    {
      hide Next, TapResult;
      TapIs(View(), PauseStopBtn);
      if pr.job.paused {
        ShowAndSend(Resume);
      } else if pr.job.printing {
        ShowAndSend(Pause);
      }
    }

    /** No calibration starts over a loaded job. */
    method TuneTap(b: Button)
      requires b.StandardTile? || b.FullTile? || b.MeshTile? || b.ShaperTile?
      modifies this`scrim, this`layer, this`sent, this`confirm
      ensures View() == Next(old(View()), Tap(b))
    {
      hide Next, TapResult;
      TapIs(View(), b);
      if pr.job.printing || pr.job.paused {
        AskOnly(JobLoaded, NoAction);
      } else if b.StandardTile? {
        ShowAndSend(CalStandard);
      } else if b.FullTile? {
        ShowAndSend(CalFull);
      } else if b.MeshTile? {
        AskOnly(AskAction(DoMeshCal, false), DoMeshCal);
      } else {
        AskOnly(AskAction(DoShaperCal, false), DoShaperCal);
      }
    }

    method QuestionTap(b: Button)
      requires b.InstallBtn? || b.PowerBtn? || b.CancelBtn? || b.EStopBtn?
      modifies this`confirm, this`layer
      ensures View() == Next(old(View()), Tap(b))
    {
      hide Next, TapResult;
      TapIs(View(), b);
      var live := pr.job.printing || pr.job.paused;
      if b.InstallBtn? {
        if pad.update == "" || live {
          return;
        }
        AskOnly(AskAction(DoInstall, false), DoInstall);
      } else if b.PowerBtn? {
        AskOnly(AskAction(DoPower(b.kind), live), DoPower(b.kind));
      } else if b.CancelBtn? {
        AskOnly(AskAction(DoCancelPrint, false), DoCancelPrint);
      } else {
        AskOnly(AskAction(DoEmergencyStop, false), DoEmergencyStop);
      }
    }

    method StopCalTap()
      modifies this`layer, this`sent, this`noticeShown
      ensures View() == Next(old(View()), Tap(StopCalBtn))
    {
      hide Next, TapResult, Raise;
      TapIs(View(), StopCalBtn);
      StopIs(View());
      Send(CalStop);
      ShowNotice();
    }

    method SettingTap(b: Button)
      requires b.StepBtn? || b.KeypadBtn?
      modifies this`pad, this`layer
      ensures View() == Next(old(View()), Tap(b))
    {
      hide Next, Raise;
      TapIs(View(), b);
      if b.StepBtn? {
        pad := pad.(knobs := pad.knobs.(step := b.mm));
      } else {
        pad := pad.(field := Some(b.field));
        layer := Raise(layer, KeypadScrim);
        layer := Raise(layer, KeypadCard);
      }
    }

    method OnTap(b: Button)
      modifies this
      ensures View() == Next(old(View()), Tap(b))
    {
      hide Next;
      if Immediate(b) {
        ValueTap(b);
      } else if b.JogBtn? || b.HomeXYBtn? || b.HomeAllBtn? || b.MotorsOffBtn? || b.LoadBtn? || b.UnloadBtn? {
        MotionTap(b);
      } else if b.ExtrudeBtn? || b.RetractBtn? {
        ExtrudeTap(b);
      } else if b.StandardTile? || b.FullTile? || b.MeshTile? || b.ShaperTile? {
        TuneTap(b);
      } else if b.InstallBtn? || b.PowerBtn? || b.CancelBtn? || b.EStopBtn? {
        QuestionTap(b);
      } else if b.PauseStopBtn? {
        PauseTap();
      } else if b.StopCalBtn? {
        StopCalTap();
      } else {
        SettingTap(b);
      }
    }

    // ---- dialogs ----

    /** Calibrations and the update check the job again: it may have started while the card was up. */
    method PerformChecked(action: Action)
      requires action.DoMeshCal? || action.DoShaperCal? || action.DoInstall?
      modifies this`scrim, this`layer, this`sent, this`noticeShown
      ensures View() == Performed(old(View()), action)
    {
      hide Raise;
      if pr.job.printing || pr.job.paused {
        ShowNotice();
      } else if action.DoMeshCal? {
        Send(CalMesh);
      } else if action.DoShaperCal? {
        Send(CalShaper);
      } else {
        BusyShow(Updating);
        Send(Flash);
      }
    }

    method PerformPower(k: Power)
      modifies this`scrim, this`layer, this`sent
      ensures View() == Performed(old(View()), DoPower(k))
    {
      hide Raise;
      BusyShow(ForCommand(PowerCommand(k)));
      Send(PowerCommand(k));
    }

    method Perform(action: Action)
      modifies this`scrim, this`layer, this`sent, this`noticeShown
      ensures View() == Performed(old(View()), action)
    {
      hide Raise;
      match action
      case NoAction =>
      case DoEmergencyStop => Send(EmergencyStop);
      case DoCancelPrint => Send(CancelPrint);
      case DoPower(k) => PerformPower(k);
      case DoPrint(f) => Send(PrintStart(f));
      case _ => PerformChecked(action);
    }

    method ConfirmTapped(ok: bool)
      modifies this`confirm, this`scrim, this`layer, this`sent, this`noticeShown
      ensures View() == Next(old(View()), ConfirmTap(ok))
    {
      hide Next, Lower, Performed;
      ConfirmIs(View(), ok);
      confirm := confirm.(shown := false);
      layer := Lower(layer, ConfirmCard);
      layer := Lower(layer, ConfirmScrim);
      if ok && confirm.pending.Some? {
        Perform(confirm.pending.value);
      }
      confirm := confirm.(pending := None);
    }

    method RowTapped(i: nat)
      modifies this`confirm, this`layer
      ensures View() == Next(old(View()), RowTap(i))
    {
      hide Next, TapResult;
      AskIs(View(), RowTap(i));
      if i < |files.rows| {
        var index := files.rows[i].index;
        if index < |files.names| {
          var file := files.names[index];
          AskOnly(AskPrint(ShownName(file)), DoPrint(file));
        }
      }
    }

    method StartReplied(error: Option<string>)
      modifies this`confirm, this`layer
      ensures View() == Next(old(View()), PrintReply(error))
    {
      hide Next, TapResult;
      AskIs(View(), PrintReply(error));
      if error.Some? {
        AskOnly(StartFailed(error.value), NoAction);
      }
    }

    method NoticeTapped()
      modifies this`noticeShown, this`layer
      ensures View() == Next(old(View()), NoticeTap)
    {
      hide Lower, Raise;
      noticeShown := false;
      layer := Lower(layer, NoticeCard);
      layer := Lower(layer, NoticeScrim);
    }

    method KeypadOkTapped(v: real)
      modifies this`layer, this`sent
      ensures View() == Next(old(View()), KeypadOk(v))
    {
      hide Lower, Raise, KeypadCommand, Blocking;
      KeypadNeverBlocks(pad.field, v);
      if pad.field.Some? {
        Send(KeypadCommand(pad.field.value, v));
      }
      layer := Lower(layer, KeypadCard);
      layer := Lower(layer, KeypadScrim);
    }

    method KeypadDismissed()
      modifies this`layer
      ensures View() == Next(old(View()), KeypadDismiss)
    {
      hide Lower, Raise;
      layer := Lower(layer, KeypadCard);
      layer := Lower(layer, KeypadScrim);
    }

    method SliderMoved(slider: Slider, at: int)
      modifies this`sent
      ensures View() == Next(old(View()), SliderReleased(slider, at))
    {
      hide Raise, ClampTo;
      Send(SliderCommand(slider, at));
    }

    // ---- the file list ----

    /** Rebuild the list from a reply: at most 40 entries, those without a path skipped. */
    method ListReply(paths: seq<string>)
      modifies this`files
      ensures files == FL.Rebuild(old(files), paths)
    {
      hide FL.Kept, FL.Building, FL.Rebuild;
      var base, gen := FL.NextId(files), files.gen + 1;
      var names: seq<string>, rows: seq<FL.Row>, asked: seq<FL.Call> := [], [], [];
      FL.BuildStart(files);
      var n := 0;
      while n < |paths| && n < FL.MAX_ROWS
        invariant files == old(files) && n <= |paths| && n <= FL.MAX_ROWS
        invariant FL.Building(files, paths[..n], names, rows, asked)
      {
        var path := paths[n];
        FL.BuildStep(files, paths[..n], path, names, rows, asked);
        assert paths[..n + 1] == paths[..n] + [path];
        if path != "" {
          asked := asked + [FL.Call(gen, base + |names|, path)];
          rows := rows + [FL.Row(base + |names|, |names|, None)];
          names := names + [path];
        }
        n := n + 1;
      }
      assert paths[..n] == FL.FirstRows(paths);
      FL.BuiltList(files, paths, names, rows, asked);
      files := FL.Files(names, rows, base, gen, files.calls + asked, files.dangling);
    }

    /** A metadata reply: dropped when its generation is not the current one, else written to its row. */
    method MetaReplied(k: nat, text: string)
      requires k < |files.calls|
      modifies this`files
      ensures files == FL.ApplyMeta(old(files), k, text)
    {
      var call := files.calls[k];
      files := files.(calls := files.calls[..k] + files.calls[k + 1..]);
      if call.gen % FL.WRAP != files.gen % FL.WRAP {
        return;
      }
      var at := FL.FindRow(files.rows, call.row);
      if at.Some? {
        files := files.(rows := files.rows[at.value := files.rows[at.value].(meta := Some(text))]);
      } else {
        files := files.(dangling := true);
      }
    }

    method FilesReplied(e: Event)
      requires e.FilesReply? || e.MetaReply?
      modifies this`files
      ensures View() == Next(old(View()), e)
    {
      hide Next, FL.Rebuild, FL.ApplyMeta;
      FilesAre(View(), e);
      if e.FilesReply? {
        ListReply(e.paths);
      } else if e.call < |files.calls| {
        MetaReplied(e.call, e.text);
      }
    }

    // ---- timers ----

    method CheckDashboard(age: int)
      modifies this`badges
      ensures badges == BadgesAfter(old(badges), pr, StaleCheck(age))
    {
      var live := pr.job.printing || pr.job.paused || pr.busy;
      if live && age >= STALE_AFTER_MS {
        badges := badges.(stale := true);
      } else if badges.stale {
        badges := badges.(stale := false);
      }
    }

    /** The lost-contact alarm on the logbook, and its recovery. */
    method CheckContact(age: int)
      modifies this`log, this`layer
      ensures log == LogAfter(old(log), pr, StaleCheck(age))
      ensures layer == RaiseOne(old(layer), Draws(old(log), pr, StaleCheck(age)), LogBox)
    {
      hide Raise, AlarmView, StepView;
      if log.book.shown {
        if age >= STALE_AFTER_MS {
          LogShow(AlarmView(log.book.step, age));
          log := log.(book := log.book.(fault := true));
        } else if log.book.fault {
          LogShow(StepView(log.book.step));
          log := log.(book := log.book.(fault := false));
        }
      }
    }

    method StaleChecked(age: int)
      modifies this`log, this`layer, this`badges
      ensures View() == Next(old(View()), StaleCheck(age))
    {
      hide Next, Raise, LogAfter, Draws, BadgesAfter;
      TimersAre(View(), StaleCheck(age));
      CheckDashboard(age);
      CheckContact(age);
    }

    method TimersRun(ms: nat)
      modifies this`scrim
      ensures View() == Next(old(View()), TimerPass(ms))
    {
      hide Next, Raise;
      TimersAre(View(), TimerPass(ms));
      if scrim.watchdog.Some? {
        if scrim.watchdog.value + ms >= WATCHDOG_MS {
          BusyHide();
        } else {
          scrim := scrim.(watchdog := Some(scrim.watchdog.value + ms));
        }
      }
    }

    method KeepaliveTick()
      modifies this`layer
      ensures View() == Next(old(View()), Keepalive)
    {
      hide Next, Raise;
      TimersAre(View(), Keepalive);
      if confirm.shown {
        return;
      }
      if |layer| > 0 && layer[|layer| - 1] == EStop {
        return;
      }
      layer := Raise(layer, EStop);
    }

    // ---- replies and settings ----

    method ActionReplied()
      modifies this`scrim, this`calOverlay
      ensures View() == Next(old(View()), ActionReply)
    {
      hide Next, Raise, Lowered;
      QuietIs(View(), ActionReply);
      HideBusyOverlay();
    }

    /** The end of an update drops the scrim and leaves the overlay flag alone; a failed one hides the chip. */
    method UpdateEnded(failed: bool, refused: bool)
      modifies this`scrim, this`noticeShown, this`layer, this`badges
      ensures View() == Next(old(View()), InstallEnded(failed, refused))
    {
      hide Next, Raise, Lowered;
      QuietIs(View(), InstallEnded(failed, refused));
      BusyHide();
      if failed {
        badges := badges.(chip := false);
        if refused {
          ShowNotice();
        }
      }
    }

    method ShowPrompt()
      modifies this`pr, this`scrim
      ensures View() == Next(old(View()), PromptShown)
    {
      hide Next, Raise, Lowered;
      QuietIs(View(), PromptShown);
      pr := pr.(prompt := true);
      BusyHide();
    }

    method EndPrompt()
      modifies this`pr
      ensures View() == Next(old(View()), PromptEnded)
    {
      hide Next, Raise, Lowered;
      QuietIs(View(), PromptEnded);
      pr := pr.(prompt := false);
    }

    method BuildNoticed()
      modifies this`noticeShown, this`layer
      ensures View() == Next(old(View()), BuildNotice)
    {
      hide Next, Raise, Lowered;
      QuietIs(View(), BuildNotice);
      ShowNotice();
    }

    method LengthMoved(mm: int)
      modifies this`pad
      ensures View() == Next(old(View()), LengthSlider(mm))
    {
      hide Next, Raise, Lowered;
      QuietIs(View(), LengthSlider(mm));
      pad := pad.(knobs := pad.knobs.(length := mm));
      pad := pad.(shownLength := mm);
    }

    /** A version check hides the chip until its result is in; one check at a time. */
    method StartCheck()
      modifies this`badges
      ensures View() == Next(old(View()), CheckStarted)
    {
      hide Next, Raise, Lowered;
      QuietIs(View(), CheckStarted);
      if badges.checking {
        return;
      }
      badges := badges.(checking := true);
      badges := badges.(chip := false);
    }

    /** The chip is offered only for a newer version on an idle machine. */
    method EndCheck(version: string)
      modifies this`pad, this`badges
      ensures View() == Next(old(View()), UpdateChecked(version))
    {
      hide Next, Raise, Lowered;
      QuietIs(View(), UpdateChecked(version));
      pad := pad.(update := version);
      badges := badges.(chip := version != "" && !pr.job.printing && !pr.job.paused);
      badges := badges.(checking := false);
    }

    /** Any event: so a run of the object is a run of the machine. */
    method Handle(e: Event)
      modifies this
      ensures View() == Next(old(View()), e)
    {
      hide Next;
      match e
      case Subscribed(d) => Init(d);
      case Delta(d) => Consume(d);
      case LinkLost => ResetOverlayState();
      case Tap(b) => OnTap(b);
      case RowTap(i) => RowTapped(i);
      case ConfirmTap(ok) => ConfirmTapped(ok);
      case NoticeTap => NoticeTapped();
      case KeypadOk(v) => KeypadOkTapped(v);
      case KeypadDismiss => KeypadDismissed();
      case SliderReleased(slider, at) => SliderMoved(slider, at);
      case ActionReply => ActionReplied();
      case PrintReply(error) => StartReplied(error);
      case InstallEnded(failed, refused) => UpdateEnded(failed, refused);
      case FilesReply(_) => FilesReplied(e);
      case MetaReply(_, _) => FilesReplied(e);
      case PromptShown => ShowPrompt();
      case PromptEnded => EndPrompt();
      case Keepalive => KeepaliveTick();
      case StaleCheck(age) => StaleChecked(age);
      case TimerPass(ms) => TimersRun(ms);
      case BuildNotice => BuildNoticed();
      case LengthSlider(mm) => LengthMoved(mm);
      case CheckStarted => StartCheck();
      case UpdateChecked(v) => EndCheck(v);
    }
  }

  /** Driving a new panel through any events lands in the state the run claims speak of. */
  method Drive(es: seq<Event>) returns (panel: MainPanel)
    ensures fresh(panel) && panel.View() == Run(Initial, es)
  {
    hide Next;
    panel := new MainPanel();
    for i := 0 to |es|
      invariant fresh(panel) && panel.View() == Run(Initial, es[..i])
    {
      assert es[..i + 1][..i] == es[..i];
      panel.Handle(es[i]);
    }
    assert es[..|es|] == es;
  }
}
