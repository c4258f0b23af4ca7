/**
 The cockpit as a state machine. Every section the program runs under its one UI lock is one
 event: a status delta or reply from the websocket thread, a tap, or a timer pass. Transitions are
 total, so a run is any interleaving of events whatever.

 The machine is written by observation, not by handler: which command an event dispatches, which
 question it opens, whether it shows the busy scrim, and so on, each as one function. The handlers
 that do all of this in the program's order are the methods of `MainPanelObject.MainPanel`.
 */
module Cockpit {
  import opened Text
  import opened TopLayer
  import Cal = CalMessage
  import FL = FileList

  const WATCHDOG_MS: nat := 180000
  const STALE_AFTER_MS: int := 10000
  const MIN_EXTRUDE_TEMP: int := 170
  const UNPAINTED: int := -0x8000_0000

  // ---- cached printer state ----

  datatype Job = Job(printing: bool, paused: bool)

  predicate Live(j: Job) {
    j.printing || j.paused
  }

  datatype Temps = Temps(nozzle: int, nozzleSet: int, bed: int, bedSet: int)

  const Sentinel: Temps := Temps(UNPAINTED, UNPAINTED, UNPAINTED, UNPAINTED)

  /** A status message: the subset of fields this model reads, each present or not. */
  datatype Status = Status(
    state: Option<string>, nozzle: Option<int>, nozzleSet: Option<int>, bed: Option<int>, bedSet: Option<int>,
    idle: Option<string>, message: Option<string>)

  // ---- what is on the glass ----

  datatype HomeFace = HomeFace(nozzle: string, nozzleSet: string, bed: string, bedSet: string)
  datatype SubFace = SubFace(nozzle: string, nozzleSet: string, bed: string, bedSet: string, filament: string)

  /** The nozzle and bed labels of the home screen and of the Temps and Filament screens. */
  datatype Face = Face(home: HomeFace, sub: SubFace)

  function Target(mark: string, t: int): string {
    if t > 0 then mark + DecInt(t) else "off"
  }

  function HomeLabels(t: Temps): HomeFace {
    HomeFace(DecInt(t.nozzle), Target("/ ", t.nozzleSet), DecInt(t.bed), Target("/ ", t.bedSet))
  }

  /** What an unconditional repaint would write. */
  function Paint(t: Temps): Face {
    Face(HomeLabels(t),
         SubFace(DecInt(t.nozzle), Target("set ", t.nozzleSet), DecInt(t.bed), Target("set ", t.bedSet),
                 DecInt(t.nozzle) + " / " + Target("", t.nozzleSet)))
  }

  datatype Banner = ForCommand(cmd: Command) | CalText(text: string) | Updating

  /** The busy scrim; `watchdog` is the timer time since it was last shown. */
  datatype Scrim = Scrim(visible: bool, text: Banner, watchdog: Option<nat>)

  /** The program's own flag and text for the calibration overlay drawn on the scrim. */
  datatype CalOverlay = CalOverlay(on: bool, text: string)

  /** The narration logbook as the program tracks it. */
  datatype Book = Book(shown: bool, text: string, step: Cal.Step, fault: bool)

  datatype Line = Said(text: string) | NoWordFor(seconds: int) | TapStop

  /** The narration box as drawn. */
  datatype LogView = LogView(visible: bool, now: Line, next: Line, count: Option<(int, int)>, bar: Cal.Bar, fault: bool)

  // ---- questions, actions, commands ----

  datatype Action =
    | NoAction | DoEmergencyStop | DoCancelPrint | DoMeshCal | DoShaperCal | DoInstall
    | DoPower(kind: Power) | DoPrint(file: string)

  datatype Power = RestartKlipper | RestartFirmware | Reboot | Shutdown

  datatype Prompt =
    | Unasked
    | AskAction(action: Action, jobWarning: bool)
    | AskPrint(shownName: string)
    | HeatFirst
    | JobLoaded
    | StartFailed(reason: string)

  datatype Confirm = Confirm(shown: bool, prompt: Prompt, pending: Option<Action>)

  datatype Axis = X | Y | Z

  datatype Command =
    | Jog(axis: Axis, forward: bool, mm: real) | HomeXY | HomeAll | MotorsOff
    | LoadFilament(temp: int, length: int) | UnloadFilament(temp: int) | Extrude | Retract
    | SetNozzle(target: int) | SetBed(target: int) | HeatersOff
    | CalStandard | CalFull | CalMesh | CalShaper | CalStop
    | Flash | EmergencyStop | CancelPrint | Pause | Resume | PrintStart(file: string)
    | PowerCommand(kind: Power)
    | Speed(pct: int) | Flow(pct: int) | Advance(value: real) | ZOffset(value: real) | ZAdjust(up: bool) | PartFan(pwm: int)
    | Light(hotend: bool, level: nat) | NamedFan(box: bool, pct: int)

  /** A dispatched command with the cached state at the moment of dispatch. */
  datatype Sent = Sent(cmd: Command, job: Job, nozzle: int)

  // ---- controls ----

  datatype Button =
    | JogBtn(axis: Axis, forward: bool) | HomeXYBtn | HomeAllBtn | MotorsOffBtn | StepBtn(mm: real)
    | LoadBtn | UnloadBtn | ExtrudeBtn | RetractBtn | MaterialBtn(material: nat) | CooldownBtn
    | NozzlePreset(i: nat) | NozzleOff | BedPreset(i: nat) | BedOff | NudgeNozzle(up: bool) | NudgeBed(up: bool)
    | KeypadBtn(field: Field)
    | StandardTile | FullTile | MeshTile | ShaperTile
    | InstallBtn | PowerBtn(kind: Power) | LightBtn(hotend: bool, level: nat)
    | SpeedPreset(i: nat) | FlowPreset(i: nat) | FanPreset(i: nat) | ZNudge(up: bool)
    | PauseStopBtn | CancelBtn | EStopBtn | StopCalBtn

  datatype Field = NozzleField | BedField | SpeedField | FlowField | AdvanceField | ZField | FanField

  /** Sliders that dispatch when released: the Tune screen's speed, and the three settable fans. */
  datatype Slider = SpeedSlider | PartFanSlider | ModelFanSlider | BoxFanSlider

  datatype Knobs = Knobs(step: real, material: nat, length: int)

  /** The cached printer state and whether a prompt dialog is up. */
  datatype Printer = Printer(job: Job, temps: Temps, busy: bool, calMsg: string, prompt: bool)

  /** The temperature labels and the values they were last painted from. */
  datatype Painted = Painted(shadow: Temps, face: Face)

  datatype Log = Log(book: Book, box: LogView)

  /** `shownLength` is the readout beside the load length slider. */
  datatype Pad = Pad(field: Option<Field>, knobs: Knobs, shownLength: int, update: string)

  /** The dashboard's stale flag, the install chip, and whether a version check is in flight. */
  datatype Badges = Badges(stale: bool, chip: bool, checking: bool)

  datatype Panel = Panel(
    pr: Printer, paint: Painted, scrim: Scrim, overlay: CalOverlay, log: Log,
    confirm: Confirm, notice: bool, layer: Layer, files: FL.Files, pad: Pad, sent: seq<Sent>, badges: Badges)

  datatype Event =
    | Subscribed(full: Status)
    | Delta(delta: Status)
    | LinkLost
    | Tap(button: Button)
    | RowTap(row: nat)
    | ConfirmTap(ok: bool)
    | NoticeTap
    | KeypadOk(value: real)
    | KeypadDismiss
    | LengthSlider(mm: int)
    | SliderReleased(slider: Slider, at: int)
    | ActionReply
    | PrintReply(error: Option<string>)
    | InstallEnded(failed: bool, refused: bool)
    | FilesReply(paths: seq<string>)
    | MetaReply(call: nat, text: string)
    | PromptShown
    | PromptEnded
    | CheckStarted
    | UpdateChecked(version: string)
    | BuildNotice  // the unofficial-build notice, from the System screen or its badge
    | Keepalive
    | StaleCheck(age: int)
    | TimerPass(ms: nat)

  const BuiltLayer: Layer := [KeypadCard, KeypadScrim, ConfirmScrim, ConfirmCard, NoticeScrim, NoticeCard, EStop]

  /** The panel as create_panel leaves it: idle layout, every overlay down, E-STOP built last. */
  const Initial: Panel := Panel(
    Printer(Job(false, false), Temps(0, 0, 0, 0), false, "", false),
    Painted(Sentinel, Face(HomeLabels(Temps(0, 0, 0, 0)), SubFace("--", "off", "--", "off", "-- / --"))),
    Scrim(false, Updating, None), CalOverlay(false, ""),
    Log(Book(false, "", Cal.Step("", "", 0, 0), false), LogView(false, Said(""), Said(""), None, Cal.NoBar, false)),
    Confirm(false, Unasked, None), false,
    BuiltLayer,
    FL.Empty, Pad(None, Knobs(1.0, 2, 100), 200, ""), [], Badges(false, false, false))

  // ---- the cached printer state ----

  function Or(o: Option<int>, was: int): int {
    if o.Some? then o.value else was
  }

  function TempsAfter(t: Temps, d: Status): Temps {
    Temps(Or(d.nozzle, t.nozzle), Or(d.nozzleSet, t.nozzleSet), Or(d.bed, t.bed), Or(d.bedSet, t.bedSet))
  }

  function JobAfter(j: Job, d: Status): Job {
    if d.state.None? then j else Job(d.state.value == "printing", d.state.value == "paused")
  }

  /** Leaving an active operation drops the step text, unless the same delta brings a new one. */
  function MessageAfter(p: Printer, d: Status): string {
    if d.message.Some? then d.message.value
    else if d.idle.Some? && d.idle.value != "Printing" && p.busy then ""
    else p.calMsg
  }

  function PrinterAfter(p: Printer, e: Event): Printer {
    match e
    case Subscribed(d) => p.(job := JobAfter(p.job, d), temps := TempsAfter(p.temps, d))
    case Delta(d) =>
      Printer(JobAfter(p.job, d), TempsAfter(p.temps, d),
              if d.idle.Some? then d.idle.value == "Printing" else p.busy, MessageAfter(p, d), p.prompt)
    case LinkLost => p.(busy := false, prompt := false)
    case PromptShown => p.(prompt := true)
    case PromptEnded => p.(prompt := false)
    case _ => p
  }

  // ---- the temperature labels ----

  /** A rebuilt home screen has fresh labels; the shadows force the next repaint. */
  function Rebuilt(w: Painted, t: Temps): Painted {
    Painted(Sentinel, w.face.(home := HomeLabels(t)))
  }

  function PaintAfter(w: Painted, p: Printer, e: Event): Painted {
    var q := PrinterAfter(p, e);
    match e
    case Subscribed(_) => Rebuilt(w, q.temps)
    case Delta(_) =>
      if q.job != p.job then Rebuilt(w, q.temps)
      else if q.temps != w.shadow then Painted(q.temps, Paint(q.temps))
      else w
    case _ => w
  }

  // ---- dispatched commands ----

  function FilamentTemp(material: nat): int {
    if material == 0 then 220 else if material == 1 then 240 else 260
  }

  function BedPresetTarget(i: nat): int {
    if i == 0 then 60 else if i == 1 then 80 else 45
  }

  function ClampTo(v: int, lo: int, hi: int): (r: int)
    requires lo <= hi
    ensures lo <= r <= hi
  {
    if v < lo then lo else if v > hi then hi else v
  }

  /** Move and Filament screens. */
  function MotionCommand(p: Printer, k: Knobs, b: Button): Option<Command> {
    match b
    case JogBtn(axis, forward) => if p.job.printing && !p.job.paused then None else Some(Jog(axis, forward, k.step))
    case HomeXYBtn => if p.job.printing && !p.job.paused then None else Some(HomeXY)
    case HomeAllBtn => if p.job.printing && !p.job.paused then None else Some(HomeAll)
    case MotorsOffBtn => if Live(p.job) then None else Some(MotorsOff)
    case LoadBtn => Some(LoadFilament(FilamentTemp(k.material), k.length))
    case UnloadBtn => Some(UnloadFilament(FilamentTemp(k.material)))
    case ExtrudeBtn => if p.temps.nozzle < MIN_EXTRUDE_TEMP then None else Some(Extrude)
    case RetractBtn => if p.temps.nozzle < MIN_EXTRUDE_TEMP then None else Some(Retract)
    case _ => None
  }

  /** Heaters: presets, off, and 5 degree nudges clamped to the heater's range. */
  function HeaterCommand(t: Temps, b: Button): Option<Command> {
    match b
    case MaterialBtn(m) => Some(SetNozzle(FilamentTemp(m)))
    case CooldownBtn => Some(HeatersOff)
    case NozzlePreset(i) => Some(SetNozzle(FilamentTemp(i)))
    case NozzleOff => Some(SetNozzle(0))
    case BedPreset(i) => Some(SetBed(BedPresetTarget(i)))
    case BedOff => Some(SetBed(0))
    case NudgeNozzle(up) => Some(SetNozzle(ClampTo(t.nozzleSet + (if up then 5 else -5), 0, 300)))
    case NudgeBed(up) => Some(SetBed(ClampTo(t.bedSet + (if up then 5 else -5), 0, 120)))
    case _ => None
  }

  /** Everything else: calibration tiles, the job button, lights and the Expert Tune presets. */
  function OtherCommand(j: Job, b: Button): Option<Command> {
    match b
    case StandardTile => if Live(j) then None else Some(CalStandard)
    case FullTile => if Live(j) then None else Some(CalFull)
    case PauseStopBtn => if j.paused then Some(Resume) else if j.printing then Some(Pause) else None
    case StopCalBtn => Some(CalStop)
    case SpeedPreset(i) => Some(Speed(if i == 0 then 50 else if i == 1 then 100 else 150))
    case FlowPreset(i) => Some(Flow(if i == 0 then 95 else if i == 1 then 100 else 105))
    case FanPreset(i) => Some(PartFan(if i == 0 then 0 else if i == 1 then 128 else 255))
    case ZNudge(up) => Some(ZAdjust(up))
    case LightBtn(hotend, level) => Some(Light(hotend, level))
    case _ => None
  }

  function TapCommand(p: Printer, k: Knobs, b: Button): Option<Command> {
    var m := MotionCommand(p, k, b);
    if m.Some? then m
    else var h := HeaterCommand(p.temps, b); if h.Some? then h else OtherCommand(p.job, b)
  }

  /** C's conversion of a double to int, toward zero. */
  function Trunc(v: real): int {
    if v >= 0.0 then v.Floor else -((-v).Floor)
  }

  function KeypadCommand(f: Field, v: real): Command {
    var n := Trunc(v + 0.5);
    match f
    case NozzleField => SetNozzle(ClampTo(n, 0, 300))
    case BedField => SetBed(ClampTo(n, 0, 120))
    case SpeedField => Speed(ClampTo(n, 10, 300))
    case FlowField => Flow(ClampTo(n, 50, 200))
    case AdvanceField => Advance(if v < 0.0 then 0.0 else if v > 1.0 then 1.0 else v)
    case ZField => ZOffset(v)
    case FanField => PartFan(ClampTo(n, 0, 100) * 255 / 100)
  }

  /** The slider widget holds its value to its range. */
  function SliderCommand(slider: Slider, at: int): Command {
    var pct := if slider.SpeedSlider? then ClampTo(at, 50, 200) else ClampTo(at, 0, 100);
    match slider
    case SpeedSlider => Speed(pct)
    case PartFanSlider => PartFan(pct * 255 / 100)
    case ModelFanSlider => NamedFan(false, pct)
    case BoxFanSlider => NamedFan(true, pct)
  }

  /** A confirmed action; the job interlocks are checked again here, at dispatch. */
  function ActionCommand(j: Job, a: Action): Option<Command> {
    match a
    case NoAction => None
    case DoEmergencyStop => Some(EmergencyStop)
    case DoCancelPrint => Some(CancelPrint)
    case DoMeshCal => if Live(j) then None else Some(CalMesh)
    case DoShaperCal => if Live(j) then None else Some(CalShaper)
    case DoInstall => if Live(j) then None else Some(Flash)
    case DoPower(k) => Some(PowerCommand(k))
    case DoPrint(f) => Some(PrintStart(f))
  }

  predicate Confirms(c: Confirm, e: Event) {
    e.ConfirmTap? && e.ok && c.pending.Some?
  }

  function Dispatch(s: Panel, e: Event): Option<Command> {
    match e
    case Tap(b) => TapCommand(s.pr, s.pad.knobs, b)
    case KeypadOk(v) => if s.pad.field.None? then None else Some(KeypadCommand(s.pad.field.value, v))
    case SliderReleased(slider, at) => Some(SliderCommand(slider, at))
    case ConfirmTap(ok) => if Confirms(s.confirm, e) then ActionCommand(s.pr.job, s.confirm.pending.value) else None
    case _ => None
  }

  function SentAfter(s: Panel, e: Event): seq<Sent> {
    match Dispatch(s, e)
    case None => s.sent
    case Some(c) => s.sent + [Sent(c, s.pr.job, s.pr.temps.nozzle)]
  }

  // ---- questions and notices ----

  datatype Question = Question(prompt: Prompt, action: Action)

  function Asks(a: Action, warning: bool): Option<Question> {
    Some(Question(AskAction(a, warning), a))
  }

  /** A button that answers with a card instead of acting, or before acting. */
  function TapQuestion(s: Panel, b: Button): Option<Question> {
    match b
    case ExtrudeBtn => if s.pr.temps.nozzle < MIN_EXTRUDE_TEMP then Some(Question(HeatFirst, NoAction)) else None
    case RetractBtn => if s.pr.temps.nozzle < MIN_EXTRUDE_TEMP then Some(Question(HeatFirst, NoAction)) else None
    case StandardTile => if Live(s.pr.job) then Some(Question(JobLoaded, NoAction)) else None
    case FullTile => if Live(s.pr.job) then Some(Question(JobLoaded, NoAction)) else None
    case MeshTile => if Live(s.pr.job) then Some(Question(JobLoaded, NoAction)) else Asks(DoMeshCal, false)
    case ShaperTile => if Live(s.pr.job) then Some(Question(JobLoaded, NoAction)) else Asks(DoShaperCal, false)
    case InstallBtn => if s.pad.update == "" || Live(s.pr.job) then None else Asks(DoInstall, false)
    case PowerBtn(k) => Asks(DoPower(k), Live(s.pr.job))
    case CancelBtn => Asks(DoCancelPrint, false)
    case EStopBtn => Asks(DoEmergencyStop, false)
    case _ => None
  }

  function AfterSlash(file: string): string {
    if file == "" || file[|file| - 1] == '/' then "" else AfterSlash(file[..|file| - 1]) + [file[|file| - 1]]
  }

  /** The last path component, shortened for the card. */
  function ShownName(file: string): string {
    var base := AfterSlash(file);
    if |base| > 38 then base[..36] + ".." else base
  }

  function RowQuestion(f: FL.Files, i: nat): Option<Question> {
    if i < |f.rows| && f.rows[i].index < |f.names| then
      var file := f.names[f.rows[i].index];
      Some(Question(AskPrint(ShownName(file)), DoPrint(file)))
    else None
  }

  function Opens(s: Panel, e: Event): Option<Question> {
    match e
    case Tap(b) => TapQuestion(s, b)
    case RowTap(i) => RowQuestion(s.files, i)
    case PrintReply(error) => if error.Some? then Some(Question(StartFailed(error.value), NoAction)) else None
    case _ => None
  }

  function ConfirmAfter(s: Panel, e: Event): Confirm {
    match Opens(s, e)
    case Some(q) => Confirm(true, q.prompt, Some(q.action))
    case None => if e.ConfirmTap? then s.confirm.(shown := false, pending := None) else s.confirm
  }

  /** A calibration or update confirmed over a job that started meanwhile gets a notice instead. */
  predicate Refused(j: Job, a: Action) {
    Live(j) && (a.DoMeshCal? || a.DoShaperCal? || a.DoInstall?)
  }

  predicate Notifies(s: Panel, e: Event) {
    match e
    case Tap(b) => b.StopCalBtn?
    case InstallEnded(failed, refused) => failed && refused
    case BuildNotice => true
    case ConfirmTap(_) => Confirms(s.confirm, e) && Refused(s.pr.job, s.confirm.pending.value)
    case _ => false
  }

  function NoticeAfter(s: Panel, e: Event): bool {
    Notifies(s, e) || (s.notice && !e.NoticeTap?)
  }

  // ---- the busy scrim and the calibration overlay on it ----

  predicate CalActive(p: Printer) {
    p.busy && !p.job.printing && "Calibrating" <= p.calMsg && !p.prompt
  }

  function OverlayAfter(o: CalOverlay, q: Printer, e: Event): CalOverlay {
    match e
    case Delta(_) => if CalActive(q) then CalOverlay(true, q.calMsg) else if o.on then CalOverlay(false, "") else o
    case LinkLost => CalOverlay(false, "")
    case ActionReply => CalOverlay(false, "")
    case _ => o
  }

  /** Commands that put the scrim up while they run. */
  predicate Blocking(c: Command) {
    match c
    case HomeXY => true
    case HomeAll => true
    case LoadFilament(_, _) => true
    case UnloadFilament(_) => true
    case Extrude => true
    case Retract => true
    case CalStandard => true
    case CalFull => true
    case Pause => true
    case Resume => true
    case PowerCommand(_) => true
    case Flash => true
    case _ => false
  }

  /** The text the scrim is (re)shown with, if the event shows it. */
  function Shows(s: Panel, e: Event): Option<Banner> {
    match e
    case Delta(_) =>
      var q := PrinterAfter(s.pr, e);
      if CalActive(q) && !(s.overlay.on && s.overlay.text == q.calMsg) then Some(CalText(q.calMsg)) else None
    case _ =>
      match Dispatch(s, e)
      case None => None
      case Some(c) => if Blocking(c) then Some(if c.Flash? then Updating else ForCommand(c)) else None
  }

  /** Replies, a lost link, a prompt, the end of a failed update and a finished calibration drop it. */
  predicate Drops(s: Panel, e: Event) {
    match e
    case Delta(_) => s.overlay.on && !CalActive(PrinterAfter(s.pr, e))
    case LinkLost => true
    case ActionReply => true
    case InstallEnded(_, _) => true
    case PromptShown => true
    case _ => false
  }

  function Lowered(c: Scrim): Scrim {
    c.(visible := false, watchdog := None)
  }

  /** A pass of the timer handler: the watchdog fires when its time is up. */
  function Aged(c: Scrim, ms: nat): Scrim {
    if c.watchdog.None? then c
    else if c.watchdog.value + ms >= WATCHDOG_MS then Lowered(c)
    else c.(watchdog := Some(c.watchdog.value + ms))
  }

  function ScrimAfter(s: Panel, e: Event): Scrim {
    match Shows(s, e)
    case Some(text) => Scrim(true, text, Some(0))
    case None =>
      if Drops(s, e) then Lowered(s.scrim)
      else if e.TimerPass? then Aged(s.scrim, e.ms)
      else s.scrim
  }

  // ---- the narration logbook ----

  predicate CampaignActive(p: Printer) {
    (p.busy || p.job.printing) && ("Make Pono" <= p.calMsg || "Full Cal" <= p.calMsg)
  }

  function BoxCount(step: Cal.Step): Option<(int, int)> {
    if step.total > 0 then Some((Cal.Clamp(step.done, step.total), step.total)) else None
  }

  /** The box drawn from a parsed step. */
  function StepView(step: Cal.Step): LogView {
    LogView(true, Said(step.now), Said(step.next), BoxCount(step), Cal.DrawBar(step.done, step.total), false)
  }

  /** The lost-contact alarm keeps the count. */
  function AlarmView(step: Cal.Step, age: int): LogView {
    LogView(true, NoWordFor(age / 1000), TapStop, BoxCount(step), Cal.DrawBar(step.done, step.total), true)
  }

  function LogHidden(l: Log): Log {
    Log(l.book.(shown := false, text := "", fault := false), l.box.(visible := false))
  }

  /** Does the event draw the box, rather than leave or hide it? */
  predicate Draws(l: Log, q: Printer, e: Event) {
    match e
    case Delta(_) => CampaignActive(q) && !(l.book.shown && l.book.text == q.calMsg)
    case StaleCheck(age) => l.book.shown && (age >= STALE_AFTER_MS || l.book.fault)
    case _ => false
  }

  function LogAfter(l: Log, q: Printer, e: Event): Log {
    match e
    case Delta(_) =>
      if Draws(l, q, e) then
        var step := Cal.Parse(q.calMsg);
        Log(Book(true, q.calMsg, step, false), StepView(step))
      else if !CampaignActive(q) && l.book.shown then LogHidden(l)
      else l
    case LinkLost => LogHidden(l)
    case StaleCheck(age) =>
      if !Draws(l, q, e) then l
      else if age >= STALE_AFTER_MS then Log(l.book.(fault := true), AlarmView(l.book.step, age))
      else Log(l.book.(fault := false), StepView(l.book.step))
    case _ => l
  }

  // ---- the top layer ----

  /** The dialogs an event sends to the background before anything is raised. */
  function Sunk(l: Layer, e: Event): Layer {
    match e
    case ConfirmTap(_) => Lower(Lower(l, ConfirmCard), ConfirmScrim)
    case NoticeTap => Lower(Lower(l, NoticeCard), NoticeScrim)
    case KeypadOk(_) => Lower(Lower(l, KeypadCard), KeypadScrim)
    case KeypadDismiss => Lower(Lower(l, KeypadCard), KeypadScrim)
    case _ => l
  }

  function RaisePair(l: Layer, up: bool, scrim: Child, card: Child): Layer {
    if up then Raise(Raise(l, scrim), card) else l
  }

  function RaiseOne(l: Layer, up: bool, c: Child): Layer {
    if up then Raise(l, c) else l
  }

  /** The keepalive raises the E-STOP unless a question is open or it is on top already. */
  predicate Rescues(s: Panel, e: Event) {
    e.Keepalive? && !s.confirm.shown && !Topmost(s.layer, EStop)
  }

  function Stack(l: Layer, busy: bool, box: bool, ask: bool, note: bool, pad: bool, estop: bool): Layer {
    RaiseOne(RaisePair(RaisePair(RaisePair(RaiseOne(RaiseOne(l, busy, BusyScrim), box, LogBox),
      ask, ConfirmScrim, ConfirmCard), note, NoticeScrim, NoticeCard), pad, KeypadScrim, KeypadCard), estop, EStop)
  }

  predicate OpensKeypad(e: Event) {
    e.Tap? && e.button.KeypadBtn?
  }

  function LayerAfter(s: Panel, e: Event): Layer {
    Stack(Sunk(s.layer, e), Shows(s, e).Some?, Draws(s.log, PrinterAfter(s.pr, e), e), Opens(s, e).Some?,
          Notifies(s, e), OpensKeypad(e), Rescues(s, e))
  }

  // ---- files and settings ----

  function FilesAfter(f: FL.Files, e: Event): FL.Files {
    match e
    case FilesReply(paths) => FL.Rebuild(f, paths)
    case MetaReply(k, text) => if k < |f.calls| then FL.ApplyMeta(f, k, text) else f
    case _ => f
  }

  function PadAfter(p: Pad, e: Event): Pad {
    match e
    case Tap(b) =>
      (match b
       case StepBtn(mm) => p.(knobs := p.knobs.(step := mm))
       case MaterialBtn(m) => p.(knobs := p.knobs.(material := m))
       case KeypadBtn(f) => p.(field := Some(f))
       case _ => p)
    case LengthSlider(mm) => p.(knobs := p.knobs.(length := mm), shownLength := mm)
    case UpdateChecked(v) => p.(update := v)
    case _ => p
  }

  // ---- the stale flag and the install chip ----

  function BadgesAfter(b: Badges, p: Printer, e: Event): Badges {
    match e
    case Delta(d) =>
      var job := JobAfter(p.job, d);
      b.(stale := false, chip := b.chip && !(job != p.job && Live(job)))
    case StaleCheck(age) => b.(stale := (Live(p.job) || p.busy) && age >= STALE_AFTER_MS)
    case CheckStarted => if b.checking then b else b.(chip := false, checking := true)
    case UpdateChecked(v) => b.(chip := v != "" && !Live(p.job), checking := false)
    case InstallEnded(failed, _) => b.(chip := b.chip && !failed)
    case _ => b
  }

  // ---- runs ----

  function Next(s: Panel, e: Event): Panel {
    var q := PrinterAfter(s.pr, e);
    Panel(q, PaintAfter(s.paint, s.pr, e), ScrimAfter(s, e), OverlayAfter(s.overlay, q, e), LogAfter(s.log, q, e),
          ConfirmAfter(s, e), NoticeAfter(s, e), LayerAfter(s, e), FilesAfter(s.files, e), PadAfter(s.pad, e), SentAfter(s, e),
          BadgesAfter(s.badges, s.pr, e))
  }

  function Run(s: Panel, es: seq<Event>): Panel
    decreases |es|
  {
    if es == [] then s else Next(Run(s, es[..|es| - 1]), es[|es| - 1])
  }
}
