/** What every run of the cockpit keeps, one concern at a time. */
module CockpitSafety {
  import opened Text
  import opened TopLayer
  import opened Cockpit
  import Cal = CalMessage
  import FL = FileList

  // ---- dispatched commands ----

  /** A command is allowed in the cached state it was dispatched in. */
  predicate Allowed(e: Sent) {
    match e.cmd
    case Jog(_, _, _) => !e.job.printing
    case HomeXY => !e.job.printing
    case HomeAll => !e.job.printing
    case MotorsOff => !Live(e.job)
    case CalStandard => !Live(e.job)
    case CalFull => !Live(e.job)
    case CalMesh => !Live(e.job)
    case CalShaper => !Live(e.job)
    case Flash => !Live(e.job)
    case Extrude => e.nozzle >= MIN_EXTRUDE_TEMP
    case Retract => e.nozzle >= MIN_EXTRUDE_TEMP
    case SetNozzle(t) => 0 <= t <= 300
    case SetBed(t) => 0 <= t <= 120
    case Pause => e.job.printing
    case Resume => e.job.paused
    case Speed(p) => 10 <= p <= 300
    case Flow(p) => 50 <= p <= 200
    case Advance(v) => 0.0 <= v <= 1.0
    case PartFan(p) => 0 <= p <= 255
    case NamedFan(_, p) => 0 <= p <= 100
    case _ => true
  }

  /** Printing and paused are never both set. */
  predicate JobOk(p: Printer) {
    !(p.job.printing && p.job.paused)
  }

  ghost predicate SentOk(sent: seq<Sent>) {
    forall i :: 0 <= i < |sent| ==> Allowed(sent[i])
  }

  lemma JobStays(p: Printer, e: Event)
    requires JobOk(p)
    ensures JobOk(PrinterAfter(p, e))
  {
  }

  lemma TapAllowed(p: Printer, k: Knobs, b: Button)
    requires JobOk(p) && TapCommand(p, k, b).Some?
    ensures Allowed(Sent(TapCommand(p, k, b).value, p.job, p.temps.nozzle))
  {
  }

  lemma KeypadAllowed(f: Field, v: real, j: Job, nozzle: int)
    ensures Allowed(Sent(KeypadCommand(f, v), j, nozzle))
  {
  }

  lemma SliderAllowed(slider: Slider, at: int, j: Job, nozzle: int)
    ensures Allowed(Sent(SliderCommand(slider, at), j, nozzle))
  {
  }

  lemma ActionAllowed(j: Job, a: Action, nozzle: int)
    requires ActionCommand(j, a).Some?
    ensures Allowed(Sent(ActionCommand(j, a).value, j, nozzle))
  {
  }

  /** Whatever the event and the state, a dispatched command is allowed. */
  lemma DispatchAllowed(s: Panel, e: Event)
    requires JobOk(s.pr) && Dispatch(s, e).Some?
    ensures Allowed(Sent(Dispatch(s, e).value, s.pr.job, s.pr.temps.nozzle))
  {
    match e
    case Tap(b) => TapAllowed(s.pr, s.pad.knobs, b);
    case KeypadOk(v) => KeypadAllowed(s.pad.field.value, v, s.pr.job, s.pr.temps.nozzle);
    case SliderReleased(slider, at) => SliderAllowed(slider, at, s.pr.job, s.pr.temps.nozzle);
    case ConfirmTap(_) => ActionAllowed(s.pr.job, s.confirm.pending.value, s.pr.temps.nozzle);
  }

  lemma SentStays(s: Panel, e: Event)
    requires JobOk(s.pr) && SentOk(s.sent)
    ensures SentOk(SentAfter(s, e))
  {
    hide Dispatch, Allowed;
    if Dispatch(s, e).Some? {
      DispatchAllowed(s, e);
    }
  }

  // ---- the busy scrim ----

  /** The scrim is up exactly while its watchdog is armed, and the watchdog never reaches 180 s. */
  predicate ScrimOk(c: Scrim) {
    && (c.visible <==> c.watchdog.Some?)
    && (c.watchdog.Some? ==> c.watchdog.value < WATCHDOG_MS)
  }

  lemma ScrimStays(s: Panel, e: Event)
    requires ScrimOk(s.scrim)
    ensures ScrimOk(ScrimAfter(s, e))
  {
    hide Shows, Drops;
  }

  // ---- the confirm dialog ----

  /** The card asks about the very action that confirming it would run. */
  predicate Matches(p: Prompt, a: Action) {
    match a
    case NoAction => p.HeatFirst? || p.JobLoaded? || p.StartFailed?
    case DoPrint(f) => p == AskPrint(ShownName(f))
    case _ => p.AskAction? && p.action == a
  }

  predicate ConfirmOk(c: Confirm) {
    && (c.shown <==> c.pending.Some?)
    && (c.shown ==> Matches(c.prompt, c.pending.value))
  }

  lemma OpensMatching(s: Panel, e: Event)
    requires Opens(s, e).Some?
    ensures Matches(Opens(s, e).value.prompt, Opens(s, e).value.action)
  {
  }

  lemma ConfirmStays(s: Panel, e: Event)
    requires ConfirmOk(s.confirm)
    ensures ConfirmOk(ConfirmAfter(s, e))
  {
    hide Opens, Matches;
    if Opens(s, e).Some? {
      OpensMatching(s, e);
    }
  }

  // ---- the narration logbook ----

  /**
   The box is drawn exactly while the logbook is shown; without a fault it shows the parse of the
   step text, and the lost-contact alarm keeps that parse's count.
   */
  predicate LogOk(l: Log) {
    && (l.book.shown <==> l.box.visible)
    && (l.book.fault ==> l.book.shown)
    && (l.book.shown ==> l.book.step == Cal.Parse(l.book.text))
    && (l.book.shown && !l.book.fault ==> l.box == StepView(l.book.step))
    && (l.book.fault ==> l.box.fault && l.box.count == BoxCount(l.book.step))
  }

  lemma LogStays(l: Log, q: Printer, e: Event)
    requires LogOk(l)
    ensures LogOk(LogAfter(l, q, e))
  {
    hide CampaignActive;
  }

  // ---- the temperature labels ----

  /** Either a repaint is due, or the labels are the painting of the shadows. */
  predicate PaintOk(w: Painted) {
    w.shadow == Sentinel || w.face == Paint(w.shadow)
  }

  lemma PaintStays(w: Painted, p: Printer, e: Event)
    requires PaintOk(w)
    ensures PaintOk(PaintAfter(w, p, e))
  {
  }

  // ---- the top layer ----

  /** The children built at start never leave; an open question sits above its scrim, that above the E-STOP. */
  ghost predicate LayerOk(l: Layer, asked: bool) {
    && Distinct(l)
    && (forall c :: c in BuiltLayer ==> c in l)
    && (asked ==> Above(l, ConfirmCard, ConfirmScrim) && Above(l, ConfirmScrim, EStop))
  }

  /** With no question open, any move keeps the layer in order. */
  lemma MoveUnasked(l: Layer, c: Child)
    requires LayerOk(l, false)
    ensures LayerOk(Raise(l, c), false) && LayerOk(Lower(l, c), false)
  {
    MovesReorder(l, c);
    forall x
      ensures (x in Raise(l, c) <==> x in l || x == c) && (x in Lower(l, c) <==> x in l || x == c)
    {
      MoveMembers(l, c, x);
    }
  }

  lemma MoveOther(l: Layer, asked: bool, c: Child)
    requires LayerOk(l, asked) && c != ConfirmCard && c != ConfirmScrim && c != EStop
    ensures LayerOk(Raise(l, c), asked) && LayerOk(Lower(l, c), asked)
  {
    MoveUnasked(l, c);
    if asked {
      MovesKeepOrder(l, c, ConfirmCard, ConfirmScrim);
      MovesKeepOrder(l, c, ConfirmScrim, EStop);
    }
  }

  /** Opening a question puts its scrim above the E-STOP and its card above the scrim. */
  lemma AskRaises(l: Layer, asked: bool)
    requires LayerOk(l, asked)
    ensures LayerOk(RaisePair(l, true, ConfirmScrim, ConfirmCard), true)
  {
    var l1 := Raise(l, ConfirmScrim);
    MoveUnasked(l, ConfirmScrim);
    MoveUnasked(l1, ConfirmCard);
    assert BuiltLayer[6] == EStop && BuiltLayer[2] == ConfirmScrim;
    RaiseTops(l, ConfirmScrim, EStop);
    RaiseTops(l1, ConfirmCard, ConfirmScrim);
    MovesKeepOrder(l1, ConfirmCard, ConfirmScrim, EStop);
  }

  lemma SunkOk(l: Layer, e: Event, asked: bool)
    requires LayerOk(l, asked)
    ensures LayerOk(Sunk(l, e), asked && !e.ConfirmTap?)
  {
    hide LayerOk, Lower, Raise;
    match e
    case ConfirmTap(_) =>
      Forget(l, asked);
      MoveUnasked(l, ConfirmCard);
      MoveUnasked(Lower(l, ConfirmCard), ConfirmScrim);
    case NoticeTap =>
      MoveOther(l, asked, NoticeCard);
      MoveOther(Lower(l, NoticeCard), asked, NoticeScrim);
    case KeypadOk(_) =>
      MoveOther(l, asked, KeypadCard);
      MoveOther(Lower(l, KeypadCard), asked, KeypadScrim);
    case KeypadDismiss =>
      MoveOther(l, asked, KeypadCard);
      MoveOther(Lower(l, KeypadCard), asked, KeypadScrim);
    case _ =>
  }

  lemma Forget(l: Layer, asked: bool)
    requires LayerOk(l, asked)
    ensures LayerOk(l, false)
  {
  }

  lemma PairOther(l: Layer, asked: bool, up: bool, scrim: Child, card: Child)
    requires LayerOk(l, asked)
    requires scrim != ConfirmCard && scrim != ConfirmScrim && scrim != EStop
    requires card != ConfirmCard && card != ConfirmScrim && card != EStop
    ensures LayerOk(RaisePair(l, up, scrim, card), asked)
  {
    hide LayerOk, Raise;
    MoveOther(l, asked, scrim);
    MoveOther(Raise(l, scrim), asked, card);
  }

  lemma StackOk(l: Layer, asked: bool, busy: bool, box: bool, ask: bool, note: bool, pad: bool, estop: bool)
    requires LayerOk(l, asked) && (estop ==> !asked && !ask)
    ensures LayerOk(Stack(l, busy, box, ask, note, pad, estop), asked || ask)
  {
    hide LayerOk, Raise, RaisePair;
    MoveOther(l, asked, BusyScrim);
    var l1 := RaiseOne(l, busy, BusyScrim);
    MoveOther(l1, asked, LogBox);
    var l2 := RaiseOne(l1, box, LogBox);
    AskRaises(l2, asked);
    var l3 := RaisePair(l2, ask, ConfirmScrim, ConfirmCard);
    assert LayerOk(l3, asked || ask) by { PairSkipped(l2, asked, ask); }
    PairOther(l3, asked || ask, note, NoticeScrim, NoticeCard);
    var l4 := RaisePair(l3, note, NoticeScrim, NoticeCard);
    PairOther(l4, asked || ask, pad, KeypadScrim, KeypadCard);
    if estop {
      MoveUnasked(RaisePair(l4, pad, KeypadScrim, KeypadCard), EStop);
    }
  }

  lemma PairSkipped(l: Layer, asked: bool, ask: bool)
    requires LayerOk(l, asked)
    ensures LayerOk(RaisePair(l, ask, ConfirmScrim, ConfirmCard), asked || ask)
  {
    hide LayerOk, Raise;
    if ask {
      AskRaises(l, asked);
    }
  }

  lemma LayerStays(s: Panel, e: Event)
    requires LayerOk(s.layer, s.confirm.shown)
    ensures LayerOk(LayerAfter(s, e), ConfirmAfter(s, e).shown)
  {
    hide LayerOk, Stack, Sunk, Opens, Shows, Draws, Notifies;
    SunkOk(s.layer, e, s.confirm.shown);
    ConfirmTapOpensNothing(s, e);
    StackOk(Sunk(s.layer, e), s.confirm.shown && !e.ConfirmTap?, Shows(s, e).Some?,
            Draws(s.log, PrinterAfter(s.pr, e), e), Opens(s, e).Some?, Notifies(s, e), OpensKeypad(e), Rescues(s, e));
  }

  lemma ConfirmTapOpensNothing(s: Panel, e: Event)
    ensures e.ConfirmTap? || e.Keepalive? ==> Opens(s, e).None?
  {
  }

  // ---- everything together, over every run ----

  ghost predicate Inv(s: Panel) {
    && JobOk(s.pr) && SentOk(s.sent) && ScrimOk(s.scrim) && ConfirmOk(s.confirm) && LogOk(s.log)
    && PaintOk(s.paint) && LayerOk(s.layer, s.confirm.shown) && FL.Valid(s.files)
  }

  lemma FilesStay(f: FL.Files, e: Event)
    requires FL.Valid(f)
    ensures FL.Valid(FilesAfter(f, e))
  {
    hide FL.Valid, FL.Rebuild, FL.ApplyMeta;
    match e
    case FilesReply(paths) => FL.RebuildValid(f, paths);
    case MetaReply(k, text) => if k < |f.calls| { FL.MetaValid(f, k, text); }
    case _ =>
  }

  lemma NextInv(s: Panel, e: Event)
    requires Inv(s)
    ensures Inv(Next(s, e))
  {
    hide JobOk, SentOk, ScrimOk, ConfirmOk, LogOk, PaintOk, LayerOk, FL.Valid;
    hide PrinterAfter, PaintAfter, ScrimAfter, OverlayAfter, LogAfter, ConfirmAfter, NoticeAfter, LayerAfter,
      FilesAfter, PadAfter, SentAfter, BadgesAfter;
    JobStays(s.pr, e);
    SentStays(s, e);
    ScrimStays(s, e);
    ConfirmStays(s, e);
    LogStays(s.log, PrinterAfter(s.pr, e), e);
    PaintStays(s.paint, s.pr, e);
    LayerStays(s, e);
    FilesStay(s.files, e);
  }

  lemma BuiltDistinct()
    ensures Distinct(BuiltLayer)
  {
    hide Distinct;
    DialogsDistinct();
    var dialogs := [ConfirmScrim, ConfirmCard, NoticeScrim, NoticeCard, EStop];
    DistinctCons(KeypadScrim, dialogs);
    DistinctCons(KeypadCard, [KeypadScrim] + dialogs);
    assert [KeypadCard] + ([KeypadScrim] + dialogs) == BuiltLayer;
  }

  lemma DialogsDistinct()
    ensures Distinct([ConfirmScrim, ConfirmCard, NoticeScrim, NoticeCard, EStop])
  {
    var l: Layer := [EStop];
    assert Distinct(l);
    hide Distinct;
    DistinctCons(NoticeCard, l);
    var l1 := [NoticeCard] + l;
    DistinctCons(NoticeScrim, l1);
    var l2 := [NoticeScrim] + l1;
    DistinctCons(ConfirmCard, l2);
    DistinctCons(ConfirmScrim, [ConfirmCard] + l2);
    assert [ConfirmScrim] + ([ConfirmCard] + l2) == [ConfirmScrim, ConfirmCard, NoticeScrim, NoticeCard, EStop];
  }

  lemma InitialInv()
    ensures Inv(Initial)
  {
    hide Distinct, Cal.Parse, HomeLabels;
    BuiltDistinct();
    assert BuiltLayer[2] == ConfirmScrim && BuiltLayer[3] == ConfirmCard && BuiltLayer[6] == EStop;
  }

  /** Every state any run can reach, whatever the interleaving of events. */
  lemma {:induction false} RunInv(es: seq<Event>)
    ensures Inv(Run(Initial, es))
    decreases |es|
  {
    hide Inv, Next;
    if es == [] {
      InitialInv();
    } else {
      RunInv(es[..|es| - 1]);
      NextInv(Run(Initial, es[..|es| - 1]), es[|es| - 1]);
    }
  }
}
