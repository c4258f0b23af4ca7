/** The cockpit's promises, over every run. */
module CockpitClaims {
  import opened Text
  import opened TopLayer
  import opened Cockpit
  import opened CockpitSafety
  import Cal = CalMessage
  import FL = FileList

  lemma RunSnoc(s: Panel, es: seq<Event>, e: Event)
    ensures Run(s, es + [e]) == Next(Run(s, es), e)
  {
    hide Next;
    assert (es + [e])[..|es|] == es;
  }

  lemma RunNothing(s: Panel)
    ensures Run(s, []) == s
  {
  }

  // ---- commands ----

  /** In every run printing and paused are never both set, and every dispatched command was allowed. */
  lemma CommandsAreSafe(es: seq<Event>)
    ensures var t := Run(Initial, es);
            && !(t.pr.job.printing && t.pr.job.paused)
            && forall i :: 0 <= i < |t.sent| ==> Allowed(t.sent[i])
  {
    hide Next, Run, Allowed;
    RunInv(es);
  }

  /** Each log entry is the dispatch of some event of the run, stamped with the state before that event. */
  lemma {:induction false} SentByAnEvent(es: seq<Event>, i: nat) returns (k: nat)
    requires i < |Run(Initial, es).sent|
    ensures k < |es|
    ensures var at, x := Run(Initial, es[..k]), Run(Initial, es).sent[i];
            Dispatch(at, es[k]) == Some(x.cmd) && x.job == at.pr.job && x.nozzle == at.pr.temps.nozzle
    decreases |es|
  {
    hide Dispatch, PrinterAfter, PaintAfter, ScrimAfter, OverlayAfter, LogAfter, ConfirmAfter, NoticeAfter, LayerAfter,
      FilesAfter, PadAfter, BadgesAfter;
    var before := es[..|es| - 1];
    if i < |Run(Initial, before).sent| {
      k := SentByAnEvent(before, i);
      assert before[..k] == es[..k];
    } else {
      k := |es| - 1;
    }
  }

  // ---- values ----

  function Gap(n: int, v: real): real {
    if n as real >= v then n as real - v else v - n as real
  }

  /** Of the integers in the range, `n` is one closest to `v`. */
  ghost predicate Nearest(n: int, v: real, lo: int, hi: int) {
    lo <= n <= hi && forall m :: lo <= m <= hi ==> Gap(n, v) <= Gap(m, v)
  }

  lemma GapOrder(c: int, m: int, v: real)
    requires (m >= c && v <= c as real + 0.5) || (m <= c && v >= c as real - 0.5)
    ensures Gap(c, v) <= Gap(m, v)
  {
  }

  lemma TruncRounds(v: real)
    ensures v >= 0.0 ==> Trunc(v + 0.5) as real - 0.5 <= v < Trunc(v + 0.5) as real + 0.5
    ensures v < 0.0 ==> Trunc(v + 0.5) <= 0
  {
  }

  lemma RoundedIsNearest(v: real, lo: int, hi: int)
    requires 0 <= lo <= hi
    ensures Nearest(ClampTo(Trunc(v + 0.5), lo, hi), v, lo, hi)
  {
    hide Trunc, Gap;
    var n := Trunc(v + 0.5);
    TruncRounds(v);
    var c := ClampTo(n, lo, hi);
    assert n <= lo ==> c == lo && v <= lo as real + 0.5;
    assert n >= hi && hi > 0 ==> c == hi && v >= hi as real - 0.5;
    assert lo < n < hi ==> c == n;
    forall m | lo <= m <= hi
      ensures Gap(c, v) <= Gap(m, v)
    {
      GapOrder(c, m, v);
    }
  }

  /** A typed value becomes the legal value of its own field that is closest to it. */
  lemma TypedValueIsNearest(v: real)
    ensures var c := KeypadCommand(NozzleField, v); c.SetNozzle? && Nearest(c.target, v, 0, 300)
    ensures var c := KeypadCommand(BedField, v); c.SetBed? && Nearest(c.target, v, 0, 120)
    ensures var c := KeypadCommand(SpeedField, v); c.Speed? && Nearest(c.pct, v, 10, 300)
    ensures var c := KeypadCommand(FlowField, v); c.Flow? && Nearest(c.pct, v, 50, 200)
    ensures var c := KeypadCommand(FanField, v); exists p :: Nearest(p, v, 0, 100) && c == PartFan(p * 255 / 100)
    ensures var c := KeypadCommand(AdvanceField, v);
            c.Advance? && 0.0 <= c.value <= 1.0 && (c.value == v || (v < 0.0 && c.value == 0.0) || (v > 1.0 && c.value == 1.0))
    ensures KeypadCommand(ZField, v) == ZOffset(v)
  {
    hide Trunc, Nearest, ClampTo;
    RoundedIsNearest(v, 0, 300);
    RoundedIsNearest(v, 0, 120);
    RoundedIsNearest(v, 10, 300);
    RoundedIsNearest(v, 50, 200);
    RoundedIsNearest(v, 0, 100);
  }

  /** A whole number of degrees or percent in range is sent as typed. */
  lemma TypedInRange(n: int)
    ensures 0 <= n <= 300 ==> KeypadCommand(NozzleField, n as real) == SetNozzle(n)
    ensures 0 <= n <= 120 ==> KeypadCommand(BedField, n as real) == SetBed(n)
    ensures 10 <= n <= 300 ==> KeypadCommand(SpeedField, n as real) == Speed(n)
    ensures 50 <= n <= 200 ==> KeypadCommand(FlowField, n as real) == Flow(n)
  {
    assert n >= 0 ==> Trunc(n as real + 0.5) == n;
  }

  /** A nudge moves its own heater's legal target by 5 degrees in its direction, or to the end of the range. */
  lemma NudgeMovesTarget(t: Temps, up: bool)
    ensures 0 <= t.nozzleSet <= 300 ==>
              exists n :: HeaterCommand(t, NudgeNozzle(up)) == Some(SetNozzle(n)) && Nudged(t.nozzleSet, n, up, 300)
    ensures 0 <= t.bedSet <= 120 ==>
              exists n :: HeaterCommand(t, NudgeBed(up)) == Some(SetBed(n)) && Nudged(t.bedSet, n, up, 120)
  {
    assert 0 <= t.nozzleSet <= 300 ==> Nudged(t.nozzleSet, HeaterCommand(t, NudgeNozzle(up)).value.target, up, 300);
    assert 0 <= t.bedSet <= 120 ==> Nudged(t.bedSet, HeaterCommand(t, NudgeBed(up)).value.target, up, 120);
  }

  predicate Nudged(was: int, now: int, up: bool, hi: int) {
    && 0 <= now <= hi
    && (up ==> now == was + 5 || (now == hi && was <= hi < was + 5))
    && (!up ==> now == was - 5 || (now == 0 && was - 5 < 0 <= was))
  }

  /** The material just preheated is the one Load and Unload then run at. */
  lemma MaterialHeatsForLoad(s: Panel, m: nat)
    ensures var t := Next(s, Tap(MaterialBtn(m)));
            exists temp :: Dispatch(s, Tap(MaterialBtn(m))) == Some(SetNozzle(temp))
                        && Dispatch(t, Tap(LoadBtn)) == Some(LoadFilament(temp, s.pad.knobs.length))
                        && Dispatch(t, Tap(UnloadBtn)) == Some(UnloadFilament(temp))
  {
    hide PaintAfter, ScrimAfter, OverlayAfter, LogAfter, ConfirmAfter, NoticeAfter, LayerAfter, FilesAfter, SentAfter, BadgesAfter;
    assert Dispatch(s, Tap(MaterialBtn(m))) == Some(SetNozzle(FilamentTemp(m)));
  }

  ghost predicate Slid(es: seq<Event>) {
    exists k :: 0 <= k < |es| && es[k].LengthSlider?
  }

  lemma {:induction false} LengthRun(es: seq<Event>)
    ensures var p := Run(Initial, es).pad;
            if Slid(es) then p.knobs.length == p.shownLength else p.knobs.length == 100 && p.shownLength == 200
    decreases |es|
  {
    hide PrinterAfter, PaintAfter, ScrimAfter, OverlayAfter, LogAfter, ConfirmAfter, NoticeAfter, LayerAfter, FilesAfter, SentAfter, BadgesAfter;
    if es != [] {
      var before := es[..|es| - 1];
      LengthRun(before);
      if k :| 0 <= k < |before| && before[k].LengthSlider? {
        assert es[k].LengthSlider?;
      }
      if k :| 0 <= k < |es| && es[k].LengthSlider? {
        assert k < |before| ==> before[k].LengthSlider?;
      }
    }
  }

  /** Load purges the length shown beside the slider if and only if the slider has ever been moved. */
  lemma LoadPurgesLengthShown(es: seq<Event>)
    ensures var t := Run(Initial, es);
            && Dispatch(t, Tap(LoadBtn)).Some? && Dispatch(t, Tap(LoadBtn)).value.LoadFilament?
            && (Dispatch(t, Tap(LoadBtn)).value.length == t.pad.shownLength <==> Slid(es))
  {
    hide Run, Slid;
    LengthRun(es);
  }

  /** Before that, Load sends 100 mm under a readout of 200. */
  lemma LoadDisagreesAtStart()
    ensures Dispatch(Initial, Tap(LoadBtn)) == Some(LoadFilament(260, 100)) && Initial.pad.shownLength == 200
  {
  }

  // ---- the E-STOP ----

  /** A keepalive tick leaves the E-STOP on top exactly when no question is open. */
  lemma KeepaliveRescues(es: seq<Event>)
    ensures var s := Run(Initial, es);
            && Next(s, Keepalive).confirm == s.confirm
            && (Topmost(Next(s, Keepalive).layer, EStop) <==> !s.confirm.shown)
  {
    hide Run;
    RunInv(es);
    var s := Run(Initial, es);
    KeepaliveLayer(s);
  }

  lemma KeepaliveLayer(s: Panel)
    requires LayerOk(s.layer, s.confirm.shown)
    ensures Topmost(LayerAfter(s, Keepalive), EStop) <==> !s.confirm.shown
  {
    if s.confirm.shown {
      TopIsNotBelow(s.layer, ConfirmScrim, EStop);
    }
  }

  /** While a question is open its card is above its scrim and the scrim above the E-STOP. */
  lemma QuestionAboveEStop(es: seq<Event>)
    ensures var s := Run(Initial, es);
            s.confirm.shown ==> Above(s.layer, ConfirmCard, ConfirmScrim) && Above(s.layer, ConfirmScrim, EStop)
  {
    hide Run, Above;
    RunInv(es);
  }

  lemma StackMembers(l: Layer, busy: bool, box: bool, ask: bool, note: bool, pad: bool, estop: bool, c: Child)
    requires forall x :: x in BuiltLayer ==> x in l
    ensures c in Stack(l, busy, box, ask, note, pad, estop)
            <==> c in l || (busy && c == BusyScrim) || (box && c == LogBox)
  {
    hide Raise;
    var l1 := RaiseOne(l, busy, BusyScrim);
    var l2 := RaiseOne(l1, box, LogBox);
    var l3 := RaisePair(l2, ask, ConfirmScrim, ConfirmCard);
    var l4 := RaisePair(l3, note, NoticeScrim, NoticeCard);
    var l5 := RaisePair(l4, pad, KeypadScrim, KeypadCard);
    MoveMembers(l, BusyScrim, c);
    MoveMembers(l1, LogBox, c);
    MoveMembers(l2, ConfirmScrim, c);
    MoveMembers(Raise(l2, ConfirmScrim), ConfirmCard, c);
    MoveMembers(l3, NoticeScrim, c);
    MoveMembers(Raise(l3, NoticeScrim), NoticeCard, c);
    MoveMembers(l4, KeypadScrim, c);
    MoveMembers(Raise(l4, KeypadScrim), KeypadCard, c);
    MoveMembers(l5, EStop, c);
    BuiltMembers();
  }

  lemma BuiltMembers()
    ensures KeypadCard in BuiltLayer && KeypadScrim in BuiltLayer && ConfirmScrim in BuiltLayer
    ensures ConfirmCard in BuiltLayer && NoticeScrim in BuiltLayer && NoticeCard in BuiltLayer && EStop in BuiltLayer
  {
    var l := BuiltLayer;
    assert l[0] == KeypadCard && l[1] == KeypadScrim && l[2] == ConfirmScrim && l[3] == ConfirmCard;
    assert l[4] == NoticeScrim && l[5] == NoticeCard && l[6] == EStop;
  }

  lemma SunkMembers(l: Layer, e: Event, c: Child)
    requires forall x :: x in BuiltLayer ==> x in l
    ensures c in Sunk(l, e) <==> c in l
  {
    hide Lower;
    BuiltMembers();
    MoveMembers(l, ConfirmCard, c);
    MoveMembers(Lower(l, ConfirmCard), ConfirmScrim, c);
    MoveMembers(l, NoticeCard, c);
    MoveMembers(Lower(l, NoticeCard), NoticeScrim, c);
    MoveMembers(l, KeypadCard, c);
    MoveMembers(Lower(l, KeypadCard), KeypadScrim, c);
  }

  /** No event removes a top-layer child or duplicates one; only the scrim and the log box are ever added. */
  lemma LayerOnlyGrows(es: seq<Event>, e: Event, c: Child)
    ensures var s := Run(Initial, es);
            && Distinct(Next(s, e).layer)
            && (c in Next(s, e).layer
                <==> c in s.layer || (c == BusyScrim && Shows(s, e).Some?) || (c == LogBox && Draws(s.log, PrinterAfter(s.pr, e), e)))
  {
    hide Run;
    hide Stack, Sunk, Shows, Draws, Opens, Notifies, PrinterAfter, PaintAfter, OverlayAfter, LogAfter, ConfirmAfter,
      NoticeAfter, FilesAfter, PadAfter, SentAfter, ScrimAfter, Distinct, Above, BadgesAfter;
    RunInv(es);
    var s := Run(Initial, es);
    NextInv(s, e);
    forall x
      ensures x in Sunk(s.layer, e) <==> x in s.layer
    {
      SunkMembers(s.layer, e, x);
    }
    StackMembers(Sunk(s.layer, e), Shows(s, e).Some?, Draws(s.log, PrinterAfter(s.pr, e), e), Opens(s, e).Some?,
                 Notifies(s, e), OpensKeypad(e), Rescues(s, e), c);
  }

  // ---- the temperature labels ----

  /** A delta without a layout flip leaves all labels as an unconditional repaint would. */
  lemma DeltaPaints(s: Panel, d: Status)
    requires PaintOk(s.paint) && JobAfter(s.pr.job, d) == s.pr.job && TempsAfter(s.pr.temps, d) != Sentinel
    ensures PaintAfter(s.paint, s.pr, Delta(d)).face == Paint(TempsAfter(s.pr.temps, d))
  {
    hide Paint, SentOk, LogOk, LayerOk, FL.Valid;
  }

  /** Over any run of deltas, flips and reconnects: the labels agree after every non-flipping delta. */
  lemma LabelsAgree(es: seq<Event>, d: Status)
    requires var p := Run(Initial, es).pr; JobAfter(p.job, d) == p.job && TempsAfter(p.temps, d) != Sentinel
    ensures var t := Run(Initial, es + [Delta(d)]); t.paint.face == Paint(t.pr.temps)
  {
    hide Run, Paint, PaintAfter, SentOk, LogOk, LayerOk, FL.Valid, ScrimAfter, OverlayAfter, LogAfter, ConfirmAfter, NoticeAfter, LayerAfter, FilesAfter,
      PadAfter, SentAfter, BadgesAfter;
    RunInv(es);
    RunSnoc(Initial, es, Delta(d));
    DeltaPaints(Run(Initial, es), d);
  }

  /** The home labels are right after every status message, flips and reconnects included. */
  lemma HomeLabelsAgree(s: Panel, e: Event)
    requires PaintOk(s.paint) && (e.Delta? || e.Subscribed?) && PrinterAfter(s.pr, e).temps != Sentinel
    ensures PaintAfter(s.paint, s.pr, e).face.home == HomeLabels(PrinterAfter(s.pr, e).temps)
  {
    hide SentOk, LogOk, LayerOk, FL.Valid, HomeLabels;
  }

  /** After a rebuild, a non-flipping delta paints exactly when some cached value differs from the sentinel. */
  lemma PaintsUnlessSentinel(w: Painted, p: Printer, d: Status)
    requires w.shadow == Sentinel && JobAfter(p.job, d) == p.job
    ensures PaintAfter(w, p, Delta(d)).shadow == TempsAfter(p.temps, d)
    ensures TempsAfter(p.temps, d) == Sentinel <==> PaintAfter(w, p, Delta(d)) == w
  {
    hide Paint;
  }

  /** With every cached value at the sentinel, the Temps screen keeps its old labels after a rebuild. */
  lemma SentinelIsNotPainted()
    ensures var full := Status(None, Some(UNPAINTED), Some(UNPAINTED), Some(UNPAINTED), Some(UNPAINTED), None, None);
            var t := Next(Next(Initial, Subscribed(full)), Delta(Silent));
            t.paint.face.sub.nozzle == "--" && t.paint.face != Paint(t.pr.temps)
  {
    hide ScrimAfter, OverlayAfter, LogAfter, ConfirmAfter, NoticeAfter, LayerAfter, FilesAfter, PadAfter, SentAfter, Dec, HomeLabels, BadgesAfter;
    var written := DecInt(UNPAINTED);
    assert written[1] == Dec(-UNPAINTED)[0];
    assert "--"[1] == '-' && written != "--";
  }

  // ---- the narration logbook ----

  lemma DeltaNarrates(l: Log, q: Printer, d: Status)
    requires LogOk(l)
    ensures var m := LogAfter(l, q, Delta(d));
            && (m.book.shown <==> CampaignActive(q))
            && (m.book.shown ==> m.book.text == q.calMsg)
            && (m.book.shown && !m.book.fault ==> m.box == StepView(Cal.Parse(q.calMsg)))
  {
    hide CampaignActive, StepView, Cal.Parse;
  }

  /**
   After any run ending in a delta, the logbook is up exactly while a campaign is active, and
   without a fault it shows the parse of the cached step text.
   */
  lemma NarrationFollows(es: seq<Event>, d: Status)
    ensures var t := Run(Initial, es + [Delta(d)]);
            && (t.log.box.visible <==> CampaignActive(t.pr))
            && (t.log.book.fault ==> t.log.box.visible)
            && (t.log.box.visible && !t.log.book.fault ==> t.log.box == StepView(Cal.Parse(t.pr.calMsg)))
  {
    hide Run, PrinterAfter, PaintAfter, ScrimAfter, OverlayAfter, LogAfter, ConfirmAfter, NoticeAfter, LayerAfter, FilesAfter,
      PadAfter, SentAfter, CampaignActive, StepView, Cal.Parse, BoxCount, BadgesAfter;
    RunInv(es);
    RunInv(es + [Delta(d)]);
    RunSnoc(Initial, es, Delta(d));
    var s := Run(Initial, es);
    DeltaNarrates(s.log, PrinterAfter(s.pr, Delta(d)), d);
  }

  /** Losing contact raises the alarm over the same count; contact restores the very same box. */
  lemma ContactRestoresStep(l: Log, q: Printer, lost: int, back: int)
    requires LogOk(l) && l.book.shown && lost >= 10000 > back
    ensures var alarm := LogAfter(l, q, StaleCheck(lost));
            && alarm.book.fault && alarm.box.fault && alarm.box.count == BoxCount(l.book.step)
            && LogAfter(alarm, q, StaleCheck(back)) == Log(l.book.(fault := false), StepView(Cal.Parse(l.book.text)))
  {
    hide Cal.Parse;
  }

  // ---- the stale flag and the install chip ----

  predicate Refreshes(e: Event) {
    e.Delta? || e.StaleCheck?
  }

  /** The event is a check that finds a live machine silent. */
  predicate FindsSilence(s: Panel, e: Event) {
    e.StaleCheck? && e.age >= 10000 && (Live(s.pr.job) || s.pr.busy)
  }

  /** Event `k` finds silence, and nothing after it checks or reports. */
  ghost predicate LatestSilence(s: Panel, es: seq<Event>, k: int) {
    0 <= k < |es| && FindsSilence(Run(s, es[..k]), es[k]) && forall j :: k < j < |es| ==> !Refreshes(es[j])
  }

  lemma BadgesNext(s: Panel, e: Event)
    ensures Next(s, e).badges == BadgesAfter(s.badges, s.pr, e) && Next(s, e).pr == PrinterAfter(s.pr, e)
  {
    hide PrinterAfter, PaintAfter, ScrimAfter, OverlayAfter, LogAfter, ConfirmAfter, NoticeAfter, LayerAfter, FilesAfter, PadAfter,
      SentAfter, BadgesAfter;
  }

  lemma SilenceSnoc(s: Panel, before: seq<Event>, e: Event, k: int)
    ensures k < |before| ==> (LatestSilence(s, before + [e], k) <==> LatestSilence(s, before, k) && !Refreshes(e))
    ensures k == |before| ==> (LatestSilence(s, before + [e], k) <==> FindsSilence(Run(s, before), e))
    ensures k > |before| ==> !LatestSilence(s, before + [e], k)
  {
    hide Run, FindsSilence, Refreshes;
    var es := before + [e];
    assert es[..|before|] == before;
    if 0 <= k < |before| {
      assert es[..k] == before[..k];
      assert forall j :: k < j < |before| ==> es[j] == before[j];
      assert es[|before|] == e;
    }
  }

  /** The stale flag is up if and only if the latest check or delta was a check that found a live machine silent. */
  lemma {:induction false} StaleFlagIff(es: seq<Event>)
    ensures Run(Initial, es).badges.stale <==> exists k :: LatestSilence(Initial, es, k)
    decreases |es|
  {
    hide Next, LatestSilence, Live;
    if es == [] {
      NoSilence();
    } else {
      var before, e := es[..|es| - 1], es[|es| - 1];
      StaleFlagIff(before);
      var t := Run(Initial, before);
      BadgesNext(t, e);
      assert es == before + [e];
      forall k
        ensures k < |before| ==> (LatestSilence(Initial, es, k) <==> LatestSilence(Initial, before, k) && !Refreshes(e))
        ensures k == |before| ==> (LatestSilence(Initial, es, k) <==> FindsSilence(t, e))
        ensures k > |before| ==> !LatestSilence(Initial, es, k)
        ensures LatestSilence(Initial, before, k) ==> k < |before|
      {
        SilenceSnoc(Initial, before, e, k);
        SilenceInside(Initial, before, k);
      }
      assert LatestSilence(Initial, es, |before|) <==> FindsSilence(t, e);
    }
  }

  lemma SilenceInside(s: Panel, es: seq<Event>, k: int)
    ensures LatestSilence(s, es, k) ==> k < |es|
  {
    hide Run, FindsSilence;
  }

  lemma NoSilence()
    ensures forall k :: !LatestSilence(Initial, [], k)
  {
    hide Run, FindsSilence;
  }

  /** The install chip is up while a job is loaded. */
  predicate ChipOverJob(s: Panel) {
    s.badges.chip && Live(s.pr.job)
  }

  /** A subscribe reply reports a loaded job while the chip is up. */
  predicate ReportsJobUnderChip(s: Panel, e: Event) {
    e.Subscribed? && s.badges.chip && Live(JobAfter(s.pr.job, e.full))
  }

  /** The one way the chip comes to stand over a job. */
  lemma ChipStep(s: Panel, e: Event)
    requires !ChipOverJob(s)
    ensures ChipOverJob(Next(s, e)) <==> ReportsJobUnderChip(s, e)
  {
    hide Next;
    BadgesNext(s, e);
  }

  /**
   The chip is hidden under every job of the run if and only if no subscribe reply of the run reports
   a loaded job while the chip is up.
   */
  lemma {:induction false} ChipNeverOverJobIff(es: seq<Event>)
    ensures (forall k :: 0 <= k <= |es| ==> !ChipOverJob(Run(Initial, es[..k])))
            <==> forall k :: 0 <= k < |es| ==> !ReportsJobUnderChip(Run(Initial, es[..k]), es[k])
    decreases |es|
  {
    hide Run, Next, ChipOverJob, ReportsJobUnderChip;
    if es == [] {
      FreshChip();
      assert forall k :: 0 <= k <= |es| ==> es[..k] == [];
    } else {
      var before, e := es[..|es| - 1], es[|es| - 1];
      ChipNeverOverJobIff(before);
      assert es == before + [e] && es[..|es|] == es;
      RunSnoc(Initial, before, e);
      var s := Run(Initial, before);
      assert before[..|before|] == before;
      assert forall k :: 0 <= k <= |before| ==> before[..k] == es[..k];
      if !ChipOverJob(s) {
        ChipStep(s, e);
      }
      ChipPrefixes(es);
    }
  }

  lemma FreshChip()
    ensures !ChipOverJob(Run(Initial, []))
  {
  }

  lemma ChipPrefixes(es: seq<Event>)
    requires es != []
    ensures var before := es[..|es| - 1];
            && ((forall k :: 0 <= k <= |es| ==> !ChipOverJob(Run(Initial, es[..k])))
                <==> (forall k :: 0 <= k <= |before| ==> !ChipOverJob(Run(Initial, before[..k]))) && !ChipOverJob(Run(Initial, es)))
            && ((forall k :: 0 <= k < |es| ==> !ReportsJobUnderChip(Run(Initial, es[..k]), es[k]))
                <==> (forall k :: 0 <= k < |before| ==> !ReportsJobUnderChip(Run(Initial, before[..k]), before[k]))
                     && !ReportsJobUnderChip(Run(Initial, before), es[|es| - 1]))
  {
    hide Run, ChipOverJob, ReportsJobUnderChip;
    var before := es[..|es| - 1];
    assert es[..|es|] == es;
    assert forall k :: 0 <= k <= |before| ==> before[..k] == es[..k];
    assert forall k :: 0 <= k < |before| ==> before[k] == es[k];
  }

  /** It happens: an update is offered, the link comes back during a print started meanwhile. */
  lemma ChipOverJobRun()
    ensures var full := Status(Some("printing"), None, None, None, None, None, None);
            var t := Next(Next(Initial, UpdateChecked("2")), Subscribed(full));
            ChipOverJob(t) && Opens(t, Tap(InstallBtn)).None?
  {
    hide Next;
    var full := Status(Some("printing"), None, None, None, None, None, None);
    var s := Next(Initial, UpdateChecked("2"));
    BadgesNext(Initial, UpdateChecked("2"));
    BadgesNext(s, Subscribed(full));
  }

  // ---- the busy scrim ----

  /** After a manual action's reply, the next delta of an active calibration shows the scrim again. */
  lemma ReplyThenCalibrationReshows(s: Panel, d: Status)
    requires CalActive(PrinterAfter(s.pr, Delta(d)))
    ensures var t := Next(Next(s, ActionReply), Delta(d));
            t.scrim.visible && t.scrim.text == CalText(t.pr.calMsg) && t.overlay == CalOverlay(true, t.pr.calMsg)
  {
    hide CalActive, PaintAfter, LogAfter, ConfirmAfter, NoticeAfter, LayerAfter, FilesAfter, PadAfter, SentAfter, MessageAfter,
      TempsAfter, JobAfter, BadgesAfter;
  }

  /** Exactly when an active calibration has a visible scrim: a silently dropped one stays down on the same text. */
  lemma CalibrationScrimIff(s: Panel, d: Status)
    requires CalActive(PrinterAfter(s.pr, Delta(d)))
    ensures ScrimAfter(s, Delta(d)).visible
            <==> s.scrim.visible || !s.overlay.on || s.overlay.text != MessageAfter(s.pr, d)
  {
    hide MessageAfter, TempsAfter, JobAfter;
  }

  const Silent: Status := Status(None, None, None, None, None, None, None)
  const CalStarts: Status := Status(None, None, None, None, None, Some("Printing"), Some("Calibrating"))

  /** A calibration whose scrim the watchdog dropped stays without one while its text does not change. */
  lemma CalibrationWithoutScrim()
    ensures var t := Next(Next(Next(Initial, Delta(CalStarts)), TimerPass(WATCHDOG_MS)), Delta(Silent));
            CalActive(t.pr) && t.overlay.on && !t.scrim.visible
  {
    hide PaintAfter, LogAfter, ConfirmAfter, NoticeAfter, LayerAfter, FilesAfter, PadAfter, SentAfter, BadgesAfter;
    var s := Next(Initial, Delta(CalStarts));
    assert CalActive(s.pr) && s.scrim == Scrim(true, CalText("Calibrating"), Some(0)) && s.overlay == CalOverlay(true, "Calibrating");
    var u := Next(s, TimerPass(WATCHDOG_MS));
    assert u.pr == s.pr && u.overlay == s.overlay && !u.scrim.visible;
  }

  function TimerTime(es: seq<Event>): nat {
    if es == [] then 0
    else TimerTime(es[..|es| - 1]) + if es[|es| - 1].TimerPass? then es[|es| - 1].ms else 0
  }

  /** No event of the run shows the scrim again. */
  ghost predicate NeverShown(s: Panel, es: seq<Event>) {
    forall k :: 0 <= k < |es| ==> Shows(Run(s, es[..k]), es[k]).None?
  }

  lemma ScrimAgesOne(s: Panel, e: Event)
    requires ScrimOk(s.scrim) && Shows(s, e).None?
    ensures var c := ScrimAfter(s, e);
            c.visible ==>
              s.scrim.visible && c.watchdog.value == s.scrim.watchdog.value + if e.TimerPass? then e.ms else 0
  {
    hide Shows, Drops;
  }

  lemma {:induction false} ScrimAges(s: Panel, es: seq<Event>)
    ensures Inv(s) && NeverShown(s, es) ==>
              var c := Run(s, es).scrim;
              && Inv(Run(s, es))
              && (c.visible ==> s.scrim.visible && c.watchdog.value == s.scrim.watchdog.value + TimerTime(es))
    decreases |es|
  {
    hide JobOk, SentOk, ConfirmOk, LogOk, PaintOk, LayerOk, FL.Valid, Shows, PrinterAfter, PaintAfter, ScrimAfter, OverlayAfter,
      LogAfter, ConfirmAfter, NoticeAfter, LayerAfter, FilesAfter, PadAfter, SentAfter, BadgesAfter;
    if es != [] && Inv(s) && NeverShown(s, es) {
      var before := es[..|es| - 1];
      forall k | 0 <= k < |before|
        ensures Shows(Run(s, before[..k]), before[k]).None?
      {
        assert before[..k] == es[..k];
      }
      ScrimAges(s, before);
      NextInv(Run(s, before), es[|es| - 1]);
      assert Shows(Run(s, es[..|es| - 1]), es[|es| - 1]).None?;
      ScrimAgesOne(Run(s, before), es[|es| - 1]);
    }
  }

  /** The scrim never outlives its latest show by 180 s of timer time, whatever else happens meanwhile. */
  lemma ScrimExpires(before: seq<Event>, es: seq<Event>)
    ensures var s := Run(Initial, before);
            NeverShown(s, es) && TimerTime(es) >= 180000 ==> !Run(s, es).scrim.visible
  {
    hide Run, NeverShown, TimerTime, Next, SentOk, LogOk, LayerOk, FL.Valid;
    RunInv(before);
    ScrimAges(Run(Initial, before), es);
  }

  // ---- questions and files ----

  /** Events that arrive by themselves: everything but taps and an error reply that opens a card. */
  predicate Background(e: Event) {
    !e.Tap? && !e.RowTap? && !e.ConfirmTap? && !e.KeypadOk? && !e.SliderReleased? && !(e.PrintReply? && e.error.Some?)
  }

  lemma {:induction false} QuestionStands(s: Panel, es: seq<Event>)
    requires forall k :: 0 <= k < |es| ==> Background(es[k])
    ensures Run(s, es).confirm == s.confirm && Run(s, es).sent == s.sent
    decreases |es|
  {
    hide PrinterAfter, PaintAfter, ScrimAfter, OverlayAfter, LogAfter, NoticeAfter, LayerAfter, FilesAfter, PadAfter, BadgesAfter;
    if es != [] {
      QuestionStands(s, es[..|es| - 1]);
    }
  }

  /** The row tapped is the file asked about. */
  lemma RowAsksItsFile(s: Panel, i: nat)
    requires FL.Valid(s.files) && i < |s.files.rows|
    ensures i < |s.files.names|
    ensures ConfirmAfter(s, RowTap(i)) == Confirm(true, AskPrint(ShownName(s.files.names[i])), Some(DoPrint(s.files.names[i])))
    ensures SentAfter(s, RowTap(i)) == s.sent
  {
  }

  /** No event of the run answers the question or asks another. */
  ghost predicate Stands(s: Panel, es: seq<Event>) {
    forall k :: 0 <= k < |es| ==> Opens(Run(s, es[..k]), es[k]).None? && !es[k].ConfirmTap?
  }

  lemma StandsPrefix(s: Panel, es: seq<Event>)
    requires es != [] && Stands(s, es)
    ensures Stands(s, es[..|es| - 1])
    ensures Opens(Run(s, es[..|es| - 1]), es[|es| - 1]).None? && !es[|es| - 1].ConfirmTap?
  {
    hide Opens, Run;
    var before := es[..|es| - 1];
    forall k | 0 <= k < |before|
      ensures Opens(Run(s, before[..k]), before[k]).None? && !before[k].ConfirmTap?
    {
      assert before[..k] == es[..k];
    }
  }

  lemma {:induction false} QuestionKept(s: Panel, es: seq<Event>)
    ensures Stands(s, es) ==> Run(s, es).confirm == s.confirm
    decreases |es|
  {
    hide Opens, Stands, PrinterAfter, PaintAfter, ScrimAfter, OverlayAfter, LogAfter, NoticeAfter, LayerAfter, FilesAfter, PadAfter,
      SentAfter, BadgesAfter;
    if es != [] && Stands(s, es) {
      StandsPrefix(s, es);
      QuestionKept(s, es[..|es| - 1]);
    }
  }

  /**
   Tap a row, let anything happen that neither answers nor replaces the question (taps, sliders, the
   keypad, any number of rebuilt lists), confirm: the confirming event sends exactly one command,
   and it starts the file that was on the tapped row.
   */
  lemma ConfirmedPrintIsTheOneAsked(before: seq<Event>, i: nat, es: seq<Event>)
    requires i < |Run(Initial, before).files.rows|
    ensures var s := Run(Initial, before);
            var t := Run(Next(s, RowTap(i)), es);
            && i < |s.files.names|
            && (Stands(Next(s, RowTap(i)), es) ==>
                  && Dispatch(t, ConfirmTap(true)) == Some(PrintStart(s.files.names[i]))
                  && Next(t, ConfirmTap(true)).sent == t.sent + [Sent(PrintStart(s.files.names[i]), t.pr.job, t.pr.temps.nozzle)])
  {
    hide Run, PrinterAfter, PaintAfter, ScrimAfter, OverlayAfter, LogAfter, NoticeAfter, LayerAfter, FilesAfter, PadAfter,
      ShownName, SentOk, LogOk, LayerOk, FL.Valid, Stands, BadgesAfter;
    RunInv(before);
    var s := Run(Initial, before);
    RowAsksItsFile(s, i);
    QuestionKept(Next(s, RowTap(i)), es);
  }

  function ListReplies(es: seq<Event>): nat {
    if es == [] then 0
    else ListReplies(es[..|es| - 1]) + if es[|es| - 1].FilesReply? then 1 else 0
  }

  lemma {:induction false} GenerationCounts(es: seq<Event>)
    ensures Run(Initial, es).files.gen == ListReplies(es)
    decreases |es|
  {
    hide PrinterAfter, PaintAfter, ScrimAfter, OverlayAfter, LogAfter, ConfirmAfter, NoticeAfter, LayerAfter, PadAfter, SentAfter, BadgesAfter;
    if es != [] {
      GenerationCounts(es[..|es| - 1]);
    }
  }

  /** `n` replies that each empty the list. */
  function Emptied(n: nat): seq<Event> {
    if n == 0 then [] else Emptied(n - 1) + [FilesReply([])]
  }

  lemma FilesNext(s: Panel, e: Event)
    ensures Next(s, e).files == FilesAfter(s.files, e)
  {
    hide PrinterAfter, PaintAfter, ScrimAfter, OverlayAfter, LogAfter, ConfirmAfter, NoticeAfter, LayerAfter, PadAfter, SentAfter,
      FilesAfter, BadgesAfter;
  }

  /** The list of one file, rebuilt empty `n` times, its metadata request still out. */
  predicate EmptiedList(f: FL.Files, n: nat) {
    f.gen == n + 1 && f.calls == [FL.Call(1, 0, "a")] && !f.dangling && (n > 0 ==> f.rows == [])
  }

  lemma EmptiedStep(f: FL.Files, n: nat)
    requires EmptiedList(f, n)
    ensures EmptiedList(FL.Rebuild(f, []), n + 1)
  {
    FL.EmptyRebuild(f);
  }

  lemma EmptiedStart()
    ensures EmptiedList(Next(Initial, FilesReply(["a"])).files, 0)
  {
    hide Next, FL.Rebuild;
    FilesNext(Initial, FilesReply(["a"]));
    FL.FirstRebuild("a");
  }

  lemma {:induction false} EmptiedRun(n: nat)
    ensures EmptiedList(Run(Next(Initial, FilesReply(["a"])), Emptied(n)).files, n)
  {
    hide Next, Initial, Run, EmptiedList, FL.Rebuild;
    var s := Next(Initial, FilesReply(["a"]));
    if n == 0 {
      EmptiedStart();
      RunNothing(s);
    } else {
      EmptiedRun(n - 1);
      RunSnoc(s, Emptied(n - 1), FilesReply([]));
      var t := Run(s, Emptied(n - 1));
      FilesNext(t, FilesReply([]));
      EmptiedStep(t.files, n - 1);
    }
  }

  /** One file, `n` rebuilds, then its metadata: the reply writes to the vanished row if and only if 2^32 divides `n`. */
  lemma LateMetaRun(n: nat)
    requires n > 0
    ensures Run(Next(Initial, FilesReply(["a"])), Emptied(n) + [MetaReply(0, "")]).files.dangling <==> n % FL.WRAP == 0
  {
    hide Next, Initial, Run, FL.ApplyMeta, Emptied;
    var s := Next(Initial, FilesReply(["a"]));
    EmptiedRun(n);
    RunSnoc(s, Emptied(n), MetaReply(0, ""));
    var t := Run(s, Emptied(n));
    FilesNext(t, MetaReply(0, ""));
    FL.LateMetaDangles(t.files, "");
  }

  /** In every run with fewer than 2^32 list replies no metadata reply writes to a row that is gone. */
  lemma NoDanglingRow(es: seq<Event>)
    requires ListReplies(es) < FL.WRAP
    ensures !Run(Initial, es).files.dangling
    ensures FL.RowsMatch(Run(Initial, es).files)
  {
    hide Run, ListReplies;
    RunInv(es);
    GenerationCounts(es);
  }

  /** The busy scrim can cover an open question, and then the keepalive does not bring the E-STOP back. */
  lemma ScrimCoversQuestion(s: Panel, d: Status)
    requires s.confirm.shown && Shows(s, Delta(d)).Some?
    ensures var t := Next(Next(s, Delta(d)), Keepalive);
            t.confirm.shown && t.scrim.visible && Topmost(t.layer, BusyScrim)
  {
    hide Without, PaintAfter, OverlayAfter, LogAfter, FilesAfter, PadAfter, SentAfter, PrinterAfter, Shows, Draws, BadgesAfter;
    ShowsWithoutDrawing(s, d);
    DeltaOnlyShows(s, d);
  }

  /** It happens: the operator taps E-STOP, and before the answer a calibration announces its first step. */
  lemma ScrimCoversEStopQuestion()
    ensures var d := Status(None, None, None, None, None, Some("Printing"), Some("Calibrating"));
            var t := Next(Next(Next(Initial, Tap(EStopBtn)), Delta(d)), Keepalive);
            t.confirm.pending == Some(DoEmergencyStop) && t.confirm.shown && t.scrim.visible && Topmost(t.layer, BusyScrim)
  {
    hide Without, PaintAfter, OverlayAfter, LogAfter, FilesAfter, PadAfter, SentAfter, BadgesAfter;
    var d := Status(None, None, None, None, None, Some("Printing"), Some("Calibrating"));
    var s := Next(Initial, Tap(EStopBtn));
    assert s.confirm.shown && s.confirm.pending == Some(DoEmergencyStop) && !s.overlay.on by { OnlyAsks(); }
    assert s.pr == Initial.pr;
    assert CalActive(PrinterAfter(s.pr, Delta(d)));
    ScrimCoversQuestion(s, d);
    DeltaKeepsQuestion(s, d);
  }

  lemma OnlyAsks()
    ensures var s := Next(Initial, Tap(EStopBtn));
            s.confirm.shown && s.confirm.pending == Some(DoEmergencyStop) && s.overlay == Initial.overlay
  {
    hide PaintAfter, LogAfter, FilesAfter, PadAfter, SentAfter, LayerAfter, ScrimAfter, BadgesAfter;
  }

  lemma DeltaKeepsQuestion(s: Panel, d: Status)
    ensures Next(Next(s, Delta(d)), Keepalive).confirm == s.confirm
  {
    hide PaintAfter, LogAfter, FilesAfter, PadAfter, SentAfter, LayerAfter, ScrimAfter, PrinterAfter, OverlayAfter, BadgesAfter;
  }

  /** The texts of a calibration and of a campaign begin differently, so a delta never draws both. */
  lemma ShowsWithoutDrawing(s: Panel, d: Status)
    ensures Shows(s, Delta(d)).Some? ==> !Draws(s.log, PrinterAfter(s.pr, Delta(d)), Delta(d))
  {
    hide PrinterAfter;
    var m := PrinterAfter(s.pr, Delta(d)).calMsg;
    if "Calibrating" <= m {
      assert m[0] == 'C';
      assert "Make Pono"[0] != m[0] && "Full Cal"[0] != m[0];
    }
  }

  lemma DeltaOnlyShows(s: Panel, d: Status)
    ensures Opens(s, Delta(d)).None? && !Notifies(s, Delta(d))
    ensures forall t: Panel :: Shows(t, Keepalive).None? && !Drops(t, Keepalive) && !Draws(t.log, PrinterAfter(t.pr, Keepalive), Keepalive)
  {
  }
}
