/**
 When an open question can be answered. The confirm card is raised when it asks; scrim, log box,
 notice and keypad may rise over it afterwards. Exactly which child is above the card, after any event
 and over any run since the latest question, and, from where each child lies on the panel, exactly
 when a tap still reaches the card. The log box is a strip below the card and never blocks it.
 */
module CockpitCover {
  import opened Text
  import opened TopLayer
  import opened Cockpit
  import opened CockpitSafety
  import opened CockpitClaims
  import FL = FileList

  /** The event puts `c` in front. */
  predicate Lifts(s: Panel, e: Event, c: Child) {
    match c
    case BusyScrim => Shows(s, e).Some?
    case LogBox => Draws(s.log, PrinterAfter(s.pr, e), e)
    case NoticeScrim => Notifies(s, e)
    case NoticeCard => Notifies(s, e)
    case KeypadScrim => OpensKeypad(e)
    case KeypadCard => OpensKeypad(e)
    case _ => false
  }

  /** The event sends `c` to the back. */
  predicate Sinks(e: Event, c: Child) {
    || (e.NoticeTap? && (c == NoticeCard || c == NoticeScrim))
    || ((e.KeypadOk? || e.KeypadDismiss?) && (c == KeypadCard || c == KeypadScrim))
  }

  predicate Covers(l: Layer, c: Child) {
    Over(l, c, ConfirmCard)
  }

  // ---- one event ----

  lemma SunkCovers(l: Layer, e: Event, c: Child)
    requires !e.ConfirmTap? && c != ConfirmCard
    ensures Covers(Sunk(l, e), c) <==> Covers(l, c) && !Sinks(e, c)
  {
    hide Lower, Above;
    LowerAbove(l, NoticeCard, c, ConfirmCard);
    LowerAbove(Lower(l, NoticeCard), NoticeScrim, c, ConfirmCard);
    LowerAbove(l, KeypadCard, c, ConfirmCard);
    LowerAbove(Lower(l, KeypadCard), KeypadScrim, c, ConfirmCard);
  }

  lemma OneCovers(l: Layer, up: bool, x: Child, c: Child)
    requires ConfirmCard in l && x != ConfirmCard && c != ConfirmCard
    ensures ConfirmCard in RaiseOne(l, up, x)
    ensures Covers(RaiseOne(l, up, x), c) <==> (up && c == x) || Covers(l, c)
  {
    hide Raise, Above;
    MoveMembers(l, x, ConfirmCard);
    RaiseAbove(l, x, c, ConfirmCard);
  }

  lemma PairCovers(l: Layer, up: bool, scrim: Child, card: Child, c: Child)
    requires ConfirmCard in l && scrim != ConfirmCard && card != ConfirmCard && c != ConfirmCard
    ensures ConfirmCard in RaisePair(l, up, scrim, card)
    ensures Covers(RaisePair(l, up, scrim, card), c) <==> (up && (c == scrim || c == card)) || Covers(l, c)
  {
    hide Raise, Covers;
    OneCovers(l, true, scrim, c);
    OneCovers(Raise(l, scrim), true, card, c);
  }

  lemma StackCovers(l: Layer, busy: bool, box: bool, note: bool, pad: bool, c: Child)
    requires ConfirmCard in l && c != ConfirmCard
    ensures Covers(Stack(l, busy, box, false, note, pad, false), c) <==>
              || Covers(l, c) || (busy && c == BusyScrim) || (box && c == LogBox)
              || (note && (c == NoticeScrim || c == NoticeCard)) || (pad && (c == KeypadScrim || c == KeypadCard))
  {
    hide Covers, Raise;
    var l1 := RaiseOne(l, busy, BusyScrim);
    var l2 := RaiseOne(l1, box, LogBox);
    var l3 := RaisePair(l2, note, NoticeScrim, NoticeCard);
    OneCovers(l, busy, BusyScrim, c);
    OneCovers(l1, box, LogBox, c);
    PairCovers(l2, note, NoticeScrim, NoticeCard, c);
    PairCovers(l3, pad, KeypadScrim, KeypadCard, c);
  }

  /** An event that opens a question lifts nothing over it. */
  lemma OpensAlone(s: Panel, e: Event)
    requires Opens(s, e).Some?
    ensures !Notifies(s, e) && !OpensKeypad(e) && !e.Keepalive? && !e.ConfirmTap?
  {
  }

  lemma SunkHasCard(l: Layer, e: Event, asked: bool)
    requires LayerOk(l, asked)
    ensures ConfirmCard in Sunk(l, e)
  {
    SunkOk(l, e, asked);
    assert BuiltLayer[3] == ConfirmCard;
  }

  /**
   What covers the card after an event that leaves a question open: nothing when the event asked
   it, otherwise what the event lifts, and what covered it before and was not sunk.
   */
  lemma CoverStep(s: Panel, e: Event, c: Child)
    requires LayerOk(s.layer, s.confirm.shown) && ConfirmAfter(s, e).shown && c != ConfirmCard
    ensures Covers(LayerAfter(s, e), c) <==> Opens(s, e).None? && (Lifts(s, e, c) || (Covers(s.layer, c) && !Sinks(e, c)))
  {
    hide LayerOk, Sunk, Opens, Shows, Draws, Notifies, Covers, Raise, Sinks;
    var l := Sunk(s.layer, e);
    SunkHasCard(s.layer, e, s.confirm.shown);
    if Opens(s, e).Some? {
      OpensAlone(s, e);
      AskedIsClear(l, Shows(s, e).Some?, Draws(s.log, PrinterAfter(s.pr, e), e), c);
    } else {
      SunkCovers(s.layer, e, c);
      StackCovers(l, Shows(s, e).Some?, Draws(s.log, PrinterAfter(s.pr, e), e), Notifies(s, e), OpensKeypad(e), c);
    }
  }

  lemma AskedIsClear(l: Layer, busy: bool, box: bool, c: Child)
    requires c != ConfirmCard
    ensures !Covers(Stack(l, busy, box, true, false, false, false), c)
  {
    hide Raise, Above;
    var l2 := RaiseOne(RaiseOne(l, busy, BusyScrim), box, LogBox);
    RaisedIsClear(Raise(l2, ConfirmScrim), c, ConfirmCard);
  }

  /** The card is on top after an event exactly when the event asked, or it lifts nothing and sinks whatever covered the card. */
  lemma CardOnTopIff(s: Panel, e: Event)
    requires LayerOk(s.layer, s.confirm.shown) && ConfirmAfter(s, e).shown
    ensures Topmost(LayerAfter(s, e), ConfirmCard) <==>
              || Opens(s, e).Some?
              || forall c :: c != ConfirmCard ==> !Lifts(s, e, c) && (Covers(s.layer, c) ==> Sinks(e, c))
  {
    hide LayerAfter, Opens, Lifts, Sinks, Distinct, Over, Topmost, LayerOk, ConfirmAfter;
    var t := LayerAfter(s, e);
    LayerStays(s, e);
    CardStays(t, ConfirmAfter(s, e).shown);
    TopmostIff(t, ConfirmCard);
    forall c | c != ConfirmCard
      ensures Covers(t, c) <==> Opens(s, e).None? && (Lifts(s, e, c) || (Covers(s.layer, c) && !Sinks(e, c)))
    {
      CoverStep(s, e, c);
    }
    if Topmost(t, ConfirmCard) {
      forall c | c != ConfirmCard
        ensures !Covers(t, c)
      {
      }
    } else {
      var c :| c != ConfirmCard && Over(t, c, ConfirmCard);
      assert Covers(t, c);
    }
  }

  lemma CardStays(l: Layer, asked: bool)
    requires LayerOk(l, asked)
    ensures Distinct(l) && ConfirmCard in l
  {
    assert BuiltLayer[3] == ConfirmCard;
  }

  // ---- runs since the latest question ----

  ghost predicate LiftedAt(s: Panel, es: seq<Event>, c: Child, k: int) {
    0 <= k < |es| && Lifts(Run(s, es[..k]), es[k], c) && forall j :: k < j < |es| ==> !Sinks(es[j], c)
  }

  /** Some event of the run lifts `c`, and none after it sinks it. */
  ghost predicate Lifted(s: Panel, es: seq<Event>, c: Child) {
    exists k :: LiftedAt(s, es, c, k)
  }

  ghost predicate Sunken(es: seq<Event>, c: Child) {
    exists j :: 0 <= j < |es| && Sinks(es[j], c)
  }

  lemma LiftedAtSnoc(s: Panel, before: seq<Event>, e: Event, c: Child, k: int)
    ensures k < |before| ==> (LiftedAt(s, before + [e], c, k) <==> LiftedAt(s, before, c, k) && !Sinks(e, c))
    ensures k == |before| ==> (LiftedAt(s, before + [e], c, k) <==> Lifts(Run(s, before), e, c))
    ensures k > |before| ==> !LiftedAt(s, before + [e], c, k)
  {
    hide Lifts, Sinks, Run;
    var es := before + [e];
    assert es[..|before|] == before;
    if 0 <= k < |before| {
      assert es[..k] == before[..k];
      assert forall j :: k < j < |before| ==> es[j] == before[j];
      assert es[|before|] == e;
    }
  }

  lemma LiftedSnoc(s: Panel, before: seq<Event>, e: Event, c: Child)
    ensures Lifted(s, before + [e], c) <==> Lifts(Run(s, before), e, c) || (Lifted(s, before, c) && !Sinks(e, c))
  {
    hide Lifts, Sinks, Run, LiftedAt;
    forall k
      ensures k < |before| ==> (LiftedAt(s, before + [e], c, k) <==> LiftedAt(s, before, c, k) && !Sinks(e, c))
      ensures k == |before| ==> (LiftedAt(s, before + [e], c, k) <==> Lifts(Run(s, before), e, c))
      ensures k > |before| ==> !LiftedAt(s, before + [e], c, k)
      ensures LiftedAt(s, before, c, k) ==> k < |before|
    {
      LiftedAtSnoc(s, before, e, c, k);
      if LiftedAt(s, before, c, k) {
        LiftedInside(s, before, c, k);
      }
    }
    assert LiftedAt(s, before + [e], c, |before|) <==> Lifts(Run(s, before), e, c);
  }

  lemma LiftedInside(s: Panel, es: seq<Event>, c: Child, k: int)
    requires LiftedAt(s, es, c, k)
    ensures k < |es|
  {
  }

  lemma SunkenSnoc(before: seq<Event>, e: Event, c: Child)
    ensures Sunken(before + [e], c) <==> Sunken(before, c) || Sinks(e, c)
  {
    hide Sinks;
    var es := before + [e];
    assert es[|before|] == e;
    if j :| 0 <= j < |before| && Sinks(before[j], c) {
      assert Sinks(es[j], c);
    }
    if j :| 0 <= j < |es| && Sinks(es[j], c) {
      assert j < |before| ==> Sinks(before[j], c);
    }
  }

  lemma {:induction false} CoverRun(s: Panel, es: seq<Event>, c: Child)
    requires c != ConfirmCard
    ensures Inv(s) && s.confirm.shown && Stands(s, es) ==>
              && Inv(Run(s, es)) && Run(s, es).confirm == s.confirm
              && (Covers(Run(s, es).layer, c) <==> Lifted(s, es, c) || (Covers(s.layer, c) && !Sunken(es, c)))
    decreases |es|
  {
    hide JobOk, SentOk, ScrimOk, ConfirmOk, LogOk, PaintOk, LayerOk, FL.Valid, Opens, Lifts, Sinks, Covers, Stands, Lifted, Sunken;
    hide PrinterAfter, PaintAfter, ScrimAfter, OverlayAfter, LogAfter, NoticeAfter, LayerAfter, FilesAfter, PadAfter, SentAfter, BadgesAfter;
    if es == [] {
      NothingLifted(s, c);
    } else if Inv(s) && s.confirm.shown && Stands(s, es) {
      var before, e := es[..|es| - 1], es[|es| - 1];
      StandsPrefix(s, es);
      CoverRun(s, before, c);
      var t := Run(s, before);
      NextInv(t, e);
      CoverStep(t, e, c);
      assert es == before + [e];
      LiftedSnoc(s, before, e, c);
      SunkenSnoc(before, e, c);
    }
  }

  lemma NothingLifted(s: Panel, c: Child)
    ensures !Lifted(s, [], c) && !Sunken([], c)
  {
  }

  // ---- where the children lie ----

  datatype Rect = Rect(x: int, y: int, w: int, h: int)

  /** The 480 x 272 panel. */
  const Glass: Rect := Rect(0, 0, 480, 272)

  /** Where a child takes taps; the E-STOP reaches 8 px past its edges. */
  function Area(c: Child): Rect {
    match c
    case KeypadCard => Rect(90, 11, 300, 250)
    case ConfirmCard => Rect(70, 71, 340, 130)
    case NoticeCard => Rect(40, 26, 400, 220)
    case EStop => Rect(396, 2, 80, 42)
    case LogBox => Rect(0, 202, 480, 70)
    case _ => Glass
  }

  /** The two buttons on the confirm card. */
  const CancelButton: Rect := Rect(86, 147, 150, 40)
  const ConfirmButton: Rect := Rect(244, 147, 150, 40)

  predicate Inside(r: Rect, x: int, y: int) {
    r.x <= x < r.x + r.w && r.y <= y < r.y + r.h
  }

  /** A child that is not hidden when it is in front. A closed keypad is at the back. */
  predicate Visible(s: Panel, c: Child) {
    match c
    case BusyScrim => s.scrim.visible
    case LogBox => s.log.box.visible
    case NoticeScrim => s.notice
    case NoticeCard => s.notice
    case _ => true
  }

  /** A tap at this point of the card arrives at the card. */
  ghost predicate Reaches(s: Panel, x: int, y: int) {
    && s.confirm.shown && Inside(Area(ConfirmCard), x, y)
    && forall c :: c != ConfirmCard && Visible(s, c) && Covers(s.layer, c) ==> !Inside(Area(c), x, y)
  }

  /** Both buttons can be tapped, anywhere on them. */
  ghost predicate Answerable(s: Panel) {
    forall x, y :: Inside(CancelButton, x, y) || Inside(ConfirmButton, x, y) ==> Reaches(s, x, y)
  }

  /** Some full-screen child is up that was lifted since the question was asked. */
  ghost predicate Blocked(s: Panel, es: seq<Event>) {
    exists c :: Area(c) == Glass && Visible(Run(s, es), c) && Lifted(s, es, c)
  }

  lemma AskedClear(before: seq<Event>, ask: Event)
    requires Opens(Run(Initial, before), ask).Some?
    ensures var s := Next(Run(Initial, before), ask);
            Inv(s) && s.confirm.shown && forall c :: c != ConfirmCard ==> !Covers(s.layer, c)
  {
    hide Run, Opens, Covers, Inv, PrinterAfter, PaintAfter, ScrimAfter, OverlayAfter, LogAfter, NoticeAfter, LayerAfter, FilesAfter,
      PadAfter, SentAfter, BadgesAfter;
    RunInv(before);
    var s0 := Run(Initial, before);
    NextInv(s0, ask);
    InvLayer(s0);
    forall c | c != ConfirmCard
      ensures !Covers(LayerAfter(s0, ask), c)
    {
      CoverStep(s0, ask, c);
    }
  }

  lemma InvLayer(s: Panel)
    requires Inv(s)
    ensures LayerOk(s.layer, s.confirm.shown)
  {
  }

  /** A dialog's card moves with its scrim. */
  lemma PairLifted(s: Panel, es: seq<Event>)
    ensures Lifted(s, es, NoticeCard) <==> Lifted(s, es, NoticeScrim)
    ensures Lifted(s, es, KeypadCard) <==> Lifted(s, es, KeypadScrim)
  {
    hide Run, Notifies;
    forall k
      ensures LiftedAt(s, es, NoticeCard, k) <==> LiftedAt(s, es, NoticeScrim, k)
      ensures LiftedAt(s, es, KeypadCard, k) <==> LiftedAt(s, es, KeypadScrim, k)
    {
      assert forall j :: 0 <= j < |es| ==> (Sinks(es[j], NoticeCard) <==> Sinks(es[j], NoticeScrim));
      assert forall j :: 0 <= j < |es| ==> (Sinks(es[j], KeypadCard) <==> Sinks(es[j], KeypadScrim));
    }
  }

  lemma NeverLifted(s: Panel, es: seq<Event>)
    ensures !Lifted(s, es, EStop) && !Lifted(s, es, ConfirmScrim)
  {
  }

  /** No point of the card lies in the log box or the E-STOP, and every full-screen child is over all of it. */
  lemma CardPoints(x: int, y: int)
    requires Inside(Area(ConfirmCard), x, y)
    ensures !Inside(Area(LogBox), x, y) && !Inside(Area(EStop), x, y)
    ensures forall c :: Area(c) == Glass ==> Inside(Area(c), x, y)
  {
  }

  /**
   Any run, a question, any events that neither answer nor replace it: the question is still the one
   asked, and exactly the children lifted since and not sunk again are above its card.
   */
  lemma CoveredIff(before: seq<Event>, ask: Event, es: seq<Event>)
    ensures var s := Next(Run(Initial, before), ask);
            var t := Run(s, es);
            Opens(Run(Initial, before), ask).Some? && Stands(s, es) ==>
              && t.confirm == s.confirm && t.confirm.shown
              && (forall c :: c != ConfirmCard ==> (Covers(t.layer, c) <==> Lifted(s, es, c)))
  {
    hide Run, Opens, Covers, Inv, Lifted, Stands, Next, Sunken;
    var s := Next(Run(Initial, before), ask);
    if Opens(Run(Initial, before), ask).Some? && Stands(s, es) {
      AskedClear(before, ask);
      assert BusyScrim != ConfirmCard;
      CoverRun(s, es, BusyScrim);
      forall c | c != ConfirmCard
        ensures Covers(Run(s, es).layer, c) <==> Lifted(s, es, c)
      {
        CoverRun(s, es, c);
      }
    }
  }

  /** A point of the card takes taps if and only if no visible full-screen child was lifted since. */
  lemma ReachesIff(s: Panel, es: seq<Event>, x: int, y: int)
    requires Inside(Area(ConfirmCard), x, y) && Run(s, es).confirm.shown
    requires forall c :: c != ConfirmCard ==> (Covers(Run(s, es).layer, c) <==> Lifted(s, es, c))
    ensures Reaches(Run(s, es), x, y) <==> !Blocked(s, es)
  {
    hide Run, Covers, Lifted, Inside;
    var t := Run(s, es);
    CardPoints(x, y);
    PairLifted(s, es);
    NeverLifted(s, es);
    if !Reaches(t, x, y) {
      var c :| c != ConfirmCard && Visible(t, c) && Covers(t.layer, c) && Inside(Area(c), x, y);
      var scrim := if c == NoticeCard then NoticeScrim else if c == KeypadCard then KeypadScrim else c;
      assert Area(scrim) == Glass && Visible(t, scrim) && Lifted(s, es, scrim);
    }
    if Blocked(s, es) {
      var c :| Area(c) == Glass && Visible(t, c) && Lifted(s, es, c);
      assert c != ConfirmCard && Covers(t.layer, c) && Inside(Area(c), x, y);
    }
  }

  /**
   After any run and a question, while it is neither answered nor replaced: it can be answered if and
   only if no full-screen child (scrim, notice or keypad) that was lifted since is up, and then every
   point of its card takes taps; otherwise none does.
   */
  lemma QuestionAnswerableIff(before: seq<Event>, ask: Event, es: seq<Event>)
    ensures var s := Next(Run(Initial, before), ask);
            var t := Run(s, es);
            Opens(Run(Initial, before), ask).Some? && Stands(s, es) ==>
              && (Answerable(t) <==> !Blocked(s, es))
              && (forall x, y :: Inside(Area(ConfirmCard), x, y) ==> (Reaches(t, x, y) <==> !Blocked(s, es)))
  {
    hide Run, Opens, Covers, Lifted, Stands, Next, Blocked, Reaches;
    CoveredIff(before, ask, es);
    var s := Next(Run(Initial, before), ask);
    if Opens(Run(Initial, before), ask).Some? && Stands(s, es) {
      forall x, y | Inside(Area(ConfirmCard), x, y)
        ensures Reaches(Run(s, es), x, y) <==> !Blocked(s, es)
      {
        ReachesIff(s, es, x, y);
      }
      assert Inside(ConfirmButton, 244, 147);
    }
  }

  /** The same, child by child: the scrim, a notice and the keypad are all that can be in the way. */
  lemma AnswerableWhen(before: seq<Event>, ask: Event, es: seq<Event>)
    ensures var s := Next(Run(Initial, before), ask);
            var t := Run(s, es);
            Opens(Run(Initial, before), ask).Some? && Stands(s, es) ==>
              (Answerable(t) <==>
                 && !(t.scrim.visible && Lifted(s, es, BusyScrim))
                 && !(t.notice && Lifted(s, es, NoticeScrim))
                 && !Lifted(s, es, KeypadScrim))
  {
    hide Run, Opens, Stands, Next, Lifted, Answerable;
    var s := Next(Run(Initial, before), ask);
    QuestionAnswerableIff(before, ask, es);
    NeverLifted(s, es);
    assert Area(BusyScrim) == Glass && Area(NoticeScrim) == Glass && Area(KeypadScrim) == Glass;
  }

  /** However often the narration redraws, it never blocks a question: only a full-screen child does. */
  lemma NarrationNeverBlocks(before: seq<Event>, ask: Event, es: seq<Event>)
    ensures var s := Next(Run(Initial, before), ask);
            && Opens(Run(Initial, before), ask).Some? && Stands(s, es)
            && (forall k, c :: 0 <= k < |es| && Area(c) == Glass ==> !Lifts(Run(s, es[..k]), es[k], c))
            ==> Answerable(Run(s, es))
  {
    hide Run, Opens, Stands, Next, Lifts, Answerable;
    QuestionAnswerableIff(before, ask, es);
  }

  /** And it does redraw over one: the strip above the card in the order, both buttons free. */
  lemma NarrationOverQuestion(before: seq<Event>, ask: Event, e: Event)
    ensures var s := Next(Run(Initial, before), ask);
            && Opens(Run(Initial, before), ask).Some? && Stands(s, [e])
            && Draws(s.log, PrinterAfter(s.pr, e), e) && Shows(s, e).None? && !Notifies(s, e) && !OpensKeypad(e)
            ==> Covers(Run(s, [e]).layer, LogBox) && Answerable(Run(s, [e]))
  {
    hide Opens, Stands, Next, Answerable, Draws, Shows, Notifies, Covers, PrinterAfter;
    var s := Next(Run(Initial, before), ask);
    assert [e][..0] == [];
    assert Run(s, [e][..0]) == s;
    CoveredIff(before, ask, [e]);
    NarrationNeverBlocks(before, ask, [e]);
    assert Draws(s.log, PrinterAfter(s.pr, e), e) ==> LiftedAt(s, [e], LogBox, 0);
  }

  /** The scrim covers an open question exactly while it is visible and was shown since the question was asked. */
  lemma ScrimCoversIff(before: seq<Event>, ask: Event, es: seq<Event>)
    ensures var s := Next(Run(Initial, before), ask);
            var t := Run(s, es);
            Opens(Run(Initial, before), ask).Some? && Stands(s, es) ==>
              (t.scrim.visible && Covers(t.layer, BusyScrim)
               <==> t.scrim.visible && exists k :: 0 <= k < |es| && Shows(Run(s, es[..k]), es[k]).Some?)
  {
    hide Run, Opens, Covers, Stands, Next, Shows;
    CoveredIff(before, ask, es);
    var s := Next(Run(Initial, before), ask);
    if Lifted(s, es, BusyScrim) {
      var k :| LiftedAt(s, es, BusyScrim, k);
      assert Shows(Run(s, es[..k]), es[k]).Some?;
    }
    if k :| 0 <= k < |es| && Shows(Run(s, es[..k]), es[k]).Some? {
      assert LiftedAt(s, es, BusyScrim, k);
    }
  }
}
