/**
 The connect handshake and the boot screen. Callbacks of one link may arrive after that link is
 gone; an epoch captured at connect and bumped at disconnect keeps a late reply from hiding the
 boot screen. The bump happens outside the UI lock, so it is a step of its own.
 */
module Connection {

  /** The epoch is a 32-bit unsigned counter. */
  const WRAP: nat := 0x1_0000_0000

  datatype Phase = ObjectList | Subscribe | Seeded

  /**
   A reply still to come. `epoch` is what the callback captured; `gen` is the same number without
   wrapping, kept only so that claims can speak of it.
   */
  datatype Call = Call(phase: Phase, epoch: nat, gen: nat)

  /**
   `bumps` counts disconnects begun (`epoch` is its 32-bit image), `reshown` those whose locked
   part has run. `seeds` records the generations whose subscribe reply seeded the cockpit.
   */
  datatype Link = Link(
    epoch: nat, bumps: nat, reshown: nat, calls: seq<Call>, hidden: bool, seeds: seq<nat>,
    progressShown: bool, jokeTimer: bool, stage: nat)

  const Booted: Link := Link(0, 0, 0, [], false, [], false, true, 4)

  datatype Event =
    | RevealProgress
    | Stage(pct: nat)
    | Connect
    | ListReply(k: nat, hasObjects: bool)
    | SubscribeReply(k: nat)
    | FinishReply(k: nat)
    | Bump
    | Reshow

  function Drop(cs: seq<Call>, k: nat): seq<Call>
    requires k < |cs|
  {
    cs[..k] + cs[k + 1..]
  }

  predicate Due(s: Link, k: nat, phase: Phase) {
    k < |s.calls| && s.calls[k].phase == phase
  }

  function OnListReply(s: Link, k: nat, hasObjects: bool): Link
    requires Due(s, k, ObjectList)
  {
    var c, s1 := s.calls[k], s.(calls := Drop(s.calls, k));
    if hasObjects then s1.(calls := s1.calls + [c.(phase := Subscribe)], stage := 78) else s1.(stage := 55)
  }

  /** The epoch is compared under the lock, after the caches have been seeded. */
  function OnFinishReply(s: Link, k: nat): Link
    requires Due(s, k, Seeded)
  {
    var c, s1 := s.calls[k], s.(calls := Drop(s.calls, k));
    if c.epoch != s.epoch then s1 else s1.(hidden := true, stage := 100)
  }

  function Next(s: Link, e: Event): Link {
    match e
    case RevealProgress => if s.progressShown then s else s.(progressShown := true, jokeTimer := false)
    case Stage(pct) => s.(stage := pct)
    case Connect => s.(calls := s.calls + [Call(ObjectList, s.epoch, s.bumps)])
    case ListReply(k, has) => if Due(s, k, ObjectList) then OnListReply(s, k, has) else s
    case SubscribeReply(k) =>
      if Due(s, k, Subscribe) then
        s.(calls := s.calls[k := s.calls[k].(phase := Seeded)], seeds := s.seeds + [s.calls[k].gen])
      else s
    case FinishReply(k) => if Due(s, k, Seeded) then OnFinishReply(s, k) else s
    case Bump => s.(epoch := (s.epoch + 1) % WRAP, bumps := s.bumps + 1)
    case Reshow => if s.reshown < s.bumps then s.(reshown := s.reshown + 1, hidden := false, stage := 4) else s
  }

  function Run(s: Link, es: seq<Event>): Link
    decreases |es|
  {
    if es == [] then s else Next(Run(s, es[..|es| - 1]), es[|es| - 1])
  }

  // ---- what every run keeps ----

  ghost predicate CallOk(bumps: nat, c: Call) {
    c.gen <= bumps && c.epoch == c.gen % WRAP
  }

  ghost predicate Inv(s: Link) {
    && s.epoch == s.bumps % WRAP
    && s.reshown <= s.bumps
    && (forall k :: 0 <= k < |s.calls| ==> CallOk(s.bumps, s.calls[k]))
    && (s.progressShown <==> !s.jokeTimer)
  }

  lemma BumpWraps(n: nat)
    ensures (n + 1) % WRAP == (n % WRAP + 1) % WRAP
  {
  }

  lemma DropKeeps(s: Link, k: nat)
    requires Inv(s) && k < |s.calls|
    ensures Inv(s.(calls := Drop(s.calls, k)))
  {
    hide CallOk;
  }

  lemma NextInv(s: Link, e: Event)
    requires Inv(s)
    ensures Inv(Next(s, e))
  {
    BumpWraps(s.bumps);
    if (e.ListReply? || e.FinishReply?) && e.k < |s.calls| {
      DropKeeps(s, e.k);
    }
  }

  lemma {:induction false} RunInv(es: seq<Event>)
    ensures Inv(Run(Booted, es))
    decreases |es|
  {
    if es != [] {
      RunInv(es[..|es| - 1]);
      NextInv(Run(Booted, es[..|es| - 1]), es[|es| - 1]);
    }
  }

  // ---- whose reply is whose ----

  /** The disconnects begun in a run. */
  function Bumps(es: seq<Event>): nat {
    if es == [] then 0 else Bumps(es[..|es| - 1]) + if es[|es| - 1].Bump? then 1 else 0
  }

  lemma RunSnoc(s: Link, es: seq<Event>, e: Event)
    ensures Run(s, es + [e]) == Next(Run(s, es), e)
  {
    hide Next;
    assert (es + [e])[..|es|] == es;
  }

  lemma {:induction false} BumpsCounted(es: seq<Event>)
    ensures Run(Booted, es).bumps == Bumps(es)
    decreases |es|
  {
    if es != [] {
      BumpsCounted(es[..|es| - 1]);
    }
  }

  /** Every outstanding call was outstanding before with the same epoch, or the event is its connect. */
  lemma CallsCarryOver(s: Link, e: Event, i: nat) returns (j: nat)
    requires i < |Next(s, e).calls|
    ensures var c := Next(s, e).calls[i];
            || (j < |s.calls| && s.calls[j].epoch == c.epoch && s.calls[j].gen == c.gen)
            || (e.Connect? && c.epoch == s.epoch && c.gen == s.bumps)
  {
    j := i;
    if (e.ListReply? && Due(s, e.k, ObjectList)) || (e.FinishReply? && Due(s, e.k, Seeded)) {
      j := if i == |s.calls| - 1 then e.k else if i < e.k then i else i + 1;
    }
  }

  /**
   In every run each outstanding callback holds the number of disconnects begun before its own
   connect, and the 32-bit image of that number.
   */
  lemma {:induction false} CallBornAt(es: seq<Event>, i: nat) returns (k: nat)
    requires i < |Run(Booted, es).calls|
    ensures k < |es| && es[k].Connect?
    ensures var c := Run(Booted, es).calls[i]; c.gen == Bumps(es[..k]) && c.epoch == Bumps(es[..k]) % 0x1_0000_0000
    decreases |es|
  {
    hide Next;
    var before, e := es[..|es| - 1], es[|es| - 1];
    var s := Run(Booted, before);
    var j := CallsCarryOver(s, e, i);
    var c := Run(Booted, es).calls[i];
    if j < |s.calls| && s.calls[j].epoch == c.epoch && s.calls[j].gen == c.gen {
      k := CallBornAt(before, j);
      assert before[..k] == es[..k];
    } else {
      k := |es| - 1;
      BumpsCounted(before);
      RunInv(before);
    }
  }

  /**
   After any run whatever, a connect whose two replies arrive brings the cockpit back: the boot
   screen is hidden at full progress.
   */
  lemma ConnectReveals(es: seq<Event>)
    ensures var n := |Run(Booted, es).calls|;
            var t := Run(Booted, es + [Connect] + [ListReply(n, true)] + [SubscribeReply(n)] + [FinishReply(n)]);
            t.hidden && t.stage == 100
  {
    hide Run;
    var s := Run(Booted, es);
    var n := |s.calls|;
    RunSnoc(Booted, es, Connect);
    RunSnoc(Booted, es + [Connect], ListReply(n, true));
    RunSnoc(Booted, es + [Connect] + [ListReply(n, true)], SubscribeReply(n));
    RunSnoc(Booted, es + [Connect] + [ListReply(n, true)] + [SubscribeReply(n)], FinishReply(n));
    RevealSteps(s);
  }

  lemma RevealSteps(s: Link)
    ensures var n := |s.calls|;
            var t := Next(Next(Next(Next(s, Connect), ListReply(n, true)), SubscribeReply(n)), FinishReply(n));
            t.hidden && t.stage == 100
  {
    var n := |s.calls|;
    var s1 := Next(s, Connect);
    assert s1.calls[n] == Call(ObjectList, s.epoch, s.bumps) && s1.epoch == s.epoch;
    var s2 := Next(s1, ListReply(n, true));
    assert |s2.calls| == n + 1 && s2.calls[n] == Call(Subscribe, s.epoch, s.bumps) && s2.epoch == s.epoch;
    var s3 := Next(s2, SubscribeReply(n));
    assert s3.calls[n] == Call(Phase.Seeded, s.epoch, s.bumps) && s3.epoch == s.epoch;
  }

  /** A reply without objects ends its handshake and waits for the next connect. */
  lemma NoObjectsWaits(s: Link, k: nat)
    requires Due(s, k, ObjectList)
    ensures var t := Next(s, ListReply(k, false)); t.stage == 55 && |t.calls| == |s.calls| - 1 && t.hidden == s.hidden
  {
  }

  /** A completed disconnect always brings the boot screen back, at its first stage. */
  lemma DisconnectReshows(s: Link)
    requires s.reshown <= s.bumps
    ensures var t := Next(Next(s, Bump), Reshow); !t.hidden && t.stage == 4 && t.calls == s.calls
  {
  }

  /** From the first reveal on, the progress bar has replaced the jokes for good. */
  lemma {:induction false} ProgressOnce(es: seq<Event>)
    ensures var t := Run(Booted, es);
            (t.progressShown <==> exists k :: 0 <= k < |es| && es[k].RevealProgress?) && (t.jokeTimer <==> !t.progressShown)
    decreases |es|
  {
    if es != [] {
      var before := es[..|es| - 1];
      ProgressOnce(before);
      if k :| 0 <= k < |before| && before[k].RevealProgress? {
        assert es[k].RevealProgress?;
      }
      if k :| 0 <= k < |es| && es[k].RevealProgress? {
        assert k < |before| ==> before[k].RevealProgress?;
      }
    }
  }

  /**
   A reply of an earlier epoch hides the boot screen exactly when the 32-bit epoch has come round
   to its value: with fewer than 2^32 disconnects since its connect it changes nothing.
   */
  lemma LateReplyIff(s: Link, k: nat)
    requires Inv(s) && Due(s, k, Seeded) && !s.hidden
    ensures Next(s, FinishReply(k)).hidden <==> (s.bumps - s.calls[k].gen) % WRAP == 0
    ensures s.calls[k].gen < s.bumps < s.calls[k].gen + WRAP ==> !Next(s, FinishReply(k)).hidden
  {
    Congruent(s.calls[k].gen, s.bumps);
  }

  lemma Congruent(a: nat, b: nat)
    requires a <= b
    ensures a % WRAP == b % WRAP <==> (b - a) % WRAP == 0
    ensures a < b < a + WRAP ==> (b - a) % WRAP != 0
  {
  }

  /** Is event `i` of the run a subscribe reply that passed the epoch check? */
  ghost predicate Reveals(es: seq<Event>, i: nat)
    requires i < |es|
  {
    var s := Run(Booted, es[..i]);
    es[i].FinishReply? && Due(s, es[i].k, Seeded) && s.calls[es[i].k].epoch == s.epoch
  }

  /** A hidden boot screen was hidden by such a reply, and no disconnect has completed since. */
  lemma {:induction false} HiddenByReply(es: seq<Event>) returns (i: nat)
    requires Run(Booted, es).hidden
    ensures i < |es| && Reveals(es, i)
    ensures Run(Booted, es).reshown == Run(Booted, es[..i]).reshown
    ensures Run(Booted, es[..i]).bumps <= Run(Booted, es).bumps
    decreases |es|
  {
    var last := |es| - 1;
    var before, s := es[..last], Run(Booted, es[..last]);
    if es[last].FinishReply? && Due(s, es[last].k, Seeded) && s.calls[es[last].k].epoch == s.epoch {
      i := last;
    } else {
      i := HiddenByReply(before);
      assert before[..i] == es[..i];
    }
  }

  /**
   With fewer than 2^32 disconnects, the reply that hid the boot screen belonged to the connection
   current at that moment and came after the last completed disconnect; when no disconnect is half
   done it belongs to the connection current now.
   */
  lemma HiddenOnlyByCurrentLink(es: seq<Event>) returns (i: nat)
    requires Run(Booted, es).hidden && Run(Booted, es).bumps < WRAP
    ensures i < |es| && Reveals(es, i)
    ensures var s, t := Run(Booted, es[..i]), Run(Booted, es);
            && s.calls[es[i].k].gen == s.bumps && s.reshown == t.reshown
            && (t.reshown == t.bumps ==> s.bumps == t.bumps)
  {
    i := HiddenByReply(es);
    RunInv(es[..i]);
    var s := Run(Booted, es[..i]);
    Congruent(s.calls[es[i].k].gen, s.bumps);
  }

  /** `n` completed disconnects. */
  function Disconnects(n: nat): seq<Event> {
    if n == 0 then [] else Disconnects(n - 1) + [Bump] + [Reshow]
  }

  /** A link whose subscribe reply has seeded the caches but not yet taken the lock. */
  const Seeding: Link := Next(Next(Next(Booted, Connect), ListReply(0, true)), SubscribeReply(0))

  lemma SeedingIs()
    ensures Seeding.calls == [Call(Phase.Seeded, 0, 0)] && Seeding.bumps == 0 && Seeding.reshown == 0
    ensures Seeding.epoch == 0 && !Seeding.hidden
  {
    var s1 := Next(Booted, Connect);
    assert s1.calls == [Call(ObjectList, 0, 0)];
    var s2 := Next(s1, ListReply(0, true));
    assert s2.calls == [Call(Subscribe, 0, 0)];
    assert Seeding.calls == [Call(Phase.Seeded, 0, 0)];
  }

  /** A whole disconnect: the bump, then the locked re-show. */
  lemma DisconnectOnce(s: Link)
    requires s.reshown == s.bumps && s.epoch == s.bumps % WRAP
    ensures var t := Next(Next(s, Bump), Reshow);
            && t.calls == s.calls && t.bumps == s.bumps + 1 && t.reshown == s.bumps + 1
            && t.epoch == (s.bumps + 1) % WRAP && !t.hidden
  {
    BumpWraps(s.bumps);
  }

  lemma {:induction false} DisconnectsRun(n: nat)
    ensures var t := Run(Seeding, Disconnects(n));
            t.calls == [Call(Phase.Seeded, 0, 0)] && t.bumps == n && t.reshown == n && t.epoch == n % WRAP && !t.hidden
  {
    hide Next, Seeding;
    if n == 0 {
      SeedingIs();
    } else {
      DisconnectsRun(n - 1);
      var es := Disconnects(n - 1);
      RunSnoc(Seeding, es, Bump);
      RunSnoc(Seeding, es + [Bump], Reshow);
      DisconnectOnce(Run(Seeding, es));
    }
  }

  /** The link dies `n` times before its reply takes the lock: the reply hides the boot screen if and only if 2^32 divides `n`. */
  lemma LateRevealRun(n: nat)
    ensures Run(Seeding, Disconnects(n) + [FinishReply(0)]).hidden <==> n % WRAP == 0
  {
    DisconnectsRun(n);
    RunSnoc(Seeding, Disconnects(n), FinishReply(0));
  }

  /** A late reply still seeds the cockpit's caches; only the reveal is guarded. */
  lemma LateReplySeeds()
    ensures var s2 := Next(Next(Booted, Connect), ListReply(0, true));
            var s4 := Next(Next(s2, Bump), Reshow);
            var s6 := Next(Next(s4, SubscribeReply(0)), FinishReply(0));
            s6.seeds == [0] && s6.bumps == 1 && !s6.hidden
  {
    var s1 := Next(Booted, Connect);
    assert s1.calls == [Call(ObjectList, 0, 0)];
    var s2 := Next(s1, ListReply(0, true));
    assert s2.calls == [Call(Subscribe, 0, 0)];
    var s5 := Next(Next(Next(s2, Bump), Reshow), SubscribeReply(0));
    assert s5.calls == [Call(Seeded, 0, 0)] && s5.epoch == 1;
  }

  // ---- the panel object ----

  class InitPanel {
    var connEpoch: nat
    var calls: seq<Call>
    var hidden: bool
    var progressShown: bool
    var jokeTimer: bool
    var stage: nat
    // kept for the claims only
    var bumps: nat
    var reshown: nat
    var seeds: seq<nat>

    ghost function View(): Link
      reads this
    {
      Link(connEpoch, bumps, reshown, calls, hidden, seeds, progressShown, jokeTimer, stage)
    }

    constructor ()
      ensures View() == Booted
    {
      connEpoch, bumps, reshown, calls, hidden, seeds := 0, 0, 0, [], false, [];
      progressShown, jokeTimer, stage := false, true, 4;
    }

    /** Once: stop the jokes and bring the progress bar in. */
    method ShowProgress()
      modifies this`progressShown, this`jokeTimer
      ensures View() == Next(old(View()), RevealProgress)
    {
      if progressShown {
        return;
      }
      progressShown := true;
      jokeTimer := false;
    }

    /** connected() after its locked stage updates: capture the epoch and ask for the object list. */
    method Connected()
      modifies this`calls
      ensures View() == Next(old(View()), Connect)
    {
      var epoch := connEpoch;
      calls := calls + [Call(ObjectList, epoch, bumps)];
    }

    method ListReplied(k: nat, hasObjects: bool)
      requires Due(View(), k, ObjectList)
      modifies this`calls, this`stage
      ensures View() == Next(old(View()), ListReply(k, hasObjects))
    {
      var c := calls[k];
      calls := calls[..k] + calls[k + 1..];
      if hasObjects {
        stage := 78;
        calls := calls + [Call(Subscribe, c.epoch, c.gen)];
      } else {
        stage := 55;
      }
    }

    /** The locked end of the subscribe reply, after the cockpit was seeded. */
    method FinishReplied(k: nat)
      requires Due(View(), k, Seeded)
      modifies this`calls, this`stage, this`hidden
      ensures View() == Next(old(View()), FinishReply(k))
    {
      var epoch := calls[k].epoch;
      calls := calls[..k] + calls[k + 1..];
      if epoch != connEpoch {
        return;
      }
      stage := 100;
      hidden := true;
    }

    method Handle(e: Event)
      modifies this
      ensures View() == Next(old(View()), e)
    {
      match e
      case RevealProgress => ShowProgress();
      case Stage(pct) => stage := pct;
      case Connect => Connected();
      case ListReply(k, has) =>
        if k < |calls| && calls[k].phase == ObjectList {
          ListReplied(k, has);
        }
      case SubscribeReply(k) =>
        if k < |calls| && calls[k].phase == Subscribe {
          seeds := seeds + [calls[k].gen];
          calls := calls[k := calls[k].(phase := Seeded)];
        }
      case FinishReply(k) =>
        if k < |calls| && calls[k].phase == Seeded {
          FinishReplied(k);
        }
      case Bump =>
        connEpoch := (connEpoch + 1) % WRAP;
        bumps := bumps + 1;
      case Reshow =>
        if reshown < bumps {
          reshown := reshown + 1;
          stage := 4;
          hidden := false;
        }
    }
  }

  /** Driving a new panel through any events lands in the state the run claims speak of. */
  method Drive(es: seq<Event>) returns (panel: InitPanel)
    ensures fresh(panel) && panel.View() == Run(Booted, es)
  {
    hide Next;
    panel := new InitPanel();
    for i := 0 to |es|
      invariant fresh(panel) && panel.View() == Run(Booted, es[..i])
    {
      assert es[..i + 1][..i] == es[..i];
      panel.Handle(es[i]);
    }
    assert es[..|es|] == es;
  }
}
