/** Which clients always get answers that fit, what a re-open restores, and the runs in which
    the guarantees fail (src/terminals.rs, src/pty.rs, static/terminal.html). */
module RelayRuns {
  import opened Basics
  import opened Scrollbacks
  import opened Relay
  import opened RelayClient

  // ---- the shipped pages ----------------------------------------------------

  /** A client that never offers a checkpoint. */
  predicate NeverResumes(run: seq<Event>)
  {
    forall i :: 0 <= i < |run| && run[i].SendOpen? ==> !run[i].resume
  }

  predicate OnlyReplays(w: World)
  {
    && (forall i :: 0 <= i < |w.asks| ==> w.asks[i].None?)
    && Answering(w.loop).None?
    && (forall k :: 0 <= k < |w.fifo| && w.fifo[k].Hello? ==> w.fifo[k].mode.Replay?)
  }

  /** At most one frame more, and no resume hello. */
  lemma QueuedOnlyReplays(w: World, v: World)
    requires OnlyReplays(w) && v.asks == w.asks && Answering(v.loop).None?
    requires v.fifo == w.fifo || (|v.fifo| == |w.fifo| + 1 && v.fifo[..|w.fifo|] == w.fifo
                                  && (v.fifo[|w.fifo|].Hello? ==> v.fifo[|w.fifo|].mode.Replay?))
    ensures OnlyReplays(v)
  {
    forall k | 0 <= k < |v.fifo| && v.fifo[k].Hello? ensures v.fifo[k].mode.Replay? {
      if k < |w.fifo| { assert v.fifo[..|w.fifo|][k] == v.fifo[k]; }
    }
  }

  lemma ShellsOnlyReplays(w: World, e: Event)
    requires OnlyReplays(w) && Enabled(w, e) && OfShells(e)
    ensures OnlyReplays(Apply(w, e))
  {
    var v := Apply(w, e);
    QueuedOnlyReplays(w, v);
  }

  lemma ForwardOnlyReplays(w: World, e: Event)
    requires OnlyReplays(w) && Enabled(w, e) && !OfShells(e) && !OfLoop(e)
    ensures OnlyReplays(Apply(w, e))
  {
    QueuedOnlyReplays(w, Apply(w, e));
  }

  lemma HandleOpenOnlyReplays(w: World)
    requires OnlyReplays(w) && Enabled(w, HandleOpen)
    ensures OnlyReplays(Apply(w, HandleOpen))
  {
    forall i | 0 <= i < |w.asks[1..]| ensures w.asks[1..][i].None? { assert w.asks[1..][i] == w.asks[i + 1]; }
  }

  lemma DeliverOnlyReplays(w: World)
    requires OnlyReplays(w) && w.fifo != []
    ensures OnlyReplays(Apply(w, Deliver))
  {
    forall k | 0 <= k < |w.fifo[1..]| && w.fifo[1..][k].Hello? ensures w.fifo[1..][k].mode.Replay? {
      assert w.fifo[1..][k] == w.fifo[k + 1];
    }
  }

  lemma CutOnlyReplays(w: World)
    requires OnlyReplays(w) && Enabled(w, CutReplay)
    ensures OnlyReplays(Apply(w, CutReplay))
  {
    CutTail(w.shells[w.loop.epoch], w.cap, w.loop.epoch, w.loop.resume);
  }

  /** The wire and the outstanding opens stay. */
  predicate Quiet(e: Event) { e.ForwardGone? || e.Subscribe? || e.SpawnForward? || e.Disconnect? }

  lemma QuietOnlyReplays(w: World, e: Event)
    requires OnlyReplays(w) && Enabled(w, e) && Quiet(e)
    ensures OnlyReplays(Apply(w, e))
  {
  }

  lemma QueueOnlyReplays(w: World, e: Event)
    requires OnlyReplays(w) && Enabled(w, e) && (e.QueueHello? || e.QueueReplay?)
    ensures OnlyReplays(Apply(w, e))
  {
    QueuedOnlyReplays(w, Apply(w, e));
  }

  lemma LoopOnlyReplays(w: World, e: Event)
    requires OnlyReplays(w) && Enabled(w, e) && OfLoop(e) && (e.SendOpen? ==> !e.resume)
    ensures OnlyReplays(Apply(w, e))
  {
    if Quiet(e) {
      QuietOnlyReplays(w, e);
    } else if e.QueueHello? || e.QueueReplay? {
      QueueOnlyReplays(w, e);
    } else if e.HandleOpen? {
      HandleOpenOnlyReplays(w);
    } else if e.Deliver? {
      DeliverOnlyReplays(w);
    } else if e.CutReplay? {
      CutOnlyReplays(w);
    }
  }

  lemma StepOnlyReplays(w: World, e: Event)
    requires OnlyReplays(w) && Enabled(w, e) && (e.SendOpen? ==> !e.resume)
    ensures OnlyReplays(Apply(w, e))
  {
    if OfShells(e) {
      ShellsOnlyReplays(w, e);
    } else if OfLoop(e) {
      LoopOnlyReplays(w, e);
    } else {
      ForwardOnlyReplays(w, e);
    }
  }

  /** Such a client is only ever greeted with full replays, and every answer fits. */
  lemma {:induction false} NeverResumesOnlyReplays(w: World, run: seq<Event>)
    requires Legal(w, run) && NeverResumes(run) && OnlyReplays(w)
    ensures AllAnswersFit(w, run) && OnlyReplays(After(w, run))
    decreases run
  {
    if run != [] {
      StepOnlyReplays(w, run[0]);
      assert forall i :: 0 <= i < |run[1..]| ==> run[1..][i] == run[i + 1];
      NeverResumesOnlyReplays(Apply(w, run[0]), run[1..]);
    }
  }

  // ---- one open at a time ------------------------------------------------------

  /** No open of this connection is unanswered. */
  predicate Answered(w: World)
  {
    w.asks == [] && (w.loop.Ready? || w.loop.Greeted? || w.loop.Replayed?) && NoHello(w.fifo)
  }

  /** A client that counts its opens offers a checkpoint only then. */
  predicate Disciplined(w: World, e: Event) { e.SendOpen? && e.resume ==> Answered(w) }

  predicate AllDisciplined(w: World, run: seq<Event>)
    requires Legal(w, run)
    decreases run
  {
    run == [] || (Disciplined(w, run[0]) && AllDisciplined(Apply(w, run[0]), run[1..]))
  }

  /** The checkpoint the loop has not answered yet. */
  function Unanswered(l: Loop): Option<Checkpoint>
  {
    match l
    case Stopping(resume) => resume
    case Looking(resume) => resume
    case Found(_, resume) => resume
    case Cut(e, r, _, _) => if r.mode.Resume? then Some(Checkpoint(e, r.base)) else None
    case Subscribed(e, r, _, _, _) => if r.mode.Resume? then Some(Checkpoint(e, r.base)) else None
    case _ => None
  }

  predicate Waits(c: Client, cp: Checkpoint) { c.awaiting && ResumeAt(c, cp.epoch, cp.offset) }

  /** Outstanding checkpoints and queued resumes still name the client's place, and nothing
      that would move it comes before them. */
  predicate ResumesFit(w: World)
  {
    && (forall i :: 0 <= i < |w.asks| && w.asks[i].Some? ==>
          i == 0 && Answered(w.(asks := [])) && Waits(w.client, w.asks[i].value))
    && (Unanswered(w.loop).Some? ==> NoHello(w.fifo) && Waits(w.client, Unanswered(w.loop).value))
    && (forall k :: 0 <= k < |w.fifo| && w.fifo[k].Hello? && w.fifo[k].mode.Resume? ==>
          NoHello(w.fifo[..k]) && Waits(w.client, Checkpoint(w.fifo[k].epoch, w.fifo[k].offset)))
  }

  lemma NoHelloSnoc(fifo: seq<Frame>, f: Frame, k: nat)
    requires k <= |fifo|
    ensures (fifo + [f])[..k] == fifo[..k]
    ensures NoHello(fifo) && !f.Hello? ==> NoHello(fifo + [f])
  {
  }

  /** A frame that is no hello is queued. */
  lemma PlainFits(w: World, v: World, f: Frame)
    requires ResumesFit(w) && !f.Hello? && v.fifo == w.fifo + [f]
    requires v.client == w.client && v.asks == w.asks
    requires v.loop == w.loop || (Unanswered(v.loop).None? && (v.loop.Ready? || v.loop.Replayed?)
                                  && (w.loop.Greeted? || forall i :: 0 <= i < |w.asks| ==> w.asks[i].None?))
    ensures ResumesFit(v)
  {
    NoHelloSnoc(w.fifo, f, |w.fifo|);
    forall k | 0 <= k < |v.fifo| && v.fifo[k].Hello? && v.fifo[k].mode.Resume?
      ensures NoHello(v.fifo[..k]) && Waits(v.client, Checkpoint(v.fifo[k].epoch, v.fifo[k].offset))
    {
      NoHelloSnoc(w.fifo, f, k);
      assert v.fifo[k] == w.fifo[k];
    }
  }

  lemma SendOpenFits(w: World, resume: bool)
    requires ResumesFit(w) && Enabled(w, SendOpen(resume)) && Disciplined(w, SendOpen(resume))
    ensures ResumesFit(Apply(w, SendOpen(resume)))
  {
    var v := Apply(w, SendOpen(resume));
    forall i | 0 <= i < |v.asks| && v.asks[i].Some?
      ensures i == 0 && Answered(v.(asks := [])) && Waits(v.client, v.asks[i].value)
    {
      if i < |w.asks| { assert v.asks[i] == w.asks[i]; }
    }
  }

  lemma HandleOpenFits(w: World)
    requires ResumesFit(w) && Enabled(w, HandleOpen)
    ensures ResumesFit(Apply(w, HandleOpen))
  {
    var v := Apply(w, HandleOpen);
    assert forall i :: 0 <= i < |v.asks| ==> v.asks[i] == w.asks[i + 1];
  }

  lemma QueueHelloFits(w: World)
    requires ResumesFit(w) && w.loop.Subscribed?
    ensures ResumesFit(Apply(w, QueueHello))
  {
    var v := Apply(w, QueueHello);
    var f := v.fifo[|w.fifo|];
    forall k | 0 <= k < |v.fifo| && v.fifo[k].Hello? && v.fifo[k].mode.Resume?
      ensures NoHello(v.fifo[..k]) && Waits(v.client, Checkpoint(v.fifo[k].epoch, v.fifo[k].offset))
    {
      NoHelloSnoc(w.fifo, f, k);
      if k < |w.fifo| { assert v.fifo[k] == w.fifo[k]; }
    }
  }

  lemma DeliverFits(w: World)
    requires ResumesFit(w) && w.fifo != []
    ensures ResumesFit(Apply(w, Deliver)) && AnswerFits(w, Deliver)
  {
    var v := Apply(w, Deliver);
    assert NoHello(w.fifo) ==> NoHello(v.fifo) by {
      assert forall i :: 0 <= i < |v.fifo| ==> v.fifo[i] == w.fifo[i + 1];
    }
    forall k | 0 <= k < |v.fifo| && v.fifo[k].Hello? && v.fifo[k].mode.Resume?
      ensures NoHello(v.fifo[..k]) && Waits(v.client, Checkpoint(v.fifo[k].epoch, v.fifo[k].offset))
    {
      assert v.fifo[k] == w.fifo[k + 1] && w.fifo[..k + 1][0] == w.fifo[0];
      assert forall i :: 0 <= i < k ==> v.fifo[..k][i] == w.fifo[..k + 1][i + 1];
    }
    if NoHello(w.fifo) { assert !w.fifo[0].Hello?; }
  }

  lemma CutReplayFits(w: World)
    requires ResumesFit(w) && Enabled(w, CutReplay)
    ensures ResumesFit(Apply(w, CutReplay))
  {
    CutTail(w.shells[w.loop.epoch], w.cap, w.loop.epoch, w.loop.resume);
  }

  /** The forward task only adds plain frames. */
  lemma ForwardFits(w: World, e: Event)
    requires Inv(w) && ResumesFit(w) && Enabled(w, e) && !OfShells(e) && !OfLoop(e)
    ensures ResumesFit(Apply(w, e))
  {
    var v := Apply(w, e);
    if v.fifo != w.fifo { PlainFits(w, v, v.fifo[|w.fifo|]); }
  }

  lemma ShellsFit(w: World, e: Event)
    requires Inv(w) && ResumesFit(w) && Enabled(w, e) && OfShells(e)
    ensures ResumesFit(Apply(w, e))
  {
    var v := Apply(w, e);
    if e.AttachFails? { PlainFits(w, v, Closed(Error)); }
  }

  lemma LoopFits(w: World, e: Event)
    requires Inv(w) && ResumesFit(w) && Enabled(w, e) && Disciplined(w, e) && OfLoop(e)
    ensures ResumesFit(Apply(w, e)) && AnswerFits(w, e)
  {
    if Quiet(e) {
      QuietFits(w, e);
    } else if e.SendOpen? {
      SendOpenFits(w, e.resume);
    } else if e.HandleOpen? {
      HandleOpenFits(w);
    } else if e.CutReplay? {
      CutReplayFits(w);
    } else if e.QueueHello? {
      QueueHelloFits(w);
    } else if e.QueueReplay? {
      QueueReplayFits(w);
    } else {
      DeliverFits(w);
    }
  }

  lemma QuietFits(w: World, e: Event)
    requires ResumesFit(w) && Enabled(w, e) && Quiet(e)
    ensures ResumesFit(Apply(w, e))
  {
  }

  lemma QueueReplayFits(w: World)
    requires ResumesFit(w) && w.loop.Greeted?
    ensures ResumesFit(Apply(w, QueueReplay))
  {
    PlainFits(w, Apply(w, QueueReplay), Data(w.loop.r.bytes));
  }

  /** A client that has no open outstanding whenever it offers a checkpoint gets only answers
      that fit. */
  lemma DisciplineSuffices(cap: nat, run: seq<Event>)
    requires Legal(Start(cap), run) && AllDisciplined(Start(cap), run)
    ensures AllAnswersFit(Start(cap), run)
  {
    StartHolds(cap);
    DisciplineFits(Start(cap), run);
  }

  lemma {:induction false} DisciplineFits(w: World, run: seq<Event>)
    requires Inv(w) && ResumesFit(w) && Legal(w, run) && AllDisciplined(w, run)
    ensures AllAnswersFit(w, run)
    decreases run
  {
    if run != [] {
      var e := run[0];
      if OfShells(e) {
        ShellsFit(w, e);
      } else if OfLoop(e) {
        LoopFits(w, e);
      } else {
        ForwardFits(w, e);
      }
      StepKeeps(w, e);
      DisciplineFits(Apply(w, e), run[1..]);
    }
  }

  // ---- composing runs ----------------------------------------------------------------

  lemma {:induction false} LegalConcat(w: World, a: seq<Event>, b: seq<Event>)
    requires Legal(w, a) && Legal(After(w, a), b)
    ensures Legal(w, a + b) && After(w, a + b) == After(After(w, a), b)
    decreases a
  {
    if a == [] {
      assert a + b == b;
    } else {
      assert (a + b)[1..] == a[1..] + b;
      LegalConcat(Apply(w, a[0]), a[1..], b);
    }
  }

  lemma LegalOne(w: World, e: Event)
    requires Enabled(w, e)
    ensures Legal(w, [e]) && After(w, [e]) == Apply(w, e)
  {
    assert [e][1..] == [];
  }

  /** One more event at the end of a run. */
  lemma LegalSnoc(w: World, run: seq<Event>, e: Event)
    requires Legal(w, run) && Enabled(After(w, run), e)
    ensures Legal(w, run + [e]) && After(w, run + [e]) == Apply(After(w, run), e)
  {
    LegalOne(After(w, run), e);
    LegalConcat(w, run, [e]);
  }

  // ---- what a re-open restores ----------------------------------------------------------

  function Deliveries(n: nat): seq<Event> { seq(n, i => Deliver) }

  lemma {:induction false} AllDelivered(w: World)
    ensures Legal(w, Deliveries(|w.fifo|))
    ensures var x := After(w, Deliveries(|w.fifo|));
            && x == w.(fifo := [], cursor := x.cursor, client := x.client)
            && (!NoHello(w.fifo) || !w.client.awaiting ==> !x.client.awaiting)
    decreases |w.fifo|
  {
    if w.fifo != [] {
      var v := Apply(w, Deliver);
      AllDelivered(v);
      assert Deliveries(|w.fifo|)[1..] == Deliveries(|v.fifo|);
      if NoHello(v.fifo) && !w.fifo[0].Hello? {
        forall i | 0 <= i < |w.fifo| ensures !w.fifo[i].Hello? { if i > 0 { assert w.fifo[i] == v.fifo[i - 1]; } }
      }
    }
  }

  /** The last hello among the frames is that of a replay. */
  predicate EndsInReplay(fifo: seq<Frame>)
  {
    exists i :: 0 <= i < |fifo| && fifo[i].Hello? && fifo[i].mode.Replay? && NoHello(fifo[i + 1..])
  }

  /** Frames that are no hello leave the account of answers as it is. */
  lemma {:induction false} PlainDeliveries(w: World, so: bool)
    requires NoHello(w.fifo)
    ensures Legal(w, Deliveries(|w.fifo|)) && FitsSinceReplay(w, Deliveries(|w.fifo|), so) == so
    decreases |w.fifo|
  {
    AllDelivered(w);
    if w.fifo != [] {
      assert Deliveries(|w.fifo|)[1..] == Deliveries(|w.fifo| - 1);
      assert forall i :: 0 <= i < |w.fifo| - 1 ==> w.fifo[1..][i] == w.fifo[i + 1];
      PlainDeliveries(Apply(w, Deliver), so);
    }
  }

  /** Whatever answers came before it. */
  lemma {:induction false} ReplayIsLast(w: World, so: bool)
    requires EndsInReplay(w.fifo)
    ensures Legal(w, Deliveries(|w.fifo|)) && FitsSinceReplay(w, Deliveries(|w.fifo|), so)
    decreases |w.fifo|
  {
    AllDelivered(w);
    assert Deliveries(|w.fifo|)[1..] == Deliveries(|w.fifo| - 1);
    var v := Apply(w, Deliver);
    var i :| 0 <= i < |w.fifo| && w.fifo[i].Hello? && w.fifo[i].mode.Replay? && NoHello(w.fifo[i + 1..]);
    if i == 0 {
      PlainDeliveries(v, true);
    } else {
      assert v.fifo[i - 1] == w.fifo[i] && v.fifo[i..] == w.fifo[i + 1..];
      ReplayIsLast(v, so && AnswerFits(w, Deliver));
      ReplayIsLast(v, true);
    }
  }

  /** The client of `x` follows the channel that `v` has just attached: with what its forward
      task still has to read it holds the shell's stream to the end. */
  predicate Healed(v: World, x: World)
  {
    && v.link.Attached? && x.client.known == Some(v.link.epoch) && v.link.epoch in v.shells
    && var s := v.shells[v.link.epoch];
       && v.link.pos <= |s.sent| && x.client.base <= |s.log|
       && x.client.held + Flatten(s.sent[v.link.pos..]) == s.log[x.client.base..]
  }

  /** As soon as an open has been answered and its frames have arrived, a client all of whose
      answers since its last replay fit, and which is not waiting for yet another one, follows
      the new channel. It is not waiting if the hello was among those frames. */
  lemma ReopenHeals(cap: nat, run: seq<Event>)
    requires Legal(Start(cap), run) && After(Start(cap), run).loop.Replayed?
    ensures var v := Apply(After(Start(cap), run), SpawnForward);
            Legal(v, Deliveries(|v.fifo|))
            && var x := After(v, Deliveries(|v.fifo|));
               && (!NoHello(v.fifo) ==> !x.client.awaiting)
               && (FitsSinceReplay(v, Deliveries(|v.fifo|), FitsSinceReplay(Start(cap), run, true)) ==>
                     !x.client.awaiting ==> Healed(v, x))
  {
    var w := After(Start(cap), run);
    StartHolds(cap);
    RunKeeps(Start(cap), run);
    SinceReplayIff(Start(cap), run, true);
    SpawnForwardKeeps(w);
    var v := Apply(w, SpawnForward);
    DeliveriesHeal(v, FitsSinceReplay(Start(cap), run, true));
  }

  lemma DeliveriesHeal(v: World, so: bool)
    requires Inv(v) && (so ==> Honest(v.shells, v.client)) && v.link.Attached? && v.link.pending == []
    ensures Legal(v, Deliveries(|v.fifo|))
    ensures var x := After(v, Deliveries(|v.fifo|));
            && (!NoHello(v.fifo) ==> !x.client.awaiting)
            && (FitsSinceReplay(v, Deliveries(|v.fifo|), so) ==> !x.client.awaiting ==> Healed(v, x))
  {
    var d := Deliveries(|v.fifo|);
    AllDelivered(v);
    if FitsSinceReplay(v, d, so) {
      RunKeeps(v, d);
      SinceReplayIff(v, d, so);
      Standing(After(v, d));
    }
  }

  /** A replay heals everything: whatever the client asked for and was told in any run before,
      once an open has been answered with a replay and the frames have arrived, it follows. */
  lemma ReplayReopenHeals(cap: nat, run: seq<Event>)
    requires Legal(Start(cap), run) && After(Start(cap), run).loop.Replayed?
    requires EndsInReplay(After(Start(cap), run).fifo)
    ensures var v := Apply(After(Start(cap), run), SpawnForward);
            Legal(v, Deliveries(|v.fifo|)) && Healed(v, After(v, Deliveries(|v.fifo|)))
  {
    ReopenHeals(cap, run);
    ReplayIsLast(Apply(After(Start(cap), run), SpawnForward), FitsSinceReplay(Start(cap), run, true));
  }

  lemma Standing(x: World)
    requires Inv(x) && Honest(x.shells, x.client) && x.link.Attached? && x.link.pending == [] && x.fifo == []
    ensures !x.client.awaiting ==>
              && x.client.known == Some(x.link.epoch)
              && x.client.held + Flatten(x.shells[x.link.epoch].sent[x.link.pos..])
                 == x.shells[x.link.epoch].log[x.client.base..]
  {
    if !x.client.awaiting {
      Accounts(x);
      assert x.client.held + [] + [] == x.client.held;
    }
  }

  // ---- a death nobody tells of ------------------------------------------------------------

  /** From the alive check to the forward task. */
  const FROM_FOUND: seq<Event> := [CutReplay, Subscribe, QueueHello, QueueReplay, SpawnForward]

  /** What those steps do, when nothing happens in between. */
  ghost predicate LinkedTo(w: World, v: World)
    requires w.loop.Found? && w.loop.epoch in w.shells
  {
    var e := w.loop.epoch;
    var s := w.shells[e];
    var r := CutFor(s, w.cap, e, w.loop.resume);
    && v.shells == w.shells && v.slot == w.slot && v.cap == w.cap && v.loop == Ready
    && v.asks == w.asks && v.client == w.client && v.cursor == w.cursor
    && v.link == Attached(v.serial, e, |s.sent|, [], None, Seen(Version(s), s.open, s.stops))
    && v.fifo == w.fifo + [Hello(r.mode, e, r.base, if r.mode.Replay? then InitAt(s.log, r.base) else [])]
                  + [Data(r.bytes)]
  }

  lemma CutAndSubscribed(w: World)
    requires w.loop.Found? && w.loop.epoch in w.shells
    ensures Legal(w, [CutReplay] + [Subscribe])
    ensures var e := w.loop.epoch;
            var s := w.shells[e];
            var r := CutFor(s, w.cap, e, w.loop.resume);
            After(w, [CutReplay] + [Subscribe])
              == w.(loop := Subscribed(e, r, if r.mode.Replay? then InitAt(s.log, r.base) else [], |s.sent|,
                                       Seen(Version(s), s.open, s.stops)))
  {
    LegalOne(w, CutReplay);
    LegalSnoc(w, [CutReplay], Subscribe);
  }

  lemma GreetedAndLinked(w: World)
    requires w.loop.Subscribed?
    ensures Legal(w, [QueueHello] + [QueueReplay] + [SpawnForward])
    ensures var l, v := w.loop, After(w, [QueueHello] + [QueueReplay] + [SpawnForward]);
            v == w.(loop := Ready, serial := v.serial, trace := v.trace,
                    link := Attached(v.serial, l.epoch, l.pos, [], None, l.seen),
                    fifo := w.fifo + [Hello(l.r.mode, l.epoch, l.r.base, l.init)] + [Data(l.r.bytes)])
  {
    LegalOne(w, QueueHello);
    LegalSnoc(w, [QueueHello], QueueReplay);
    LegalSnoc(w, [QueueHello] + [QueueReplay], SpawnForward);
  }

  lemma LinkedRun(w: World)
    requires w.loop.Found? && w.loop.epoch in w.shells
    ensures Legal(w, FROM_FOUND) && LinkedTo(w, After(w, FROM_FOUND))
  {
    CutAndSubscribed(w);
    GreetedAndLinked(After(w, [CutReplay] + [Subscribe]));
    LegalConcat(w, [CutReplay] + [Subscribe], [QueueHello] + [QueueReplay] + [SpawnForward]);
    assert FROM_FOUND == [CutReplay] + [Subscribe] + ([QueueHello] + [QueueReplay] + [SpawnForward]);
  }

  /** A shell that dies between the alive check and the subscription leaves a channel attached
      to it that has nothing to wait for: neither the announcement nor the end of the output
      ever reaches it, until somebody stops that shell or opens again. */
  lemma DeathBeforeSubscriptionIsUntold(w: World)
    requires Inv(w) && w.loop.Found? && w.shells[w.loop.epoch].open
    ensures Enabled(w, ReaderEnds(w.loop.epoch))
    ensures var v := Apply(w, ReaderEnds(w.loop.epoch));
            && Legal(v, FROM_FOUND)
            && var x := After(v, FROM_FOUND);
               && Idle(x) && Unread(x) == 0 && !x.shells[x.link.epoch].open
               && !Enabled(x, Shutdown) && !Enabled(x, OutputEnds) && !Enabled(x, Receive) && !Enabled(x, Lag)
  {
    var v := Apply(w, ReaderEnds(w.loop.epoch));
    LinkedRun(v);
    NothingToHear(v, After(v, FROM_FOUND));
  }

  lemma NothingToHear(v: World, x: World)
    requires v.loop.Found? && v.loop.epoch in v.shells && LinkedTo(v, x)
    requires !v.shells[v.loop.epoch].open && !v.shells[v.loop.epoch].dropped
    ensures Idle(x) && Unread(x) == 0 && !x.shells[x.link.epoch].open
    ensures !Enabled(x, Shutdown) && !Enabled(x, OutputEnds) && !Enabled(x, Receive) && !Enabled(x, Lag)
  {
  }

  // ---- overlapping opens ------------------------------------------------------------------

  /** An open answered without a break. */
  function AnswerRun(spawned: Epoch): seq<Event>
  {
    [HandleOpen, ForwardGone, FindShell(spawned)] + FROM_FOUND
  }

  /** What it does to the wire and the shells. */
  ghost predicate AnsweredTo(w: World, v: World, spawned: Epoch)
    requires w.asks != [] && (NeedsSpawn(w) ==> spawned !in w.shells)
  {
    var u := WithShell(w, spawned);
    && u.slot.Some? && u.slot.value in u.shells
    && var e := u.slot.value;
       var s := u.shells[e];
       var r := CutFor(s, w.cap, e, w.asks[0]);
       && v.shells == u.shells && v.slot == u.slot && v.cap == w.cap && v.loop == Ready
       && v.asks == w.asks[1..] && v.client == w.client && v.cursor == w.cursor
       && v.fifo == w.fifo + [Hello(r.mode, e, r.base, if r.mode.Replay? then InitAt(s.log, r.base) else [])]
                    + [Data(r.bytes)]
  }

  /** The shell an open finds. */
  lemma Finds(w: World, spawned: Epoch)
    requires w.loop.Looking? && (NeedsSpawn(w) ==> spawned !in w.shells)
    ensures Enabled(w, FindShell(spawned))
    ensures WithShell(w, spawned).slot.Some? && WithShell(w, spawned).slot.value in WithShell(w, spawned).shells
    ensures Apply(w, FindShell(spawned))
         == WithShell(w, spawned).(loop := Found(WithShell(w, spawned).slot.value, w.loop.resume))
  {
  }

  /** Neither loop nor outstanding opens matter to the spawn. */
  lemma SpawnElsewhere(w: World, v: World, spawned: Epoch)
    requires v == w.(loop := v.loop, link := v.link, asks := v.asks)
    ensures WithShell(v, spawned) == WithShell(w, spawned).(loop := v.loop, link := v.link, asks := v.asks)
  {
  }

  lemma Asked(w: World, spawned: Epoch)
    requires w.loop.Ready? && w.asks != [] && (NeedsSpawn(w) ==> spawned !in w.shells)
    ensures Legal(w, [HandleOpen] + [ForwardGone] + [FindShell(spawned)])
    ensures var u := WithShell(w, spawned);
            && u.slot.Some? && u.slot.value in u.shells
            && After(w, [HandleOpen] + [ForwardGone] + [FindShell(spawned)])
               == u.(loop := Found(u.slot.value, w.asks[0]), asks := w.asks[1..], link := Detached)
  {
    var v := w.(loop := Looking(w.asks[0]), asks := w.asks[1..], link := Detached);
    LegalOne(w, HandleOpen);
    LegalSnoc(w, [HandleOpen], ForwardGone);
    assert After(w, [HandleOpen] + [ForwardGone]) == v;
    Finds(v, spawned);
    SpawnElsewhere(w, v, spawned);
    LegalSnoc(w, [HandleOpen] + [ForwardGone], FindShell(spawned));
  }

  lemma Answers(w: World, spawned: Epoch)
    requires w.loop.Ready? && w.asks != [] && (NeedsSpawn(w) ==> spawned !in w.shells)
    ensures Legal(w, AnswerRun(spawned)) && AnsweredTo(w, After(w, AnswerRun(spawned)), spawned)
  {
    var head := [HandleOpen] + [ForwardGone] + [FindShell(spawned)];
    Asked(w, spawned);
    LinkedRun(After(w, head));
    LegalConcat(w, head, FROM_FOUND);
    assert AnswerRun(spawned) == head + FROM_FOUND;
  }

  /** The client follows the slot's shell to its end, and everything is settled. */
  predicate Follows(w: World, e: Epoch)
  {
    && w.slot == Some(e) && e in w.shells && w.shells[e].open
    && w.loop.Ready? && w.asks == [] && w.fifo == []
    && !w.client.awaiting && ResumeAt(w.client, e, |w.shells[e].log|)
  }

  /** Two opens in a row, the second with a checkpoint, and a chunk of output. */
  function Overlap(e: Epoch, chunk: Bytes): seq<Event>
  {
    [SendOpen(false)] + [SendOpen(true)] + [Push(e, chunk)] + AnswerRun(e) + AnswerRun(e)
  }

  /** The client asks twice and the shell writes, all before the server looks. */
  lemma AsksTwice(w: World, e: Epoch, chunk: Bytes)
    requires Follows(w, e)
    ensures Legal(w, [SendOpen(false)] + [SendOpen(true)] + [Push(e, chunk)])
    ensures After(w, [SendOpen(false)] + [SendOpen(true)] + [Push(e, chunk)])
         == w.(client := w.client.(awaiting := true), shells := w.shells[e := Pushed(w.shells[e], chunk)],
               asks := [None, Some(Checkpoint(e, |w.shells[e].log|))])
  {
    LegalOne(w, SendOpen(false));
    LegalSnoc(w, [SendOpen(false)], SendOpen(true));
    LegalSnoc(w, [SendOpen(false)] + [SendOpen(true)], Push(e, chunk));
  }

  /** An open answered while the slot's shell lives. */
  lemma AnswersLive(w: World, e: Epoch)
    requires w.slot == Some(e) && e in w.shells && w.shells[e].open && w.loop.Ready? && w.asks != []
    ensures Legal(w, AnswerRun(e))
    ensures var v, r := After(w, AnswerRun(e)), CutFor(w.shells[e], w.cap, e, w.asks[0]);
            && v.shells == w.shells && v.slot == w.slot && v.cap == w.cap && v.loop == Ready
            && v.asks == w.asks[1..] && v.client == w.client
            && v.fifo == w.fifo + [Hello(r.mode, e, r.base, if r.mode.Replay? then InitAt(w.shells[e].log, r.base)
                                                            else [])]
                         + [Data(r.bytes)]
  {
    Answers(w, e);
  }

  lemma OverlapQueues(w: World, e: Epoch, chunk: Bytes)
    requires Follows(w, e) && |chunk| <= w.cap
    ensures Legal(w, Overlap(e, chunk))
    ensures var x, log := After(w, Overlap(e, chunk)), w.shells[e].log + chunk;
            var front := Front(log, w.cap);
            && x.fifo == [Hello(Replay, e, front, InitAt(log, front)), Data(log[front..]),
                          Hello(Resume, e, |w.shells[e].log|, []), Data(chunk)]
            && x.client == w.client.(awaiting := true)
            && x.shells == w.shells[e := Pushed(w.shells[e], chunk)]
  {
    var log := w.shells[e].log + chunk;
    var head := [SendOpen(false)] + [SendOpen(true)] + [Push(e, chunk)];
    AsksTwice(w, e, chunk);
    var w3 := After(w, head);
    AnswersLive(w3, e);
    LegalConcat(w, head, AnswerRun(e));
    AnswersLive(After(w3, AnswerRun(e)), e);
    LegalConcat(w, head + AnswerRun(e), AnswerRun(e));
    assert log[|w.shells[e].log|..] == chunk;
  }

  lemma TwoDelivered(w: World, a: Frame, b: Frame, rest: seq<Frame>)
    requires w.fifo == [a, b] + rest
    ensures Legal(w, Deliveries(2))
    ensures var x := After(w, Deliveries(2));
            x == w.(fifo := rest, client := Received(Received(w.client, a), b), cursor := x.cursor)
  {
    var w1 := Apply(w, Deliver);
    assert w1.fifo == [b] + rest && w1.fifo[1..] == rest;
    LegalOne(w, Deliver);
    LegalSnoc(w, [Deliver], Deliver);
    assert Deliveries(2) == [Deliver] + [Deliver];
  }

  lemma FourDelivered(w: World, a: Frame, b: Frame, c: Frame, d: Frame)
    requires w.fifo == [a, b, c, d]
    ensures Legal(w, Deliveries(4))
    ensures After(w, Deliveries(4)).client == Received(Received(Received(Received(w.client, a), b), c), d)
    ensures After(w, Deliveries(4)).shells == w.shells
  {
    assert w.fifo == [a, b] + [c, d] && [c, d] + [] == [c, d];
    TwoDelivered(w, a, b, [c, d]);
    TwoDelivered(After(w, Deliveries(2)), c, d, []);
    LegalConcat(w, Deliveries(2), Deliveries(2));
    assert Deliveries(4) == Deliveries(2) + Deliveries(2);
  }

  /** From wherever the client follows: with two opens outstanding, the second with a
      checkpoint, whatever the shell writes meanwhile is held twice. */
  lemma OverlappingOpensDuplicate(w: World, e: Epoch, chunk: Bytes)
    requires Follows(w, e) && 0 < |chunk| <= w.cap
    ensures Legal(w, Overlap(e, chunk) + Deliveries(4))
    ensures var x, log := After(w, Overlap(e, chunk) + Deliveries(4)), w.shells[e].log + chunk;
            && e in x.shells && x.shells[e].log == log
            && x.client.held == log[Front(log, w.cap)..] + chunk
            && !Honest(x.shells, x.client)
  {
    var log := w.shells[e].log + chunk;
    var front := Front(log, w.cap);
    OverlapQueues(w, e, chunk);
    var v := After(w, Overlap(e, chunk));
    FourDelivered(v, Hello(Replay, e, front, InitAt(log, front)), Data(log[front..]),
                  Hello(Resume, e, |w.shells[e].log|, []), Data(chunk));
    LegalConcat(w, Overlap(e, chunk), Deliveries(4));
    var x := After(w, Overlap(e, chunk) + Deliveries(4));
    assert [] + log[front..] == log[front..];
    assert |x.client.held| == |log| - front + |chunk|;
  }

  /** The first open of a fresh server. */
  function FirstOpen(e: Epoch): seq<Event> { [SendOpen(false)] + AnswerRun(e) + Deliveries(2) }

  lemma FirstSpawn(w: World, e: Epoch)
    requires w.shells == map[] && w.slot == None && w.births == 0
    ensures NeedsSpawn(w)
    ensures WithShell(w, e).shells == map[e := Shell(0, [], [], true, 0, false)] && WithShell(w, e).slot == Some(e)
  {
    assert Vacated(w) == w;
  }

  lemma FirstAnswer(w: World, v: World, e: Epoch)
    requires w.shells == map[] && w.slot == None && w.births == 0 && w.asks == [None] && w.fifo == []
    requires AnsweredTo(w, v, e)
    ensures v.shells == map[e := Shell(0, [], [], true, 0, false)] && v.slot == Some(e) && v.asks == []
    ensures |v.fifo| == 2 && v.fifo[0] == Hello(Replay, e, 0, InitAt([], 0)) && v.fifo[1] == Data([])
  {
    FirstSpawn(w, e);
  }

  /** Worlds in which the client follows are reached from the start. */
  lemma FirstOpenFollows(cap: nat, e: Epoch)
    ensures Legal(Start(cap), FirstOpen(e))
    ensures Follows(After(Start(cap), FirstOpen(e)), e) && After(Start(cap), FirstOpen(e)).cap == cap
    ensures After(Start(cap), FirstOpen(e)).shells[e].log == []
  {
    var w := Start(cap);
    var w1 := Apply(w, SendOpen(false));
    LegalOne(w, SendOpen(false));
    Answers(w1, e);
    LegalConcat(w, [SendOpen(false)], AnswerRun(e));
    var w2 := After(w1, AnswerRun(e));
    FirstAnswer(w1, w2, e);
    TwoDelivered(w2, w2.fifo[0], w2.fifo[1], []);
    LegalConcat(w, [SendOpen(false)] + AnswerRun(e), Deliveries(2));
  }
}
