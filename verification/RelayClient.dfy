/** What the client of the relay holds, and what its channel promises it: the main results
    about the protocol of `Relay`, over every run. */
module RelayClient {
  import opened Basics
  import opened Scrollbacks
  import opened Relay

  // ---- what a client holds ---------------------------------------------------------

  lemma HonestAdvanced(a: map<Epoch, Shell>, b: map<Epoch, Shell>, c: Client)
    requires Honest(a, c) && AllAdvanced(a, b)
    ensures Honest(b, c)
  {
    if c.known.Some? {
      var s, t := a[c.known.value].log, b[c.known.value].log;
      assert t[c.base..c.offset] == s[c.base..c.offset];
      InitKept(s, t, c.base);
    }
  }

  /** Delivering a frame keeps the client honest unless it is a resume hello that answers
      another place. */
  lemma DeliveredHonest(w: World)
    requires Inv(w) && w.fifo != [] && Honest(w.shells, w.client)
    ensures Honest(w.shells, Received(w.client, w.fifo[0])) <==> AnswerFits(w, Deliver)
  {
    var c, f := w.client, w.fifo[0];
    if f.Hello? && f.mode.Resume? {
      ResumeNamesKnown(w);
      ResumeHonestIff(w.shells, c, f.epoch, f.offset);
    } else if f.Hello? {
      assert w.shells[f.epoch].log[f.offset..f.offset] == [];
    } else if f.Data? && !c.awaiting {
      DataHonest(w.shells, c, w.cursor.epoch, f.bytes);
    }
  }

  lemma DataHonest(shells: map<Epoch, Shell>, c: Client, e: Epoch, bytes: Bytes)
    requires Honest(shells, c) && c.known == Some(e) && c.offset + |bytes| <= |shells[e].log|
    requires bytes == shells[e].log[c.offset..c.offset + |bytes|]
    ensures Honest(shells, c.(offset := c.offset + |bytes|, held := c.held + bytes))
  {
    JoinSlices(shells[e].log, c.base, c.offset, c.offset + |bytes|);
  }

  lemma ResumeHonestIff(shells: map<Epoch, Shell>, c: Client, e: Epoch, off: nat)
    requires Honest(shells, c) && c.known == Some(e)
    ensures Honest(shells, c.(awaiting := false, offset := off)) <==> off == c.offset
  {
    var log := shells[e].log;
    if c.base <= off <= |log| && c.held == log[c.base..off] { assert |log[c.base..off]| == off - c.base; }
  }

  lemma ClientUntouched(w: World, e: Event)
    requires Enabled(w, e) && !e.Deliver?
    ensures Apply(w, e).client == w.client.(awaiting := w.client.awaiting || e.SendOpen?)
  {
  }

  lemma StepHonest(w: World, e: Event)
    requires Inv(w) && Enabled(w, e) && Honest(w.shells, w.client)
    ensures Honest(Apply(w, e).shells, Apply(w, e).client) <==> AnswerFits(w, e)
  {
    if e.Deliver? {
      DeliveredHonest(w);
    } else {
      StepKeeps(w, e);
      ClientUntouched(w, e);
      HonestAdvanced(w.shells, Apply(w, e).shells, w.client);
    }
  }

  /** For every run from here on, with no discipline asked of the client: it is honest after
      every prefix if and only if each resume hello named its place when it arrived. */
  lemma {:induction false} HonestIff(w: World, run: seq<Event>)
    requires Inv(w) && Legal(w, run) && Honest(w.shells, w.client)
    ensures AlwaysHonest(w, run) <==> AllAnswersFit(w, run)
    ensures AllAnswersFit(w, run) ==> Honest(After(w, run).shells, After(w, run).client)
    decreases run
  {
    if run != [] {
      var v := Apply(w, run[0]);
      StepKeeps(w, run[0]);
      StepHonest(w, run[0]);
      if AnswerFits(w, run[0]) { HonestIff(v, run[1..]); }
    }
  }

  /** A replay makes an honest client of any client. */
  lemma ReplayHeals(w: World)
    requires Inv(w) && BringsReplay(w, Deliver)
    ensures Honest(Apply(w, Deliver).shells, Apply(w, Deliver).client)
  {
    assert w.shells[w.fifo[0].epoch].log[w.fifo[0].offset..w.fifo[0].offset] == [];
  }

  lemma {:induction false} SinceReplayIff(w: World, run: seq<Event>, so: bool)
    requires Inv(w) && Legal(w, run) && (so ==> Honest(w.shells, w.client))
    ensures HonestSinceReplay(w, run, so) <==> FitsSinceReplay(w, run, so)
    ensures FitsSinceReplay(w, run, so) ==> Honest(After(w, run).shells, After(w, run).client)
    decreases run
  {
    if run != [] {
      var e := run[0];
      StepKeeps(w, e);
      if BringsReplay(w, e) {
        ReplayHeals(w);
        SinceReplayIff(Apply(w, e), run[1..], true);
      } else if so {
        StepHonest(w, e);
        SinceReplayIff(Apply(w, e), run[1..], AnswerFits(w, e));
      } else {
        SinceReplayIff(Apply(w, e), run[1..], false);
      }
    }
  }

  lemma {:induction false} AllFitSinceReplay(w: World, run: seq<Event>)
    requires Legal(w, run) && AllAnswersFit(w, run)
    ensures FitsSinceReplay(w, run, true)
    decreases run
  {
    if run != [] { AllFitSinceReplay(Apply(w, run[0]), run[1..]); }
  }

  // ---- main results ------------------------------------------------------------------

  /** In every run of pushes, lag, resets, respawns, disconnects and opens, whatever the
      client asked for: at every moment it holds exactly one contiguous stretch of one
      shell's stream behind the right prefix, if and only if each resume hello it took named
      its place. */
  lemma ClientHoldsExactStreamIff(cap: nat, run: seq<Event>)
    requires Legal(Start(cap), run)
    ensures AlwaysHonest(Start(cap), run) <==> AllAnswersFit(Start(cap), run)
  {
    StartHolds(cap);
    HonestIff(Start(cap), run);
  }

  /** What went wrong before a replay does not count: since the last one it was sent, the client
      held an exact stretch at every moment if and only if each answer since then named its
      place. */
  lemma ExactSinceReplayIff(cap: nat, run: seq<Event>)
    requires Legal(Start(cap), run)
    ensures HonestSinceReplay(Start(cap), run, true) <==> FitsSinceReplay(Start(cap), run, true)
  {
    StartHolds(cap);
    SinceReplayIff(Start(cap), run, true);
  }

  /** So a replay heals for good whatever the client has become in any run: from there on, it is
      honest at every moment if and only if all later answers fit. */
  lemma ReplayHealsIff(cap: nat, run: seq<Event>, more: seq<Event>)
    requires Legal(Start(cap), run) && BringsReplay(After(Start(cap), run), Deliver)
    requires Legal(Apply(After(Start(cap), run), Deliver), more)
    ensures var w := Apply(After(Start(cap), run), Deliver);
            AlwaysHonest(w, more) <==> AllAnswersFit(w, more)
  {
    StartHolds(cap);
    RunKeeps(Start(cap), run);
    StepKeeps(After(Start(cap), run), Deliver);
    ReplayHeals(After(Start(cap), run));
    HonestIff(Apply(After(Start(cap), run), Deliver), more);
  }

  lemma ClientHoldsExactStream(cap: nat, run: seq<Event>)
    requires Legal(Start(cap), run) && FitsSinceReplay(Start(cap), run, true)
    ensures var w := After(Start(cap), run);
            w.client.known.Some? ==>
              && w.client.known.value in w.shells
              && var log := w.shells[w.client.known.value].log;
                 && w.client.base <= w.client.offset <= |log|
                 && w.client.held == log[w.client.base..w.client.offset]
                 && w.client.init == InitAt(log, w.client.base)
  {
    StartHolds(cap);
    SinceReplayIff(Start(cap), run, true);
  }

  /** The stream bytes queued. */
  function Queued(fifo: seq<Frame>): Bytes
    decreases fifo
  {
    if fifo == [] then [] else (if fifo[0].Data? then fifo[0].bytes else []) + Queued(fifo[1..])
  }

  predicate NoHello(fifo: seq<Frame>) { forall i :: 0 <= i < |fifo| ==> !fifo[i].Hello? }

  lemma {:induction false} QueuedIsNext(shells: map<Epoch, Shell>, c: Cursor, fifo: seq<Frame>)
    requires c.At? && c.epoch in shells && c.offset <= |shells[c.epoch].log|
    requires Wire(shells, c, fifo) && NoHello(fifo)
    ensures End(c, fifo) == At(c.epoch, c.offset + |Queued(fifo)|)
    ensures c.offset + |Queued(fifo)| <= |shells[c.epoch].log|
    ensures Queued(fifo) == shells[c.epoch].log[c.offset..c.offset + |Queued(fifo)|]
    decreases fifo
  {
    if fifo != [] {
      var bytes := if fifo[0].Data? then fifo[0].bytes else [];
      QueuedIsNext(shells, Moved(c, fifo[0]), fifo[1..]);
      NextPiece(shells[c.epoch].log, c.offset, bytes, Queued(fifo[1..]));
    }
  }

  lemma NextPiece(log: Bytes, off: nat, bytes: Bytes, rest: Bytes)
    requires off + |bytes| + |rest| <= |log|
    requires bytes == [] || bytes == log[off..off + |bytes|]
    requires rest == log[off + |bytes|..off + |bytes| + |rest|]
    ensures bytes + rest == log[off..off + |bytes + rest|]
  {
    JoinSlices(log, off, off + |bytes|, off + |bytes| + |rest|);
  }

  lemma {:induction false} EndWithoutHello(c: Cursor, fifo: seq<Frame>)
    requires NoHello(fifo) && End(c, fifo).At?
    ensures c.At?
    decreases fifo
  {
    if fifo != [] { EndWithoutHello(Moved(c, fifo[0]), fifo[1..]); }
  }

  /** While a channel is attached nothing is missing: what the client holds, what is queued,
      what a redraw drained and what the receiver has not read make up the stream to its very
      end, as long as the client follows and no newer hello is under way. */
  lemma AttachedChannelAccountsForStream(cap: nat, run: seq<Event>)
    requires Legal(Start(cap), run) && FitsSinceReplay(Start(cap), run, true)
    ensures var w := After(Start(cap), run);
            w.link.Attached? && !w.client.awaiting && NoHello(w.fifo) ==>
              && w.client.known == Some(w.link.epoch) && w.link.epoch in w.shells
              && var s := w.shells[w.link.epoch];
                 && w.link.pos <= |s.sent| && w.client.base <= |s.log|
                 && w.client.held + Queued(w.fifo) + Flatten(w.link.pending) + Flatten(s.sent[w.link.pos..])
                    == s.log[w.client.base..]
  {
    StartHolds(cap);
    SinceReplayIff(Start(cap), run, true);
    RunKeeps(Start(cap), run);
    var w := After(Start(cap), run);
    if w.link.Attached? && !w.client.awaiting && NoHello(w.fifo) { Accounts(w); }
  }

  lemma Accounts(w: World)
    requires Inv(w) && Honest(w.shells, w.client)
    requires w.link.Attached? && !w.client.awaiting && NoHello(w.fifo)
    ensures w.client.known == Some(w.link.epoch)
    ensures var s := w.shells[w.link.epoch];
            w.client.held + Queued(w.fifo) + Flatten(w.link.pending) + Flatten(s.sent[w.link.pos..])
              == s.log[w.client.base..]
  {
    EndWithoutHello(w.cursor, w.fifo);
    QueuedIsNext(w.shells, w.cursor, w.fifo);
    var s := w.shells[w.link.epoch];
    FourPieces(s.log, w.client.base, w.client.offset, w.client.held, Queued(w.fifo),
               Flatten(w.link.pending), Flatten(s.sent[w.link.pos..]));
  }

  lemma FourPieces(log: Bytes, base: nat, off: nat, held: Bytes, queued: Bytes, pending: Bytes, unread: Bytes)
    requires base <= off && off + |queued| <= |log|
    requires held == log[base..off] && queued == log[off..off + |queued|]
    requires log[off + |queued|..] == pending + unread
    ensures held + queued + pending + unread == log[base..]
  {
    FirstOfThree(held + queued, pending, unread);
    JoinSlices(log, base, off, off + |queued|);
    assert log[base..off + |queued|] + log[off + |queued|..] == log[base..];
  }

  lemma JoinSlices(log: Bytes, a: nat, b: nat, c: nat)
    requires a <= b <= c <= |log|
    ensures log[a..b] + log[b..c] == log[a..c]
  {
  }

  /** In every run, a redraw the client acts on was taken at exactly the stream position the
      client has reached, of the shell it is showing. */
  lemma RedrawShowsClientPosition(cap: nat, run: seq<Event>)
    requires Legal(Start(cap), run)
    ensures var w := After(Start(cap), run);
            w.fifo != [] && w.fifo[0].Redraw? && !w.client.awaiting ==>
              w.client.known == Some(w.fifo[0].epoch) && w.client.offset == w.fifo[0].at
  {
    StartHolds(cap);
    RunKeeps(Start(cap), run);
    var w := After(Start(cap), run);
    if w.fifo != [] && w.fifo[0].Redraw? && !w.client.awaiting { RedrawAtPosition(w); }
  }

  lemma RedrawAtPosition(w: World)
    requires Inv(w) && w.fifo != [] && w.fifo[0].Redraw? && !w.client.awaiting
    ensures w.client.known == Some(w.fifo[0].epoch) && w.client.offset == w.fifo[0].at
  {
  }

  /** In every interleaving, every frame of an old attachment is queued before the hello of
      the next, and hello and replay come before everything else of their attachment. */
  lemma FramesAreQueuedInOrder(cap: nat, run: seq<Event>, i: nat, j: nat)
    requires Legal(Start(cap), run) && i < j < |After(Start(cap), run).trace|
    ensures var a, b := After(Start(cap), run).trace[i], After(Start(cap), run).trace[j];
            a.who < b.who || (a.who == b.who && (a.rank < b.rank || (a.rank == 2 && b.rank == 2)))
  {
    StartHolds(cap);
    RunKeeps(Start(cap), run);
  }

  /** A channel whose shell is dead can be told so if and only if the shell was still alive when
      the channel subscribed to the announcement, or has been stopped again since. */
  lemma ToldOfDeathIff(cap: nat, run: seq<Event>)
    requires Legal(Start(cap), run)
    requires Idle(After(Start(cap), run)) && !After(Start(cap), run).shells[After(Start(cap), run).link.epoch].open
    ensures var w := After(Start(cap), run);
            Enabled(w, Shutdown) <==> w.link.seen.open || w.shells[w.link.epoch].stops > w.link.seen.stops
  {
    StartHolds(cap);
    RunKeeps(Start(cap), run);
  }

  // ---- which shell an open is answered from ---------------------------------------------

  /** The slot holds a shell whose reader has not ended. */
  predicate SlotAlive(w: World) { w.slot.Some? && w.slot.value in w.shells && w.shells[w.slot.value].open }

  /** The slot of `x` has `spawned`, new and empty, and what it held before has been stopped
      once more and given up; no other shell has changed. */
  predicate Respawned(w: World, x: World, spawned: Epoch)
  {
    && spawned !in w.shells && x.slot == Some(spawned) && spawned in x.shells
    && x.shells[spawned].open && x.shells[spawned].log == [] && x.shells[spawned].sent == []
    && x.shells.Keys == w.shells.Keys + {spawned}
    && forall e :: e in w.shells ==>
         x.shells[e] == if w.slot == Some(e) then w.shells[e].(stops := w.shells[e].stops + 1, dropped := true)
                        else w.shells[e]
  }

  /** Whatever the slot held: the shell an open finds is alive at that moment. A live one is
      taken as it is, a dead or missing one replaced. */
  lemma FoundIsAlive(w: World, spawned: Epoch)
    requires Inv(w) && Enabled(w, FindShell(spawned))
    ensures var x := Apply(w, FindShell(spawned));
            && x.loop.Found? && x.slot == Some(x.loop.epoch)
            && x.loop.epoch in x.shells && x.shells[x.loop.epoch].open
            && (if SlotAlive(w) then x.slot == w.slot && x.shells == w.shells
                else x.loop.epoch == spawned && Respawned(w, x, spawned))
  {
  }

  /** Another connection's open spawns exactly when the slot has no live shell, and not in the
      middle of ours. */
  lemma OthersRespawnIff(w: World, spawned: Epoch)
    requires Inv(w)
    ensures Enabled(w, OtherAttaches(spawned)) <==>
              !w.loop.Found? && !w.loop.Cut? && !SlotAlive(w) && spawned !in w.shells
    ensures Enabled(w, OtherAttaches(spawned)) ==> Respawned(w, Apply(w, OtherAttaches(spawned)), spawned)
  {
  }

  /** The loop is answering from this shell. */
  predicate AnswersFrom(l: Loop, e: Epoch)
  {
    match l
    case Found(d, _) => d == e
    case Cut(d, _, _, _) => d == e
    case Subscribed(d, _, _, _, _) => d == e
    case Greeted(d, _, _, _) => d == e
    case Replayed(d, _, _) => d == e
    case _ => false
  }

  /** Neither done with the answer nor cut off. */
  predicate StillAnswering(run: seq<Event>)
  {
    forall i :: 0 <= i < |run| ==> !run[i].SpawnForward? && !run[i].Disconnect?
  }

  lemma {:induction false} KeepsAnswering(w: World, run: seq<Event>, e: Epoch)
    requires Legal(w, run) && StillAnswering(run) && AnswersFrom(w.loop, e)
    ensures AnswersFrom(After(w, run).loop, e)
    decreases run
  {
    if run != [] {
      assert AnswersFrom(Apply(w, run[0]).loop, e);
      assert forall i :: 0 <= i < |run[1..]| ==> run[1..][i] == run[i + 1];
      KeepsAnswering(Apply(w, run[0]), run[1..], e);
    }
  }

  /** In every run, however the steps of the answer interleave with everything else: the hello
      that answers an open names a shell that was alive when it was looked up, and not the dead
      one the slot may have held. */
  lemma AnsweredFromALiveShell(cap: nat, before: seq<Event>, spawned: Epoch, run: seq<Event>)
    requires Legal(Start(cap), before) && Enabled(After(Start(cap), before), FindShell(spawned))
    requires Legal(Apply(After(Start(cap), before), FindShell(spawned)), run) && StillAnswering(run)
    requires After(Apply(After(Start(cap), before), FindShell(spawned)), run).loop.Subscribed?
    ensures var w := After(Start(cap), before);
            var x := Apply(w, FindShell(spawned));
            var y := After(x, run);
            var z := Apply(y, QueueHello);
            && z.fifo[..|y.fifo|] == y.fifo && |z.fifo| == |y.fifo| + 1 && z.fifo[|y.fifo|].Hello?
            && var e := z.fifo[|y.fifo|].epoch;
               && e in x.shells && x.shells[e].open
               && (if SlotAlive(w) then w.slot == Some(e) else e == spawned)
  {
    var w := After(Start(cap), before);
    StartHolds(cap);
    RunKeeps(Start(cap), before);
    FoundIsAlive(w, spawned);
    var x := Apply(w, FindShell(spawned));
    KeepsAnswering(x, run, x.loop.epoch);
  }

  // ---- why a channel is closed ------------------------------------------------------------

  /** A channel that is more than the broadcast's 64 chunks behind has lost frames and is closed
      as broken, whether it finds out by receiving or by a redraw. */
  lemma LostFramesClose(w: World)
    requires Inv(w) && Idle(w)
    ensures Enabled(w, Lag) <==> Unread(w) > 64
    ensures Unread(w) > 64 ==> Apply(w, Lag) == Apply(w, Tick)
    ensures Unread(w) > 64 ==>
              Apply(w, Lag).fifo == w.fifo + [Closed(Error)] && Apply(w, Lag).link.Detached?
    ensures Unread(w) <= 64 ==> Apply(w, Tick).fifo == w.fifo && Apply(w, Tick).link.Attached?
  {
  }

  /** What a redraw's turn of the forward task still has to do: the drained chunks, then the
      picture. */
  function Sends(n: nat): seq<Event>
  {
    if n == 0 then [SendRedraw] else [SendPending] + Sends(n - 1)
  }

  function Datas(chunks: seq<Bytes>): seq<Frame>
  {
    seq(|chunks|, i requires 0 <= i < |chunks| => Data(chunks[i]))
  }

  lemma {:induction false} SendsInOrder(w: World)
    requires w.link.Attached? && w.link.shot.Some?
    ensures Legal(w, Sends(|w.link.pending|))
    ensures var x := After(w, Sends(|w.link.pending|));
            && x.fifo == w.fifo + Datas(w.link.pending) + [Redraw(w.link.epoch, w.link.shot.value)]
            && x.link == w.link.(pending := [], shot := None)
    decreases |w.link.pending|
  {
    var chunks := w.link.pending;
    if chunks == [] {
      assert Sends(0)[1..] == [] && w.fifo + Datas(chunks) == w.fifo;
    } else {
      var x := Apply(w, SendPending);
      SendsInOrder(x);
      assert Sends(|chunks|)[1..] == Sends(|chunks| - 1);
      assert Datas(chunks) == [Data(chunks[0])] + Datas(chunks[1..]);
      assert w.fifo + Datas(chunks) == w.fifo + [Data(chunks[0])] + Datas(chunks[1..]);
    }
  }

  /** Every tick of a channel that keeps up sends what it has not read, in order, and right behind
      it a redraw taken at the very end of the stream; then the channel is idle again. */
  lemma TickRedraws(w: World)
    requires Inv(w) && Idle(w) && Unread(w) <= 64
    ensures var s := w.shells[w.link.epoch];
            var x := Apply(w, Tick);
            && Legal(x, Sends(Unread(w)))
            && var y := After(x, Sends(Unread(w)));
               && y.fifo == w.fifo + Datas(s.sent[w.link.pos..]) + [Redraw(w.link.epoch, |s.log|)]
               && y.link == w.link.(pos := |s.sent|)
  {
    SendsInOrder(Apply(w, Tick));
  }

  /** One whose shell was stopped or died is closed as over; nothing more is sent on it. */
  lemma DeathCloses(w: World)
    requires Enabled(w, Shutdown)
    ensures Apply(w, Shutdown).fifo == w.fifo + [Closed(Exit)] && Apply(w, Shutdown).link.Detached?
  {
  }

  /** A reset gives up the slot's shell and stops it once more, and nothing else; whatever channel
      of that shell is idle can hear of it. */
  lemma ResetIsHeard(w: World)
    requires Inv(w) && Enabled(w, Reset)
    ensures var x, e := Apply(w, Reset), w.slot.value;
            && x.slot.None? && x.fifo == w.fifo && x.link == w.link && x.loop == w.loop
            && x.shells == w.shells[e := w.shells[e].(stops := w.shells[e].stops + 1, dropped := true)]
            && (Idle(w) && w.link.epoch == e ==> Enabled(x, Shutdown))
  {
  }

  /** An open that cannot be answered leaves the slot empty and says so. */
  lemma FailureIsTold(w: World)
    requires Enabled(w, AttachFails)
    ensures var x := Apply(w, AttachFails);
            x.fifo == w.fifo + [Closed(Error)] && x.loop.Ready? && x.slot.None? && !SlotAlive(w)
  {
  }

  // ---- a new connection -------------------------------------------------------------------

  /** Nothing is queued, asked or attached. */
  predicate Still(w: World) { w.fifo == [] && w.asks == [] && w.loop.Ready? && w.link.Detached? }

  lemma {:induction false} StillUntilAsked(w: World, run: seq<Event>)
    requires Still(w) && Legal(w, run) && forall i :: 0 <= i < |run| ==> !run[i].SendOpen?
    ensures Still(After(w, run)) && After(w, run).client == w.client
    decreases run
  {
    if run != [] {
      assert forall i :: 0 <= i < |run[1..]| ==> run[1..][i] == run[i + 1];
      StillUntilAsked(Apply(w, run[0]), run[1..]);
    }
  }

  /** A connection that was lost leaves nothing behind, no frame and no question: whatever the
      shells do, the client gets nothing, and stays as it was, until it asks again. */
  lemma LostConnectionIsStill(w: World, run: seq<Event>)
    requires Legal(Apply(w, Disconnect), run) && forall i :: 0 <= i < |run| ==> !run[i].SendOpen?
    ensures After(Apply(w, Disconnect), run).fifo == [] && After(Apply(w, Disconnect), run).client == w.client
    ensures Apply(w, Disconnect).shells == w.shells && Apply(w, Disconnect).slot == w.slot
  {
    StillUntilAsked(Apply(w, Disconnect), run);
  }
}
