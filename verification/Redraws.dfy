/** The periodic redraw end to end: the screen models of all shells, resizes and everybody's
    snapshots run beside the protocol of `Relay`, and each redraw frame carries its picture
    (src/terminals.rs, src/pty.rs). */
module Redraws {
  import opened Basics
  import opened Scrollbacks
  import opened Relay
  import RelayClient

  /** A picture and the canvas it was taken from, whose size travels with it. */
  datatype Shot = Shot(canvas: Canvas, picture: Bytes)

  /** `taken` belongs to the redraw that the forward task still has to send, `shots` to the
      redraws in the writer queue, in order. */
  datatype Scene = Scene(w: World, canvases: map<Epoch, Canvas>, taken: Option<Shot>, shots: seq<Shot>)

  /** A step of the protocol (a shell spawned in it gets `size`), a resize that has reached the
      model, or somebody else's snapshot. */
  datatype Action =
    | Net(event: Event, size: (nat, nat))
    | Resize(epoch: Epoch, size: (nat, nat))
    | Snapshot(epoch: Epoch)

  predicate Able(s: Scene, a: Action)
  {
    match a
    case Net(event, _) => Enabled(s.w, event)
    case Resize(e, _) => e in s.w.shells && e in s.canvases
    case Snapshot(e) => e in s.w.shells && e in s.canvases
  }

  /** The forward task has taken a redraw and not yet sent it. */
  predicate Pending(link: Link) { link.Attached? && link.shot.Some? }

  /** The canvas of a shell once a snapshot of it has been taken. */
  function Fresh(s: Scene, e: Epoch): Canvas
    requires e in s.w.shells && e in s.canvases
  {
    Refreshed(s.canvases[e], s.w.shells[e].log, s.w.cap)
  }

  function Spawned(canvases: map<Epoch, Canvas>, shells: map<Epoch, Shell>, size: (nat, nat)): map<Epoch, Canvas>
  {
    map e | e in shells :: if e in canvases then canvases[e] else Blanked(size)
  }

  function Taken<Grid>(emu: Emulator<Grid>, c: Canvas, log: Bytes): Option<Shot>
  {
    if c.front <= |log| then Some(Shot(c, Picture(emu, c, log))) else None
  }

  /** A tick takes its snapshot also when it finds that it lagged. */
  function Ticked<Grid>(emu: Emulator<Grid>, s: Scene): Scene
    requires Enabled(s.w, Tick)
  {
    var e, v := s.w.link.epoch, Apply(s.w, Tick);
    if e !in s.canvases then s.(w := v)
    else Scene(v, s.canvases[e := Fresh(s, e)],
               if Pending(v.link) then Taken(emu, Fresh(s, e), s.w.shells[e].log) else None, s.shots)
  }

  /** Pictures travel with their frames. */
  function Moved(s: Scene, event: Event): seq<Shot>
    requires Enabled(s.w, event)
  {
    if event.SendRedraw? then s.shots + (if s.taken.Some? then [s.taken.value] else [])
    else if event.Deliver? && s.w.fifo[0].Redraw? && s.shots != [] then s.shots[1..]
    else if event.Disconnect? then []
    else s.shots
  }

  function Next<Grid>(emu: Emulator<Grid>, s: Scene, a: Action): Scene
    requires Able(s, a)
  {
    match a
    case Net(event, size) =>
      if event.Tick? then Ticked(emu, s)
      else
        var v := Apply(s.w, event);
        Scene(v, Spawned(s.canvases, v.shells, size), if Pending(v.link) then s.taken else None, Moved(s, event))
    case Resize(e, size) => s.(canvases := s.canvases[e := Resized(s.canvases[e], size)])
    case Snapshot(e) => s.(canvases := s.canvases[e := Fresh(s, e)])
  }

  // ---- the invariant -------------------------------------------------------------

  /** The picture is that of the shell's stream up to `at`. */
  predicate Shows<Grid>(emu: Emulator<Grid>, shells: map<Epoch, Shell>, e: Epoch, at: nat, shot: Shot)
  {
    && e in shells && shot.canvas.front <= at <= |shells[e].log|
    && shot.picture == Picture(emu, shot.canvas, shells[e].log[..at])
  }

  /** Each redraw in the queue has its picture, in order. */
  predicate Carried<Grid>(emu: Emulator<Grid>, shells: map<Epoch, Shell>, fifo: seq<Frame>, shots: seq<Shot>)
    decreases fifo
  {
    if fifo == [] then shots == []
    else if fifo[0].Redraw? then
      && shots != [] && Shows(emu, shells, fifo[0].epoch, fifo[0].at, shots[0])
      && Carried(emu, shells, fifo[1..], shots[1..])
    else Carried(emu, shells, fifo[1..], shots)
  }

  predicate Framed(canvases: map<Epoch, Canvas>, shells: map<Epoch, Shell>)
  {
    canvases.Keys == shells.Keys && forall e :: e in shells ==> canvases[e].front <= |shells[e].log|
  }

  predicate Good<Grid>(emu: Emulator<Grid>, s: Scene)
  {
    && Inv(s.w) && Framed(s.canvases, s.w.shells)
    && (Pending(s.w.link) <==> s.taken.Some?)
    && (s.taken.Some? ==> Shows(emu, s.w.shells, s.w.link.epoch, s.w.link.shot.value, s.taken.value))
    && Carried(emu, s.w.shells, s.w.fifo, s.shots)
  }

  lemma ShowsAdvanced<Grid>(emu: Emulator<Grid>, a: map<Epoch, Shell>, b: map<Epoch, Shell>, e: Epoch, at: nat,
                            shot: Shot)
    requires Shows(emu, a, e, at, shot) && AllAdvanced(a, b)
    ensures Shows(emu, b, e, at, shot)
  {
    assert b[e].log[..at] == a[e].log[..at];
  }

  lemma {:induction false} CarriedAdvanced<Grid>(emu: Emulator<Grid>, a: map<Epoch, Shell>, b: map<Epoch, Shell>,
                                                 fifo: seq<Frame>, shots: seq<Shot>)
    requires Carried(emu, a, fifo, shots) && AllAdvanced(a, b)
    ensures Carried(emu, b, fifo, shots)
    decreases fifo
  {
    if fifo != [] {
      if fifo[0].Redraw? {
        ShowsAdvanced(emu, a, b, fifo[0].epoch, fifo[0].at, shots[0]);
        CarriedAdvanced(emu, a, b, fifo[1..], shots[1..]);
      } else {
        CarriedAdvanced(emu, a, b, fifo[1..], shots);
      }
    }
  }

  lemma {:induction false} CarriedPlain<Grid>(emu: Emulator<Grid>, shells: map<Epoch, Shell>, fifo: seq<Frame>,
                                              shots: seq<Shot>, f: Frame)
    requires Carried(emu, shells, fifo, shots) && !f.Redraw?
    ensures Carried(emu, shells, fifo + [f], shots)
    decreases fifo
  {
    if fifo == [] {
      assert fifo + [f] == [f] && [f][1..] == [];
    } else {
      assert (fifo + [f])[1..] == fifo[1..] + [f];
      CarriedPlain(emu, shells, fifo[1..], if fifo[0].Redraw? then shots[1..] else shots, f);
    }
  }

  lemma CarriedOne<Grid>(emu: Emulator<Grid>, shells: map<Epoch, Shell>, e: Epoch, at: nat, shot: Shot)
    requires Shows(emu, shells, e, at, shot)
    ensures Carried(emu, shells, [Redraw(e, at)], [shot])
  {
    assert [Redraw(e, at)][1..] == [] && [shot][1..] == [];
    assert Carried(emu, shells, [], []);
  }

  lemma {:induction false} CarriedRedraw<Grid>(emu: Emulator<Grid>, shells: map<Epoch, Shell>, fifo: seq<Frame>,
                                               shots: seq<Shot>, e: Epoch, at: nat, shot: Shot)
    requires Carried(emu, shells, fifo, shots) && Shows(emu, shells, e, at, shot)
    ensures Carried(emu, shells, fifo + [Redraw(e, at)], shots + [shot])
    decreases fifo
  {
    if fifo == [] {
      CarriedOne(emu, shells, e, at, shot);
      assert fifo + [Redraw(e, at)] == [Redraw(e, at)] && shots + [shot] == [shot];
    } else {
      assert (fifo + [Redraw(e, at)])[1..] == fifo[1..] + [Redraw(e, at)];
      if fifo[0].Redraw? {
        CarriedRedraw(emu, shells, fifo[1..], shots[1..], e, at, shot);
        assert (shots + [shot])[1..] == shots[1..] + [shot];
      } else {
        CarriedRedraw(emu, shells, fifo[1..], shots, e, at, shot);
      }
    }
  }

  /** At most one frame more, and a redraw only when it is sent. */
  lemma FifoGrows(w: World, e: Event)
    requires Enabled(w, e) && !e.Deliver? && !e.Disconnect?
    ensures var v := Apply(w, e);
            v.fifo == w.fifo
            || (|v.fifo| == |w.fifo| + 1 && v.fifo[..|w.fifo|] == w.fifo
                && (v.fifo[|w.fifo|].Redraw? <==> e.SendRedraw?))
    ensures e.SendRedraw? ==> Apply(w, e).fifo == w.fifo + [Redraw(w.link.epoch, w.link.shot.value)]
  {
  }

  /** A redraw taken stays the same until it is sent. */
  lemma PendingStays(w: World, e: Event)
    requires Enabled(w, e) && !e.Tick? && Pending(Apply(w, e).link)
    ensures Pending(w.link) && Apply(w, e).link.epoch == w.link.epoch && Apply(w, e).link.shot == w.link.shot
  {
  }

  lemma FramedOn(canvases: map<Epoch, Canvas>, a: map<Epoch, Shell>, b: map<Epoch, Shell>, size: (nat, nat))
    requires Framed(canvases, a) && AllAdvanced(a, b)
    ensures Framed(Spawned(canvases, b, size), b)
  {
  }

  /** A step that sends no redraw and takes nothing from the queue. */
  lemma PlainCarries<Grid>(emu: Emulator<Grid>, w: World, event: Event, shots: seq<Shot>)
    requires Inv(w) && Enabled(w, event) && Carried(emu, w.shells, w.fifo, shots)
    requires !event.Deliver? && !event.Disconnect? && !event.SendRedraw?
    ensures Carried(emu, Apply(w, event).shells, Apply(w, event).fifo, shots)
  {
    var v := Apply(w, event);
    StepKeeps(w, event);
    CarriedAdvanced(emu, w.shells, v.shells, w.fifo, shots);
    FifoGrows(w, event);
    if v.fifo != w.fifo {
      CarriedPlain(emu, v.shells, w.fifo, shots, v.fifo[|w.fifo|]);
      assert v.fifo == w.fifo + [v.fifo[|w.fifo|]];
    }
  }

  lemma SentCarries<Grid>(emu: Emulator<Grid>, s: Scene)
    requires Good(emu, s) && Enabled(s.w, SendRedraw)
    ensures Carried(emu, Apply(s.w, SendRedraw).shells, Apply(s.w, SendRedraw).fifo, Moved(s, SendRedraw))
  {
    FifoGrows(s.w, SendRedraw);
    CarriedRedraw(emu, s.w.shells, s.w.fifo, s.shots, s.w.link.epoch, s.w.link.shot.value, s.taken.value);
  }

  lemma OtherCarries<Grid>(emu: Emulator<Grid>, s: Scene, event: Event)
    requires Good(emu, s) && Enabled(s.w, event)
    ensures Carried(emu, Apply(s.w, event).shells, Apply(s.w, event).fifo, Moved(s, event))
  {
    if event.SendRedraw? {
      SentCarries(emu, s);
    } else if !event.Deliver? && !event.Disconnect? {
      PlainCarries(emu, s.w, event, s.shots);
    }
  }

  lemma OtherKeeps<Grid>(emu: Emulator<Grid>, s: Scene, event: Event, size: (nat, nat))
    requires Good(emu, s) && Enabled(s.w, event) && !event.Tick?
    ensures Good(emu, Next(emu, s, Net(event, size)))
  {
    var v := Apply(s.w, event);
    StepKeeps(s.w, event);
    FramedOn(s.canvases, s.w.shells, v.shells, size);
    OtherCarries(emu, s, event);
    if Pending(v.link) {
      PendingStays(s.w, event);
      ShowsAdvanced(emu, s.w.shells, v.shells, s.w.link.epoch, s.w.link.shot.value, s.taken.value);
    }
  }

  lemma TakenShows<Grid>(emu: Emulator<Grid>, shells: map<Epoch, Shell>, e: Epoch, c: Canvas)
    requires e in shells && c.front <= |shells[e].log|
    ensures Taken(emu, c, shells[e].log).Some?
    ensures Shows(emu, shells, e, |shells[e].log|, Taken(emu, c, shells[e].log).value)
  {
    assert shells[e].log[..|shells[e].log|] == shells[e].log;
  }

  /** What a tick leaves of the protocol. */
  lemma TickTakes(w: World)
    requires Inv(w) && Enabled(w, Tick)
    ensures var v, e := Apply(w, Tick), w.link.epoch;
            && e in w.shells && v.shells == w.shells && v.cap == w.cap
            && (Pending(v.link) ==> v.link.epoch == e && v.link.shot.value == |w.shells[e].log|)
  {
  }

  lemma StaysFramed(canvases: map<Epoch, Canvas>, shells: map<Epoch, Shell>, e: Epoch, cap: nat)
    requires Framed(canvases, shells) && e in shells
    ensures Refreshed(canvases[e], shells[e].log, cap).front <= |shells[e].log|
    ensures Framed(canvases[e := Refreshed(canvases[e], shells[e].log, cap)], shells)
  {
  }

  lemma TickKeepsScene<Grid>(emu: Emulator<Grid>, s: Scene)
    requires Good(emu, s) && Enabled(s.w, Tick)
    ensures Good(emu, Ticked(emu, s))
  {
    var e := s.w.link.epoch;
    TickTakes(s.w);
    StaysFramed(s.canvases, s.w.shells, e, s.w.cap);
    var c := Fresh(s, e);
    TakenShows(emu, s.w.shells, e, c);
    PlainCarries(emu, s.w, Tick, s.shots);
    StepKeeps(s.w, Tick);
    var v := Apply(s.w, Tick);
    var taken := if Pending(v.link) then Taken(emu, c, s.w.shells[e].log) else None;
    assert Ticked(emu, s) == Scene(v, s.canvases[e := c], taken, s.shots);
    assert taken.Some? ==> Shows(emu, v.shells, v.link.epoch, v.link.shot.value, taken.value);
  }

  lemma CanvasesKeep<Grid>(emu: Emulator<Grid>, s: Scene, canvases: map<Epoch, Canvas>)
    requires Good(emu, s) && Framed(canvases, s.w.shells)
    ensures Good(emu, s.(canvases := canvases))
  {
  }

  /** Every step of the protocol, every resize and every snapshot keeps it. */
  lemma SceneKeeps<Grid>(emu: Emulator<Grid>, s: Scene, a: Action)
    requires Good(emu, s) && Able(s, a)
    ensures Good(emu, Next(emu, s, a))
  {
    match a
    case Net(event, size) => if event.Tick? { TickKeepsScene(emu, s); } else { OtherKeeps(emu, s, event, size); }
    case Resize(e, size) => CanvasesKeep(emu, s, s.canvases[e := Resized(s.canvases[e], size)]);
    case Snapshot(e) =>
      StaysFramed(s.canvases, s.w.shells, e, s.w.cap);
      CanvasesKeep(emu, s, s.canvases[e := Fresh(s, e)]);
  }

  // ---- what becomes of a screen model --------------------------------------------

  /** A snapshot, whoever asks for it, leaves a model of the size last asked for: rebuilt from
      where the ring starts now if a resize had left it stale, as it was otherwise. Nobody else's
      model is touched. */
  lemma SnapshotRebuilds<Grid>(emu: Emulator<Grid>, s: Scene, e: Epoch)
    requires Able(s, Snapshot(e))
    ensures var x, log := Next(emu, s, Snapshot(e)), s.w.shells[e].log;
            && x.w == s.w && x.taken == s.taken && x.shots == s.shots && x.canvases.Keys == s.canvases.Keys
            && !x.canvases[e].stale && x.canvases[e].size == s.canvases[e].size
            && x.canvases[e].front == (if !s.canvases[e].stale then s.canvases[e].front
                                       else if |log| > s.w.cap then |log| - s.w.cap else 0)
            && (s.canvases[e].stale ==> x.canvases[e].modelSize == s.canvases[e].size)
            && forall d :: d in s.canvases && d != e ==> x.canvases[d] == s.canvases[d]
  {
  }

  /** A resize is only noted, and only if the size is another one. */
  lemma ResizeIsNoted<Grid>(emu: Emulator<Grid>, s: Scene, e: Epoch, size: (nat, nat))
    requires Able(s, Resize(e, size))
    ensures var x, c := Next(emu, s, Resize(e, size)), s.canvases[e];
            && x == s.(canvases := s.canvases[e := x.canvases[e]])
            && x.canvases[e] == Canvas(size, c.stale || c.size != size, c.front, c.modelSize)
  {
  }

  /** A tick takes the snapshot of its own shell; a redraw that comes of it has that model, and so
      the size last asked for. Any other step leaves the models alone; a new shell has a blank one
      of its own size. */
  lemma NetLeavesModels<Grid>(emu: Emulator<Grid>, s: Scene, event: Event, size: (nat, nat))
    requires Good(emu, s) && Enabled(s.w, event)
    ensures var x := Next(emu, s, Net(event, size));
            && (event.Tick? ==>
                  && x.canvases == Next(emu, s, Snapshot(s.w.link.epoch)).canvases
                  && (x.taken.Some? ==> x.taken.value.canvas == x.canvases[s.w.link.epoch]))
            && (!event.Tick? ==>
                  && x.canvases.Keys == x.w.shells.Keys
                  && forall e :: e in x.w.shells ==>
                       x.canvases[e] == if e in s.w.shells then s.canvases[e] else Canvas(size, false, 0, size))
  {
    var x := Next(emu, s, Net(event, size));
    if !event.Tick? {
      forall e | e in x.w.shells
        ensures x.canvases[e] == if e in s.w.shells then s.canvases[e] else Canvas(size, false, 0, size)
      {
        assert e in s.canvases <==> e in s.w.shells;
      }
    }
  }

  // ---- whole runs ----------------------------------------------------------------

  function Opening(cap: nat): Scene { Scene(Start(cap), map[], None, []) }

  predicate Legal<Grid>(emu: Emulator<Grid>, s: Scene, run: seq<Action>)
    decreases run
  {
    run == [] || (Able(s, run[0]) && Legal(emu, Next(emu, s, run[0]), run[1..]))
  }

  function After<Grid>(emu: Emulator<Grid>, s: Scene, run: seq<Action>): Scene
    requires Legal(emu, s, run)
    decreases run
  {
    if run == [] then s else After(emu, Next(emu, s, run[0]), run[1..])
  }

  lemma {:induction false} SceneRun<Grid>(emu: Emulator<Grid>, s: Scene, run: seq<Action>)
    requires Good(emu, s) && Legal(emu, s, run)
    ensures Good(emu, After(emu, s, run))
    decreases run
  {
    if run != [] {
      SceneKeeps(emu, s, run[0]);
      SceneRun(emu, Next(emu, s, run[0]), run[1..]);
    }
  }

  /** In every run of protocol steps, resizes and snapshots, the picture of a redraw the client
      acts on is that of a terminal of the announced size that reset and wrote a prefix and
      then the stream of the client's own shell up to exactly the client's own position. */
  lemma PictureShowsClientPosition<Grid>(emu: Emulator<Grid>, cap: nat, run: seq<Action>)
    requires Legal(emu, Opening(cap), run)
    ensures var s := After(emu, Opening(cap), run);
            s.w.fifo != [] && s.w.fifo[0].Redraw? && !s.w.client.awaiting ==>
              && s.shots != [] && s.w.client.known.Some? && s.w.client.known.value in s.w.shells
              && var log, c := s.w.shells[s.w.client.known.value].log, s.shots[0].canvas;
                 && c.front <= s.w.client.offset <= |log|
                 && s.shots[0].picture == Picture(emu, c, log[..s.w.client.offset])
  {
    StartHolds(cap);
    SceneRun(emu, Opening(cap), run);
    var s := After(emu, Opening(cap), run);
    if s.w.fifo != [] && s.w.fifo[0].Redraw? && !s.w.client.awaiting { RelayClient.RedrawAtPosition(s.w); }
  }
}
