/** One slot, its successive shells, and one client that attaches, lags, drops and
    re-attaches: the protocol between the reader thread, the connection's loop,
    `Terminals::attach`, the forward task and the writer queue (src/terminals.rs,
    src/pty.rs). Other clients act on the slot only through the shell events below. */
module Relay {
  import opened Basics
  import opened Scrollbacks

  /** Slots of the broadcast channel. */
  const BROADCAST_CAP: nat := 64

  type Epoch = nat

  datatype Reason = Exit | Error

  datatype Checkpoint = Checkpoint(epoch: Epoch, offset: nat)

  /** What travels to the client. A redraw is identified by the shell and the
      stream position its picture was taken at. */
  datatype Frame =
    | Hello(mode: AttachMode, epoch: Epoch, offset: nat, init: Bytes)
    | Data(bytes: Bytes)
    | Redraw(epoch: Epoch, at: nat)
    | Closed(reason: Reason)

  /** One spawn, the `born`-th. The reader thread appends to `log` (of which the ring keeps
      the tail) and broadcasts the same chunk under one lock. `stops` counts the calls of
      `stop`; the reader ending is one more announcement on the shutdown channel. `dropped`:
      the slot no longer holds it. */
  datatype Shell = Shell(born: nat, log: Bytes, sent: seq<Bytes>, open: bool, stops: nat, dropped: bool)

  /** The version of the shutdown channel. */
  function Version(s: Shell): nat { s.stops + if s.open then 0 else 1 }

  /** A receiver counts everything announced before it subscribed as seen. `open` and
      `stops` note what the shell was like then. */
  datatype Seen = Seen(version: nat, open: bool, stops: nat)

  /** The forward task of the current attachment: its place in the broadcast, and
      what a redraw still has to send. */
  datatype Link =
    | Detached
    | Attached(serial: nat, epoch: Epoch, pos: nat, pending: seq<Bytes>, shot: Option<nat>, seen: Seen)

  /** Where the connection's loop stands in answering an open: the old task aborted and
      awaited; inside `attach` before and after the alive check, after cutting, after the
      last subscription; hello queued; replay queued. The slot's lock is held from `Found`
      until the last subscription. */
  datatype Loop =
    | Ready
    | Stopping(resume: Option<Checkpoint>)
    | Looking(resume: Option<Checkpoint>)
    | Found(epoch: Epoch, resume: Option<Checkpoint>)
    | Cut(epoch: Epoch, r: CutResult, init: Bytes, pos: nat)
    | Subscribed(epoch: Epoch, r: CutResult, init: Bytes, pos: nat, seen: Seen)
    | Greeted(epoch: Epoch, r: CutResult, pos: nat, seen: Seen)
    | Replayed(epoch: Epoch, pos: nat, seen: Seen)

  /** The offset-counting client. `held` is what it wrote since its last reset, behind the
      mode prefix `init`. */
  datatype Client = Client(awaiting: bool, known: Option<Epoch>, base: nat, offset: nat, held: Bytes, init: Bytes)

  /** How far the frames delivered so far reach, whatever the client made of them. */
  datatype Cursor = Nowhere | At(epoch: Epoch, offset: nat)

  /** Who queued a frame, and what: 0 the hello, 1 the replay, 2 anything later. */
  datatype Tag = Tag(who: nat, rank: nat)

  datatype World = World(
    cap: nat,
    shells: map<Epoch, Shell>,
    births: nat,
    slot: Option<Epoch>,
    loop: Loop,
    link: Link,
    serial: nat,
    fifo: seq<Frame>,
    trace: seq<Tag>,
    asks: seq<Option<Checkpoint>>,
    cursor: Cursor,
    client: Client)

  datatype Event =
    | Push(epoch: Epoch, chunk: Bytes)
    | ReaderEnds(epoch: Epoch)
    | Reset
    | OtherAttaches(spawned: Epoch)
    | SendOpen(resume: bool)
    | HandleOpen
    | ForwardGone
    | FindShell(spawned: Epoch)
    | AttachFails
    | CutReplay
    | Subscribe
    | QueueHello
    | QueueReplay
    | SpawnForward
    | Receive
    | Lag
    | Shutdown
    | OutputEnds
    | Tick
    | SendPending
    | SendRedraw
    | Deliver
    | Disconnect

  // ---- the broadcast receiver ----------------------------------------------

  datatype TryRecv = Got(chunk: Bytes) | Lagged | Empty

  /** `Receiver::try_recv` for a receiver whose next unread chunk is `pos`. */
  function Tried(sent: seq<Bytes>, pos: nat): TryRecv
    requires pos <= |sent|
  {
    if |sent| - pos > BROADCAST_CAP then Lagged
    else if pos < |sent| then Got(sent[pos])
    else Empty
  }

  /** The drain of `ScreenHandle::redraw`. Nothing is broadcast while it holds
      the scrollback lock, so lag can only be seen before the first chunk. */
  method DrainUnderLock(sent: seq<Bytes>, pos: nat) returns (pending: seq<Bytes>, lagged: bool, next: nat)
    requires pos <= |sent|
    ensures lagged <==> |sent| - pos > BROADCAST_CAP
    ensures lagged ==> pending == []
    ensures !lagged ==> pending == sent[pos..] && next == |sent|
  {
    pending, lagged, next := [], false, pos;
    while true
      invariant pos <= next <= |sent|
      invariant pending == sent[pos..next]
      invariant !lagged
      invariant next > pos ==> |sent| - pos <= BROADCAST_CAP
      decreases |sent| - next
    {
      match Tried(sent, next) {
        case Got(chunk) =>
          assert sent[pos..next] + [chunk] == sent[pos..next + 1];
          pending := pending + [chunk];
          next := next + 1;
        case Lagged =>
          lagged := true;
          return;
        case Empty =>
          return;
      }
    }
  }

  // ---- the client ----------------------------------------------------------

  /** The client's reaction to one frame. While it awaits a hello, everything
      else belongs to a replaced attachment and is dropped. */
  function Received(c: Client, f: Frame): Client
  {
    match f
    case Hello(mode, e, off, init) =>
      if mode.Replay? then Client(false, Some(e), off, off, [], init)
      else c.(awaiting := false, offset := off)
    case Data(bytes) =>
      if c.awaiting then c else c.(offset := c.offset + |bytes|, held := c.held + bytes)
    case Redraw(_, _) => c
    case Closed(_) => c
  }

  function Moved(c: Cursor, f: Frame): Cursor
  {
    match f
    case Hello(_, e, off, _) => At(e, off)
    case Data(bytes) => if c.At? then At(c.epoch, c.offset + |bytes|) else c
    case _ => c
  }

  /** Where the cursor will be once everything queued has been delivered. */
  function End(c: Cursor, fifo: seq<Frame>): Cursor
    decreases fifo
  {
    if fifo == [] then c else End(Moved(c, fifo[0]), fifo[1..])
  }

  // ---- steps ---------------------------------------------------------------

  predicate NeedsSpawn(w: World)
  {
    w.slot.None? || w.slot.value !in w.shells || !w.shells[w.slot.value].open
  }

  predicate SlotFree(w: World) { !w.loop.Found? && !w.loop.Cut? }

  predicate Idle(w: World)
  {
    && w.link.Attached? && w.link.epoch in w.shells && w.link.pending == [] && w.link.shot.None?
    && w.link.pos <= |w.shells[w.link.epoch].sent|
  }

  /** How many chunks the forward task's receiver is behind. */
  function Unread(w: World): nat
    requires Idle(w)
  {
    |w.shells[w.link.epoch].sent| - w.link.pos
  }

  predicate Enabled(w: World, e: Event)
  {
    match e
    case Push(ep, chunk) => ep in w.shells && w.shells[ep].open
    case ReaderEnds(ep) => ep in w.shells && w.shells[ep].open
    case Reset => SlotFree(w) && w.slot.Some? && w.slot.value in w.shells
    case OtherAttaches(spawned) => SlotFree(w) && NeedsSpawn(w) && spawned !in w.shells
    case SendOpen(resume) => resume ==> w.client.known.Some?
    case HandleOpen => w.loop.Ready? && w.asks != []
    case ForwardGone => w.loop.Stopping?
    case FindShell(spawned) => w.loop.Looking? && (NeedsSpawn(w) ==> spawned !in w.shells)
    case AttachFails => w.loop.Looking? && NeedsSpawn(w)
    case CutReplay => w.loop.Found? && w.loop.epoch in w.shells
    case Subscribe => w.loop.Cut? && w.loop.epoch in w.shells
    case QueueHello => w.loop.Subscribed?
    case QueueReplay => w.loop.Greeted?
    case SpawnForward => w.loop.Replayed?
    case Receive => Idle(w) && 0 < Unread(w) <= BROADCAST_CAP
    case Lag => Idle(w) && Unread(w) > BROADCAST_CAP
    case Shutdown => Idle(w) && Version(w.shells[w.link.epoch]) > w.link.seen.version
    case OutputEnds =>
      Idle(w) && Unread(w) == 0 && !w.shells[w.link.epoch].open && w.shells[w.link.epoch].dropped
    case Tick => Idle(w)
    case SendPending => w.link.Attached? && w.link.pending != []
    case SendRedraw => w.link.Attached? && w.link.pending == [] && w.link.shot.Some?
    case Deliver => w.fifo != []
    case Disconnect => true
  }

  function Queue(w: World, f: Frame, tag: Tag): World
  {
    w.(fifo := w.fifo + [f], trace := w.trace + [tag])
  }

  /** A frame of the forward task. */
  function Forward(w: World, link: Link, f: Frame): World
    requires w.link.Attached?
  {
    Queue(w.(link := link), f, Tag(w.link.serial, 2))
  }

  function Pushed(s: Shell, chunk: Bytes): Shell
  {
    s.(log := s.log + chunk, sent := s.sent + [chunk])
  }

  /** The slot gives up the shell it names, if any, stopping it. */
  function Vacated(w: World): World
  {
    (if w.slot.Some? && w.slot.value in w.shells then
       var s := w.shells[w.slot.value];
       w.(shells := w.shells[w.slot.value := s.(stops := s.stops + 1, dropped := true)])
     else w).(slot := None)
  }

  /** Respawn a missing or dead shell under a never-used epoch. */
  function WithShell(w: World, spawned: Epoch): World
  {
    if NeedsSpawn(w)
    then var v := Vacated(w);
         v.(shells := v.shells[spawned := Shell(w.births, [], [], true, 0, false)],
            births := w.births + 1, slot := Some(spawned))
    else w
  }

  /** The loop itself tells the client that attaching failed. */
  function Noticed(u: World): World
  {
    Queue(u.(loop := Ready, serial := u.serial + 1), Closed(Error), Tag(u.serial + 1, 2))
  }

  function CutFor(s: Shell, cap: nat, e: Epoch, resume: Option<Checkpoint>): CutResult
  {
    CutOf(s.log, cap, if resume.Some? && resume.value.epoch == e then Some(resume.value.offset) else None)
  }

  function Apply(w: World, e: Event): World
    requires Enabled(w, e)
  {
    match e
    case Push(ep, chunk) => w.(shells := w.shells[ep := Pushed(w.shells[ep], chunk)])
    case ReaderEnds(ep) => w.(shells := w.shells[ep := w.shells[ep].(open := false)])
    case Reset => Vacated(w)
    case OtherAttaches(spawned) => WithShell(w, spawned)
    case SendOpen(resume) =>
      w.(client := w.client.(awaiting := true),
         asks := w.asks + [if resume then Some(Checkpoint(w.client.known.value, w.client.offset)) else None])
    case HandleOpen => w.(loop := Stopping(w.asks[0]), asks := w.asks[1..])
    case ForwardGone => w.(loop := Looking(w.loop.resume), link := Detached)
    case FindShell(spawned) =>
      var u := WithShell(w, spawned);
      u.(loop := Found(u.slot.value, w.loop.resume))
    case AttachFails =>
      Noticed(Vacated(w))
    case CutReplay =>
      var s := w.shells[w.loop.epoch];
      var r := CutFor(s, w.cap, w.loop.epoch, w.loop.resume);
      w.(loop := Cut(w.loop.epoch, r, if r.mode.Replay? then InitAt(s.log, r.base) else [], |s.sent|))
    case Subscribe =>
      var s := w.shells[w.loop.epoch];
      w.(loop := Subscribed(w.loop.epoch, w.loop.r, w.loop.init, w.loop.pos, Seen(Version(s), s.open, s.stops)))
    case QueueHello =>
      var l := w.loop;
      Queue(w.(loop := Greeted(l.epoch, l.r, l.pos, l.seen), serial := w.serial + 1),
            Hello(l.r.mode, l.epoch, l.r.base, l.init), Tag(w.serial + 1, 0))
    case QueueReplay =>
      Queue(w.(loop := Replayed(w.loop.epoch, w.loop.pos, w.loop.seen)), Data(w.loop.r.bytes), Tag(w.serial, 1))
    case SpawnForward =>
      w.(loop := Ready, link := Attached(w.serial, w.loop.epoch, w.loop.pos, [], None, w.loop.seen))
    case Receive =>
      Forward(w, w.link.(pos := w.link.pos + 1), Data(w.shells[w.link.epoch].sent[w.link.pos]))
    case Lag => Forward(w, Detached, Closed(Error))
    case Shutdown => Forward(w, Detached, Closed(Exit))
    case OutputEnds => w.(link := Detached)
    case Tick =>
      var s := w.shells[w.link.epoch];
      if Unread(w) > BROADCAST_CAP then Forward(w, Detached, Closed(Error))
      else w.(link := w.link.(pos := |s.sent|, pending := s.sent[w.link.pos..], shot := Some(|s.log|)))
    case SendPending =>
      Forward(w, w.link.(pending := w.link.pending[1..]), Data(w.link.pending[0]))
    case SendRedraw =>
      Forward(w, w.link.(shot := None), Redraw(w.link.epoch, w.link.shot.value))
    case Deliver =>
      w.(client := Received(w.client, w.fifo[0]), cursor := Moved(w.cursor, w.fifo[0]), fifo := w.fifo[1..])
    case Disconnect => w.(loop := Ready, link := Detached, fifo := [], asks := [], cursor := Nowhere)
  }

  function Start(cap: nat): World
  {
    World(cap, map[], 0, None, Ready, Detached, 0, [], [], [], Nowhere, Client(false, None, 0, 0, [], []))
  }

  /** A run: every event enabled when it happens. */
  predicate Legal(w: World, run: seq<Event>)
    decreases run
  {
    run == [] || (Enabled(w, run[0]) && Legal(Apply(w, run[0]), run[1..]))
  }

  function After(w: World, run: seq<Event>): World
    requires Legal(w, run)
    decreases run
  {
    if run == [] then w else After(Apply(w, run[0]), run[1..])
  }

  // ---- what a client may be asked to be --------------------------------------

  /** The client holds exactly one contiguous stretch of one shell's stream, behind the
      prefix for its beginning. */
  predicate Honest(shells: map<Epoch, Shell>, c: Client)
  {
    match c.known
    case None => c.held == []
    case Some(e) =>
      && e in shells
      && c.base <= c.offset <= |shells[e].log|
      && c.held == shells[e].log[c.base..c.offset]
      && c.init == InitAt(shells[e].log, c.base)
  }

  predicate ResumeAt(c: Client, e: Epoch, off: nat) { c.known == Some(e) && c.offset == off }

  /** If the event delivers a resume hello, it names the client's place. The client can
      check this before it accepts the hello. */
  predicate AnswerFits(w: World, e: Event)
  {
    e.Deliver? && w.fifo != [] && w.fifo[0].Hello? && w.fifo[0].mode.Resume? ==>
      ResumeAt(w.client, w.fifo[0].epoch, w.fifo[0].offset)
  }

  predicate AllAnswersFit(w: World, run: seq<Event>)
    requires Legal(w, run)
    decreases run
  {
    run == [] || (AnswerFits(w, run[0]) && AllAnswersFit(Apply(w, run[0]), run[1..]))
  }

  /** The event delivers the hello of a full replay. */
  predicate BringsReplay(w: World, e: Event)
  {
    e.Deliver? && w.fifo != [] && w.fifo[0].Hello? && w.fifo[0].mode.Replay?
  }

  /** Every answer since the last replay that was delivered fits; `so` says that of what came
      before this run. */
  predicate FitsSinceReplay(w: World, run: seq<Event>, so: bool)
    requires Legal(w, run)
    decreases run
  {
    if run == [] then so
    else FitsSinceReplay(Apply(w, run[0]), run[1..], BringsReplay(w, run[0]) || (so && AnswerFits(w, run[0])))
  }

  /** At every moment since the last replay the client was honest. */
  predicate HonestSinceReplay(w: World, run: seq<Event>, so: bool)
    requires Legal(w, run)
    decreases run
  {
    if run == [] then so
    else var v := Apply(w, run[0]);
         HonestSinceReplay(v, run[1..], (so || BringsReplay(w, run[0])) && Honest(v.shells, v.client))
  }

  /** After every prefix of the run the client is honest. */
  predicate AlwaysHonest(w: World, run: seq<Event>)
    requires Legal(w, run)
    decreases run
  {
    Honest(w.shells, w.client) && (run == [] || AlwaysHonest(Apply(w, run[0]), run[1..]))
  }

  // ---- the invariant: shells -------------------------------------------------

  predicate ShellsInv(w: World)
  {
    && (forall e :: e in w.shells ==> Flatten(w.shells[e].sent) == w.shells[e].log && w.shells[e].born < w.births)
    && (forall d, e :: d in w.shells && e in w.shells && w.shells[d].born == w.shells[e].born ==> d == e)
    && (w.slot.Some? ==> w.slot.value in w.shells && w.shells[w.slot.value].born + 1 == w.births
                         && !w.shells[w.slot.value].dropped)
  }

  /** Later in the same shell's life. */
  predicate Advanced(s: Shell, t: Shell)
  {
    && t.born == s.born && s.stops <= t.stops && (t.open ==> s.open)
    && s.log <= t.log && s.sent <= t.sent
    && t.log[|s.log|..] == Flatten(t.sent[|s.sent|..])
  }

  predicate AllAdvanced(a: map<Epoch, Shell>, b: map<Epoch, Shell>)
  {
    forall e :: e in a ==> e in b && Advanced(a[e], b[e])
  }

  lemma Unchanged(s: Shell, t: Shell)
    requires t == s.(stops := t.stops, open := t.open, dropped := t.dropped)
    requires s.stops <= t.stops && (t.open ==> s.open)
    ensures Advanced(s, t)
  {
    assert s.sent[|s.sent|..] == [] && s.log[|s.log|..] == [];
  }

  lemma PushedAdvances(s: Shell, chunk: Bytes)
    ensures Advanced(s, Pushed(s, chunk))
    ensures Flatten(s.sent) == s.log ==> Flatten(Pushed(s, chunk).sent) == Pushed(s, chunk).log
  {
    assert (s.sent + [chunk])[|s.sent|..] == [chunk] && (s.log + chunk)[|s.log|..] == chunk;
    FlattenOne(chunk);
    FlattenSnoc(s.sent, chunk);
  }

  // ---- the invariant: the wire ----------------------------------------------

  /** A frame continues the stream where the cursor is. */
  predicate Fits(shells: map<Epoch, Shell>, c: Cursor, f: Frame)
  {
    match f
    case Hello(mode, e, off, init) =>
      && e in shells && off <= |shells[e].log|
      && (mode.Replay? ==> init == InitAt(shells[e].log, off))
    case Data(bytes) =>
      && c.At? && c.epoch in shells && c.offset + |bytes| <= |shells[c.epoch].log|
      && bytes == shells[c.epoch].log[c.offset..c.offset + |bytes|]
    case Redraw(e, at) => c == At(e, at)
    case Closed(_) => true
  }

  predicate Wire(shells: map<Epoch, Shell>, c: Cursor, fifo: seq<Frame>)
    decreases fifo
  {
    fifo == [] || (Fits(shells, c, fifo[0]) && Wire(shells, Moved(c, fifo[0]), fifo[1..]))
  }

  lemma {:induction false} WireSnoc(shells: map<Epoch, Shell>, c: Cursor, fifo: seq<Frame>, f: Frame)
    requires Wire(shells, c, fifo) && Fits(shells, End(c, fifo), f)
    ensures Wire(shells, c, fifo + [f]) && End(c, fifo + [f]) == Moved(End(c, fifo), f)
    decreases fifo
  {
    if fifo == [] {
      assert fifo + [f] == [f] && [f][1..] == [];
    } else {
      assert (fifo + [f])[1..] == fifo[1..] + [f];
      WireSnoc(shells, Moved(c, fifo[0]), fifo[1..], f);
    }
  }

  lemma InitKept(log: Bytes, more: Bytes, off: nat)
    requires log <= more && off <= |log|
    ensures InitAt(more, off) == InitAt(log, off)
  {
    assert more[..off] == log[..off];
  }

  lemma FitsAdvanced(a: map<Epoch, Shell>, b: map<Epoch, Shell>, c: Cursor, f: Frame)
    requires Fits(a, c, f) && AllAdvanced(a, b)
    ensures Fits(b, c, f)
  {
    if f.Hello? {
      InitKept(a[f.epoch].log, b[f.epoch].log, f.offset);
    } else if f.Data? {
      var s, t := a[c.epoch].log, b[c.epoch].log;
      assert t[c.offset..c.offset + |f.bytes|] == s[c.offset..c.offset + |f.bytes|];
    }
  }

  lemma {:induction false} WireAdvanced(a: map<Epoch, Shell>, b: map<Epoch, Shell>, c: Cursor, fifo: seq<Frame>)
    requires Wire(a, c, fifo) && AllAdvanced(a, b)
    ensures Wire(b, c, fifo)
    decreases fifo
  {
    if fifo != [] {
      FitsAdvanced(a, b, c, fifo[0]);
      WireAdvanced(a, b, Moved(c, fifo[0]), fifo[1..]);
    }
  }

  /** From `off` on, what is pending and what is unread are the rest of the stream. */
  predicate Tail(s: Shell, off: nat, pending: seq<Bytes>, pos: nat)
  {
    && off <= |s.log| && pos <= |s.sent|
    && s.log[off..] == Flatten(pending) + Flatten(s.sent[pos..])
  }

  lemma TailAdvanced(s: Shell, t: Shell, off: nat, pending: seq<Bytes>, pos: nat)
    requires Tail(s, off, pending, pos) && Advanced(s, t)
    ensures Tail(t, off, pending, pos)
  {
    var more := Flatten(t.sent[|s.sent|..]);
    SentSplits(s.sent, t.sent, pos);
    assert t.log == s.log + more;
    LongerTail(s.log, off, Flatten(pending), Flatten(s.sent[pos..]), more);
  }

  lemma SentSplits(sent: seq<Bytes>, longer: seq<Bytes>, pos: nat)
    requires pos <= |sent| && sent <= longer
    ensures Flatten(longer[pos..]) == Flatten(sent[pos..]) + Flatten(longer[|sent|..])
  {
    assert longer[pos..] == sent[pos..] + longer[|sent|..];
    FlattenConcat(sent[pos..], longer[|sent|..]);
  }

  lemma LongerTail(log: Bytes, off: nat, a: Bytes, b: Bytes, more: Bytes)
    requires off <= |log| && log[off..] == a + b
    ensures (log + more)[off..] == a + (b + more)
  {
    assert (log + more)[off..] == log[off..] + more;
  }

  /** Reading the next chunk moves it from the tail to the wire. */
  lemma TailReads(s: Shell, off: nat, pos: nat)
    requires Tail(s, off, [], pos) && pos < |s.sent|
    ensures off + |s.sent[pos]| <= |s.log| && s.sent[pos] == s.log[off..off + |s.sent[pos]|]
    ensures Tail(s, off + |s.sent[pos]|, [], pos + 1)
  {
    var rest := s.sent[pos + 1..];
    assert s.sent[pos..] == [s.sent[pos]] + rest;
    FlattenConcat([s.sent[pos]], rest);
    FlattenOne(s.sent[pos]);
    HeadOfTail(s.log, off, s.sent[pos], Flatten(rest));
  }

  lemma TailSends(s: Shell, off: nat, pending: seq<Bytes>, pos: nat)
    requires Tail(s, off, pending, pos) && pending != []
    ensures off + |pending[0]| <= |s.log| && pending[0] == s.log[off..off + |pending[0]|]
    ensures Tail(s, off + |pending[0]|, pending[1..], pos)
    ensures |Flatten(pending)| == |pending[0]| + |Flatten(pending[1..])|
  {
    var head, middle, rest := pending[0], Flatten(pending[1..]), Flatten(s.sent[pos..]);
    FirstOfThree(head, middle, rest);
    HeadOfTail(s.log, off, head, middle + rest);
  }

  lemma FirstOfThree(a: Bytes, b: Bytes, c: Bytes)
    ensures a + b + c == a + (b + c)
  {
  }

  lemma HeadOfTail(log: Bytes, off: nat, head: Bytes, rest: Bytes)
    requires off <= |log| && log[off..] == head + rest
    ensures off + |head| <= |log| && head == log[off..off + |head|] && log[off + |head|..] == rest
  {
    assert |log[off..]| == |head| + |rest|;
    assert log[off..][..|head|] == head && log[off..][|head|..] == rest;
  }

  /** A redraw drains everything unread. */
  lemma TailDrained(s: Shell, off: nat, pos: nat)
    requires Tail(s, off, [], pos)
    ensures Tail(s, off, s.sent[pos..], |s.sent|) && off + |Flatten(s.sent[pos..])| == |s.log|
  {
    assert s.sent[|s.sent|..] == [];
    assert s.log[off..] == Flatten(s.sent[pos..]) + [];
  }

  /** What a cut hands over. */
  lemma CutTail(s: Shell, cap: nat, e: Epoch, resume: Option<Checkpoint>)
    ensures var r := CutFor(s, cap, e, resume);
            && Tail(s, r.base, [r.bytes], |s.sent|)
            && (r.mode.Resume? <==> resume.Some? && resume.value.epoch == e
                                    && Front(s.log, cap) <= resume.value.offset <= |s.log|)
            && (r.mode.Resume? ==> r.base == resume.value.offset)
  {
    var r := CutFor(s, cap, e, resume);
    CutIsExact(s.log, cap, if resume.Some? && resume.value.epoch == e then Some(resume.value.offset) else None);
    assert s.sent[|s.sent|..] == [];
    FlattenOne(r.bytes);
  }

  predicate SeenInv(s: Shell, seen: Seen)
  {
    && seen.version == seen.stops + (if seen.open then 0 else 1)
    && seen.stops <= s.stops && (s.open ==> seen.open)
  }

  predicate LinkInv(w: World)
  {
    w.link.Attached? ==>
      && (w.loop.Ready? || w.loop.Stopping?)
      && w.link.serial == w.serial && w.link.epoch in w.shells
      && SeenInv(w.shells[w.link.epoch], w.link.seen)
      && var end := End(w.cursor, w.fifo);
         && end.At? && end.epoch == w.link.epoch
         && Tail(w.shells[w.link.epoch], end.offset, w.link.pending, w.link.pos)
         && (w.link.shot.Some? ==> w.link.shot.value == end.offset + |Flatten(w.link.pending)|)
  }

  /** A cut is still good: its bytes and what is unread are the rest of the stream. */
  predicate CutInv(w: World, e: Epoch, r: CutResult, init: Bytes, pos: nat)
  {
    && e in w.shells && Tail(w.shells[e], r.base, [r.bytes], pos)
    && (r.mode.Replay? ==> init == InitAt(w.shells[e].log, r.base))
  }

  predicate LoopInv(w: World)
  {
    match w.loop
    case Ready => true
    case Stopping(_) => true
    case Looking(_) => true
    case Found(e, _) => w.slot == Some(e) && e in w.shells
    case Cut(e, r, init, pos) => w.slot == Some(e) && CutInv(w, e, r, init, pos)
    case Subscribed(e, r, init, pos, seen) => CutInv(w, e, r, init, pos) && SeenInv(w.shells[e], seen)
    case Greeted(e, r, pos, seen) =>
      && e in w.shells && Tail(w.shells[e], r.base, [r.bytes], pos) && SeenInv(w.shells[e], seen)
      && End(w.cursor, w.fifo) == At(e, r.base)
    case Replayed(e, pos, seen) =>
      && e in w.shells && SeenInv(w.shells[e], seen)
      && var end := End(w.cursor, w.fifo);
         end.At? && end.epoch == e && Tail(w.shells[e], end.offset, [], pos)
  }

  // ---- the invariant: who is ahead of whom ------------------------------------

  function Born(shells: map<Epoch, Shell>, e: Option<Epoch>): nat
  {
    if e.Some? && e.value in shells then shells[e.value].born else 0
  }

  /** Hellos on the wire name shells in the order of their births. */
  predicate Ascends(shells: map<Epoch, Shell>, low: nat, fifo: seq<Frame>)
    decreases fifo
  {
    fifo == [] ||
      (if fifo[0].Hello? then
         && fifo[0].epoch in shells && low <= shells[fifo[0].epoch].born
         && Ascends(shells, shells[fifo[0].epoch].born, fifo[1..])
       else Ascends(shells, low, fifo[1..]))
  }

  /** The last birth the wire tells of. */
  function High(shells: map<Epoch, Shell>, low: nat, fifo: seq<Frame>): nat
    decreases fifo
  {
    if fifo == [] then low
    else High(shells, if fifo[0].Hello? then Born(shells, Some(fifo[0].epoch)) else low, fifo[1..])
  }

  lemma {:induction false} AscendsSnoc(shells: map<Epoch, Shell>, low: nat, fifo: seq<Frame>, f: Frame)
    requires Ascends(shells, low, fifo)
    requires f.Hello? ==> f.epoch in shells && High(shells, low, fifo) <= shells[f.epoch].born
    ensures Ascends(shells, low, fifo + [f])
    ensures High(shells, low, fifo + [f]) == if f.Hello? then shells[f.epoch].born else High(shells, low, fifo)
    decreases fifo
  {
    if fifo == [] {
      assert fifo + [f] == [f] && [f][1..] == [];
    } else {
      assert (fifo + [f])[1..] == fifo[1..] + [f];
      AscendsSnoc(shells, if fifo[0].Hello? then shells[fifo[0].epoch].born else low, fifo[1..], f);
    }
  }

  lemma {:induction false} AscendsAdvanced(a: map<Epoch, Shell>, b: map<Epoch, Shell>, low: nat, fifo: seq<Frame>)
    requires Ascends(a, low, fifo) && AllAdvanced(a, b)
    ensures Ascends(b, low, fifo) && High(b, low, fifo) == High(a, low, fifo)
    decreases fifo
  {
    if fifo != [] {
      AscendsAdvanced(a, b, if fifo[0].Hello? then a[fifo[0].epoch].born else low, fifo[1..]);
    }
  }

  lemma {:induction false} HighBound(w: World, low: nat, fifo: seq<Frame>)
    requires ShellsInv(w) && Ascends(w.shells, low, fifo) && low <= w.births
    ensures High(w.shells, low, fifo) <= w.births
    ensures low < w.births ==> High(w.shells, low, fifo) < w.births
    decreases fifo
  {
    if fifo != [] { HighBound(w, if fifo[0].Hello? then w.shells[fifo[0].epoch].born else low, fifo[1..]); }
  }

  /** The client has been told of this shell, or of a later one. */
  predicate Met(shells: map<Epoch, Shell>, c: Client, e: Epoch)
  {
    && c.known.Some? && c.known.value in shells && e in shells
    && shells[e].born <= shells[c.known.value].born
  }

  /** The checkpoint the loop is answering, or has answered with a resume. */
  function Answering(l: Loop): Option<Epoch>
  {
    match l
    case Stopping(resume) => if resume.Some? then Some(resume.value.epoch) else None
    case Looking(resume) => if resume.Some? then Some(resume.value.epoch) else None
    case Found(_, resume) => if resume.Some? then Some(resume.value.epoch) else None
    case Cut(e, r, _, _) => if r.mode.Resume? then Some(e) else None
    case Subscribed(e, r, _, _, _) => if r.mode.Resume? then Some(e) else None
    case _ => None
  }

  /** The shell the loop is about to greet with. */
  function Greeting(l: Loop): Option<Epoch>
  {
    match l
    case Found(e, _) => Some(e)
    case Cut(e, _, _, _) => Some(e)
    case Subscribed(e, _, _, _, _) => Some(e)
    case _ => None
  }

  predicate SyncInv(w: World)
  {
    && (w.client.known.Some? ==> w.client.known.value in w.shells)
    && (w.cursor.At? && !w.client.awaiting ==> ResumeAt(w.client, w.cursor.epoch, w.cursor.offset))
    && Ascends(w.shells, Born(w.shells, w.client.known), w.fifo)
    && (Greeting(w.loop).Some? ==>
          && Greeting(w.loop).value in w.shells
          && High(w.shells, Born(w.shells, w.client.known), w.fifo) <= w.shells[Greeting(w.loop).value].born)
    && (Answering(w.loop).Some? ==> Met(w.shells, w.client, Answering(w.loop).value))
    && (forall i :: 0 <= i < |w.asks| && w.asks[i].Some? ==> Met(w.shells, w.client, w.asks[i].value.epoch))
    && (forall k :: 0 <= k < |w.fifo| && w.fifo[k].Hello? && w.fifo[k].mode.Resume? ==>
          Met(w.shells, w.client, w.fifo[k].epoch))
  }

  // ---- the invariant: who queues when ------------------------------------------

  predicate Before(a: Tag, b: Tag)
  {
    a.who < b.who || (a.who == b.who && (a.rank < b.rank || (a.rank == 2 && b.rank == 2)))
  }

  predicate Ordered(trace: seq<Tag>)
  {
    forall i, j :: 0 <= i < j < |trace| ==> Before(trace[i], trace[j])
  }

  /** The last frame queued was at most this. */
  predicate Upto(trace: seq<Tag>, top: Tag)
  {
    trace != [] ==> trace[|trace| - 1] == top || Before(trace[|trace| - 1], top)
  }

  predicate TraceInv(w: World)
  {
    && Ordered(w.trace)
    && Upto(w.trace, match w.loop
                     case Greeted(_, _, _, _) => Tag(w.serial, 0)
                     case Replayed(_, _, _) => Tag(w.serial, 1)
                     case _ => Tag(w.serial, 2))
  }

  lemma OrderedSnoc(trace: seq<Tag>, top: Tag, t: Tag)
    requires Ordered(trace) && Upto(trace, top) && Before(top, t)
    ensures Ordered(trace + [t]) && Upto(trace + [t], t)
  {
    var more := trace + [t];
    forall i, j | 0 <= i < j < |more| ensures Before(more[i], more[j]) {
      if j == |trace| && i < |trace| - 1 { assert Before(trace[i], trace[|trace| - 1]); }
    }
  }

  predicate Inv(w: World)
  {
    && ShellsInv(w) && Wire(w.shells, w.cursor, w.fifo) && LinkInv(w) && LoopInv(w) && SyncInv(w) && TraceInv(w)
  }

  lemma StartHolds(cap: nat)
    ensures Inv(Start(cap)) && Honest(Start(cap).shells, Start(cap).client)
  {
  }

  // ---- every step keeps the invariant -------------------------------------------

  lemma Kept(s: Shell)
    ensures Advanced(s, s)
  {
    Unchanged(s, s);
  }

  /** One shell moves on. */
  lemma OneAdvances(shells: map<Epoch, Shell>, e: Epoch, t: Shell)
    requires e in shells ==> Advanced(shells[e], t)
    ensures AllAdvanced(shells, shells[e := t])
  {
    forall d | d in shells ensures d in shells[e := t] && Advanced(shells[d], shells[e := t][d]) {
      Kept(shells[d]);
    }
  }

  lemma AdvancedTwice(r: Shell, s: Shell, t: Shell)
    requires Advanced(r, s) && Advanced(s, t)
    ensures Advanced(r, t)
  {
    assert t.sent[|r.sent|..] == s.sent[|r.sent|..] + t.sent[|s.sent|..];
    FlattenConcat(s.sent[|r.sent|..], t.sent[|s.sent|..]);
    assert t.log[|r.log|..] == s.log[|r.log|..] + t.log[|s.log|..];
  }

  lemma CutAdvanced(w: World, v: World, e: Epoch, r: CutResult, init: Bytes, pos: nat)
    requires CutInv(w, e, r, init, pos) && AllAdvanced(w.shells, v.shells)
    ensures CutInv(v, e, r, init, pos)
  {
    TailAdvanced(w.shells[e], v.shells[e], r.base, [r.bytes], pos);
    InitKept(w.shells[e].log, v.shells[e].log, r.base);
  }

  lemma LoopAdvanced(w: World, v: World)
    requires LoopInv(w) && AllAdvanced(w.shells, v.shells) && v.loop == w.loop
    requires v.cursor == w.cursor && v.fifo == w.fifo && (!SlotFree(w) ==> v.slot == w.slot)
    ensures LoopInv(v)
  {
    match w.loop
    case Cut(e, r, init, pos) => CutAdvanced(w, v, e, r, init, pos);
    case Subscribed(e, r, init, pos, _) => CutAdvanced(w, v, e, r, init, pos);
    case Greeted(e, r, pos, _) => TailAdvanced(w.shells[e], v.shells[e], r.base, [r.bytes], pos);
    case Replayed(e, pos, _) => TailAdvanced(w.shells[e], v.shells[e], End(w.cursor, w.fifo).offset, [], pos);
    case _ =>
  }

  lemma SyncAdvanced(w: World, v: World)
    requires SyncInv(w) && AllAdvanced(w.shells, v.shells)
    requires v == w.(shells := v.shells, births := v.births, slot := v.slot)
    ensures SyncInv(v)
  {
    AscendsAdvanced(w.shells, v.shells, Born(w.shells, w.client.known), w.fifo);
  }

  /** Something happens to shells and slot only. */
  lemma ShellsMove(w: World, v: World)
    requires Inv(w) && v == w.(shells := v.shells, births := v.births, slot := v.slot)
    requires AllAdvanced(w.shells, v.shells) && ShellsInv(v) && (!SlotFree(w) ==> v.slot == w.slot)
    ensures Inv(v)
  {
    WireAdvanced(w.shells, v.shells, w.cursor, w.fifo);
    LoopAdvanced(w, v);
    SyncAdvanced(w, v);
    if w.link.Attached? {
      TailAdvanced(w.shells[w.link.epoch], v.shells[w.link.epoch], End(w.cursor, w.fifo).offset,
                   w.link.pending, w.link.pos);
    }
  }

  lemma PushKeeps(w: World, e: Epoch, chunk: Bytes)
    requires Inv(w) && Enabled(w, Push(e, chunk))
    ensures Inv(Apply(w, Push(e, chunk))) && AllAdvanced(w.shells, Apply(w, Push(e, chunk)).shells)
  {
    PushedAdvances(w.shells[e], chunk);
    OneAdvances(w.shells, e, Pushed(w.shells[e], chunk));
    ShellsMove(w, Apply(w, Push(e, chunk)));
  }

  lemma ReaderEndsKeeps(w: World, e: Epoch)
    requires Inv(w) && Enabled(w, ReaderEnds(e))
    ensures Inv(Apply(w, ReaderEnds(e))) && AllAdvanced(w.shells, Apply(w, ReaderEnds(e)).shells)
  {
    var t := w.shells[e].(open := false);
    Unchanged(w.shells[e], t);
    OneAdvances(w.shells, e, t);
    ShellsMove(w, Apply(w, ReaderEnds(e)));
  }

  lemma VacatedKeeps(w: World)
    requires Inv(w) && SlotFree(w)
    ensures Inv(Vacated(w)) && AllAdvanced(w.shells, Vacated(w).shells)
  {
    var v := Vacated(w);
    if w.slot.Some? {
      var s := w.shells[w.slot.value];
      Unchanged(s, s.(stops := s.stops + 1, dropped := true));
      OneAdvances(w.shells, w.slot.value, s.(stops := s.stops + 1, dropped := true));
    } else {
      forall d | d in w.shells ensures Advanced(w.shells[d], w.shells[d]) { Kept(w.shells[d]); }
    }
    ShellsMove(w, v);
  }

  lemma SpawnedKeeps(v: World, spawned: Epoch)
    requires Inv(v) && SlotFree(v) && v.slot.None? && spawned !in v.shells
    ensures Inv(WithShell(v, spawned)) && AllAdvanced(v.shells, WithShell(v, spawned).shells)
  {
    OneAdvances(v.shells, spawned, Shell(v.births, [], [], true, 0, false));
    ShellsMove(v, WithShell(v, spawned));
  }

  lemma WithShellKeeps(w: World, spawned: Epoch)
    requires Inv(w) && SlotFree(w) && (NeedsSpawn(w) ==> spawned !in w.shells)
    ensures Inv(WithShell(w, spawned)) && AllAdvanced(w.shells, WithShell(w, spawned).shells)
  {
    if NeedsSpawn(w) {
      var v := Vacated(w);
      VacatedKeeps(w);
      SpawnedKeeps(v, spawned);
      AdvancedOn(w.shells, v.shells, WithShell(v, spawned).shells);
    } else {
      AdvancedSame(w.shells);
    }
  }

  lemma AdvancedSame(a: map<Epoch, Shell>)
    ensures AllAdvanced(a, a)
  {
    forall d | d in a ensures Advanced(a[d], a[d]) { Kept(a[d]); }
  }

  lemma AdvancedOn(a: map<Epoch, Shell>, b: map<Epoch, Shell>, c: map<Epoch, Shell>)
    requires AllAdvanced(a, b) && AllAdvanced(b, c)
    ensures AllAdvanced(a, c)
  {
    forall d | d in a ensures d in c && Advanced(a[d], c[d]) { AdvancedTwice(a[d], b[d], c[d]); }
  }

  lemma SendOpenKeeps(w: World, resume: bool)
    requires Inv(w) && Enabled(w, SendOpen(resume))
    ensures Inv(Apply(w, SendOpen(resume)))
  {
    var v := Apply(w, SendOpen(resume));
    forall i | 0 <= i < |v.asks| && v.asks[i].Some? ensures Met(v.shells, v.client, v.asks[i].value.epoch) {
      if i < |w.asks| { assert v.asks[i] == w.asks[i]; }
    }
  }

  lemma HandleOpenKeeps(w: World)
    requires Inv(w) && Enabled(w, HandleOpen)
    ensures Inv(Apply(w, HandleOpen))
  {
    var v := Apply(w, HandleOpen);
    forall i | 0 <= i < |v.asks| && v.asks[i].Some? ensures Met(v.shells, v.client, v.asks[i].value.epoch) {
      assert v.asks[i] == w.asks[i + 1];
    }
  }

  lemma FindShellKeeps(w: World, spawned: Epoch)
    requires Inv(w) && Enabled(w, FindShell(spawned))
    ensures Inv(Apply(w, FindShell(spawned)))
    ensures AllAdvanced(w.shells, Apply(w, FindShell(spawned)).shells)
  {
    WithShellKeeps(w, spawned);
    FoundKeeps(WithShell(w, spawned), w.loop.resume);
  }

  /** The slot's shell is the youngest, so greeting with it keeps the order of births. */
  lemma FoundKeeps(u: World, resume: Option<Checkpoint>)
    requires Inv(u) && u.slot.Some? && u.loop == Looking(resume)
    ensures Inv(u.(loop := Found(u.slot.value, resume)))
  {
    HighBound(u, Born(u.shells, u.client.known), u.fifo);
  }

  lemma ForwardGoneKeeps(w: World)
    requires Inv(w) && w.loop.Stopping?
    ensures Inv(Apply(w, ForwardGone))
  {
  }

  /** The loop goes on with the same greeting and the same answer, and queues nothing. */
  lemma LoopMoves(w: World, l: Loop)
    requires Inv(w) && LoopInv(w.(loop := l)) && w.loop.Cut? && l.Subscribed?
    requires Greeting(l) == Greeting(w.loop) && Answering(l) == Answering(w.loop)
    ensures Inv(w.(loop := l))
  {
    var v := w.(loop := l);
    assert SyncInv(v) && LinkInv(v) && TraceInv(v) && ShellsInv(v);
  }

  lemma SubscribeKeeps(w: World)
    requires Inv(w) && Enabled(w, Subscribe)
    ensures Inv(Apply(w, Subscribe))
  {
    LoopMoves(w, Apply(w, Subscribe).loop);
  }

  lemma SpawnForwardKeeps(w: World)
    requires Inv(w) && w.loop.Replayed?
    ensures Inv(Apply(w, SpawnForward))
  {
  }

  lemma DisconnectKeeps(w: World)
    requires Inv(w)
    ensures Inv(Apply(w, Disconnect))
  {
  }

  lemma CutReplayKeeps(w: World)
    requires Inv(w) && Enabled(w, CutReplay)
    ensures Inv(Apply(w, CutReplay))
  {
    CutTail(w.shells[w.loop.epoch], w.cap, w.loop.epoch, w.loop.resume);
  }

  /** Something new is queued by a loop or link that then stands at `v`. */
  lemma QueuedFrame(w: World, v: World, f: Frame, top: Tag, t: Tag)
    requires Inv(w) && Upto(w.trace, top) && Before(top, t)
    requires Fits(w.shells, End(w.cursor, w.fifo), f)
    requires v.fifo == w.fifo + [f] && v.trace == w.trace + [t] && v.shells == w.shells && v.cursor == w.cursor
    ensures Wire(v.shells, v.cursor, v.fifo)
    ensures End(v.cursor, v.fifo) == Moved(End(w.cursor, w.fifo), f)
    ensures Ordered(v.trace) && Upto(v.trace, t)
  {
    WireSnoc(w.shells, w.cursor, w.fifo, f);
    OrderedSnoc(w.trace, top, t);
  }

  lemma PlainQueued(w: World, v: World, f: Frame)
    requires SyncInv(w) && !f.Hello? && v.fifo == w.fifo + [f]
    requires v.shells == w.shells && v.client == w.client && v.cursor == w.cursor && v.asks == w.asks
    requires Greeting(v.loop).None? && Answering(v.loop) in {None, Answering(w.loop)}
    ensures SyncInv(v)
  {
    AscendsSnoc(w.shells, Born(w.shells, w.client.known), w.fifo, f);
  }

  lemma AttachFailsKeeps(w: World)
    requires Inv(w) && Enabled(w, AttachFails)
    ensures Inv(Apply(w, AttachFails)) && AllAdvanced(w.shells, Apply(w, AttachFails).shells)
  {
    VacatedKeeps(w);
    NoticeKeeps(Vacated(w));
  }

  lemma NoticeKeeps(u: World)
    requires Inv(u) && u.loop.Looking?
    ensures Inv(Noticed(u))
  {
    var v := Noticed(u);
    QueuedFrame(u, v, Closed(Error), Tag(u.serial, 2), Tag(u.serial + 1, 2));
    PlainQueued(u, v, Closed(Error));
  }

  lemma HelloSyncs(w: World)
    requires SyncInv(w) && w.loop.Subscribed?
    ensures SyncInv(Apply(w, QueueHello))
  {
    var l, v := w.loop, Apply(w, QueueHello);
    AscendsSnoc(w.shells, Born(w.shells, w.client.known), w.fifo, Hello(l.r.mode, l.epoch, l.r.base, l.init));
    forall k | 0 <= k < |v.fifo| && v.fifo[k].Hello? && v.fifo[k].mode.Resume?
      ensures Met(v.shells, v.client, v.fifo[k].epoch)
    {
      if k < |w.fifo| { assert v.fifo[k] == w.fifo[k]; }
    }
  }

  lemma QueueHelloKeeps(w: World)
    requires Inv(w) && w.loop.Subscribed?
    ensures Inv(Apply(w, QueueHello))
  {
    var l, v := w.loop, Apply(w, QueueHello);
    QueuedFrame(w, v, Hello(l.r.mode, l.epoch, l.r.base, l.init), Tag(w.serial, 2), Tag(w.serial + 1, 0));
    HelloSyncs(w);
    assert LoopInv(v) && ShellsInv(v);
  }

  lemma QueueReplayKeeps(w: World)
    requires Inv(w) && Enabled(w, QueueReplay)
    ensures Inv(Apply(w, QueueReplay))
  {
    var l, v := w.loop, Apply(w, QueueReplay);
    TailSends(w.shells[l.epoch], l.r.base, [l.r.bytes], l.pos);
    assert [l.r.bytes][1..] == [];
    QueuedFrame(w, v, Data(l.r.bytes), Tag(w.serial, 0), Tag(w.serial, 1));
    PlainQueued(w, v, Data(l.r.bytes));
    assert LoopInv(v) && ShellsInv(v);
  }

  /** The forward task queues a frame and goes on, or ends. */
  lemma ForwardKeeps(w: World, link: Link, f: Frame)
    requires Inv(w) && w.link.Attached? && !f.Hello? && Fits(w.shells, End(w.cursor, w.fifo), f)
    requires link.Attached? ==>
               && link.serial == w.link.serial && link.epoch == w.link.epoch && link.seen == w.link.seen
               && var off := Moved(End(w.cursor, w.fifo), f).offset;
                  && Tail(w.shells[link.epoch], off, link.pending, link.pos)
                  && (link.shot.Some? ==> link.shot.value == off + |Flatten(link.pending)|)
    ensures Inv(Forward(w, link, f))
  {
    var v := Forward(w, link, f);
    assert Before(Tag(w.serial, 2), Tag(w.serial, 2));
    QueuedFrame(w, v, f, Tag(w.serial, 2), Tag(w.serial, 2));
    PlainQueued(w, v, f);
  }

  lemma ReceiveKeeps(w: World)
    requires Inv(w) && Enabled(w, Receive)
    ensures Inv(Apply(w, Receive))
  {
    var s := w.shells[w.link.epoch];
    TailReads(s, End(w.cursor, w.fifo).offset, w.link.pos);
    assert |Flatten([])| == 0;
    ForwardKeeps(w, w.link.(pos := w.link.pos + 1), Data(s.sent[w.link.pos]));
  }

  lemma TickKeeps(w: World)
    requires Inv(w) && Enabled(w, Tick)
    ensures Inv(Apply(w, Tick))
  {
    if Unread(w) > BROADCAST_CAP {
      ForwardKeeps(w, Detached, Closed(Error));
    } else {
      TailDrained(w.shells[w.link.epoch], End(w.cursor, w.fifo).offset, w.link.pos);
    }
  }

  lemma SendPendingKeeps(w: World)
    requires Inv(w) && Enabled(w, SendPending)
    ensures Inv(Apply(w, SendPending))
  {
    TailSends(w.shells[w.link.epoch], End(w.cursor, w.fifo).offset, w.link.pending, w.link.pos);
    ForwardKeeps(w, w.link.(pending := w.link.pending[1..]), Data(w.link.pending[0]));
  }

  lemma SendRedrawKeeps(w: World)
    requires Inv(w) && Enabled(w, SendRedraw)
    ensures Inv(Apply(w, SendRedraw))
  {
    assert |Flatten(w.link.pending)| == 0;
    ForwardKeeps(w, w.link.(shot := None), Redraw(w.link.epoch, w.link.shot.value));
  }

  /** The shell the client has met last and the one a resume hello names are the same. */
  lemma ResumeNamesKnown(w: World)
    requires Inv(w) && w.fifo != [] && w.fifo[0].Hello? && w.fifo[0].mode.Resume?
    ensures w.client.known == Some(w.fifo[0].epoch)
  {
    assert Met(w.shells, w.client, w.fifo[0].epoch);
  }

  lemma DeliverSyncs(w: World)
    requires Inv(w) && w.fifo != []
    ensures SyncInv(Apply(w, Deliver))
  {
    var f, v := w.fifo[0], Apply(w, Deliver);
    if f.Hello? && f.mode.Resume? { ResumeNamesKnown(w); }
    DeliverMeets(w);
  }

  /** The client only ever learns of later shells. */
  lemma DeliverMeets(w: World)
    requires SyncInv(w) && w.fifo != []
    ensures var v := Apply(w, Deliver);
            && (forall e :: Met(w.shells, w.client, e) ==> Met(v.shells, v.client, e))
            && (forall k :: 0 <= k < |v.fifo| && v.fifo[k].Hello? && v.fifo[k].mode.Resume? ==>
                  Met(v.shells, v.client, v.fifo[k].epoch))
  {
    var v := Apply(w, Deliver);
    forall k | 0 <= k < |v.fifo| && v.fifo[k].Hello? && v.fifo[k].mode.Resume?
      ensures Met(v.shells, v.client, v.fifo[k].epoch)
    {
      assert v.fifo[k] == w.fifo[k + 1];
    }
  }

  lemma DeliverKeeps(w: World)
    requires Inv(w) && w.fifo != []
    ensures Inv(Apply(w, Deliver))
  {
    DeliverSyncs(w);
    DeliverMoves(w);
  }

  lemma DeliverMoves(w: World)
    requires Inv(w) && w.fifo != []
    ensures var v := Apply(w, Deliver);
            ShellsInv(v) && Wire(v.shells, v.cursor, v.fifo) && LinkInv(v) && LoopInv(v) && TraceInv(v)
  {
  }

  /** What happens to shells, whoever does it. */
  predicate OfShells(e: Event)
  {
    e.Push? || e.ReaderEnds? || e.Reset? || e.OtherAttaches? || e.FindShell? || e.AttachFails?
  }

  /** What the connection's loop and the client do. */
  predicate OfLoop(e: Event)
  {
    e.SendOpen? || e.HandleOpen? || e.ForwardGone? || e.CutReplay? || e.Subscribe? || e.QueueHello?
    || e.QueueReplay? || e.SpawnForward? || e.Deliver? || e.Disconnect?
  }

  lemma ShellStepKeeps(w: World, e: Event)
    requires Inv(w) && Enabled(w, e) && OfShells(e)
    ensures Inv(Apply(w, e)) && AllAdvanced(w.shells, Apply(w, e).shells)
  {
    match e
    case Push(ep, chunk) => PushKeeps(w, ep, chunk);
    case ReaderEnds(ep) => ReaderEndsKeeps(w, ep);
    case Reset => VacatedKeeps(w);
    case OtherAttaches(spawned) => WithShellKeeps(w, spawned);
    case FindShell(spawned) => FindShellKeeps(w, spawned);
    case AttachFails => AttachFailsKeeps(w);
  }

  lemma LoopStepKeeps(w: World, e: Event)
    requires Inv(w) && Enabled(w, e) && OfLoop(e)
    ensures Inv(Apply(w, e)) && Apply(w, e).shells == w.shells
  {
    match e
    case SendOpen(resume) => SendOpenKeeps(w, resume);
    case HandleOpen => HandleOpenKeeps(w);
    case ForwardGone => ForwardGoneKeeps(w);
    case CutReplay => CutReplayKeeps(w);
    case Subscribe => SubscribeKeeps(w);
    case QueueHello => QueueHelloKeeps(w);
    case QueueReplay => QueueReplayKeeps(w);
    case SpawnForward => SpawnForwardKeeps(w);
    case Deliver => DeliverKeeps(w);
    case Disconnect => DisconnectKeeps(w);
  }

  lemma ForwardStepKeeps(w: World, e: Event)
    requires Inv(w) && Enabled(w, e) && !OfShells(e) && !OfLoop(e)
    ensures Inv(Apply(w, e)) && Apply(w, e).shells == w.shells && Apply(w, e).client == w.client
  {
    match e
    case Receive => ReceiveKeeps(w);
    case Lag => ForwardKeeps(w, Detached, Closed(Error));
    case Shutdown => ForwardKeeps(w, Detached, Closed(Exit));
    case OutputEnds =>
    case Tick => TickKeeps(w);
    case SendPending => SendPendingKeeps(w);
    case SendRedraw => SendRedrawKeeps(w);
  }

  lemma StepKeeps(w: World, e: Event)
    requires Inv(w) && Enabled(w, e)
    ensures Inv(Apply(w, e)) && AllAdvanced(w.shells, Apply(w, e).shells)
  {
    if OfShells(e) {
      ShellStepKeeps(w, e);
    } else {
      forall d | d in w.shells ensures Advanced(w.shells[d], w.shells[d]) { Kept(w.shells[d]); }
      if OfLoop(e) {
        LoopStepKeeps(w, e);
      } else {
        ForwardStepKeeps(w, e);
      }
    }
  }

  lemma {:induction false} RunKeeps(w: World, run: seq<Event>)
    requires Inv(w) && Legal(w, run)
    ensures Inv(After(w, run))
    decreases run
  {
    if run != [] {
      StepKeeps(w, run[0]);
      RunKeeps(Apply(w, run[0]), run[1..]);
    }
  }
}
