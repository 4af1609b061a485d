/** The browser's half of the attach protocol: one `Session` of
    static/terminal.html together with xterm's asynchronous write queue. */
module ReplayClient {
  import opened Basics
  import ModeTracking
  import Relay
  import RelayClient
  import RelayRuns
  import Scrollbacks

  /** What a write puts on the terminal: stream bytes, or a redraw's picture. */
  datatype Piece = Out(bytes: Bytes) | Paint(picture: Bytes)

  /** Completion callbacks, each closed over the generation that queued it. */
  datatype Callback =
    | Nothing
    | Barrier(gen: nat, init: Bytes)
    | Ready(gen: nat)
    | Clear(gen: nat)

  /** A pending `term.write`. */
  datatype Item = Item(piece: Piece, done: Callback)

  /** How far the terminal has come towards following the latest hello. */
  datatype Phase = Idle | AtBarrier | AtInit | Waiting | Live

  /** How many stages are still ahead. */
  function Ahead(phase: Phase): nat
  {
    match phase
    case AtBarrier => 3
    case AtInit => 2
    case Waiting => 1
    case _ => 0
  }

  /** The writes still to be parsed; a barrier may bring one more. */
  function Weight(queue: seq<Item>): nat
  {
    if queue == [] then 0 else (if queue[0].done.Barrier? then 2 else 1) + Weight(queue[1..])
  }

  lemma {:induction false} WeightSnoc(queue: seq<Item>, item: Item)
    ensures Weight(queue + [item]) == Weight(queue) + if item.done.Barrier? then 2 else 1
  {
    if queue == [] {
      assert queue + [item] == [item] && [item][1..] == [];
    } else {
      assert (queue + [item])[1..] == queue[1..] + [item];
      WeightSnoc(queue[1..], item);
    }
  }

  function Pieces(queue: seq<Item>): seq<Piece>
  {
    seq(|queue|, i requires 0 <= i < |queue| => queue[i].piece)
  }

  /** The pieces are exactly these chunks of stream bytes. */
  predicate AreOuts(pieces: seq<Piece>, chunks: seq<Bytes>)
  {
    |pieces| == |chunks| && forall i :: 0 <= i < |chunks| ==> pieces[i] == Out(chunks[i])
  }

  function InitPieces(init: Bytes): seq<Piece>
  {
    if init == [] then [] else [Out(init)]
  }

  /** The stream bytes among the pieces, in order. */
  function StreamOf(pieces: seq<Piece>): Bytes
  {
    if pieces == [] then []
    else (if pieces[0].Out? then pieces[0].bytes else []) + StreamOf(pieces[1..])
  }

  lemma {:induction false} StreamOfConcat(a: seq<Piece>, b: seq<Piece>)
    ensures StreamOf(a + b) == StreamOf(a) + StreamOf(b)
  {
    if a == [] {
      assert a + b == b;
    } else {
      assert (a + b)[1..] == a[1..] + b;
      StreamOfConcat(a[1..], b);
    }
  }

  lemma StreamOfOne(p: Piece)
    ensures StreamOf([p]) == if p.Out? then p.bytes else []
  {
    assert [p][1..] == [];
  }

  lemma NothingHeld()
    ensures StreamOf([]) == []
  {
  }

  lemma HeldGrows(arrived: seq<Piece>, p: Piece)
    ensures StreamOf(arrived + [p]) == StreamOf(arrived) + if p.Out? then p.bytes else []
  {
    StreamOfConcat(arrived, [p]);
    StreamOfOne(p);
  }

  lemma PiecesGrow(screen: seq<Piece>, queue: seq<Item>, item: Item)
    ensures screen + Pieces(queue + [item]) == screen + Pieces(queue) + [item.piece]
  {
    assert Pieces(queue + [item]) == Pieces(queue) + [item.piece];
  }

  /** Parsing the head moves it from the queue to the screen. */
  lemma Parsed(screen: seq<Piece>, queue: seq<Item>)
    requires queue != []
    ensures screen + [queue[0].piece] + Pieces(queue[1..]) == screen + Pieces(queue)
    ensures |queue| > 1 ==> queue[1..][..|queue| - 2] == queue[..|queue| - 1][1..]
  {
    assert Pieces(queue) == [queue[0].piece] + Pieces(queue[1..]);
  }

  lemma AppendTo(init: seq<Piece>, arrived: seq<Piece>, p: Piece)
    ensures init + (arrived + [p]) == init + arrived + [p]
  {
  }

  predicate Stale(done: Callback, gen: nat)
  {
    match done
    case Nothing => true
    case Barrier(g, _) => g < gen
    case Ready(g) => g < gen
    case Clear(g) => g < gen
  }

  /** The write whose parsing ends the replay is still to come. */
  predicate ClearPending(queue: seq<Item>) { exists i :: 0 <= i < |queue| && queue[i].done.Clear? }

  predicate OneClear(queue: seq<Item>)
  {
    forall i, j :: 0 <= i < j < |queue| && queue[i].done.Clear? ==> !queue[j].done.Clear?
  }

  lemma ClearParsed(queue: seq<Item>)
    requires queue != [] && OneClear(queue)
    ensures OneClear(queue[1..])
    ensures ClearPending(queue[1..]) <==> ClearPending(queue) && !queue[0].done.Clear?
  {
    if ClearPending(queue[1..]) {
      var i :| 0 <= i < |queue| - 1 && queue[1..][i].done.Clear?;
      assert queue[i + 1].done.Clear?;
    }
    if ClearPending(queue) && !queue[0].done.Clear? {
      var i :| 0 <= i < |queue| && queue[i].done.Clear?;
      assert queue[1..][i - 1].done.Clear?;
    }
  }

  lemma ClearStays(queue: seq<Item>, item: Item)
    requires OneClear(queue) && !item.done.Clear?
    ensures OneClear(queue + [item]) && (ClearPending(queue + [item]) <==> ClearPending(queue))
  {
    if ClearPending(queue) {
      var i :| 0 <= i < |queue| && queue[i].done.Clear?;
      assert (queue + [item])[i].done.Clear?;
    }
  }

  lemma LastClears(queue: seq<Item>, gen: nat)
    requires queue != [] && queue[|queue| - 1].done == Clear(gen)
    requires forall k :: 0 <= k < |queue| - 1 ==> queue[k].done == Nothing
    ensures ClearPending(queue) && OneClear(queue)
  {
    assert queue[|queue| - 1].done.Clear?;
  }

  predicate AllStale(queue: seq<Item>, gen: nat)
  {
    forall i :: 0 <= i < |queue| ==> Stale(queue[i].done, gen)
  }

  /** Queueing a barrier makes every earlier callback stale. */
  lemma BarrierQueued(queue: seq<Item>, gen: nat, prefix: Bytes)
    requires AllStale(queue, gen)
    ensures var q := queue + [Item(Out([]), Barrier(gen, prefix))];
            AllStale(q, gen + 1) && q[..|q| - 1] == queue && q[|q| - 1] == Item(Out([]), Barrier(gen, prefix))
  {
  }

  lemma TimersPast(timers: set<nat>, gen: nat)
    requires forall g :: g in timers ==> g <= gen
    ensures gen + 1 !in timers && forall g :: g in timers ==> g <= gen + 1
  {
  }

  class Session {
    var awaitingHello: bool
    var expectFirst: bool
    var snapshotBuffer: Option<seq<Bytes>>
    var snapshotBarrierReady: bool
    var renderGeneration: nat
    var suppressReports: bool
    var dead: bool
    var visited: bool
    var closing: bool
    /** xterm: writes not yet parsed, and what was parsed since its last reset. */
    var queue: seq<Item>
    var screen: seq<Piece>
    /** Generations whose fallback timer is still running. */
    var timers: set<nat>

    ghost var phase: Phase
    /** The latest hello's prefix, and every frame accepted since that hello. */
    ghost var init: Bytes
    ghost var arrived: seq<Piece>
    /** The same client as the protocol sees it. */
    ghost var view: Relay.Client

    ghost predicate PhaseHolds()
      reads this
    {
      match phase
      case Idle => snapshotBuffer.None?
      case AtBarrier =>
        && queue != [] && queue[|queue| - 1] == Item(Out([]), Barrier(renderGeneration, init))
        && AllStale(queue[..|queue| - 1], renderGeneration)
        && !snapshotBarrierReady && snapshotBuffer.Some? && AreOuts(arrived, snapshotBuffer.value)
      case AtInit =>
        && queue == [Item(Out(init), Ready(renderGeneration))]
        && screen == [] && init != []
        && !snapshotBarrierReady && snapshotBuffer.Some? && AreOuts(arrived, snapshotBuffer.value)
      case Waiting =>
        && queue == [] && screen == InitPieces(init)
        && snapshotBarrierReady && snapshotBuffer == Some([]) && arrived == []
      case Live =>
        && snapshotBuffer.None? && arrived != []
        && screen + Pieces(queue) == InitPieces(init) + arrived
        && (forall i :: 0 <= i < |queue| ==>
              queue[i].done.Nothing? || queue[i].done == Clear(renderGeneration))
        // Reports are held back until the replay is parsed, or the fallback has fired.
        && OneClear(queue) && (suppressReports ==> ClearPending(queue))
        && (ClearPending(queue) && renderGeneration in timers ==> suppressReports)
    }

    /** What holds whatever the phase. */
    ghost predicate Common()
      reads this
    {
      && AllStale(queue, renderGeneration + 1)
      && (phase != Idle ==>
            (expectFirst <==> arrived == []) && view.held == StreamOf(arrived) && view.init == init && view.known.Some?)
      && (phase in {AtBarrier, AtInit, Waiting} ==> suppressReports && renderGeneration !in timers)
      && (forall g :: g in timers ==> g <= renderGeneration)
      && view.awaiting == awaitingHello
    }

    ghost predicate Valid()
      reads this
    {
      Common() && PhaseHolds()
    }

    constructor ()
      ensures Valid() && phase == Idle && !awaitingHello && !closing && view == Relay.Start(0).client
    {
      awaitingHello, expectFirst, snapshotBuffer, snapshotBarrierReady := false, false, None, false;
      renderGeneration, suppressReports, dead, visited, closing := 0, false, false, false, false;
      queue, screen, timers := [], [], {};
      phase, init, arrived, view := Idle, [], [], Relay.Start(0).client;
    }

    method SendOpen()
      requires Valid()
      modifies this`dead, this`awaitingHello, this`view
      ensures Valid() && awaitingHello && !dead
      ensures view == old(view).(awaiting := true)
    {
      dead := false;
      awaitingHello := true;
      view := view.(awaiting := true);
    }

    /** The page does not look at the mode: it answers every hello as a replay. */
    method OnHello(mode: Scrollbacks.AttachMode, epoch: Relay.Epoch, offset: nat, prefix: Bytes)
      requires Valid()
      modifies this
      ensures Valid() && phase == AtBarrier
      ensures init == prefix && arrived == []
      ensures renderGeneration == old(renderGeneration) + 1
      ensures screen == old(screen) && closing == old(closing) && suppressReports
      ensures view == Relay.Received(old(view), Relay.Hello(Scrollbacks.Replay, epoch, offset, prefix))
    {
      awaitingHello := false;
      view := Relay.Client(false, Some(epoch), offset, offset, [], prefix);
      AwaitSnapshot(prefix);
    }

    /** Everything the old attachment left is before the barrier. */
    method AwaitSnapshot(prefix: Bytes)
      requires AllStale(queue, renderGeneration + 1) && view.awaiting == awaitingHello
      requires view.held == [] && view.init == prefix && view.known.Some?
      requires forall g :: g in timers ==> g <= renderGeneration
      modifies this`expectFirst, this`snapshotBuffer, this`snapshotBarrierReady, this`renderGeneration,
               this`suppressReports, this`queue, this`phase, this`init, this`arrived
      ensures Valid() && phase == AtBarrier
      ensures init == prefix && arrived == []
      ensures renderGeneration == old(renderGeneration) + 1
    {
      BarrierQueued(queue, renderGeneration + 1, prefix);
      NothingHeld();
      TimersPast(timers, renderGeneration);
      expectFirst := true;
      snapshotBuffer := Some([]);
      snapshotBarrierReady := false;
      renderGeneration := renderGeneration + 1;
      suppressReports := true;
      queue := queue + [Item(Out([]), Barrier(renderGeneration, prefix))];
      phase, init, arrived := AtBarrier, prefix, [];
    }

    method OnOutput(data: Bytes)
      requires Valid()
      modifies this
      ensures Valid()
      ensures view == Relay.Received(old(view), Relay.Data(data))
      ensures renderGeneration == old(renderGeneration) && init == old(init)
      ensures (phase == Idle) == (old(phase) == Idle)
      ensures old(phase) != Idle ==>
          arrived == if old(awaitingHello) then old(arrived) else old(arrived) + [Out(data)]
      // What is not held back is written at once; what arrives before the hello is not written at all.
      ensures old(awaitingHello) || old(snapshotBuffer).None? ==>
          queue == old(queue) + if old(awaitingHello) then [] else [Item(Out(data), Nothing)]
      ensures closing == old(closing) && screen == old(screen)
    {
      if awaitingHello { return; }
      if snapshotBuffer.Some? {
        BufferFrame(data);
      } else {
        WriteThrough(data);
      }
    }

    /** The first frame is the snapshot, even when empty; later ones may arrive
        before xterm reaches the barrier and are kept in transport order. */
    method BufferFrame(data: Bytes)
      requires Valid() && !awaitingHello && snapshotBuffer.Some?
      modifies this`snapshotBuffer, this`expectFirst, this`arrived, this`view, this`queue, this`phase, this`timers
      ensures Valid() && phase != Idle
      ensures view == Relay.Received(old(view), Relay.Data(data))
      ensures arrived == old(arrived) + [Out(data)]
    {
      HeldGrows(arrived, Out(data));
      snapshotBuffer := Some(snapshotBuffer.value + [data]);
      expectFirst := false;
      arrived := arrived + [Out(data)];
      view := Relay.Received(view, Relay.Data(data));
      FlushSnapshot(renderGeneration);
    }

    method WriteThrough(data: Bytes)
      requires Valid() && !awaitingHello && snapshotBuffer.None?
      modifies this`queue, this`arrived, this`view
      ensures Valid() && queue == old(queue) + [Item(Out(data), Nothing)]
      ensures view == Relay.Received(old(view), Relay.Data(data))
      ensures phase == Live ==> arrived == old(arrived) + [Out(data)]
    {
      PiecesGrow(screen, queue, Item(Out(data), Nothing));
      if phase == Live { ClearStays(queue, Item(Out(data), Nothing)); }
      queue := queue + [Item(Out(data), Nothing)];
      view := Relay.Received(view, Relay.Data(data));
      if phase == Live {
        HeldGrows(arrived, Out(data));
        AppendTo(InitPieces(init), arrived, Out(data));
        arrived := arrived + [Out(data)];
      }
    }

    /** What holds while frames are buffered, including the moment between the
        last obstacle going away and the release. */
    ghost predicate Buffering()
      reads this
    {
      && phase in {AtBarrier, AtInit, Waiting}
      && Common()
      && snapshotBuffer.Some? && AreOuts(arrived, snapshotBuffer.value)
      && if phase == Waiting
         then snapshotBarrierReady && queue == [] && screen == InitPieces(init)
         else PhaseHolds()
    }

    /** Release the buffered frames, in transport order, once the barrier has
        passed and the snapshot frame is there. */
    method FlushSnapshot(gen: nat)
      requires (Buffering() && gen == renderGeneration) || (Valid() && snapshotBuffer.None?)
      modifies this`queue, this`snapshotBuffer, this`phase, this`timers
      ensures Valid()
      ensures phase == if old(phase) == Waiting && arrived != [] then Live else old(phase)
      ensures old(snapshotBuffer).None? ==> queue == old(queue)
    {
      if gen != renderGeneration || !snapshotBarrierReady || expectFirst || snapshotBuffer.None? {
        assert snapshotBuffer.Some? ==> |arrived| == |snapshotBuffer.value|;
        return;
      }
      ReleaseBuffer(gen);
    }

    /** The snapshot frame is there, so there is at least one chunk. */
    method ReleaseBuffer(gen: nat)
      requires Buffering() && phase == Waiting && arrived != [] && gen == renderGeneration
      modifies this`queue, this`snapshotBuffer, this`phase, this`timers
      ensures Valid() && phase == Live
    {
      QueueChunks(snapshotBuffer.value, gen);
      snapshotBuffer := None;
      timers := timers + {gen};
      assert Pieces(queue) == arrived;
      LastClears(queue, gen);
      phase := Live;
    }

    /** Every chunk is a write of its own, and the last one's parsing ends the replay. */
    method QueueChunks(chunks: seq<Bytes>, gen: nat)
      modifies this`queue
      ensures |queue| == |old(queue)| + |chunks| && old(queue) <= queue
      ensures forall k :: |old(queue)| <= k < |queue| ==>
          && queue[k].piece == Out(chunks[k - |old(queue)|])
          && queue[k].done == if k == |queue| - 1 then Clear(gen) else Nothing
    {
      ghost var n := |queue|;
      for i := 0 to |chunks|
        invariant |queue| == n + i && old(queue) <= queue
        invariant forall k :: n <= k < n + i ==>
            && queue[k].piece == Out(chunks[k - n])
            && queue[k].done == if k == n + |chunks| - 1 then Clear(gen) else Nothing
      {
        queue := queue + [Item(Out(chunks[i]), if i == |chunks| - 1 then Clear(gen) else Nothing)];
      }
    }

    /** The fallback that lifts the suppression when a callback never comes. */
    method TimerFires(gen: nat)
      requires Valid() && gen in timers
      modifies this`timers, this`suppressReports
      ensures Valid() && timers == old(timers) - {gen}
      ensures suppressReports == (old(suppressReports) && gen != renderGeneration)
    {
      timers := timers - {gen};
      if gen == renderGeneration { suppressReports := false; }
    }

    /** A redraw is ignored before the hello, while a replay is in flight, and
        when it was taken at another size. */
    method OnRedraw(epoch: Relay.Epoch, at: nat, picture: Bytes, fits: bool)
      requires Valid()
      modifies this
      ensures Valid()
      ensures view == Relay.Received(old(view), Relay.Redraw(epoch, at))
      ensures phase == old(phase) && init == old(init)
      ensures arrived == if old(phase) == Live && !old(awaitingHello) && fits
                         then old(arrived) + [Paint(picture)] else old(arrived)
      ensures queue == old(queue) + if old(awaitingHello) || old(snapshotBuffer).Some? || !fits then []
                                    else [Item(Paint(picture), Nothing)]
      ensures closing == old(closing) && screen == old(screen)
    {
      if awaitingHello || snapshotBuffer.Some? || !fits { return; }
      PiecesGrow(screen, queue, Item(Paint(picture), Nothing));
      if phase == Live { ClearStays(queue, Item(Paint(picture), Nothing)); }
      queue := queue + [Item(Paint(picture), Nothing)];
      if phase == Live {
        HeldGrows(arrived, Paint(picture));
        AppendTo(InitPieces(init), arrived, Paint(picture));
        arrived := arrived + [Paint(picture)];
      }
    }

    /** The server closed the channel. A slot deleted on purpose is torn down. */
    method OnClosed(reason: Relay.Reason, notice: Bytes)
      requires Valid()
      modifies this
      ensures Valid() && dead
      ensures !old(closing) ==>
          && phase == old(phase) && init == old(init) && arrived == old(arrived)
          && screen == old(screen) && queue == old(queue) && !closing
          && view == Relay.Received(old(view), Relay.Closed(reason))
    {
      if closing {
        MarkClosed(notice);
        return;
      }
      dead := true;
    }

    method MarkClosed(notice: Bytes)
      requires Valid()
      modifies this
      ensures Valid() && dead && phase == Idle && !awaitingHello && !closing && !visited && snapshotBuffer.None?
      ensures screen == (if old(visited) then [] else old(screen))
      ensures queue == old(queue) + if old(visited) then [Item(Out(notice), Nothing)] else []
    {
      closing, awaitingHello, dead := false, false, true;
      snapshotBuffer, snapshotBarrierReady := None, false;
      phase := Idle;
      view := view.(awaiting := false);
      if !visited { return; }
      visited := false;
      screen := [];
      queue := queue + [Item(Out(notice), Nothing)];
    }

    /** xterm parses its next write and runs the callback, if any. Callbacks of
        an earlier generation do nothing. */
    method ParseNext()
      requires Valid() && queue != []
      modifies this
      ensures Valid()
      ensures view == old(view) && arrived == old(arrived) && init == old(init)
      ensures renderGeneration == old(renderGeneration) && awaitingHello == old(awaitingHello)
      ensures (phase == Idle) == (old(phase) == Idle)
      ensures old(phase) == Live ==> phase == Live && queue == old(queue)[1..]
      ensures closing == old(closing)
      ensures Ahead(phase) < Ahead(old(phase)) || (phase == old(phase) && Weight(queue) < Weight(old(queue)))
    {
      var item := TakeHead();
      match item.done {
        case Nothing =>
        case Clear(_) =>
        case Ready(g) =>
          if g == renderGeneration { BecomeReady(g); }
        case Barrier(g, prefix) =>
          if g == renderGeneration { PassBarrier(g, prefix); }
      }
    }

    /** The write itself: the head of the queue goes on the screen, and if it ends the replay of
        this generation, reports are let through again. Unless it carries the callback this
        generation waits for, nothing else changes. */
    method TakeHead() returns (item: Item)
      requires Valid() && queue != []
      modifies this`queue, this`screen, this`suppressReports
      ensures item == old(queue)[0] && queue == old(queue)[1..]
      ensures suppressReports == (old(suppressReports) && item.done != Clear(renderGeneration))
      ensures Common()
      ensures item.done == Barrier(renderGeneration, init) && phase != Idle ==> phase == AtBarrier && queue == []
      ensures item.done == Ready(renderGeneration) && phase != Idle ==>
          phase == AtInit && queue == [] && screen == InitPieces(init)
      ensures item.done.Barrier? && item.done.gen == renderGeneration && phase != Idle ==> item.done.init == init
      ensures item.done.Clear? && item.done.gen == renderGeneration ==> phase in {Idle, Live}
      ensures Valid() || (phase == AtBarrier && item.done == Barrier(renderGeneration, init))
           || (phase == AtInit && item.done == Ready(renderGeneration))
    {
      Parsed(screen, queue);
      if phase == Live { ClearParsed(queue); }
      item := queue[0];
      queue := queue[1..];
      screen := screen + [item.piece];
      if item.done == Clear(renderGeneration) { suppressReports := false; }
    }

    /** Everything before the new snapshot has been parsed. */
    method BecomeReady(gen: nat)
      requires Common() && gen == renderGeneration
      requires if phase == Idle then snapshotBuffer.None?
               else phase in {AtBarrier, AtInit} && queue == [] && screen == InitPieces(init)
                    && snapshotBuffer.Some? && AreOuts(arrived, snapshotBuffer.value)
      modifies this`snapshotBarrierReady, this`phase, this`queue, this`snapshotBuffer, this`timers
      ensures Valid()
      ensures if old(phase) == Idle then phase == Idle && queue == old(queue) else phase in {Waiting, Live}
    {
      snapshotBarrierReady := true;
      if phase != Idle { phase := Waiting; }
      FlushSnapshot(gen);
    }

    /** The barrier behind the old connection's bytes: reset, then the prefix. */
    method PassBarrier(gen: nat, prefix: Bytes)
      requires Common() && gen == renderGeneration
      requires if phase == Idle then snapshotBuffer.None?
               else phase == AtBarrier && queue == [] && init == prefix && !snapshotBarrierReady
                    && snapshotBuffer.Some? && AreOuts(arrived, snapshotBuffer.value)
      modifies this`screen, this`snapshotBarrierReady, this`phase, this`queue, this`snapshotBuffer, this`timers
      ensures Valid()
      ensures if old(phase) == Idle then phase == Idle && Weight(queue) <= Weight(old(queue)) + 1
              else phase in {AtInit, Waiting, Live}
    {
      screen := [];
      WeightSnoc(queue, Item(Out(prefix), Ready(gen)));
      if prefix == [] {
        BecomeReady(gen);
      } else {
        queue := queue + [Item(Out(prefix), Ready(gen))];
        if phase != Idle { phase := AtInit; }
      }
    }

    /** Nothing more arrives and xterm parses all it has: barrier, prefix and buffered frames
        come through, and a session that has its first frame is live. */
    method Settle()
      requires Valid()
      modifies this
      ensures Valid() && queue == []
      ensures view == old(view) && arrived == old(arrived) && init == old(init) && closing == old(closing)
      ensures phase == if old(phase) == Idle then Idle else if arrived == [] then Waiting else Live
      ensures phase == Live ==> !suppressReports
    {
      while queue != []
        invariant Valid() && (phase == Idle) == (old(phase) == Idle)
        invariant view == old(view) && arrived == old(arrived) && init == old(init) && closing == old(closing)
        decreases Ahead(phase), Weight(queue)
      {
        ParseNext();
      }
    }
  }

  // ---- what the user sees --------------------------------------------------

  /** Once a session follows its hello and xterm has caught up, the terminal
      shows the prefix and then exactly the bytes the protocol's client holds. */
  lemma SettledSessionShowsStream(s: Session)
    requires s.Valid() && s.phase == Live && s.queue == []
    ensures StreamOf(s.screen) == s.init + s.view.held
  {
    assert s.screen + Pieces([]) == s.screen;
    StreamOfConcat(InitPieces(s.init), s.arrived);
    if s.init != [] { StreamOfOne(Out(s.init)); }
  }

  /** What the terminal shows is the shell's own stream as far as the client has it, and if
      the replay began between two sequences, its scanner and modes are the shell's. */
  lemma StreamIsTheShells(shells: map<Relay.Epoch, Relay.Shell>, view: Relay.Client, shown: Bytes)
    requires Relay.Honest(shells, view) && view.known.Some? && shown == view.init + view.held
    ensures var log := shells[view.known.value].log;
            && shown == Scrollbacks.InitAt(log, view.base) + log[view.base..view.offset]
            && (ModeTracking.Scanned(ModeTracking.FRESH, log[..view.base]).st.Ground? ==>
                  ModeTracking.Scanned(ModeTracking.FRESH, shown)
                    == ModeTracking.Scanned(ModeTracking.FRESH, log[..view.offset]))
  {
    var log := shells[view.known.value].log;
    var seen := log[..view.offset];
    assert seen[..view.base] == log[..view.base] && seen[view.base..] == log[view.base..view.offset];
    if ModeTracking.Scanned(ModeTracking.FRESH, log[..view.base]).st.Ground? {
      ModeTracking.ReplayFaithful(seen, view.base);
    }
  }

  // ---- whole runs -----------------------------------------------------------

  /** What happens to the page: a step of the protocol, the terminal parsing its next write
      with whatever callback hangs on it, or a fallback timer. A redraw comes with its picture
      and may not fit the page's size. */
  datatype Action =
    | Net(event: Relay.Event, picture: Bytes, fits: bool)
    | Parse
    | Timer(gen: nat)

  /** The steps of the protocol. */
  function Nets(run: seq<Action>): seq<Relay.Event>
  {
    if run == [] then []
    else (if run[0].Net? then [run[0].event] else []) + Nets(run[1..])
  }

  /** Whether the client has taken a frame of bytes since its last hello, `so` before. */
  function NowFed(w: Relay.World, event: Relay.Event, so: bool): bool
    requires Relay.Enabled(w, event)
  {
    if !event.Deliver? then so
    else if w.fifo[0].Hello? then false
    else so || (w.fifo[0].Data? && !w.client.awaiting)
  }

  function Fed(w: Relay.World, run: seq<Relay.Event>, so: bool): bool
    requires Relay.Legal(w, run)
    decreases run
  {
    if run == [] then so else Fed(Relay.Apply(w, run[0]), run[1..], NowFed(w, run[0], so))
  }

  /** The page follows hellos as the client does, and has its first frame when it has. */
  ghost predicate InStep(s: Session, w: Relay.World, fed: bool)
    reads s
  {
    && s.view == w.client && !s.closing
    && (s.phase != Idle <==> w.client.known.Some?)
    && (s.phase != Idle ==> (s.arrived != [] <==> fed))
  }

  /** One step of the protocol, as the page sees it. */
  method TakeStep(s: Session, w: Relay.World, event: Relay.Event, picture: Bytes, fits: bool, ghost fed: bool)
    requires s.Valid() && InStep(s, w, fed)
    requires Relay.Enabled(w, event) && RelayRuns.OnlyReplays(w) && (event.SendOpen? ==> !event.resume)
    modifies s
    ensures s.Valid() && InStep(s, Relay.Apply(w, event), NowFed(w, event, fed))
  {
    if event.Deliver? {
      match w.fifo[0] {
        case Hello(mode, epoch, offset, init) => s.OnHello(mode, epoch, offset, init);
        case Data(bytes) => s.OnOutput(bytes);
        case Redraw(epoch, at) => s.OnRedraw(epoch, at, picture, fits);
        case Closed(reason) => s.OnClosed(reason, []);
      }
    } else {
      RelayClient.ClientUntouched(w, event);
      if event.SendOpen? { s.SendOpen(); }
    }
  }

  /** One action, the page's own callbacks included. */
  method Act(s: Session, w: Relay.World, a: Action, ghost fed: bool) returns (v: Relay.World)
    requires s.Valid() && InStep(s, w, fed)
    requires a.Net? ==>
               && Relay.Enabled(w, a.event) && RelayRuns.OnlyReplays(w)
               && (a.event.SendOpen? ==> !a.event.resume)
    modifies s
    ensures s.Valid() && v == (if a.Net? then Relay.Apply(w, a.event) else w)
    ensures InStep(s, v, if a.Net? then NowFed(w, a.event, fed) else fed)
  {
    v := w;
    match a {
      case Net(event, picture, fits) =>
        TakeStep(s, w, event, picture, fits, fed);
        v := Relay.Apply(w, event);
      case Parse =>
        if s.queue != [] { s.ParseNext(); }
      case Timer(gen) =>
        if gen in s.timers { s.TimerFires(gen); }
    }
  }

  lemma NetsNext(run: seq<Action>, w: Relay.World, fed: bool)
    requires run != [] && Relay.Legal(w, Nets(run))
    ensures if run[0].Net? then
              && Relay.Enabled(w, run[0].event) && Relay.Legal(Relay.Apply(w, run[0].event), Nets(run[1..]))
              && Relay.After(Relay.Apply(w, run[0].event), Nets(run[1..])) == Relay.After(w, Nets(run))
              && Fed(Relay.Apply(w, run[0].event), Nets(run[1..]), NowFed(w, run[0].event, fed))
                 == Fed(w, Nets(run), fed)
            else Nets(run) == Nets(run[1..])
    ensures RelayRuns.NeverResumes(Nets(run)) ==>
              && RelayRuns.NeverResumes(Nets(run[1..]))
              && (run[0].Net? && run[0].event.SendOpen? ==> !run[0].event.resume)
  {
    if run[0].Net? {
      assert Nets(run)[1..] == Nets(run[1..]) && Nets(run)[0] == run[0].event;
      assert forall i :: 0 <= i < |Nets(run[1..])| ==> Nets(run[1..])[i] == Nets(run)[i + 1];
    }
  }

  /** Where the protocol stands with `rest` of the run to go. */
  ghost predicate OnTrack(cap: nat, run: seq<Action>, rest: seq<Action>, w: Relay.World, fed: bool)
    requires Relay.Legal(Relay.Start(cap), Nets(run))
  {
    && RelayRuns.OnlyReplays(w) && Relay.Legal(w, Nets(rest)) && RelayRuns.NeverResumes(Nets(rest))
    && Relay.After(w, Nets(rest)) == Relay.After(Relay.Start(cap), Nets(run))
    && Fed(w, Nets(rest), fed) == Fed(Relay.Start(cap), Nets(run), false)
  }

  lemma StaysOnTrack(cap: nat, run: seq<Action>, rest: seq<Action>, w: Relay.World, fed: bool)
    requires Relay.Legal(Relay.Start(cap), Nets(run)) && OnTrack(cap, run, rest, w, fed) && rest != []
    ensures if rest[0].Net? then
              && Relay.Enabled(w, rest[0].event) && (rest[0].event.SendOpen? ==> !rest[0].event.resume)
              && OnTrack(cap, run, rest[1..], Relay.Apply(w, rest[0].event), NowFed(w, rest[0].event, fed))
            else OnTrack(cap, run, rest[1..], w, fed)
  {
    NetsNext(rest, w, fed);
    if rest[0].Net? { RelayRuns.StepOnlyReplays(w, rest[0].event); }
  }

  /** What is shown is the prefix for the place where the replay began and then exactly one
      contiguous stretch of one shell's stream, with that shell's modes and scanner position
      if the replay began between two sequences. */
  predicate ShowsShell(w: Relay.World, shown: Bytes)
  {
    && w.client.known.Some? && w.client.known.value in w.shells
    && var log, c := w.shells[w.client.known.value].log, w.client;
       && c.base <= c.offset <= |log|
       && shown == Scrollbacks.InitAt(log, c.base) + log[c.base..c.offset]
       && (ModeTracking.Scanned(ModeTracking.FRESH, log[..c.base]).st.Ground? ==>
             ModeTracking.Scanned(ModeTracking.FRESH, shown)
               == ModeTracking.Scanned(ModeTracking.FRESH, log[..c.offset]))
  }

  /** End to end, over every run of the protocol and of the page: the page's own account of
      what it took is the client of that run, and once it follows a hello and the terminal has
      caught up, the terminal shows what it should of that shell's stream. */
  method FollowRun(cap: nat, run: seq<Action>) returns (s: Session, w: Relay.World)
    requires Relay.Legal(Relay.Start(cap), Nets(run)) && RelayRuns.NeverResumes(Nets(run))
    ensures fresh(s) && s.Valid()
    ensures w == Relay.After(Relay.Start(cap), Nets(run))
    ensures InStep(s, w, Fed(Relay.Start(cap), Nets(run), false))
    ensures s.phase == Live && s.queue == [] ==> ShowsShell(w, StreamOf(s.screen))
  {
    s := new Session();
    w := Relay.Start(cap);
    ghost var fed := false;
    var i := 0;
    assert run[0..] == run;
    while i < |run|
      invariant 0 <= i <= |run| && fresh(s) && s.Valid()
      invariant InStep(s, w, fed) && OnTrack(cap, run, run[i..], w, fed)
    {
      StaysOnTrack(cap, run, run[i..], w, fed);
      assert run[i..][1..] == run[i + 1..];
      ghost var next := if run[i].Net? then NowFed(w, run[i].event, fed) else fed;
      w := Act(s, w, run[i], fed);
      fed := next;
      i := i + 1;
    }
    assert Nets(run[i..]) == [];
    if s.phase == Live && s.queue == [] { SettledShowsShell(s, cap, Nets(run)); }
  }

  lemma SettledShowsShell(s: Session, cap: nat, nets: seq<Relay.Event>)
    requires Relay.Legal(Relay.Start(cap), nets) && RelayRuns.NeverResumes(nets)
    requires s.Valid() && s.view == Relay.After(Relay.Start(cap), nets).client && s.phase == Live && s.queue == []
    ensures ShowsShell(Relay.After(Relay.Start(cap), nets), StreamOf(s.screen))
  {
    RelayRuns.NeverResumesOnlyReplays(Relay.Start(cap), nets);
    RelayClient.AllFitSinceReplay(Relay.Start(cap), nets);
    RelayClient.ClientHoldsExactStream(cap, nets);
    SettledSessionShowsStream(s);
    StreamIsTheShells(Relay.After(Relay.Start(cap), nets).shells, s.view, StreamOf(s.screen));
  }

  /** And it does get there: after any run in which the client's last hello and a first frame
      behind it have arrived, parsing what is queued leaves a live page that shows it. */
  method FollowAndSettle(cap: nat, run: seq<Action>) returns (s: Session, w: Relay.World)
    requires Relay.Legal(Relay.Start(cap), Nets(run)) && RelayRuns.NeverResumes(Nets(run))
    ensures w == Relay.After(Relay.Start(cap), Nets(run)) && s.Valid() && s.view == w.client && s.queue == []
    ensures w.client.known.Some? && Fed(Relay.Start(cap), Nets(run), false) ==>
              s.phase == Live && ShowsShell(w, StreamOf(s.screen))
  {
    s, w := FollowRun(cap, run);
    s.Settle();
    if s.phase == Live { SettledShowsShell(s, cap, Nets(run)); }
  }
}
