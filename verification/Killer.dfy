/** Stopping a shell (src/terminals.rs): callers of `stop`, the reader thread and the
    command thread share a handle on the child's pid behind a mutex. Neither the handle
    nor the owner may use the pid once the child has been reaped, when it may belong to
    somebody else. */
module Killer {
  const QUEUE: nat := 128

  /** The kernel's child. */
  datatype Child = Running | Zombie | Reaped

  datatype Cmd = Input | Resize | Kill

  /** Inside `stop`, after the shutdown flag was raised. */
  datatype Stopper = Announced | Locked | Looked(armed: bool) | Unlocked

  /** The command thread: in its loop, past it, and up to the final `wait`. */
  datatype Command = Serving | Leaving | Killed | Holding | Retired | Released | Waited

  datatype Reader = Reading | Ended | Nudged

  datatype Holder = Nobody | Stopping(i: nat) | Commanding

  /** What the library's `child.kill()` may do besides signalling: nothing; collect a
      child that is already gone and remember its status in the owner's handle; or
      collect it behind the handle's back. */
  datatype Library = OnlySignals | CollectsAndRemembers | CollectsAndForgets

  /** `armed` is the shared handle being `Some`; `status` the exit status remembered in
      the command thread's own handle. `late` counts signals sent through the shared
      handle after the child was reaped, `calls` the collecting calls that reached the
      pid, `stray` the uses of the pid by its owner after the child was reaped. A terminal
      that is `gone` has no callers left. */
  datatype World = World(child: Child, armed: bool, holder: Holder, stops: map<nat, Stopper>,
                         command: Command, status: bool, reader: Reader, queue: seq<Cmd>,
                         shutdown: bool, gone: bool, late: nat, calls: nat, stray: nat)

  datatype Step =
    | ShellExits
    | TerminalDropped
    | StopBegins(i: nat)
    | StopLocks(i: nat)
    | StopLooks(i: nat)
    | StopSignals(i: nat)
    | StopNudges(i: nat)
    | ReaderEnds
    | ReaderNudges
    | Queued(cmd: Cmd)
    | CommandServes(fails: bool)
    | CommandHangsUp
    | CommandKills(collects: bool)
    | CommandLocks
    | CommandRetires
    | CommandUnlocks
    | CommandWaits

  const START: World :=
    World(Running, true, Nobody, map[], Serving, false, Reading, [], false, false, 0, 0, 0)

  predicate StopAt(w: World, i: nat, at: Stopper) { i in w.stops && w.stops[i] == at }

  /** Writes to a terminal whose reader has ended fail. `wait` blocks until there is a
      child to collect, unless the status is already known. */
  predicate Enabled(lib: Library, w: World, s: Step)
  {
    match s
    case ShellExits => w.child.Running?
    case TerminalDropped => w.stops == map[]
    case StopBegins(i) => i !in w.stops && !w.gone
    case StopLocks(i) => StopAt(w, i, Announced) && w.holder.Nobody?
    case StopLooks(i) => StopAt(w, i, Locked)
    case StopSignals(i) => i in w.stops && w.stops[i].Looked?
    case StopNudges(i) => StopAt(w, i, Unlocked)
    case ReaderEnds => w.reader.Reading?
    case ReaderNudges => w.reader.Ended?
    case Queued(_) => !w.gone
    case CommandServes(fails) => w.command.Serving? && w.queue != [] && (!w.reader.Reading? ==> fails)
    case CommandHangsUp => w.command.Serving? && w.queue == [] && w.gone && w.reader.Nudged?
    case CommandKills(collects) => w.command.Leaving? && (collects ==> !lib.OnlySignals? && w.child.Zombie?)
    case CommandLocks => w.command.Killed? && w.holder.Nobody?
    case CommandRetires => w.command.Holding?
    case CommandUnlocks => w.command.Retired?
    case CommandWaits => w.command.Released? && (w.status || !w.child.Running?)
  }

  /** `try_send`: dropped when the queue is full. */
  function Offered(queue: seq<Cmd>, cmd: Cmd): seq<Cmd>
  {
    if |queue| < QUEUE then queue + [cmd] else queue
  }

  /** The owner signals the pid, whoever has it by now. */
  function OwnerSignals(w: World): World
  {
    if w.child.Reaped? then w.(stray := w.stray + 1) else w
  }

  /** A collecting call reaches the pid, whether or not the child is still there. */
  function Collects(w: World, remembers: bool): World
  {
    w.(child := Reaped, status := w.status || remembers, calls := w.calls + 1,
       stray := w.stray + if w.child.Reaped? then 1 else 0)
  }

  function Signalled(w: World): World
  {
    if w.child.Reaped? then w.(late := w.late + 1) else w
  }

  function Apply(lib: Library, w: World, s: Step): World
    requires Enabled(lib, w, s)
  {
    match s
    case ShellExits => w.(child := Zombie)
    case TerminalDropped => w.(gone := true)
    case StopBegins(i) => w.(stops := w.stops[i := Announced], shutdown := true)
    case StopLocks(i) => w.(stops := w.stops[i := Locked], holder := Stopping(i))
    case StopLooks(i) => w.(stops := w.stops[i := Looked(w.armed)])
    case StopSignals(i) =>
      var x := if w.stops[i].armed then Signalled(w) else w;
      x.(stops := x.stops[i := Unlocked], holder := Nobody)
    case StopNudges(i) => w.(stops := w.stops - {i}, queue := Offered(w.queue, Kill))
    case ReaderEnds => w.(reader := Ended, shutdown := true)
    case ReaderNudges => w.(reader := Nudged, queue := Offered(w.queue, Kill))
    case Queued(cmd) => w.(queue := Offered(w.queue, cmd))
    case CommandServes(fails) =>
      w.(queue := w.queue[1..],
         command := if w.queue[0].Kill? || (w.queue[0].Input? && fails) then Leaving else Serving)
    case CommandHangsUp => w.(command := Leaving)
    case CommandKills(collects) =>
      var x := OwnerSignals(w);
      (if collects then Collects(x, lib.CollectsAndRemembers?) else x).(command := Killed)
    case CommandLocks => w.(command := Holding, holder := Commanding)
    case CommandRetires => w.(command := Retired, armed := false)
    case CommandUnlocks => w.(command := Released, holder := Nobody)
    case CommandWaits => (if w.status then w else Collects(w, true)).(command := Waited)
  }

  predicate Legal(lib: Library, w: World, run: seq<Step>)
    decreases run
  {
    run == [] || (Enabled(lib, w, run[0]) && Legal(lib, Apply(lib, w, run[0]), run[1..]))
  }

  function After(lib: Library, w: World, run: seq<Step>): World
    requires Legal(lib, w, run)
    decreases run
  {
    if run == [] then w else After(lib, Apply(lib, w, run[0]), run[1..])
  }

  // ---- the invariant -------------------------------------------------------------------

  predicate StopInv(w: World, i: nat)
    requires i in w.stops
  {
    && (w.holder == Stopping(i) <==> w.stops[i].Locked? || w.stops[i].Looked?)
    && (w.stops[i].Looked? ==> w.stops[i].armed == w.armed)
  }

  /** Who holds the mutex is inside; the handle is taken before the last unlock; nobody reaps
      before the kill, and the last wait does. */
  predicate HandleInv(w: World)
  {
    && (w.holder.Commanding? <==> w.command.Holding? || w.command.Retired?)
    && (w.holder.Stopping? ==> w.holder.i in w.stops)
    && (w.armed <==> !(w.command.Retired? || w.command.Released? || w.command.Waited?))
    && (w.child.Reaped? ==> !w.command.Serving? && !w.command.Leaving?)
    && (w.status || w.command.Waited? ==> w.child.Reaped?)
  }

  /** Who stops the shell, or sees it end, has told the attached bridges first. */
  predicate ToldInv(w: World) { w.stops != map[] || !w.reader.Reading? ==> w.shutdown }

  /** And what `stop` saw under the mutex is still so. */
  predicate Inv(w: World)
  {
    (forall i :: i in w.stops ==> StopInv(w, i)) && HandleInv(w) && ToldInv(w)
  }

  /** Only `wait` has reaped, if anything has. */
  predicate WaitReaps(w: World) { w.child.Reaped? ==> w.command.Waited? }

  /** The owner's handle knows what happened to the pid it names. */
  predicate OwnerKnows(w: World)
  {
    && (w.status == w.child.Reaped?)
    && w.calls == (if w.child.Reaped? then 1 else 0)
    && w.stray == 0
  }

  /** What the stoppers know stays so. */
  lemma StopKeeps(lib: Library, w: World, s: Step, i: nat)
    requires Inv(w) && Enabled(lib, w, s) && i in Apply(lib, w, s).stops
    ensures StopInv(Apply(lib, w, s), i)
  {
    if i in w.stops { assert StopInv(w, i); }
    if w.holder.Stopping? { assert StopInv(w, w.holder.i); }
  }

  lemma OwnersKeep(lib: Library, w: World, s: Step)
    requires Inv(w) && Enabled(lib, w, s)
    ensures lib.OnlySignals? && WaitReaps(w) && w.late == 0 ==>
              WaitReaps(Apply(lib, w, s)) && Apply(lib, w, s).late == 0
    ensures !lib.CollectsAndForgets? && OwnerKnows(w) ==> OwnerKnows(Apply(lib, w, s))
  {
    if s.StopSignals? { assert StopInv(w, s.i); }
  }

  lemma HandleKeeps(lib: Library, w: World, s: Step)
    requires Inv(w) && Enabled(lib, w, s)
    ensures HandleInv(Apply(lib, w, s))
  {
    if w.holder.Stopping? { assert StopInv(w, w.holder.i); }
  }

  lemma ToldKeeps(lib: Library, w: World, s: Step)
    requires Inv(w) && Enabled(lib, w, s)
    ensures ToldInv(Apply(lib, w, s))
  {
  }

  lemma StepKeeps(lib: Library, w: World, s: Step)
    requires Inv(w) && Enabled(lib, w, s)
    ensures Inv(Apply(lib, w, s))
    ensures lib.OnlySignals? && WaitReaps(w) && w.late == 0 ==>
              WaitReaps(Apply(lib, w, s)) && Apply(lib, w, s).late == 0
    ensures !lib.CollectsAndForgets? && OwnerKnows(w) ==> OwnerKnows(Apply(lib, w, s))
  {
    HandleKeeps(lib, w, s);
    ToldKeeps(lib, w, s);
    OwnersKeep(lib, w, s);
    forall i | i in Apply(lib, w, s).stops ensures StopInv(Apply(lib, w, s), i) {
      StopKeeps(lib, w, s, i);
    }
  }

  lemma {:induction false} RunKeeps(lib: Library, w: World, run: seq<Step>)
    requires Inv(w) && Legal(lib, w, run)
    ensures Inv(After(lib, w, run))
    ensures lib.OnlySignals? && WaitReaps(w) && w.late == 0 ==> After(lib, w, run).late == 0
    ensures !lib.CollectsAndForgets? && OwnerKnows(w) ==> OwnerKnows(After(lib, w, run))
    decreases run
  {
    if run != [] {
      StepKeeps(lib, w, run[0]);
      RunKeeps(lib, Apply(lib, w, run[0]), run[1..]);
    }
  }

  // ---- the shared handle ------------------------------------------------------------------

  /** In every interleaving no signal goes through the handle after the child was reaped if
      and only if killing the child only signals it. */
  lemma NeverSignalsAReapedChildIff(lib: Library)
    ensures (forall run :: Legal(lib, START, run) ==> After(lib, START, run).late == 0)
       <==> lib.OnlySignals?
  {
    if lib.OnlySignals? {
      forall run | Legal(lib, START, run) ensures After(lib, START, run).late == 0 {
        RunKeeps(lib, START, run);
      }
    } else {
      var run := CollectedTooEarly(lib);
      assert Legal(lib, START, run) && After(lib, START, run).late == 1;
    }
  }

  /** Read off the steps alone: some `stop` signals after a collecting kill and before the
      command thread takes the handle. `open` says whether such a stretch is under way. */
  predicate StopsInTheGap(run: seq<Step>, open: bool)
    decreases run
  {
    run != [] &&
      ((open && run[0].StopSignals?)
       || StopsInTheGap(run[1..], if run[0].CommandKills? then run[0].collects
                                  else open && !run[0].CommandRetires?))
  }

  /** The child is reaped and the handle still there. */
  predicate InGap(w: World) { w.child.Reaped? && w.armed }

  lemma StepInGap(lib: Library, w: World, s: Step)
    requires Inv(w) && Enabled(lib, w, s)
    ensures InGap(Apply(lib, w, s))
         == if s.CommandKills? then s.collects else InGap(w) && !s.CommandRetires?
    ensures Apply(lib, w, s).late == w.late + if InGap(w) && s.StopSignals? then 1 else 0
  {
    if s.StopSignals? { assert StopInv(w, s.i); }
  }

  lemma {:induction false} LateGrows(lib: Library, w: World, run: seq<Step>)
    requires Inv(w) && Legal(lib, w, run)
    ensures w.late <= After(lib, w, run).late
    decreases run
  {
    if run != [] {
      StepKeeps(lib, w, run[0]);
      StepInGap(lib, w, run[0]);
      LateGrows(lib, Apply(lib, w, run[0]), run[1..]);
    }
  }

  /** Whatever the library does, a run signals a reaped child exactly when some `stop`
      signals between the collecting kill and the handle being taken. */
  lemma {:induction false} SignalsLateIff(lib: Library, w: World, run: seq<Step>)
    requires Inv(w) && Legal(lib, w, run)
    ensures After(lib, w, run).late > w.late <==> StopsInTheGap(run, InGap(w))
    decreases run
  {
    if run != [] {
      var x := Apply(lib, w, run[0]);
      StepKeeps(lib, w, run[0]);
      StepInGap(lib, w, run[0]);
      LateGrows(lib, x, run[1..]);
      SignalsLateIff(lib, x, run[1..]);
    }
  }

  // ---- the owner's handle ------------------------------------------------------------------

  /** In every interleaving the pid is collected at most once and its owner never uses it
      afterwards, if and only if the library does not collect behind the handle's back. */
  lemma ReapedAtMostOnceIff(lib: Library)
    ensures (forall run :: Legal(lib, START, run) ==>
               After(lib, START, run).calls <= 1 && After(lib, START, run).stray == 0)
       <==> !lib.CollectsAndForgets?
  {
    if lib.CollectsAndForgets? {
      var run := CollectedTwice();
      assert Legal(lib, START, run) && After(lib, START, run).calls == 2;
    } else {
      forall run | Legal(lib, START, run)
        ensures After(lib, START, run).calls <= 1 && After(lib, START, run).stray == 0
      {
        RunKeeps(lib, START, run);
      }
    }
  }

  // ---- witnesses -----------------------------------------------------------------------------

  lemma Cons(lib: Library, w: World, s: Step, rest: seq<Step>)
    requires Enabled(lib, w, s) && Legal(lib, Apply(lib, w, s), rest)
    ensures Legal(lib, w, [s] + rest)
    ensures After(lib, w, [s] + rest) == After(lib, Apply(lib, w, s), rest)
  {
    assert ([s] + rest)[1..] == rest;
  }

  /** The child exits, the reader wakes the command thread, whose kill collects it. */
  function Collected(lib: Library): (w: World)
    requires !lib.OnlySignals?
    ensures w.child.Reaped? && w.armed && w.holder.Nobody? && !w.gone && w.stops == map[]
    ensures w.command.Killed? && w.status == lib.CollectsAndRemembers? && w.late == 0 && w.calls == 1
  {
    var w3 := Apply(lib, Apply(lib, Apply(lib, START, ShellExits), ReaderEnds), ReaderNudges);
    assert w3.queue == [Kill];
    Apply(lib, Apply(lib, w3, CommandServes(true)), CommandKills(true))
  }

  lemma FromCollected(lib: Library, rest: seq<Step>) returns (run: seq<Step>)
    requires !lib.OnlySignals? && Legal(lib, Collected(lib), rest)
    ensures Legal(lib, START, run) && After(lib, START, run) == After(lib, Collected(lib), rest)
  {
    var w1 := Apply(lib, START, ShellExits);
    var w2 := Apply(lib, w1, ReaderEnds);
    var w3 := Apply(lib, w2, ReaderNudges);
    assert w3.queue == [Kill];
    var w4 := Apply(lib, w3, CommandServes(true));
    Cons(lib, w4, CommandKills(true), rest);
    run := [CommandKills(true)] + rest;
    Cons(lib, w3, CommandServes(true), run);
    run := [CommandServes(true)] + run;
    Cons(lib, w2, ReaderNudges, run);
    run := [ReaderNudges] + run;
    Cons(lib, w1, ReaderEnds, run);
    run := [ReaderEnds] + run;
    Cons(lib, START, ShellExits, run);
    run := [ShellExits] + run;
  }

  /** A `stop` comes between the collecting kill and the handle being taken. */
  lemma CollectedTooEarly(lib: Library) returns (run: seq<Step>)
    requires !lib.OnlySignals?
    ensures Legal(lib, START, run) && After(lib, START, run).late == 1
  {
    var w := Collected(lib);
    var w1 := Apply(lib, w, StopBegins(0));
    var w2 := Apply(lib, w1, StopLocks(0));
    var w3 := Apply(lib, w2, StopLooks(0));
    run := [];
    Cons(lib, w3, StopSignals(0), run);
    run := [StopSignals(0)] + run;
    Cons(lib, w2, StopLooks(0), run);
    run := [StopLooks(0)] + run;
    Cons(lib, w1, StopLocks(0), run);
    run := [StopLocks(0)] + run;
    Cons(lib, w, StopBegins(0), run);
    run := FromCollected(lib, [StopBegins(0)] + run);
  }

  /** The final wait collects what the kill has collected already. */
  lemma CollectedTwice() returns (run: seq<Step>)
    ensures Legal(CollectsAndForgets, START, run) && After(CollectsAndForgets, START, run).calls == 2
  {
    var lib := CollectsAndForgets;
    var w := Collected(lib);
    var w1 := Apply(lib, w, CommandLocks);
    var w2 := Apply(lib, w1, CommandRetires);
    var w3 := Apply(lib, w2, CommandUnlocks);
    run := [];
    Cons(lib, w3, CommandWaits, run);
    run := [CommandWaits] + run;
    Cons(lib, w2, CommandUnlocks, run);
    run := [CommandUnlocks] + run;
    Cons(lib, w1, CommandRetires, run);
    run := [CommandRetires] + run;
    Cons(lib, w, CommandLocks, run);
    run := FromCollected(lib, [CommandLocks] + run);
  }

  // ---- past the loop ------------------------------------------------------------------------------

  /** The command thread has left its loop and not yet come through `wait`. */
  predicate Past(w: World) { !w.command.Serving? && !w.command.Waited? }

  /** The step that is owed then, by the command thread, by whoever holds the mutex, or by a
      child that has been killed. */
  function Owed(w: World): Step
    requires Inv(w) && Past(w)
  {
    match w.command
    case Leaving => CommandKills(false)
    case Killed =>
      if w.holder.Stopping? then
        if w.stops[w.holder.i].Locked? then StopLooks(w.holder.i) else StopSignals(w.holder.i)
      else CommandLocks
    case Holding => CommandRetires
    case Retired => CommandUnlocks
    case Released => if !w.status && w.child.Running? then ShellExits else CommandWaits
  }

  /** How many of them at most are still owed. */
  function Left(w: World): nat
    requires Inv(w) && Past(w)
  {
    match w.command
    case Leaving => 8
    case Killed => 5 + if !w.holder.Stopping? then 0 else if w.stops[w.holder.i].Locked? then 2 else 1
    case Holding => 4
    case Retired => 3
    case Released => 1 + if !w.status && w.child.Running? then 1 else 0
  }

  lemma OwedAdvances(lib: Library, w: World)
    requires Inv(w) && Past(w)
    ensures Enabled(lib, w, Owed(w)) && Inv(Apply(lib, w, Owed(w)))
    ensures var x := Apply(lib, w, Owed(w)); if Past(x) then Left(x) < Left(w) else x.command.Waited?
  {
    if w.command.Killed? && w.holder.Stopping? { assert StopInv(w, w.holder.i); }
    StepKeeps(lib, w, Owed(w));
  }

  /** Nothing happens but what is owed, and before that the command thread serving its queue. */
  ghost predicate OnlyOwed(lib: Library, w: World, run: seq<Step>)
    requires Inv(w) && Legal(lib, w, run)
    decreases run
  {
    run == [] ||
      (&& (if Past(w) then run[0] == Owed(w) else run[0] == CommandServes(true))
       && Inv(Apply(lib, w, run[0])) && OnlyOwed(lib, Apply(lib, w, run[0]), run[1..]))
  }

  /** That gets the child reaped. */
  ghost predicate ReapsByItself(lib: Library, w: World)
    requires Inv(w)
  {
    exists run :: Legal(lib, w, run) && OnlyOwed(lib, w, run)
      && After(lib, w, run).command.Waited? && After(lib, w, run).child.Reaped?
  }

  lemma ReapsBefore(lib: Library, w: World, s: Step)
    requires Inv(w) && Enabled(lib, w, s) && (if Past(w) then s == Owed(w) else s == CommandServes(true))
    requires Inv(Apply(lib, w, s)) && ReapsByItself(lib, Apply(lib, w, s))
    ensures ReapsByItself(lib, w)
  {
    var x := Apply(lib, w, s);
    var run :| Legal(lib, x, run) && OnlyOwed(lib, x, run)
      && After(lib, x, run).command.Waited? && After(lib, x, run).child.Reaped?;
    Cons(lib, w, s, run);
    assert ([s] + run)[1..] == run;
    assert OnlyOwed(lib, w, [s] + run);
  }

  /** Past the loop, the steps that are owed always get the child reaped. */
  lemma {:induction false} PastReaps(lib: Library, w: World)
    requires Inv(w) && Past(w)
    ensures ReapsByItself(lib, w)
    decreases Left(w)
  {
    OwedAdvances(lib, w);
    var x := Apply(lib, w, Owed(w));
    if Past(x) {
      PastReaps(lib, x);
    } else {
      assert Legal(lib, x, []) && OnlyOwed(lib, x, []) && After(lib, x, []) == x;
    }
    ReapsBefore(lib, w, Owed(w));
  }

  /** Once the command thread has left its loop, whatever `stop`, reader and shell do besides,
      it is never too late: at every moment the child has been waited for and reaped, or the
      steps that are owed get there. */
  lemma {:induction false} LeavingEndsReaped(lib: Library, w: World, run: seq<Step>)
    requires Inv(w) && !w.command.Serving? && Legal(lib, w, run)
    ensures var x := After(lib, w, run);
            Inv(x) && ((x.command.Waited? && x.child.Reaped?) || ReapsByItself(lib, x))
    decreases run
  {
    if run == [] {
      if Past(w) { PastReaps(lib, w); }
    } else {
      StepKeeps(lib, w, run[0]);
      LeavingEndsReaped(lib, Apply(lib, w, run[0]), run[1..]);
    }
  }

  // ---- waking the command thread --------------------------------------------------------------

  /** Some queued command is more than a resize. */
  predicate SomeWake(queue: seq<Cmd>) { exists i :: 0 <= i < |queue| && !queue[i].Resize? }

  lemma WakeLater(queue: seq<Cmd>)
    requires queue != [] && queue[0].Resize?
    ensures SomeWake(queue[1..]) <==> SomeWake(queue)
  {
    if SomeWake(queue[1..]) {
      var i :| 0 <= i < |queue| - 1 && !queue[1..][i].Resize?;
      assert !queue[i + 1].Resize?;
    }
    if SomeWake(queue) {
      var i :| 0 <= i < |queue| && !queue[i].Resize?;
      assert !queue[1..][i - 1].Resize?;
    }
  }

  lemma {:induction false} NothingWakes(lib: Library, w: World, run: seq<Step>)
    requires Inv(w) && w.command.Serving? && !SomeWake(w.queue) && Legal(lib, w, run) && OnlyOwed(lib, w, run)
    ensures After(lib, w, run).command.Serving?
    decreases run
  {
    if run != [] {
      WakeLater(w.queue);
      NothingWakes(lib, Apply(lib, w, run[0]), run[1..]);
    }
  }

  /** A serving thread gets the child reaped by itself exactly when something but resizes is
      queued. */
  lemma {:induction false} ReapsIff(lib: Library, w: World)
    requires Inv(w) && w.command.Serving?
    ensures ReapsByItself(lib, w) <==> SomeWake(w.queue)
    decreases |w.queue|
  {
    if !SomeWake(w.queue) {
      forall run | Legal(lib, w, run) && OnlyOwed(lib, w, run) ensures After(lib, w, run).command.Serving? {
        NothingWakes(lib, w, run);
      }
    } else {
      var x := Apply(lib, w, CommandServes(true));
      StepKeeps(lib, w, CommandServes(true));
      if w.queue[0].Resize? {
        WakeLater(w.queue);
        ReapsIff(lib, x);
      } else {
        PastReaps(lib, x);
      }
      ReapsBefore(lib, w, CommandServes(true));
    }
  }

  /** The nudge of a reader that ended, or of a `stop`, gets a serving command thread to reap the
      child from what is queued, except when it is dropped on a queue full of nothing but
      resizes. */
  lemma NudgeWakesIff(lib: Library, run: seq<Step>, s: Step)
    requires Legal(lib, START, run) && After(lib, START, run).command.Serving?
    requires (s.ReaderNudges? || s.StopNudges?) && Enabled(lib, After(lib, START, run), s)
    ensures var w := After(lib, START, run);
            && Inv(Apply(lib, w, s)) && (|w.queue| < 128 ==> Apply(lib, w, s).queue == w.queue + [Kill])
            && (ReapsByItself(lib, Apply(lib, w, s)) <==> |w.queue| < 128 || SomeWake(w.queue))
  {
    var w := After(lib, START, run);
    RunKeeps(lib, START, run);
    StepKeeps(lib, w, s);
    ReapsIff(lib, Apply(lib, w, s));
    if |w.queue| < QUEUE { assert Offered(w.queue, Kill)[|w.queue|] == Kill; }
  }
}
