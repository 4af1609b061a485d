/** The capped ring of recent shell output and the screen model kept beside it
    (src/terminals.rs). */
module Scrollbacks {
  import opened Basics
  import opened ModeTracking

  /** How an attachment's replay relates to what the client already has. */
  datatype AttachMode = Resume | Replay

  datatype CutResult = CutResult(mode: AttachMode, base: nat, bytes: Bytes)

  /** A terminal emulator, abstractly: a blank grid for a size, one step per
      byte, and a rendering. Processing a chunk is a fold, so nothing depends on
      how the stream was cut. */
  datatype Emulator<!Grid> = Emulator(
    blank: (nat, nat) -> Grid,
    step: (Grid, byte) -> Grid,
    render: Grid -> Bytes)

  function Processed<Grid>(emu: Emulator<Grid>, g: Grid, bytes: Bytes): Grid
    decreases bytes
  {
    if bytes == [] then g else Processed(emu, emu.step(g, bytes[0]), bytes[1..])
  }

  lemma {:induction false} ProcessedConcat<Grid>(emu: Emulator<Grid>, g: Grid, a: Bytes, b: Bytes)
    ensures Processed(emu, g, a + b) == Processed(emu, Processed(emu, g, a), b)
    decreases a
  {
    if a == [] {
      assert a + b == b;
    } else {
      assert (a + b)[1..] == a[1..] + b;
      ProcessedConcat(emu, emu.step(g, a[0]), a[1..], b);
    }
  }

  /** A degenerate size becomes one cell. */
  function BlankScreen<Grid>(emu: Emulator<Grid>, cols: nat, rows: nat): Grid
  {
    emu.blank(Max(cols, 1), Max(rows, 1))
  }

  // ---- the specification: everything is a function of the full log ----------

  /** Where the ring starts in the full log. */
  function Front(log: Bytes, cap: nat): (front: nat)
    ensures front <= |log|
    ensures |log| - front == Min(cap, |log|)
  {
    |log| - Min(cap, |log|)
  }

  /** The mode-reinstating prefix a full replay of `log` needs. */
  function InitAt(log: Bytes, front: nat): Bytes
    requires front <= |log|
  {
    Synthesized(Scanned(FRESH, log[..front]).modes)
  }

  /** The attachment cut: the missed tail if the offset is inside the ring,
      otherwise the whole ring. */
  function CutOf(log: Bytes, cap: nat, offset: Option<nat>): CutResult
  {
    var front := Front(log, cap);
    if offset.Some? && front <= offset.value <= |log|
    then CutResult(Resume, offset.value, log[offset.value..])
    else CutResult(Replay, front, log[front..])
  }

  /** The grid a client holds that reset at `size`, wrote the prefix for `front`
      and then every byte of the log from there. */
  function ModelOf<Grid>(emu: Emulator<Grid>, size: (nat, nat), log: Bytes, front: nat): Grid
    requires front <= |log|
  {
    Processed(emu, BlankScreen(emu, size.0, size.1), InitAt(log, front) + log[front..])
  }

  /** More output only extends what the model has processed. */
  lemma ModelExtends<Grid>(emu: Emulator<Grid>, size: (nat, nat), log: Bytes, front: nat, data: Bytes)
    requires front <= |log|
    ensures ModelOf(emu, size, log + data, front)
         == Processed(emu, ModelOf(emu, size, log, front), data)
  {
    assert (log + data)[..front] == log[..front];
    assert (log + data)[front..] == log[front..] + data;
    var init := InitAt(log, front);
    assert init + (log[front..] + data) == (init + log[front..]) + data;
    ProcessedConcat(emu, BlankScreen(emu, size.0, size.1), init + log[front..], data);
  }

  /** Before any output the ring is empty and the model is the blank screen. */
  lemma BlankModel<Grid>(emu: Emulator<Grid>, cap: nat, size: (nat, nat), log: Bytes)
    requires |log| == 0
    ensures Front(log, cap) == 0 && log[0..] == log && log[..0] == log
    ensures ModelOf(emu, size, log, 0) == BlankScreen(emu, size.0, size.1)
    ensures Scanned(FRESH, log) == FRESH
  {
    SynthEmptyIffDefault(Scanned(FRESH, log).modes);
    assert InitAt(log, 0) + log == log;
  }

  /** The evicted bytes are exactly those between the old front and the new. */
  lemma RingMoved(cap: nat, before: Bytes, data: Bytes, evicted: Bytes, ring: Bytes)
    requires evicted + ring == before[Front(before, cap)..] + data
    requires |ring| == Min(cap, |before| - Front(before, cap) + |data|)
    ensures ring == (before + data)[Front(before + data, cap)..]
    ensures Scanned(Scanned(FRESH, before[..Front(before, cap)]), evicted)
         == Scanned(FRESH, (before + data)[..Front(before + data, cap)])
  {
    var now := before + data;
    var f := Front(before, cap);
    assert now == before[..f] + (before[f..] + data);
    assert now == (before[..f] + evicted) + ring;
    assert Front(now, cap) == f + |evicted|;
    assert now[..Front(now, cap)] == before[..f] + evicted;
    ScannedConcat(FRESH, before[..f], evicted);
  }

  /** Writing the prefix and then the ring into a blank screen is the model. */
  lemma RebuiltModel<Grid>(emu: Emulator<Grid>, size: (nat, nat), log: Bytes, front: nat)
    requires front <= |log|
    ensures Processed(emu, Processed(emu, BlankScreen(emu, size.0, size.1), InitAt(log, front)), log[front..])
         == ModelOf(emu, size, log, front)
  {
    ProcessedConcat(emu, BlankScreen(emu, size.0, size.1), InitAt(log, front), log[front..]);
  }

  // ---- the screen model ------------------------------------------------------

  /** How the screen model stands: the size asked for, whether a resize has left it stale,
      and the ring's front and the size at its last rebuild. */
  datatype Canvas = Canvas(size: (nat, nat), stale: bool, front: nat, modelSize: (nat, nat))

  function Blanked(size: (nat, nat)): Canvas { Canvas(size, false, 0, size) }

  /** Only another size makes the model stale. */
  function Resized(c: Canvas, size: (nat, nat)): Canvas
  {
    if c.size == size then c else c.(size := size, stale := true)
  }

  /** A stale model is rebuilt from the ring as it is now. */
  function Refreshed(c: Canvas, log: Bytes, cap: nat): Canvas
  {
    if c.stale then Canvas(c.size, false, Front(log, cap), c.size) else c
  }

  /** The rendering of the grid a client of this size holds that reset, wrote the prefix for
      the canvas's front and then the log from there. */
  function Picture<Grid>(emu: Emulator<Grid>, c: Canvas, log: Bytes): Bytes
    requires c.front <= |log|
  {
    emu.render(ModelOf(emu, c.size, log, c.front))
  }

  /** Whatever an emulator's grids count as their size, if a blank one has the size it was made
      with and no byte changes it: the model has the size asked for, one cell at least. */
  lemma ModelHasTheSize<Grid>(emu: Emulator<Grid>, sizeOf: Grid -> (nat, nat),
                                                size: (nat, nat), log: Bytes, front: nat)
    requires front <= |log|
    requires forall cols: nat, rows: nat :: cols >= 1 && rows >= 1 ==> sizeOf(emu.blank(cols, rows)) == (cols, rows)
    requires forall g, b: byte :: sizeOf(emu.step(g, b)) == sizeOf(g)
    ensures sizeOf(ModelOf(emu, size, log, front))
         == (if size.0 == 0 then 1 else size.0, if size.1 == 0 then 1 else size.1)
  {
    ProcessedKeepsSize(emu, sizeOf, BlankScreen(emu, size.0, size.1), InitAt(log, front) + log[front..]);
  }

  lemma {:induction false} ProcessedKeepsSize<Grid>(emu: Emulator<Grid>, sizeOf: Grid -> (nat, nat), g: Grid,
                                                    bytes: Bytes)
    requires forall h, b: byte :: sizeOf(emu.step(h, b)) == sizeOf(h)
    ensures sizeOf(Processed(emu, g, bytes)) == sizeOf(g)
    decreases bytes
  {
    if bytes != [] { ProcessedKeepsSize(emu, sizeOf, emu.step(g, bytes[0]), bytes[1..]); }
  }

  /** Pop from the front until the ring fits. */
  method Evict(ring: Bytes, cap: nat) returns (evicted: Bytes, kept: Bytes)
    ensures evicted + kept == ring
    ensures |kept| == Min(cap, |ring|)
  {
    evicted, kept := [], ring;
    while |kept| > cap
      invariant evicted + kept == ring
      invariant |kept| >= Min(cap, |ring|)
    {
      evicted := evicted + [kept[0]];
      kept := kept[1..];
    }
  }

  // ---- the ring ------------------------------------------------------------

  class Scrollback<!Grid> {
    const cap: nat
    const emu: Emulator<Grid>
    var buf: Bytes
    var total: nat
    const frontState: ModeTracker
    var screen: Grid
    var size: (nat, nat)
    var stale: bool

    /** Every byte pushed since the shell was spawned. */
    ghost var log: Bytes
    /** The ring's front and the size when the screen was last rebuilt. */
    ghost var modelFront: nat
    ghost var modelSize: (nat, nat)

    ghost predicate Valid()
      reads this, frontState
    {
      && total == |log|
      && buf == log[Front(log, cap)..]
      && frontState.Value() == Scanned(FRESH, log[..Front(log, cap)])
      && modelFront <= |log|
      && screen == ModelOf(emu, modelSize, log, modelFront)
      && (!stale ==> modelSize == size)
    }

    ghost function View(): Canvas
      reads this
    {
      Canvas(size, stale, modelFront, modelSize)
    }

    constructor (cap: nat, cols: nat, rows: nat, emu: Emulator<Grid>)
      ensures Valid() && fresh(frontState)
      ensures this.cap == cap && this.emu == emu
      ensures |log| == 0 && View() == Blanked((cols, rows))
    {
      this.cap, this.emu := cap, emu;
      var nothing: Bytes := seq(0, i => 0);
      buf, total := nothing, 0;
      frontState := new ModeTracker();
      screen := BlankScreen(emu, cols, rows);
      size, stale := (cols, rows), false;
      log, modelFront, modelSize := nothing, 0, (cols, rows);
      new;
      BlankModel(emu, cap, size, log);
    }

    method Push(data: Bytes)
      requires Valid()
      modifies this, frontState
      ensures Valid()
      ensures log == old(log) + data
      ensures View() == old(View())
    {
      ghost var before := log;
      total := total + |data|;
      buf := buf + data;
      var evicted, kept := Evict(buf, cap);
      buf := kept;
      frontState.Feed(evicted);
      screen := ProcessChunk(screen, data);
      log := log + data;
      ModelExtends(emu, modelSize, before, modelFront, data);
      RingMoved(cap, before, data, evicted, buf);
    }

    method ProcessChunk(g: Grid, bytes: Bytes) returns (r: Grid)
      ensures r == Processed(emu, g, bytes)
    {
      r := g;
      for i := 0 to |bytes|
        invariant Processed(emu, r, bytes[i..]) == Processed(emu, g, bytes)
      {
        assert bytes[i..][1..] == bytes[i + 1..];
        r := emu.step(r, bytes[i]);
      }
    }

    method Resize(cols: nat, rows: nat)
      requires Valid()
      modifies this`size, this`stale
      ensures Valid()
      ensures View() == Resized(old(View()), (cols, rows))
    {
      if size != (cols, rows) {
        size := (cols, rows);
        stale := true;
      }
    }

    /** The rendering of the grid a client of this size would hold. */
    method ScreenSnapshot() returns (picture: Bytes)
      requires Valid()
      modifies this`screen, this`stale, this`modelFront, this`modelSize
      ensures Valid() && View() == Refreshed(old(View()), log, cap)
      ensures picture == Picture(emu, View(), log)
    {
      if stale {
        var init := FrontInit();
        var rebuilt := ProcessChunk(BlankScreen(emu, size.0, size.1), init);
        RebuiltModel(emu, size, log, Front(log, cap));
        rebuilt := ProcessChunk(rebuilt, buf);
        screen := rebuilt;
        stale := false;
        modelFront, modelSize := Front(log, cap), size;
      }
      picture := emu.render(screen);
    }

    method FrontInit() returns (init: Bytes)
      requires Valid()
      ensures init == InitAt(log, Front(log, cap))
    {
      init := frontState.Synth();
    }

    /** The cut point for a new attachment. Offsets are unsigned, so the checked
        subtraction fails exactly for an offset beyond `total`. */
    method Cut(offset: Option<nat>) returns (r: CutResult)
      requires Valid()
      ensures r == CutOf(log, cap, offset)
    {
      if offset.Some? && offset.value <= total {
        var missed := total - offset.value;
        if missed <= |buf| {
          var start := |buf| - missed;
          assert buf[start..] == log[offset.value..];
          return CutResult(Resume, offset.value, buf[start..]);
        }
      }
      return CutResult(Replay, total - |buf|, buf);
    }
  }

  // ---- laws ----------------------------------------------------------------

  /** Resume is answered exactly for offsets inside the ring, both ends included,
      and the bytes sent always run from the announced base to the end of the log. */
  lemma CutIsExact(log: Bytes, cap: nat, offset: Option<nat>)
    ensures var r := CutOf(log, cap, offset);
            && r.base <= |log|
            && r.bytes == log[r.base..]
            && (r.mode.Resume? <==> offset.Some? && |log| - Min(cap, |log|) <= offset.value <= |log|)
            && (r.mode.Resume? ==> r.base == offset.value)
            && (r.mode.Replay? ==> |r.bytes| == Min(cap, |log|))
  {
  }

  /** A client that answers a replay by resetting, writing the prefix and then
      the bytes ends in the scanner position and modes of the shell's own
      terminal, when the cut fell between two sequences. */
  lemma ReplayedClientMatchesShell(log: Bytes, cap: nat, offset: Option<nat>)
    requires CutOf(log, cap, offset).mode.Replay?
    requires Scanned(FRESH, log[..Front(log, cap)]).st.Ground?
    ensures var r := CutOf(log, cap, offset);
            Scanned(FRESH, InitAt(log, r.base) + r.bytes) == Scanned(FRESH, log)
  {
    ReplayFaithful(log, Front(log, cap));
  }

  /** A resumed client, whose scanner already followed the log up to its offset,
      needs no prefix: it matches with no condition on the cut. */
  lemma ResumedClientMatchesShell(log: Bytes, cap: nat, offset: Option<nat>)
    requires CutOf(log, cap, offset).mode.Resume?
    ensures var r := CutOf(log, cap, offset);
            Scanned(Scanned(FRESH, log[..r.base]), r.bytes) == Scanned(FRESH, log)
  {
    var r := CutOf(log, cap, offset);
    assert log[..r.base] + r.bytes == log;
    ScannedConcat(FRESH, log[..r.base], r.bytes);
  }
}
