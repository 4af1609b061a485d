/** The escape-sequence scanner that follows the bytes evicted from the ring's
    front, and the printer that reinstates what it saw (src/terminals.rs). */
module ModeTracking {
  import opened Basics
  import Decimal

  const ESC: byte := 0x1b
  const BRACKET: byte := 0x5b
  const QUESTION: byte := 0x3f
  const SEMICOLON: byte := 0x3b
  const SET: byte := 0x68
  const RESET: byte := 0x6c
  const U16_MAX: nat := 65535
  const CSI_CAP: nat := 32

  /** Scanner position between feeds. */
  datatype Scan = Ground | Esc | Csi(buf: Bytes)

  /** The tracked private modes. */
  datatype Modes = Modes(
    appCursor: bool,
    cursorHidden: bool,
    altScreen: Option<nat>,
    bracketedPaste: bool,
    mouse: set<nat>)

  /** Everything a tracker holds. */
  datatype Tracker = Tracker(st: Scan, modes: Modes)

  const DEFAULT_MODES := Modes(false, false, None, false, {})

  const FRESH := Tracker(Ground, DEFAULT_MODES)

  /** Mouse tracking modes and their encodings. */
  predicate IsMouseMode(n: nat)
  {
    n == 9 || 1000 <= n <= 1003 || n == 1005 || n == 1006 || n == 1015 || n == 1016
  }

  /** The same numbers in ascending order. */
  const MOUSE_MODES: seq<nat> := [9, 1000, 1001, 1002, 1003, 1005, 1006, 1015, 1016]

  predicate IsParam(b: byte) { 0x20 <= b <= 0x3f }

  predicate IsFinal(b: byte) { 0x40 <= b <= 0x7e }

  // ---- specification -------------------------------------------------------

  /** Setting or resetting one mode number. */
  function Applied(m: Modes, n: nat, on: bool): Modes
  {
    if n == 1 then m.(appCursor := on)
    else if n == 25 then m.(cursorHidden := !on)
    else if n == 47 || n == 1047 || n == 1049 then m.(altScreen := if on then Some(n) else None)
    else if n == 2004 then m.(bracketedPaste := on)
    else if IsMouseMode(n) then m.(mouse := if on then m.mouse + {n} else m.mouse - {n})
    else m
  }

  /** One parameter field; a field that is not a `u16` is skipped. */
  function FieldApplied(m: Modes, field: Bytes, on: bool): Modes
  {
    match Decimal.Parse(field, U16_MAX)
    case None => m
    case Some(n) => Applied(m, n, on)
  }

  function FieldsApplied(m: Modes, fields: seq<Bytes>, on: bool): Modes
    decreases fields
  {
    if fields == [] then m else FieldsApplied(FieldApplied(m, fields[0], on), fields[1..], on)
  }

  /** The effect of a complete control sequence. */
  function Dispatched(m: Modes, buf: Bytes, final: byte): Modes
  {
    if (final == SET || final == RESET) && buf != [] && buf[0] == QUESTION
    then FieldsApplied(m, Split(buf[1..], SEMICOLON), final == SET)
    else m
  }

  /** The scanner's transition on one byte. */
  function Stepped(t: Tracker, b: byte): Tracker
  {
    match t.st
    case Ground => if b == ESC then t.(st := Esc) else t
    case Esc => t.(st := if b == BRACKET then Csi([]) else if b == ESC then Esc else Ground)
    case Csi(buf) =>
      if IsParam(b) then (if |buf| < CSI_CAP then t.(st := Csi(buf + [b])) else t)
      else if IsFinal(b) then Tracker(Ground, Dispatched(t.modes, buf, b))
      else if b == ESC then t.(st := Esc)
      else t
  }

  function Scanned(t: Tracker, bytes: Bytes): Tracker
    decreases bytes
  {
    if bytes == [] then t else Scanned(Stepped(t, bytes[0]), bytes[1..])
  }

  /** `ESC [ ? n h` or `ESC [ ? n l`. */
  function PrivateMode(n: nat, final: byte): Bytes
  {
    [ESC, BRACKET, QUESTION] + Decimal.Print(n) + [final]
  }

  /** The enabling sequences of those numbers of `order` that are in `on`. */
  function MouseSequences(order: seq<nat>, on: set<nat>): Bytes
  {
    if order == [] then []
    else (if order[0] in on then PrivateMode(order[0], SET) else []) + MouseSequences(order[1..], on)
  }

  function AltSequence(alt: Option<nat>): Bytes
  {
    match alt
    case None => []
    case Some(n) => PrivateMode(n, SET)
  }

  function Flag(on: bool, n: nat, final: byte): Bytes
  {
    if on then PrivateMode(n, final) else []
  }

  /** The head of a replay: every non-default mode, alternate screen first. */
  function Synthesized(m: Modes): Bytes
  {
    AltSequence(m.altScreen)
    + Flag(m.appCursor, 1, SET)
    + Flag(m.bracketedPaste, 2004, SET)
    + MouseSequences(MOUSE_MODES, m.mouse)
    + Flag(m.cursorHidden, 25, RESET)
  }

  /** The invariant on the numbers a tracker ever stores. */
  predicate WellFormed(m: Modes)
  {
    && (m.altScreen.Some? ==> m.altScreen.value in {47, 1047, 1049})
    && (forall n :: n in m.mouse ==> IsMouseMode(n))
  }

  /** The invariant of a whole tracker: the parameter buffer is capped. */
  predicate Sound(t: Tracker)
  {
    WellFormed(t.modes) && (t.st.Csi? ==> |t.st.buf| <= CSI_CAP)
  }

  // ---- the tracker itself --------------------------------------------------

  class ModeTracker {
    var st: Scan
    var appCursor: bool
    var cursorHidden: bool
    var altScreen: Option<nat>
    var bracketedPaste: bool
    var mouse: set<nat>

    ghost function Value(): Tracker
      reads this
    {
      Tracker(st, Modes(appCursor, cursorHidden, altScreen, bracketedPaste, mouse))
    }

    constructor ()
      ensures Value() == FRESH
    {
      st := Ground;
      appCursor, cursorHidden, altScreen, bracketedPaste, mouse := false, false, None, false, {};
    }

    method Feed(bytes: Bytes)
      modifies this
      ensures Value() == Scanned(old(Value()), bytes)
    {
      var i := 0;
      while i < |bytes|
        invariant 0 <= i <= |bytes|
        invariant Scanned(Value(), bytes[i..]) == Scanned(old(Value()), bytes)
      {
        var b := bytes[i];
        ghost var before := Value();
        assert bytes[i..][1..] == bytes[i + 1..];
        match st {
          case Ground => if b == ESC { st := Esc; }
          case Esc =>
            if b == BRACKET { st := Csi([]); }
            else if b != ESC { st := Ground; }
          case Csi(buf) =>
            if IsParam(b) {
              if |buf| < CSI_CAP { st := Csi(buf + [b]); }
            } else if IsFinal(b) {
              Dispatch(buf, b);
              st := Ground;
            } else if b == ESC {
              st := Esc;
            }
        }
        assert Value() == Stepped(before, b);
        i := i + 1;
      }
    }

    method Dispatch(buf: Bytes, final: byte)
      modifies this
      ensures Value() == old(Value()).(modes := Dispatched(old(Value()).modes, buf, final))
    {
      if final != SET && final != RESET { return; }
      var on := final == SET;
      if buf == [] || buf[0] != QUESTION { return; }
      var fields := Split(buf[1..], SEMICOLON);
      var i := 0;
      while i < |fields|
        invariant 0 <= i <= |fields|
        invariant Value().(modes := old(Value()).modes) == old(Value())
        invariant FieldsApplied(Value().modes, fields[i..], on)
               == FieldsApplied(old(Value()).modes, fields, on)
      {
        assert fields[i..][1..] == fields[i + 1..];
        ApplyField(fields[i], on);
        i := i + 1;
      }
    }

    /** One turn of that loop; what is no number of 16 bits is passed over. */
    method ApplyField(field: Bytes, on: bool)
      modifies this
      ensures Value() == old(Value()).(modes := FieldApplied(old(Value()).modes, field, on))
    {
      var parsed := Decimal.Parse(field, U16_MAX);
      if parsed.None? { return; }
      var n := parsed.value;
      if n == 1 { appCursor := on; }
      else if n == 25 { cursorHidden := !on; }
      else if n == 47 || n == 1047 || n == 1049 { altScreen := if on then Some(n) else None; }
      else if n == 2004 { bracketedPaste := on; }
      else if IsMouseMode(n) { mouse := if on then mouse + {n} else mouse - {n}; }
    }

    /** The ordered set is walked in ascending order, which for the numbers it
        can hold is the order of MOUSE_MODES. */
    method Synth() returns (out: Bytes)
      ensures out == Synthesized(Value().modes)
    {
      out := AltSequence(altScreen);
      out := out + Flag(appCursor, 1, SET);
      out := out + Flag(bracketedPaste, 2004, SET);
      var reports := EmitMouse(MOUSE_MODES, mouse);
      out := out + reports;
      out := out + Flag(cursorHidden, 25, RESET);
    }
  }

  method EmitMouse(order: seq<nat>, on: set<nat>) returns (out: Bytes)
    ensures out == MouseSequences(order, on)
  {
    out := [];
    for i := 0 to |order|
      invariant out + MouseSequences(order[i..], on) == MouseSequences(order, on)
    {
      assert order[i..][1..] == order[i + 1..];
      if order[i] in on {
        assert out + (PrivateMode(order[i], SET) + MouseSequences(order[i + 1..], on))
            == out + PrivateMode(order[i], SET) + MouseSequences(order[i + 1..], on);
        out := out + PrivateMode(order[i], SET);
      } else {
        assert [] + MouseSequences(order[i + 1..], on) == MouseSequences(order[i + 1..], on);
      }
    }
  }

  // ---- laws ----------------------------------------------------------------

  /** Chunking never matters: two feeds are one feed of the concatenation. */
  lemma {:induction false} ScannedConcat(t: Tracker, a: Bytes, b: Bytes)
    ensures Scanned(t, a + b) == Scanned(Scanned(t, a), b)
    decreases a
  {
    if a == [] {
      assert a + b == b;
    } else {
      assert (a + b)[1..] == a[1..] + b;
      ScannedConcat(Stepped(t, a[0]), a[1..], b);
    }
  }

  lemma ScannedOne(t: Tracker, b: byte)
    ensures Scanned(t, [b]) == Stepped(t, b)
  {
    assert [b][1..] == [];
  }

  lemma {:induction false} FieldsKeepWellFormed(m: Modes, fields: seq<Bytes>, on: bool)
    requires WellFormed(m)
    ensures WellFormed(FieldsApplied(m, fields, on))
    decreases fields
  {
    if fields != [] {
      FieldsKeepWellFormed(FieldApplied(m, fields[0], on), fields[1..], on);
    }
  }

  /** Only admissible mode numbers are ever stored, whatever the stream, and the
      parameter buffer never outgrows its cap. */
  lemma {:induction false} ScannedSound(t: Tracker, bytes: Bytes)
    requires Sound(t)
    ensures Sound(Scanned(t, bytes))
    decreases bytes
  {
    if bytes != [] {
      var b := bytes[0];
      if t.st.Csi? && t.st.buf != [] {
        FieldsKeepWellFormed(t.modes, Split(t.st.buf[1..], SEMICOLON), b == SET);
      }
      ScannedSound(Stepped(t, b), bytes[1..]);
    }
  }

  predicate AllParams(s: Bytes) { forall i :: 0 <= i < |s| ==> IsParam(s[i]) }

  /** Parameter bytes that still fit are collected verbatim. */
  lemma {:induction false} ParamsCollect(m: Modes, buf: Bytes, ps: Bytes)
    requires AllParams(ps)
    requires |buf| + |ps| <= CSI_CAP
    ensures Scanned(Tracker(Csi(buf), m), ps) == Tracker(Csi(buf + ps), m)
    decreases ps
  {
    if ps == [] {
      assert buf + ps == buf;
    } else {
      ParamsCollect(m, buf + [ps[0]], ps[1..]);
      assert buf + [ps[0]] + ps[1..] == buf + ps;
    }
  }

  lemma ModeParams(n: nat, final: byte)
    requires n <= U16_MAX
    ensures AllParams([QUESTION] + Decimal.Print(n)) && |Decimal.Print(n)| <= 5
    ensures PrivateMode(n, final) == [ESC, BRACKET] + (([QUESTION] + Decimal.Print(n)) + [final])
  {
    Decimal.PrintLength(n);
    var params := [QUESTION] + Decimal.Print(n);
    forall i | 0 <= i < |params| ensures IsParam(params[i]) {
      if i > 0 { assert Decimal.IsDigit(Decimal.Print(n)[i - 1]); }
    }
  }

  /** A printed private-mode sequence has exactly the effect it names. */
  lemma PrivateModeScans(m: Modes, n: nat, final: byte)
    requires n <= U16_MAX
    requires final == SET || final == RESET
    ensures Scanned(Tracker(Ground, m), PrivateMode(n, final))
         == Tracker(Ground, Applied(m, n, final == SET))
  {
    var digits: Bytes := Decimal.Print(n);
    Decimal.PrintFree(n, SEMICOLON);
    Decimal.ParsePrint(n, U16_MAX);
    var t0 := Tracker(Ground, m);
    var head := [ESC, BRACKET];
    var params := [QUESTION] + digits;
    assert PrivateMode(n, final) == head + (params + [final]);
    ScannedConcat(t0, head, params + [final]);
    assert head == [ESC] + [BRACKET];
    ScannedConcat(t0, [ESC], [BRACKET]);
    ScannedOne(t0, ESC);
    ScannedOne(Tracker(Esc, m), BRACKET);
    assert Scanned(t0, head) == Tracker(Csi([]), m);
    ScannedConcat(Tracker(Csi([]), m), params, [final]);
    ModeParams(n, final);
    ParamsCollect(m, [], params);
    assert [] + params == params;
    ScannedOne(Tracker(Csi(params), m), final);
    assert params[1..] == digits;
    SplitFree(digits, SEMICOLON);
    assert FieldsApplied(m, [digits], final == SET) == Applied(m, n, final == SET) by {
      var fields: seq<Bytes> := [digits];
      assert fields[1..] == [];
    }
  }

  /** The enabling sequences of a set of mouse modes add exactly that set. */
  lemma {:induction false} MouseScans(m: Modes, order: seq<nat>, on: set<nat>)
    requires forall i :: 0 <= i < |order| ==> IsMouseMode(order[i])
    ensures Scanned(Tracker(Ground, m), MouseSequences(order, on))
         == Tracker(Ground, m.(mouse := m.mouse + (set n | n in order && n in on)))
    decreases order
  {
    if order == [] {
      assert m.mouse + (set n | n in order && n in on) == m.mouse;
    } else {
      var n := order[0];
      var first := if n in on then PrivateMode(n, SET) else [];
      var m' := if n in on then m.(mouse := m.mouse + {n}) else m;
      ScannedConcat(Tracker(Ground, m), first, MouseSequences(order[1..], on));
      if n in on { PrivateModeScans(m, n, SET); }
      MouseScans(m', order[1..], on);
      OneMoreMode(m.mouse, order, on);
    }
  }

  lemma OneMoreMode(mouse: set<nat>, order: seq<nat>, on: set<nat>)
    requires order != []
    ensures mouse + (set n | n in order && n in on)
         == mouse + (if order[0] in on then {order[0]} else {}) + (set n | n in order[1..] && n in on)
  {
    assert order == [order[0]] + order[1..];
  }

  lemma MouseModesComplete()
    ensures forall n: nat :: IsMouseMode(n) ==> n in MOUSE_MODES
  {
    assert MOUSE_MODES[0] == 9 && MOUSE_MODES[5] == 1005 && MOUSE_MODES[6] == 1006;
    assert MOUSE_MODES[1] == 1000 && MOUSE_MODES[2] == 1001;
    assert MOUSE_MODES[3] == 1002 && MOUSE_MODES[4] == 1003;
    assert MOUSE_MODES[7] == 1015 && MOUSE_MODES[8] == 1016;
  }

  lemma FlagScans(m: Modes, on: bool, n: nat, final: byte)
    requires n <= U16_MAX
    requires final == SET || final == RESET
    ensures Scanned(Tracker(Ground, m), Flag(on, n, final))
         == Tracker(Ground, if on then Applied(m, n, final == SET) else m)
  {
    if on { PrivateModeScans(m, n, final); }
  }

  /** What the first three parts of the head reinstate. */
  lemma HeadScans(m: Modes)
    requires WellFormed(m)
    ensures Scanned(FRESH, AltSequence(m.altScreen) + Flag(m.appCursor, 1, SET) + Flag(m.bracketedPaste, 2004, SET))
         == Tracker(Ground, m.(mouse := {}, cursorHidden := false))
  {
    var alt, app, paste :=
      AltSequence(m.altScreen), Flag(m.appCursor, 1, SET), Flag(m.bracketedPaste, 2004, SET);
    var m1 := DEFAULT_MODES.(altScreen := m.altScreen);
    var m2 := m1.(appCursor := m.appCursor);
    if m.altScreen.Some? { PrivateModeScans(DEFAULT_MODES, m.altScreen.value, SET); }
    FlagScans(m1, m.appCursor, 1, SET);
    FlagScans(m2, m.bracketedPaste, 2004, SET);
    ScannedConcat(FRESH, alt, app);
    ScannedConcat(FRESH, alt + app, paste);
  }

  /** The printer is undone by the scanner: from a reset terminal, the synthesized
      head reinstates exactly the tracked modes and leaves nothing half-scanned. */
  lemma SynthRoundTrip(m: Modes)
    requires WellFormed(m)
    ensures Scanned(FRESH, Synthesized(m)) == Tracker(Ground, m)
  {
    var head :=
      AltSequence(m.altScreen) + Flag(m.appCursor, 1, SET) + Flag(m.bracketedPaste, 2004, SET);
    var mouse := MouseSequences(MOUSE_MODES, m.mouse);
    var hidden := Flag(m.cursorHidden, 25, RESET);
    var m3 := m.(mouse := {}, cursorHidden := false);
    var m4 := m.(cursorHidden := false);
    HeadScans(m);
    MouseScans(m3, MOUSE_MODES, m.mouse);
    assert m3.mouse + (set n | n in MOUSE_MODES && n in m.mouse) == m.mouse by { MouseModesComplete(); }
    FlagScans(m4, m.cursorHidden, 25, RESET);
    ScannedConcat(FRESH, head, mouse);
    ScannedConcat(FRESH, head + mouse, hidden);
  }

  /** Nothing is sent ahead of a replay exactly when every mode is default. */
  lemma SynthEmptyIffDefault(m: Modes)
    requires WellFormed(m)
    ensures Synthesized(m) == [] <==> m == DEFAULT_MODES
  {
    if Synthesized(m) == [] {
      SynthRoundTrip(m);
    }
  }

  /** What a client that reset its terminal and scanned the head is left with. */
  function Restarted(t: Tracker): Tracker
  {
    Scanned(FRESH, Synthesized(t.modes))
  }

  lemma SynthThen(m: Modes, rest: Bytes)
    requires WellFormed(m)
    ensures Scanned(FRESH, Synthesized(m) + rest) == Scanned(Tracker(Ground, m), rest)
  {
    SynthRoundTrip(m);
    ScannedConcat(FRESH, Synthesized(m), rest);
  }

  /** Replaying the ring behind the synthesized head reaches the same scanner
      position and modes as the whole stream, if nothing was half-scanned at the
      ring's front. */
  lemma ReplayFaithful(stream: Bytes, front: nat)
    requires front <= |stream|
    requires Scanned(FRESH, stream[..front]).st.Ground?
    ensures Scanned(FRESH, Synthesized(Scanned(FRESH, stream[..front]).modes) + stream[front..])
         == Scanned(FRESH, stream)
  {
    var evicted, ring := stream[..front], stream[front..];
    var t := Scanned(FRESH, evicted);
    assert evicted + ring == stream;
    ScannedSound(FRESH, evicted);
    SynthThen(t.modes, ring);
    ScannedConcat(FRESH, evicted, ring);
  }

  // ---- what a stream says last -----------------------------------------------

  /** What one number of a complete sequence asks for. */
  datatype Setting = Setting(n: nat, on: bool)

  /** The numbers of a sequence's fields, in order. */
  function Asked(fields: seq<Bytes>, on: bool): seq<Setting>
    decreases fields
  {
    if fields == [] then []
    else (match Decimal.Parse(fields[0], 65535)
          case None => []
          case Some(n) => [Setting(n, on)]) + Asked(fields[1..], on)
  }

  /** Everything the complete private-mode sequences of a stream ask for, in order, from a
      scanner position on. */
  function Said(st: Scan, bytes: Bytes): seq<Setting>
    decreases bytes
  {
    if bytes == [] then []
    else
      (if st.Csi? && (bytes[0] == 0x68 || bytes[0] == 0x6c) && st.buf != [] && st.buf[0] == 0x3f
       then Asked(Split(st.buf[1..], 0x3b), bytes[0] == 0x68) else [])
      + Said(Stepped(Tracker(st, DEFAULT_MODES), bytes[0]).st, bytes[1..])
  }

  /** The last that was asked of any of these numbers. */
  function Last(said: seq<Setting>, of: set<nat>): (r: Option<Setting>)
    ensures r.Some? ==> r.value.n in of
  {
    if said == [] then None
    else if said[|said| - 1].n in of then Some(said[|said| - 1])
    else Last(said[..|said| - 1], of)
  }

  lemma {:induction false} LastConcat(a: seq<Setting>, b: seq<Setting>, of: set<nat>)
    ensures Last(a + b, of) == if Last(b, of).Some? then Last(b, of) else Last(a, of)
    decreases b
  {
    if b == [] {
      assert a + b == a;
    } else {
      assert (a + b)[..|a + b| - 1] == a + b[..|b| - 1];
      LastConcat(a, b[..|b| - 1], of);
    }
  }

  function OnOr(r: Option<Setting>, was: bool): bool { if r.Some? then r.value.on else was }

  /** From `m`, the modes that the last word on each leaves. */
  ghost predicate LastWord(m: Modes, said: seq<Setting>, r: Modes)
  {
    && r.appCursor == OnOr(Last(said, {1}), m.appCursor)
    && r.cursorHidden == !OnOr(Last(said, {25}), !m.cursorHidden)
    && r.bracketedPaste == OnOr(Last(said, {2004}), m.bracketedPaste)
    && r.altScreen == (match Last(said, {47, 1047, 1049})
                       case None => m.altScreen
                       case Some(x) => if x.on then Some(x.n) else None)
    && MouseWord(m.mouse, said, r.mouse)
  }

  ghost predicate MouseWord(mouse: set<nat>, said: seq<Setting>, r: set<nat>)
  {
    forall n :: n in r <==>
      if n in {9, 1000, 1001, 1002, 1003, 1005, 1006, 1015, 1016}
      then OnOr(Last(said, {n}), n in mouse) else n in mouse
  }

  lemma LastWordConcat(m: Modes, a: seq<Setting>, mid: Modes, b: seq<Setting>, r: Modes)
    requires LastWord(m, a, mid) && LastWord(mid, b, r)
    ensures LastWord(m, a + b, r)
  {
    LastConcat(a, b, {1});
    LastConcat(a, b, {25});
    LastConcat(a, b, {2004});
    LastConcat(a, b, {47, 1047, 1049});
    forall n ensures Last(a + b, {n}) == if Last(b, {n}).Some? then Last(b, {n}) else Last(a, {n}) {
      LastConcat(a, b, {n});
    }
  }

  lemma LastOfOne(x: Setting, of: set<nat>)
    ensures Last([x], of) == if x.n in of then Some(x) else None
  {
    assert [x][..0] == [];
  }

  lemma OneMouseWord(m: Modes, n: nat, on: bool)
    ensures MouseWord(m.mouse, [Setting(n, on)], Applied(m, n, on).mouse)
  {
    var x, r := Setting(n, on), Applied(m, n, on).mouse;
    forall k ensures Last([x], {k}) == if n == k then Some(x) else None { LastOfOne(x, {k}); }
    assert forall k :: k != n ==> (k in r <==> k in m.mouse);
  }

  lemma OneLastWord(m: Modes, n: nat, on: bool)
    ensures LastWord(m, [Setting(n, on)], Applied(m, n, on))
  {
    var x := Setting(n, on);
    LastOfOne(x, {1});
    LastOfOne(x, {25});
    LastOfOne(x, {2004});
    LastOfOne(x, {47, 1047, 1049});
    OneMouseWord(m, n, on);
  }

  lemma {:induction false} FieldsLastWord(m: Modes, fields: seq<Bytes>, on: bool)
    ensures LastWord(m, Asked(fields, on), FieldsApplied(m, fields, on))
    decreases fields
  {
    if fields != [] {
      FieldsLastWord(FieldApplied(m, fields[0], on), fields[1..], on);
      match Decimal.Parse(fields[0], 65535)
      case None => assert Asked(fields, on) == Asked(fields[1..], on);
      case Some(n) =>
        OneLastWord(m, n, on);
        LastWordConcat(m, [Setting(n, on)], Applied(m, n, on), Asked(fields[1..], on), FieldsApplied(m, fields, on));
    }
  }

  lemma StepLastWord(t: Tracker, b: byte)
    ensures LastWord(t.modes, Said(t.st, [b]), Stepped(t, b).modes)
    ensures Stepped(t, b).st == Stepped(Tracker(t.st, DEFAULT_MODES), b).st
  {
    assert [b][1..] == [];
    if t.st.Csi? && (b == 0x68 || b == 0x6c) && t.st.buf != [] && t.st.buf[0] == 0x3f {
      FieldsLastWord(t.modes, Split(t.st.buf[1..], 0x3b), b == 0x68);
      assert Said(t.st, [b]) == Asked(Split(t.st.buf[1..], 0x3b), b == 0x68);
    } else {
      assert Said(t.st, [b]) == [];
    }
  }

  /** For every stream, from every scanner position and modes: each mode is what the last
      complete sequence that names it said, set or reset, and otherwise what it was. */
  lemma {:induction false} LastOneWins(t: Tracker, bytes: Bytes)
    ensures LastWord(t.modes, Said(t.st, bytes), Scanned(t, bytes).modes)
    decreases bytes
  {
    if bytes != [] {
      var b, rest := bytes[0], bytes[1..];
      StepLastWord(t, b);
      LastOneWins(Stepped(t, b), rest);
      assert [b][1..] == [] && [b][0] == b;
      assert Said(t.st, bytes) == Said(t.st, [b]) + Said(Stepped(t, b).st, rest);
      LastWordConcat(t.modes, Said(t.st, [b]), Stepped(t, b).modes, Said(Stepped(t, b).st, rest),
                     Scanned(t, bytes).modes);
    }
  }

  /** One sequence on its own, byte for byte, both ways: the mode it names is set or reset, and
      nothing else moves. */
  lemma SequenceSetsItsMode(m: Modes, n: nat, on: bool)
    requires n <= 65535
    ensures var seqn: Bytes := [0x1b, 0x5b, 0x3f] + Decimal.Print(n) + [if on then 0x68 else 0x6c];
            var t := Scanned(Tracker(Ground, m), seqn);
            && t.st == Ground
            && (n in {47, 1047, 1049} ==> t.modes == m.(altScreen := if on then Some(n) else None))
            && (n == 1 ==> t.modes == m.(appCursor := on))
            && (n == 25 ==> t.modes == m.(cursorHidden := !on))
            && (n == 2004 ==> t.modes == m.(bracketedPaste := on))
            && (n in {9, 1000, 1001, 1002, 1003, 1005, 1006, 1015, 1016} ==>
                  t.modes == m.(mouse := if on then m.mouse + {n} else m.mouse - {n}))
            && (n !in {1, 9, 25, 47, 1000, 1001, 1002, 1003, 1005, 1006, 1015, 1016, 1047, 1049, 2004} ==>
                  t.modes == m)
  {
    PrivateModeScans(m, n, if on then SET else RESET);
  }

  /** Control bytes inside a sequence, and whatever else is neither a parameter, a final byte nor
      ESC, do not disturb it; ESC begins another one; parameters beyond the 32nd are dropped;
      a final byte other than h and l, or parameters not led by a question mark, do nothing. */
  lemma InsideASequence(m: Modes, buf: Bytes, b: byte)
    ensures (b < 0x20 && b != 0x1b) || b >= 0x7f ==>
              Scanned(Tracker(Csi(buf), m), [b]) == Tracker(Csi(buf), m)
    ensures b == 0x1b ==> Scanned(Tracker(Csi(buf), m), [b]) == Tracker(Esc, m)
    ensures 0x20 <= b <= 0x3f ==>
              Scanned(Tracker(Csi(buf), m), [b]) == Tracker(Csi(if |buf| < 32 then buf + [b] else buf), m)
    ensures 0x40 <= b <= 0x7e ==> Scanned(Tracker(Csi(buf), m), [b]).st == Ground
    ensures 0x40 <= b <= 0x7e && ((b != 0x68 && b != 0x6c) || buf == [] || buf[0] != 0x3f) ==>
              Scanned(Tracker(Csi(buf), m), [b]).modes == m
  {
    ScannedOne(Tracker(Csi(buf), m), b);
  }

  /** Outside, only ESC begins something and only a bracket behind it goes on. */
  lemma OutsideASequence(m: Modes, b: byte)
    ensures Scanned(Tracker(Ground, m), [b]) == Tracker(if b == 0x1b then Esc else Ground, m)
    ensures Scanned(Tracker(Esc, m), [b])
         == Tracker(if b == 0x5b then Csi([]) else if b == 0x1b then Esc else Ground, m)
  {
    ScannedOne(Tracker(Ground, m), b);
    ScannedOne(Tracker(Esc, m), b);
  }

  /** The alternate screen is entered before anything else is said: entering clears it. */
  lemma AltScreenFirst(m: Modes)
    requires m.altScreen.Some?
    ensures [0x1b, 0x5b, 0x3f] + Decimal.Print(m.altScreen.value) + [0x68] <= Synthesized(m)
  {
    LeadsFour(AltSequence(m.altScreen), Flag(m.appCursor, 1, SET), Flag(m.bracketedPaste, 2004, SET),
              MouseSequences(MOUSE_MODES, m.mouse), Flag(m.cursorHidden, 25, RESET));
  }

  lemma LeadsFour(a: Bytes, b: Bytes, c: Bytes, d: Bytes, e: Bytes)
    ensures a <= a + b + c + d + e
  {
  }

  // ---- exactly when a replay restores the modes ----------------------------

  /** No way of completing the collected parameters changes a mode. At most one
      more byte fits when this is asked. */
  predicate NoCompletionMoves(m: Modes, buf: Bytes)
    requires |buf| + 1 >= CSI_CAP
  {
    && Dispatched(m, buf, SET) == m
    && Dispatched(m, buf, RESET) == m
    && (|buf| < CSI_CAP ==> forall b: byte :: IsParam(b) ==>
          Dispatched(m, buf + [b], SET) == m && Dispatched(m, buf + [b], RESET) == m)
  }

  /** Checkable at the cut: the half-scanned sequence, if any, can no longer
      touch a tracked mode. */
  predicate Settled(t: Tracker)
  {
    match t.st
    case Ground => true
    case Esc => false
    case Csi(buf) =>
      (buf != [] && buf[0] != QUESTION) || (|buf| + 1 >= CSI_CAP && NoCompletionMoves(t.modes, buf))
  }

  /** A settled scanner and a scanner on the ground stay in step. */
  ghost predicate InStep(t: Tracker, g: Tracker)
  {
    t == g || (t.modes == g.modes && g.st.Ground? && t.st.Csi? && Settled(t))
  }

  lemma InStepKept(t: Tracker, g: Tracker, b: byte)
    requires InStep(t, g)
    ensures InStep(Stepped(t, b), Stepped(g, b))
  {
    if t != g {
      var buf := t.st.buf;
      if IsParam(b) && |buf| < CSI_CAP {
        if !(buf != [] && buf[0] != QUESTION) {
          assert |buf + [b]| == CSI_CAP;
          assert NoCompletionMoves(t.modes, buf + [b]);
        }
      }
    }
  }

  lemma {:induction false} InStepForever(t: Tracker, g: Tracker, ring: Bytes)
    requires InStep(t, g)
    ensures Scanned(t, ring).modes == Scanned(g, ring).modes
    decreases ring
  {
    if ring != [] {
      InStepKept(t, g, ring[0]);
      InStepForever(Stepped(t, ring[0]), Stepped(g, ring[0]), ring[1..]);
    }
  }

  lemma {:induction false} FieldsSnoc(m: Modes, fields: seq<Bytes>, last: Bytes, on: bool)
    ensures FieldsApplied(m, fields + [last], on)
         == FieldApplied(FieldsApplied(m, fields, on), last, on)
    decreases fields
  {
    if fields == [] {
      assert fields + [last] == [last];
      assert [last][1..] == [];
    } else {
      assert (fields + [last])[1..] == fields[1..] + [last];
      FieldsSnoc(FieldApplied(m, fields[0], on), fields[1..], last, on);
    }
  }

  const ONE: Bytes := [0x31]

  lemma OneParses()
    ensures Decimal.Parse(ONE, U16_MAX) == Some(1)
  {
    assert Decimal.Print(1) == ONE;
    Decimal.ParsePrint(1, U16_MAX);
  }

  /** Bytes that turn an unsettled half-scanned sequence into one that flips
      application cursor keys. */
  function Tail(buf: Bytes): Bytes
  {
    if buf == [] then [QUESTION] + ONE else [SEMICOLON] + ONE
  }

  lemma TailFlips(m: Modes, buf: Bytes)
    requires buf == [] || (buf[0] == QUESTION && |buf| + 2 <= CSI_CAP)
    ensures Scanned(Tracker(Csi(buf), m), Tail(buf) + [if m.appCursor then RESET else SET])
              .modes.appCursor != m.appCursor
  {
    var final: byte := if m.appCursor then RESET else SET;
    var tail := Tail(buf);
    var whole := buf + tail;
    OneParses();
    ParamsCollect(m, buf, tail);
    ScannedConcat(Tracker(Csi(buf), m), tail, [final]);
    ScannedOne(Tracker(Csi(whole), m), final);
    if buf == [] {
      assert whole[1..] == ONE;
      SplitFree(ONE, SEMICOLON);
      FieldsSnoc(m, [], ONE, final == SET);
      assert [] + [ONE] == [ONE];
    } else {
      assert whole[1..] == buf[1..] + [SEMICOLON] + ONE;
      SplitSnoc(buf[1..], ONE, SEMICOLON);
      FieldsSnoc(m, Split(buf[1..], SEMICOLON), ONE, final == SET);
    }
  }

  /** On the ground, bytes other than ESC change nothing. */
  lemma {:induction false} GroundIgnores(m: Modes, s: Bytes)
    requires ESC !in s
    ensures Scanned(Tracker(Ground, m), s) == Tracker(Ground, m)
  {
    if s != [] { GroundIgnores(m, s[1..]); }
  }

  /** A completion of a nearly full parameter buffer that moves a mode. */
  lemma MovingCompletion(m: Modes, buf: Bytes) returns (more: Bytes, f: byte)
    requires CSI_CAP - 1 <= |buf| && !NoCompletionMoves(m, buf)
    requires |buf| <= CSI_CAP
    ensures AllParams(more) && |buf| + |more| <= CSI_CAP && (f == SET || f == RESET)
    ensures Dispatched(m, buf + more, f) != m
  {
    more := [];
    assert buf + more == buf;
    if Dispatched(m, buf, SET) != m {
      f := SET;
    } else if Dispatched(m, buf, RESET) != m {
      f := RESET;
    } else {
      var b: byte :| IsParam(b)
        && (Dispatched(m, buf + [b], SET) != m || Dispatched(m, buf + [b], RESET) != m);
      more := [b];
      f := if Dispatched(m, buf + [b], SET) != m then SET else RESET;
    }
  }

  /** For an unsettled scanner some continuation gives the two different modes. */
  lemma UnsettledDiverges(t: Tracker) returns (ring: Bytes)
    requires Sound(t) && !Settled(t)
    ensures Scanned(t, ring).modes != Scanned(Tracker(Ground, t.modes), ring).modes
  {
    var m := t.modes;
    var final: byte := if m.appCursor then RESET else SET;
    match t.st {
      case Esc =>
        ring := [BRACKET] + (Tail([]) + [final]);
        ScannedConcat(t, [BRACKET], Tail([]) + [final]);
        ScannedOne(t, BRACKET);
        TailFlips(m, []);
        GroundIgnores(m, ring);
      case Csi(buf) =>
        if |buf| + 2 <= CSI_CAP {
          ring := Tail(buf) + [final];
          TailFlips(m, buf);
          GroundIgnores(m, ring);
        } else {
          var more, f := MovingCompletion(m, buf);
          ring := more + [f];
          ParamsCollect(m, buf, more);
          ScannedConcat(t, more, [f]);
          ScannedOne(Tracker(Csi(buf + more), m), f);
          GroundIgnores(m, ring);
        }
    }
  }

  /** A full replay restores the modes for every possible rest of the stream
      exactly when the scanner was settled at the ring's front. */
  lemma ReplayRestoresModesIff(t: Tracker)
    requires Sound(t)
    ensures (forall ring: Bytes :: Scanned(Restarted(t), ring).modes == Scanned(t, ring).modes)
            <==> Settled(t)
  {
    SynthRoundTrip(t.modes);
    var g := Tracker(Ground, t.modes);
    if Settled(t) {
      forall ring: Bytes ensures Scanned(Restarted(t), ring).modes == Scanned(t, ring).modes {
        InStepForever(t, g, ring);
      }
    } else {
      var ring := UnsettledDiverges(t);
      assert Scanned(Restarted(t), ring).modes != Scanned(t, ring).modes;
    }
  }

  /** A sequence cut after its first parameter bytes leaves exactly those. */
  lemma HalfScanned(m: Modes, ps: Bytes)
    requires AllParams(ps) && |ps| <= CSI_CAP
    ensures Scanned(Tracker(Ground, m), [ESC, BRACKET] + ps) == Tracker(Csi(ps), m)
  {
    var t := Tracker(Ground, m);
    ScannedOne(t, ESC);
    ScannedOne(Tracker(Esc, m), BRACKET);
    assert [ESC, BRACKET] == [ESC] + [BRACKET];
    ScannedConcat(t, [ESC], [BRACKET]);
    ParamsCollect(m, [], ps);
    assert [] + ps == ps;
    ScannedConcat(t, [ESC, BRACKET], ps);
  }

  /** A replay whose ring begins inside a sequence leaves the modes as they were. */
  lemma CutSequenceIsLost(m: Modes, ps: Bytes, ring: Bytes)
    requires WellFormed(m) && AllParams(ps) && |ps| <= CSI_CAP && ESC !in ring
    ensures Scanned(Restarted(Scanned(Tracker(Ground, m), [ESC, BRACKET] + ps)), ring) == Tracker(Ground, m)
  {
    HalfScanned(m, ps);
    SynthRoundTrip(m);
    GroundIgnores(m, ring);
  }

  /** Every enabling or disabling of a mode that the ring's front cuts anywhere behind its
      introducer is lost: the whole stream applies it, the replay does not. */
  lemma CutModeIsLost(m: Modes, n: nat, final: byte, k: nat)
    requires WellFormed(m) && n <= U16_MAX && (final == SET || final == RESET)
    requires 2 <= k < |PrivateMode(n, final)|
    ensures var stream := PrivateMode(n, final);
            && Scanned(Tracker(Ground, m), stream[..k] + stream[k..]).modes == Applied(m, n, final == SET)
            && Scanned(Restarted(Scanned(Tracker(Ground, m), stream[..k])), stream[k..]).modes == m
  {
    var stream, params := PrivateMode(n, final), [QUESTION] + Decimal.Print(n);
    assert stream[..k] + stream[k..] == stream;
    PrivateModeScans(m, n, final);
    ModeParams(n, final);
    CutParams(params, final, k, stream);
    CutSequenceIsLost(m, params[..k - 2], stream[k..]);
  }

  lemma CutParams(params: Bytes, final: byte, k: nat, stream: Bytes)
    requires AllParams(params) && (final == SET || final == RESET)
    requires stream == [ESC, BRACKET] + (params + [final]) && 2 <= k < |stream|
    ensures stream[..k] == [ESC, BRACKET] + params[..k - 2] && AllParams(params[..k - 2])
    ensures ESC !in stream[k..]
  {
    forall i | k <= i < |stream| ensures stream[i] != ESC {
      assert stream[i] == (params + [final])[i - 2];
    }
  }
}
