/** The memory that makes an accepted TOTP code single-use (src/totp.rs), and
    exactly when it does. HOTP codes are an arbitrary function of the counter. */
module ReplayGuards {
  import opened Basics

  const REPLAY_MEMORY: nat := 3
  const REPLAY_WINDOW_SECS: nat := 90
  const STEP_SECS: nat := 30

  type Code = string

  datatype Entry = Entry(code: Code, at: nat)

  // ---- the guard -----------------------------------------------------------

  /** The Unicode property White_Space, which `str::trim` goes by. */
  predicate IsSpace(c: char)
  {
    var n := c as int;
    || 0x9 <= n <= 0xD || n == 0x20 || n == 0x85 || n == 0xA0 || n == 0x1680 || 0x2000 <= n <= 0x200A
    || n == 0x2028 || n == 0x2029 || n == 0x202F || n == 0x205F || n == 0x3000
  }

  function Trimmed(code: Code): Code
  {
    if code != [] && IsSpace(code[0]) then Trimmed(code[1..])
    else if code != [] && IsSpace(code[|code| - 1]) then Trimmed(code[..|code| - 1])
    else code
  }

  predicate Young(at: nat, now: nat) { SatSub(now, at) < REPLAY_WINDOW_SECS }

  function Retained(recent: seq<Entry>, now: nat): seq<Entry>
  {
    if recent == [] then []
    else (if Young(recent[0].at, now) then [recent[0]] else []) + Retained(recent[1..], now)
  }

  predicate Seen(recent: seq<Entry>, code: Code)
  {
    exists i :: 0 <= i < |recent| && recent[i].code == code
  }

  function PushBounded<T>(recent: seq<T>, e: T): seq<T>
  {
    (if |recent| == REPLAY_MEMORY then recent[1..] else recent) + [e]
  }

  /** Whether a code is accepted, and the memory afterwards. */
  function Judged(recent: seq<Entry>, code: Code, now: nat): (bool, seq<Entry>)
  {
    var kept := Retained(recent, now);
    if Seen(kept, code) then (false, kept) else (true, PushBounded(kept, Entry(code, now)))
  }

  class ReplayGuard {
    var recent: seq<Entry>

    constructor ()
      ensures recent == []
    {
      recent := [];
    }

    method AcceptAt(raw: Code, now: nat) returns (ok: bool)
      modifies this
      ensures (ok, recent) == Judged(old(recent), Trimmed(raw), now)
    {
      var code := Trimmed(raw);
      recent := RetainYoung(recent, now);
      var seen := Contains(recent, code);
      if seen { return false; }
      if |recent| == REPLAY_MEMORY { recent := recent[1..]; }
      recent := recent + [Entry(code, now)];
      return true;
    }
  }

  method RetainYoung(recent: seq<Entry>, now: nat) returns (kept: seq<Entry>)
    ensures kept == Retained(recent, now)
  {
    kept := [];
    for i := 0 to |recent|
      invariant kept + Retained(recent[i..], now) == Retained(recent, now)
    {
      assert recent[i..][1..] == recent[i + 1..];
      var head := if Young(recent[i].at, now) then [recent[i]] else [];
      assert kept + (head + Retained(recent[i + 1..], now)) == (kept + head) + Retained(recent[i + 1..], now);
      kept := kept + head;
    }
  }

  method Contains(recent: seq<Entry>, code: Code) returns (seen: bool)
    ensures seen <==> Seen(recent, code)
  {
    seen := false;
    for i := 0 to |recent|
      invariant seen <==> exists k :: 0 <= k < i && recent[k].code == code
    {
      if recent[i].code == code { seen := true; }
    }
  }

  // ---- what counts as the same code, and for how long ----------------------

  predicate AllSpace(s: Code) { forall i :: 0 <= i < |s| ==> IsSpace(s[i]) }

  /** Digits are not white space; blanks, tabs and line ends are. */
  lemma SpacesAndDigits(c: char)
    ensures '0' <= c <= '9' ==> !IsSpace(c)
    ensures c == ' ' || c == '\t' || c == '\n' || c == '\r' ==> IsSpace(c)
  {
  }

  /** Trimming takes white space off both ends and nothing else. */
  lemma {:induction false} TrimmedIsCore(code: Code) returns (before: Code, after: Code)
    ensures code == before + Trimmed(code) + after && AllSpace(before) && AllSpace(after)
    ensures Trimmed(code) != [] ==> !IsSpace(Trimmed(code)[0]) && !IsSpace(Trimmed(code)[|Trimmed(code)| - 1])
    decreases code
  {
    if code != [] && IsSpace(code[0]) {
      before, after := TrimmedIsCore(code[1..]);
      before := [code[0]] + before;
    } else if code != [] && IsSpace(code[|code| - 1]) {
      before, after := TrimmedIsCore(code[..|code| - 1]);
      after := after + [code[|code| - 1]];
    } else {
      before, after := [], [];
    }
  }

  lemma {:induction false} TrimmedFront(space: Code, code: Code)
    requires AllSpace(space)
    ensures Trimmed(space + code) == Trimmed(code)
    decreases space
  {
    if space == [] {
      assert space + code == code;
    } else {
      assert (space + code)[1..] == space[1..] + code;
      TrimmedFront(space[1..], code);
    }
  }

  lemma {:induction false} TrimmedBack(code: Code, space: Code)
    requires AllSpace(space)
    ensures Trimmed(code + space) == Trimmed(code)
    decreases |code| + |space|
  {
    if space == [] {
      assert code + space == code;
    } else if code == [] {
      assert code + space == space + code;
      TrimmedFront(space, code);
    } else if IsSpace(code[0]) {
      assert (code + space)[1..] == code[1..] + space;
      TrimmedBack(code[1..], space);
    } else {
      assert (code + space)[..|code + space| - 1] == code + space[..|space| - 1];
      TrimmedBack(code, space[..|space| - 1]);
    }
  }

  /** Outer white space makes no other code of it. */
  lemma OuterSpaceIsNothing(before: Code, code: Code, after: Code)
    requires AllSpace(before) && AllSpace(after)
    ensures Trimmed(before + code + after) == Trimmed(code)
  {
    TrimmedBack(before + code, after);
    TrimmedFront(before, code);
  }

  /** An accepted code, in whatever outer white space it comes again, is refused for 90 seconds
      and not longer. */
  lemma AgainWithinNinetySeconds(before: Code, code: Code, after: Code, at: nat, now: nat)
    requires AllSpace(before) && AllSpace(after)
    ensures Judged([], Trimmed(code), at) == (true, [Entry(Trimmed(code), at)])
    ensures Judged([Entry(Trimmed(code), at)], Trimmed(before + code + after), now).0 <==> now >= at + 90
  {
    OuterSpaceIsNothing(before, code, after);
    var e := Entry(Trimmed(code), at);
    assert [e][1..] == [] && [e][0] == e;
    var none: seq<Entry> := [];
    assert Retained(none, now) == none && Retained(none, at) == none && none + [e] == [e];
    assert Retained([e], now) == (if now < at + 90 then [e] else []);
  }

  // ---- the memory refines the full history ---------------------------------

  /** The last `k` entries of a history, stopping at the first that is too old. */
  function Kept(history: seq<Entry>, now: nat, k: nat): seq<Entry>
    decreases k
  {
    if k == 0 || history == [] || !Young(history[|history| - 1].at, now) then []
    else Kept(history[..|history| - 1], now, k - 1) + [history[|history| - 1]]
  }

  predicate InOrder(history: seq<Entry>, now: nat)
  {
    && (forall i, j :: 0 <= i < j < |history| ==> history[i].at <= history[j].at)
    && (forall i :: 0 <= i < |history| ==> history[i].at <= now)
  }

  lemma {:induction false} RetainedSnoc(recent: seq<Entry>, e: Entry, now: nat)
    ensures Retained(recent + [e], now) == Retained(recent, now) + if Young(e.at, now) then [e] else []
  {
    if recent == [] {
      assert recent + [e] == [e] && [e][1..] == [];
    } else {
      assert (recent + [e])[1..] == recent[1..] + [e];
      RetainedSnoc(recent[1..], e, now);
      var head := if Young(recent[0].at, now) then [recent[0]] else [];
      var last := if Young(e.at, now) then [e] else [];
      assert head + (Retained(recent[1..], now) + last) == (head + Retained(recent[1..], now)) + last;
    }
  }

  /** Ageing what was kept is keeping what is still young. */
  lemma {:induction false} KeptAges(history: seq<Entry>, before: nat, now: nat, k: nat)
    requires InOrder(history, before) && before <= now
    ensures Retained(Kept(history, before, k), now) == Kept(history, now, k)
    decreases k
  {
    if k > 0 && history != [] {
      var h, last := history[..|history| - 1], history[|history| - 1];
      if Young(last.at, before) {
        RetainedSnoc(Kept(h, before, k - 1), last, now);
        KeptAges(h, before, now, k - 1);
        if !Young(last.at, now) && h != [] && k > 1 {
          assert h[|h| - 1].at <= last.at;
          assert Kept(h, now, k - 1) == [];
        }
      }
    }
  }

  lemma {:induction false} KeptShorter(history: seq<Entry>, now: nat, k: nat)
    ensures |Kept(history, now, k + 1)| <= k + 1
    ensures Kept(history, now, k)
         == if |Kept(history, now, k + 1)| == k + 1 then Kept(history, now, k + 1)[1..]
            else Kept(history, now, k + 1)
    decreases k
  {
    if history != [] && Young(history[|history| - 1].at, now) {
      var h, last := history[..|history| - 1], history[|history| - 1];
      if k > 0 {
        KeptShorter(h, now, k - 1);
      } else {
        assert Kept(h, now, 0) == [];
      }
    }
  }

  /** Pushing into what was kept is keeping one entry more. */
  lemma KeptPush(history: seq<Entry>, e: Entry, k: nat)
    ensures var kept := Kept(history, e.at, k + 1);
            Kept(history + [e], e.at, k + 1) == (if |kept| == k + 1 then kept[1..] else kept) + [e]
  {
    KeptShorter(history, e.at, k);
    var grown := history + [e];
    assert grown[..|grown| - 1] == history;
  }

  lemma StaysInOrder(history: seq<Entry>, before: nat, e: Entry)
    requires InOrder(history, before) && before <= e.at
    ensures InOrder(history, e.at) && InOrder(history + [e], e.at)
  {
  }

  /** One call keeps the memory equal to the young end of the history. (The length is a
      parameter so that the solver does not unfold `Kept` down to zero.) */
  lemma JudgedRefines(history: seq<Entry>, before: nat, code: Code, now: nat, memory: nat)
    requires InOrder(history, before) && before <= now && memory == REPLAY_MEMORY
    ensures var (ok, recent) := Judged(Kept(history, before, memory), code, now);
            var grown := if ok then history + [Entry(code, now)] else history;
            InOrder(grown, now) && recent == Kept(grown, now, memory)
  {
    KeptAges(history, before, now, memory);
    KeptPush(history, Entry(code, now), memory - 1);
    StaysInOrder(history, before, Entry(code, now));
  }

  datatype Call = Call(code: Code, now: nat)

  predicate Chronological(calls: seq<Call>, since: nat)
  {
    && (forall i :: 0 <= i < |calls| ==> since <= calls[i].now)
    && (forall i, j :: 0 <= i < j < |calls| ==> calls[i].now <= calls[j].now)
  }

  /** Memory and accepted entries after a run of calls. */
  function Run(recent: seq<Entry>, history: seq<Entry>, calls: seq<Call>): (seq<Entry>, seq<Entry>)
    decreases calls
  {
    if calls == [] then (recent, history)
    else
      var (ok, next) := Judged(recent, calls[0].code, calls[0].now);
      Run(next, if ok then history + [Entry(calls[0].code, calls[0].now)] else history, calls[1..])
  }

  /** With time that does not run backwards, the memory is at every moment the
      last three accepted codes that are younger than the window. */
  lemma MemoryIsYoungEnd(history: seq<Entry>, since: nat, calls: seq<Call>)
    requires InOrder(history, since) && Chronological(calls, since)
    ensures var (recent, grown) := Run(Kept(history, since, 3), history, calls);
            recent == Kept(grown, if calls == [] then since else calls[|calls| - 1].now, 3)
  {
    MemoryStaysYoungEnd(history, since, calls, REPLAY_MEMORY);
  }

  lemma {:induction false} MemoryStaysYoungEnd(history: seq<Entry>, since: nat, calls: seq<Call>, memory: nat)
    requires InOrder(history, since) && Chronological(calls, since) && memory == REPLAY_MEMORY
    ensures var (recent, grown) := Run(Kept(history, since, memory), history, calls);
            recent == Kept(grown, if calls == [] then since else calls[|calls| - 1].now, memory)
    decreases calls
  {
    if calls != [] {
      var c, rest := calls[0], calls[1..];
      JudgedRefines(history, since, c.code, c.now, memory);
      var (ok, next) := Judged(Kept(history, since, memory), c.code, c.now);
      var grown := if ok then history + [Entry(c.code, c.now)] else history;
      assert forall i :: 0 <= i < |rest| ==> rest[i] == calls[i + 1];
      MemoryStaysYoungEnd(grown, c.now, rest, memory);
    }
  }

  // ---- single use ----------------------------------------------------------

  type CodeAt = nat -> Code

  /** A code presented at `at`, which verifies as the code of `counter`. */
  datatype Use = Use(counter: nat, at: nat)

  /** The one-step window either side of the current time step. */
  predicate Verifies(counter: nat, now: nat)
  {
    var step := now / STEP_SECS;
    counter == SatSub(step, 1) || counter == step || counter == step + 1
  }

  /** A code verifies in its own 30 seconds and in those before and after. */
  lemma VerifiesForNinetySeconds(counter: nat, now: nat)
    ensures Verifies(counter, now) <==> 30 * counter <= now + 30 && now < 30 * counter + 60
  {
  }

  function Entries(codeAt: CodeAt, uses: seq<Use>): seq<Entry>
  {
    seq(|uses|, i requires 0 <= i < |uses| => Entry(codeAt(uses[i].counter), uses[i].at))
  }

  /** The part of the memory that is young, with its counters. */
  function YoungUses(uses: seq<Use>, now: nat): (kept: seq<Use>)
  {
    if uses == [] then []
    else (if Young(uses[0].at, now) then [uses[0]] else []) + YoungUses(uses[1..], now)
  }

  predicate Remembers(codeAt: CodeAt, uses: seq<Use>, counter: nat)
  {
    exists i :: 0 <= i < |uses| && codeAt(uses[i].counter) == codeAt(counter)
  }

  /** The memory with its counters, and every use accepted so far. */
  datatype Ledger = Ledger(uses: seq<Use>, accepted: seq<Use>)

  const NO_USES := Ledger([], [])

  function Presented(codeAt: CodeAt, l: Ledger, u: Use): Ledger
  {
    var kept := YoungUses(l.uses, u.at);
    if Remembers(codeAt, kept, u.counter) then Ledger(kept, l.accepted)
    else Ledger(PushBounded(kept, u), l.accepted + [u])
  }

  /** Whether the presented code was let through. */
  predicate Passes(codeAt: CodeAt, l: Ledger, u: Use)
  {
    !Remembers(codeAt, YoungUses(l.uses, u.at), u.counter)
  }

  lemma EntriesConcat(codeAt: CodeAt, a: seq<Use>, b: seq<Use>)
    ensures Entries(codeAt, a + b) == Entries(codeAt, a) + Entries(codeAt, b)
  {
  }

  lemma {:induction false} YoungUsesRefine(codeAt: CodeAt, uses: seq<Use>, now: nat)
    ensures Entries(codeAt, YoungUses(uses, now)) == Retained(Entries(codeAt, uses), now)
  {
    if uses == [] {
    } else {
      YoungUsesRefine(codeAt, uses[1..], now);
      assert Entries(codeAt, uses)[1..] == Entries(codeAt, uses[1..]);
      EntriesConcat(codeAt, if Young(uses[0].at, now) then [uses[0]] else [], YoungUses(uses[1..], now));
    }
  }

  lemma RemembersIsSeen(codeAt: CodeAt, kept: seq<Use>, counter: nat)
    ensures Remembers(codeAt, kept, counter) <==> Seen(Entries(codeAt, kept), codeAt(counter))
  {
    var entries := Entries(codeAt, kept);
    if Remembers(codeAt, kept, counter) {
      var i :| 0 <= i < |kept| && codeAt(kept[i].counter) == codeAt(counter);
      assert entries[i].code == codeAt(counter);
    }
    if Seen(entries, codeAt(counter)) {
      var i :| 0 <= i < |entries| && entries[i].code == codeAt(counter);
      assert codeAt(kept[i].counter) == codeAt(counter);
    }
  }

  /** The ledger is the guard with its counters written down. */
  lemma PresentedRefines(codeAt: CodeAt, l: Ledger, u: Use)
    ensures var (ok, recent) := Judged(Entries(codeAt, l.uses), codeAt(u.counter), u.at);
            && recent == Entries(codeAt, Presented(codeAt, l, u).uses)
            && (ok <==> Passes(codeAt, l, u))
  {
    var kept := YoungUses(l.uses, u.at);
    YoungUsesRefine(codeAt, l.uses, u.at);
    RemembersIsSeen(codeAt, kept, u.counter);
    EntriesConcat(codeAt, if |kept| == REPLAY_MEMORY then kept[1..] else kept, [u]);
    if |kept| == REPLAY_MEMORY {
      assert Entries(codeAt, kept[1..]) == Entries(codeAt, kept)[1..];
    }
  }

  // ---- reachable ledgers ---------------------------------------------------

  predicate TimesSorted(uses: seq<Use>)
  {
    forall i, j :: 0 <= i < j < |uses| ==> uses[i].at <= uses[j].at
  }

  predicate CodesDiffer(codeAt: CodeAt, uses: seq<Use>)
  {
    forall i, j :: 0 <= i < j < |uses| ==> codeAt(uses[i].counter) != codeAt(uses[j].counter)
  }

  predicate IsTail(uses: seq<Use>, accepted: seq<Use>)
  {
    |uses| <= |accepted| && uses == accepted[|accepted| - |uses|..]
  }

  /** Accepted codes verified when they were, and time did not run backwards. */
  predicate Accounted(accepted: seq<Use>, now: nat)
  {
    && TimesSorted(accepted)
    && forall i :: 0 <= i < |accepted| ==>
         Verifies(accepted[i].counter, accepted[i].at) && accepted[i].at <= now
  }

  /** The memory is a tail, at most three long, of everything accepted. */
  predicate Sound(codeAt: CodeAt, l: Ledger, now: nat)
  {
    && |l.uses| <= REPLAY_MEMORY
    && IsTail(l.uses, l.accepted)
    && Accounted(l.accepted, now)
    && CodesDiffer(codeAt, l.uses)
  }

  lemma TailOfTail(uses: seq<Use>, accepted: seq<Use>, k: nat)
    requires IsTail(uses, accepted) && k <= |uses|
    ensures IsTail(uses[k..], accepted)
  {
  }

  lemma PushKeepsTail(kept: seq<Use>, accepted: seq<Use>, u: Use)
    requires IsTail(kept, accepted) && |kept| <= REPLAY_MEMORY
    ensures IsTail(PushBounded(kept, u), accepted + [u]) && |PushBounded(kept, u)| <= REPLAY_MEMORY
  {
    var base := if |kept| == REPLAY_MEMORY then kept[1..] else kept;
    TailOfTail(kept, accepted, if |kept| == REPLAY_MEMORY then 1 else 0);
    assert kept[0..] == kept && IsTail(base, accepted);
    assert (accepted + [u])[|accepted| - |base|..] == accepted[|accepted| - |base|..] + [u];
  }

  lemma PushKeepsCodes(codeAt: CodeAt, kept: seq<Use>, u: Use)
    requires CodesDiffer(codeAt, kept) && !Remembers(codeAt, kept, u.counter)
    ensures CodesDiffer(codeAt, PushBounded(kept, u))
  {
    var base := if |kept| == REPLAY_MEMORY then kept[1..] else kept;
    assert forall i :: 0 <= i < |kept| ==> codeAt(kept[i].counter) != codeAt(u.counter);
    assert CodesDiffer(codeAt, base);
  }

  lemma CodesOfTail(codeAt: CodeAt, uses: seq<Use>, k: nat)
    requires CodesDiffer(codeAt, uses) && k <= |uses|
    ensures CodesDiffer(codeAt, uses[k..])
  {
  }

  lemma AccountedGrows(accepted: seq<Use>, before: nat, u: Use)
    requires Accounted(accepted, before) && before <= u.at && Verifies(u.counter, u.at)
    ensures Accounted(accepted, u.at) && Accounted(accepted + [u], u.at)
  {
  }

  lemma TailTimes(uses: seq<Use>, accepted: seq<Use>, now: nat)
    requires IsTail(uses, accepted) && Accounted(accepted, now)
    ensures Accounted(uses, now)
  {
    var m := |accepted| - |uses|;
    assert forall i :: 0 <= i < |uses| ==> uses[i] == accepted[m + i];
  }

  lemma {:induction false} AllYoung(uses: seq<Use>, now: nat)
    requires forall i :: 0 <= i < |uses| ==> Young(uses[i].at, now)
    ensures YoungUses(uses, now) == uses
  {
    if uses != [] {
      AllYoung(uses[1..], now);
      assert [uses[0]] + uses[1..] == uses;
    }
  }

  /** With sorted times, what is young is a tail. */
  lemma {:induction false} YoungIsTail(uses: seq<Use>, now: nat) returns (k: nat)
    requires TimesSorted(uses)
    ensures k <= |uses| && YoungUses(uses, now) == uses[k..]
    ensures forall i :: 0 <= i < |uses| ==> (Young(uses[i].at, now) <==> k <= i)
    decreases uses
  {
    if uses == [] { return 0; }
    if Young(uses[0].at, now) {
      k := 0;
      AllYoung(uses, now);
    } else {
      var rest := uses[1..];
      RestSorted(uses);
      var j := YoungIsTail(rest, now);
      k := j + 1;
      OneMoreOld(uses, now, j);
    }
  }

  lemma RestSorted(uses: seq<Use>)
    requires TimesSorted(uses) && uses != []
    ensures TimesSorted(uses[1..])
  {
    assert forall i :: 0 <= i < |uses[1..]| ==> uses[1..][i] == uses[i + 1];
  }

  lemma OneMoreOld(uses: seq<Use>, now: nat, j: nat)
    requires uses != [] && !Young(uses[0].at, now) && j < |uses|
    requires forall i :: 0 <= i < |uses| - 1 ==> (Young(uses[1..][i].at, now) <==> j <= i)
    ensures uses[1..][j..] == uses[j + 1..]
    ensures forall i :: 0 <= i < |uses| ==> (Young(uses[i].at, now) <==> j + 1 <= i)
  {
    forall i | 0 <= i < |uses| ensures Young(uses[i].at, now) <==> j + 1 <= i {
      if i > 0 { assert uses[1..][i - 1] == uses[i]; }
    }
  }

  /** A code stays young for as long as it can verify. */
  lemma AliveIsYoung(u: Use, now: nat)
    requires Verifies(u.counter, u.at) && u.at <= now && now / STEP_SECS <= u.counter + 1
    ensures Young(u.at, now) && Verifies(u.counter, now)
  {
  }

  /** A presented code leaves a reachable ledger behind. `dropped` counts the old
      entries that fell out of the memory. */
  lemma PresentedSound(codeAt: CodeAt, l: Ledger, before: nat, u: Use) returns (dropped: nat)
    requires Sound(codeAt, l, before) && before <= u.at && Verifies(u.counter, u.at)
    ensures dropped <= |l.uses|
    ensures YoungUses(l.uses, u.at) == l.uses[dropped..]
    ensures forall i :: 0 <= i < |l.uses| ==> (Young(l.uses[i].at, u.at) <==> dropped <= i)
    ensures Sound(codeAt, Presented(codeAt, l, u), u.at)
  {
    TailTimes(l.uses, l.accepted, before);
    dropped := YoungIsTail(l.uses, u.at);
    var kept := l.uses[dropped..];
    TailOfTail(l.uses, l.accepted, dropped);
    CodesOfTail(codeAt, l.uses, dropped);
    AccountedGrows(l.accepted, before, u);
    if Passes(codeAt, l, u) {
      PushKeepsTail(kept, l.accepted, u);
      PushKeepsCodes(codeAt, kept, u);
    }
  }

  // ---- exactly when a code can be used twice -------------------------------

  /** Accepting pushes out a code that still verifies: the memory is full after
      the old entries are dropped and its oldest entry is still inside its window. */
  predicate EvictsLive(uses: seq<Use>, now: nat)
  {
    var kept := YoungUses(uses, now);
    |kept| == REPLAY_MEMORY && Verifies(kept[0].counter, now)
  }

  /** Some remembered code that still verifies would pass a second time if it were
      presented right after `u`. */
  predicate SecondUsePasses(codeAt: CodeAt, l: Ledger, u: Use)
  {
    exists i :: 0 <= i < |l.uses| && Verifies(l.uses[i].counter, u.at)
      && Passes(codeAt, Presented(codeAt, l, u), Use(l.uses[i].counter, u.at))
  }

  /** After an accept, a second use of a live code is possible exactly when the
      accept evicted a live code. */
  lemma SecondUsePassesIff(codeAt: CodeAt, l: Ledger, u: Use, before: nat)
    requires Sound(codeAt, l, before) && before <= u.at && Verifies(u.counter, u.at)
    requires Passes(codeAt, l, u)
    ensures SecondUsePasses(codeAt, l, u) <==> EvictsLive(l.uses, u.at)
  {
    var dropped := AfterAccept(codeAt, l, u, before);
    var kept := l.uses[dropped..];
    if EvictsLive(l.uses, u.at) {
      assert kept == l.uses;
      EvictedIsForgotten(codeAt, kept, u);
      assert Passes(codeAt, Presented(codeAt, l, u), Use(l.uses[0].counter, u.at));
    }
    if SecondUsePasses(codeAt, l, u) {
      var i :| 0 <= i < |l.uses| && Verifies(l.uses[i].counter, u.at)
        && Passes(codeAt, Presented(codeAt, l, u), Use(l.uses[i].counter, u.at));
      OnlyTheEvicted(codeAt, l, u, before, i);
    }
  }

  /** A live code that would pass again is the one just evicted. */
  lemma OnlyTheEvicted(codeAt: CodeAt, l: Ledger, u: Use, before: nat, i: nat)
    requires Sound(codeAt, l, before) && before <= u.at && Verifies(u.counter, u.at)
    requires Passes(codeAt, l, u) && i < |l.uses| && Verifies(l.uses[i].counter, u.at)
    requires Passes(codeAt, Presented(codeAt, l, u), Use(l.uses[i].counter, u.at))
    ensures EvictsLive(l.uses, u.at)
  {
    var dropped := AfterAccept(codeAt, l, u, before);
    var kept := l.uses[dropped..];
    assert dropped <= i by { AliveIsYoung(l.uses[i], u.at); }
    assert kept[i - dropped] == l.uses[i];
    if |kept| < REPLAY_MEMORY || i > dropped { KeptIsRemembered(codeAt, kept, u, i - dropped); }
  }

  /** Everything in the memory right after an accept is young. */
  lemma AfterAccept(codeAt: CodeAt, l: Ledger, u: Use, before: nat) returns (dropped: nat)
    requires Sound(codeAt, l, before) && before <= u.at && Verifies(u.counter, u.at)
    requires Passes(codeAt, l, u)
    ensures dropped <= |l.uses| && YoungUses(l.uses, u.at) == l.uses[dropped..]
    ensures forall i :: 0 <= i < |l.uses| ==>
        (Young(l.uses[i].at, u.at) <==> dropped <= i)
        && Verifies(l.uses[i].counter, l.uses[i].at) && l.uses[i].at <= u.at
    ensures var after := Presented(codeAt, l, u).uses;
            after == PushBounded(l.uses[dropped..], u) && YoungUses(after, u.at) == after
    ensures |l.uses| <= REPLAY_MEMORY && CodesDiffer(codeAt, l.uses)
  {
    TailTimes(l.uses, l.accepted, before);
    dropped := PresentedSound(codeAt, l, before, u);
    var kept := l.uses[dropped..];
    assert forall i :: 0 <= i < |kept| ==> kept[i] == l.uses[dropped + i];
    AllYoung(PushBounded(kept, u), u.at);
  }

  lemma KeptIsRemembered(codeAt: CodeAt, kept: seq<Use>, u: Use, i: nat)
    requires |kept| <= REPLAY_MEMORY && i < |kept| && (|kept| < REPLAY_MEMORY || i > 0)
    ensures Remembers(codeAt, PushBounded(kept, u), kept[i].counter)
  {
    var after := PushBounded(kept, u);
    assert kept[i] == after[if |kept| == REPLAY_MEMORY then i - 1 else i];
  }

  lemma EvictedIsForgotten(codeAt: CodeAt, kept: seq<Use>, u: Use)
    requires |kept| == REPLAY_MEMORY && CodesDiffer(codeAt, kept)
    requires !Remembers(codeAt, kept, u.counter)
    ensures !Remembers(codeAt, PushBounded(kept, u), kept[0].counter)
  {
    var after := PushBounded(kept, u);
    assert after == [kept[1], kept[2], u];
    assert codeAt(kept[0].counter) != codeAt(u.counter);
  }

  // ---- single use over whole runs ------------------------------------------

  predicate Legal(presented: seq<Use>, since: nat)
  {
    && (forall i :: 0 <= i < |presented| ==>
          since <= presented[i].at && Verifies(presented[i].counter, presented[i].at))
    && TimesSorted(presented)
  }

  lemma LegalTail(presented: seq<Use>, since: nat)
    requires Legal(presented, since) && presented != []
    ensures Legal(presented[1..], presented[0].at)
  {
    assert forall i :: 0 <= i < |presented[1..]| ==> presented[1..][i] == presented[i + 1];
  }

  function After(codeAt: CodeAt, l: Ledger, presented: seq<Use>): Ledger
    decreases presented
  {
    if presented == [] then l else After(codeAt, Presented(codeAt, l, presented[0]), presented[1..])
  }

  /** No accept in the run evicts a code that still verifies. */
  predicate NeverEvictsLive(codeAt: CodeAt, l: Ledger, presented: seq<Use>)
    decreases presented
  {
    presented == [] ||
      (&& (Passes(codeAt, l, presented[0]) ==> !EvictsLive(l.uses, presented[0].at))
       && NeverEvictsLive(codeAt, Presented(codeAt, l, presented[0]), presented[1..]))
  }

  predicate Distinct(accepted: seq<Use>)
  {
    forall i, j :: 0 <= i < j < |accepted| ==> accepted[i].counter != accepted[j].counter
  }

  predicate Used(l: Ledger, counter: nat)
  {
    exists i :: 0 <= i < |l.accepted| && l.accepted[i].counter == counter
  }

  /** What presenting `u` pushes out of the memory while it still verifies. */
  function Evicted(codeAt: CodeAt, l: Ledger, u: Use): set<nat>
  {
    if Passes(codeAt, l, u) && EvictsLive(l.uses, u.at) then {YoungUses(l.uses, u.at)[0].counter} else {}
  }

  /** A code passes that an accept has evicted before, in the run or (`lost`) ahead of it,
      while it still verified. */
  predicate EvictedPasses(codeAt: CodeAt, l: Ledger, lost: set<nat>, presented: seq<Use>)
    decreases presented
  {
    presented != [] &&
      (|| (Passes(codeAt, l, presented[0]) && presented[0].counter in lost)
       || EvictedPasses(codeAt, Presented(codeAt, l, presented[0]), lost + Evicted(codeAt, l, presented[0]),
                        presented[1..]))
  }

  /** What the memory has given up by then is lost or can no longer verify. */
  predicate Forgotten(l: Ledger, lost: set<nat>, now: nat)
  {
    forall i :: 0 <= i < |l.accepted| - |l.uses| ==>
      l.accepted[i].counter in lost || l.accepted[i].counter + 1 < now / STEP_SECS
  }

  predicate Watched(codeAt: CodeAt, l: Ledger, lost: set<nat>, now: nat)
  {
    && Sound(codeAt, l, now)
    && Forgotten(l, lost, now)
    && forall c :: c in lost ==> Used(l, c)
  }

  /** A code that passes is that of a counter already used exactly if it was lost. */
  lemma UsedPassesIfLost(codeAt: CodeAt, l: Ledger, lost: set<nat>, before: nat, u: Use)
    requires Watched(codeAt, l, lost, before) && before <= u.at && Verifies(u.counter, u.at)
    requires Passes(codeAt, l, u)
    ensures Used(l, u.counter) <==> u.counter in lost
  {
    if Used(l, u.counter) && u.counter !in lost {
      var i :| 0 <= i < |l.accepted| && l.accepted[i].counter == u.counter;
      HeldIsRemembered(codeAt, l, lost, before, u, i);
    }
  }

  lemma HeldIsRemembered(codeAt: CodeAt, l: Ledger, lost: set<nat>, before: nat, u: Use, i: nat)
    requires Watched(codeAt, l, lost, before) && before <= u.at && Verifies(u.counter, u.at)
    requires i < |l.accepted| && l.accepted[i].counter == u.counter && u.counter !in lost
    ensures !Passes(codeAt, l, u)
  {
    var m := |l.accepted| - |l.uses|;
    assert before / STEP_SECS <= u.at / STEP_SECS;
    assert i >= m && l.uses[i - m] == l.accepted[i];
    var dropped := PresentedSound(codeAt, l, before, u);
    AliveIsYoung(l.accepted[i], u.at);
    assert l.uses[dropped..][i - m - dropped] == l.accepted[i];
  }

  /** An entry that fell out of the memory was too old to verify. */
  lemma DroppedIsDead(l: Ledger, lost: set<nat>, before: nat, now: nat, i: nat)
    requires IsTail(l.uses, l.accepted) && Accounted(l.accepted, before) && before <= now && i < |l.accepted|
    requires Forgotten(l, lost, before)
    requires i >= |l.accepted| - |l.uses| ==> !Young(l.accepted[i].at, now)
    ensures l.accepted[i].counter in lost || l.accepted[i].counter + 1 < now / STEP_SECS
  {
    assert before / STEP_SECS <= now / STEP_SECS;
    if now / STEP_SECS <= l.accepted[i].counter + 1 && i >= |l.accepted| - |l.uses| {
      AliveIsYoung(l.accepted[i], now);
    }
  }

  /** What a presentation leaves of the memory: the young end of it, and one less if the code
      passes and three are left. */
  lemma PresentedDrops(codeAt: CodeAt, l: Ledger, before: nat, u: Use) returns (dropped: nat)
    requires Sound(codeAt, l, before) && before <= u.at && Verifies(u.counter, u.at)
    ensures dropped <= |l.uses| && YoungUses(l.uses, u.at) == l.uses[dropped..]
    ensures forall i :: 0 <= i < |l.uses| ==> (Young(l.uses[i].at, u.at) <==> dropped <= i)
    ensures var x := Presented(codeAt, l, u);
            && l.accepted <= x.accepted
            && |x.accepted| - |x.uses| == |l.accepted| - |l.uses| + dropped
                 + if Passes(codeAt, l, u) && |l.uses| - dropped == REPLAY_MEMORY then 1 else 0
  {
    dropped := PresentedSound(codeAt, l, before, u);
  }

  lemma StaysForgotten(codeAt: CodeAt, l: Ledger, lost: set<nat>, before: nat, u: Use)
    requires Sound(codeAt, l, before) && before <= u.at && Verifies(u.counter, u.at) && Forgotten(l, lost, before)
    ensures Forgotten(Presented(codeAt, l, u), lost + Evicted(codeAt, l, u), u.at)
  {
    var dropped := PresentedDrops(codeAt, l, before, u);
    var x := Presented(codeAt, l, u);
    forall i | 0 <= i < |x.accepted| - |x.uses|
      ensures x.accepted[i].counter in lost + Evicted(codeAt, l, u) || x.accepted[i].counter + 1 < u.at / STEP_SECS
    {
      assert i < |l.accepted| && x.accepted[i] == l.accepted[i];
      OneForgotten(codeAt, l, lost, before, u, dropped, i);
    }
  }

  lemma OneForgotten(codeAt: CodeAt, l: Ledger, lost: set<nat>, before: nat, u: Use, dropped: nat, i: nat)
    requires Sound(codeAt, l, before) && before <= u.at && Verifies(u.counter, u.at) && Forgotten(l, lost, before)
    requires dropped <= |l.uses| && YoungUses(l.uses, u.at) == l.uses[dropped..]
    requires forall k :: 0 <= k < |l.uses| ==> (Young(l.uses[k].at, u.at) <==> dropped <= k)
    requires i < |l.accepted| - |l.uses| + dropped
             || (i == |l.accepted| - |l.uses| && dropped == 0 && |l.uses| == REPLAY_MEMORY && Passes(codeAt, l, u))
    ensures l.accepted[i].counter in lost + Evicted(codeAt, l, u) || l.accepted[i].counter + 1 < u.at / STEP_SECS
  {
    var m := |l.accepted| - |l.uses|;
    if i < m + dropped {
      assert i >= m ==> l.uses[i - m] == l.accepted[i];
      DroppedIsDead(l, lost, before, u.at, i);
    } else {
      assert l.uses[0] == l.accepted[i] && l.uses[0..] == l.uses;
      if !Verifies(l.accepted[i].counter, u.at) { EvictedIsDead(l.accepted, before, u.at, i); }
    }
  }

  /** An entry evicted while young, but outside its window, is behind it. */
  lemma EvictedIsDead(accepted: seq<Use>, before: nat, now: nat, i: nat)
    requires Accounted(accepted, before) && before <= now && i < |accepted|
    requires !Verifies(accepted[i].counter, now)
    ensures accepted[i].counter + 1 < now / STEP_SECS
  {
    assert Verifies(accepted[i].counter, accepted[i].at);
    assert accepted[i].at / STEP_SECS <= now / STEP_SECS;
  }

  lemma StaysUsed(codeAt: CodeAt, l: Ledger, u: Use, c: nat)
    requires Used(l, c)
    ensures Used(Presented(codeAt, l, u), c)
  {
    var i :| 0 <= i < |l.accepted| && l.accepted[i].counter == c;
    assert Presented(codeAt, l, u).accepted[i] == l.accepted[i];
  }

  lemma EvictedIsUsed(codeAt: CodeAt, l: Ledger, before: nat, u: Use, c: nat)
    requires Sound(codeAt, l, before) && before <= u.at && Verifies(u.counter, u.at)
    requires c in Evicted(codeAt, l, u)
    ensures Used(l, c)
  {
    var dropped := PresentedSound(codeAt, l, before, u);
    var m := |l.accepted| - |l.uses|;
    assert l.uses[dropped] == l.accepted[m + dropped];
  }

  lemma WatchedKept(codeAt: CodeAt, l: Ledger, lost: set<nat>, before: nat, u: Use)
    requires Watched(codeAt, l, lost, before) && before <= u.at && Verifies(u.counter, u.at)
    ensures Watched(codeAt, Presented(codeAt, l, u), lost + Evicted(codeAt, l, u), u.at)
  {
    var _ := PresentedSound(codeAt, l, before, u);
    StaysForgotten(codeAt, l, lost, before, u);
    forall c | c in lost + Evicted(codeAt, l, u) ensures Used(Presented(codeAt, l, u), c) {
      if c !in lost { EvictedIsUsed(codeAt, l, before, u, c); }
      StaysUsed(codeAt, l, u, c);
    }
  }

  lemma {:induction false} AcceptedGrows(codeAt: CodeAt, l: Ledger, presented: seq<Use>)
    ensures l.accepted <= After(codeAt, l, presented).accepted
    decreases presented
  {
    if presented != [] { AcceptedGrows(codeAt, Presented(codeAt, l, presented[0]), presented[1..]); }
  }

  lemma DistinctSnoc(l: Ledger, u: Use)
    requires Distinct(l.accepted)
    ensures Distinct(l.accepted + [u]) <==> !Used(l, u.counter)
  {
    if Used(l, u.counter) {
      var i :| 0 <= i < |l.accepted| && l.accepted[i].counter == u.counter;
      assert (l.accepted + [u])[i].counter == (l.accepted + [u])[|l.accepted|].counter;
    }
  }

  lemma TwiceStaysTwice(a: seq<Use>, b: seq<Use>)
    requires a <= b && !Distinct(a)
    ensures !Distinct(b)
  {
    var i, j :| 0 <= i < j < |a| && a[i].counter == a[j].counter;
    assert b[i].counter == b[j].counter;
  }

  lemma {:induction false} TwiceIff(codeAt: CodeAt, l: Ledger, lost: set<nat>, since: nat, presented: seq<Use>)
    requires Watched(codeAt, l, lost, since) && Distinct(l.accepted) && Legal(presented, since)
    ensures !Distinct(After(codeAt, l, presented).accepted) <==> EvictedPasses(codeAt, l, lost, presented)
    decreases presented
  {
    if presented != [] {
      var u := presented[0];
      var next := Presented(codeAt, l, u);
      LegalTail(presented, since);
      WatchedKept(codeAt, l, lost, since, u);
      if Passes(codeAt, l, u) {
        UsedPassesIfLost(codeAt, l, lost, since, u);
        DistinctSnoc(l, u);
      }
      if Distinct(next.accepted) {
        TwiceIff(codeAt, next, lost + Evicted(codeAt, l, u), u.at, presented[1..]);
      } else {
        AcceptedGrows(codeAt, next, presented[1..]);
        TwiceStaysTwice(next.accepted, After(codeAt, next, presented[1..]).accepted);
      }
    }
  }

  /** Over every run: some counter's code is accepted twice if and only if one passes that an
      accept before it has pushed out of the memory while it still verified. */
  lemma AcceptedTwiceIff(codeAt: CodeAt, presented: seq<Use>)
    requires Legal(presented, 0)
    ensures !Distinct(After(codeAt, NO_USES, presented).accepted)
       <==> EvictedPasses(codeAt, NO_USES, {}, presented)
  {
    TwiceIff(codeAt, NO_USES, {}, 0, presented);
  }

  lemma {:induction false} NothingEvicted(codeAt: CodeAt, l: Ledger, presented: seq<Use>)
    requires NeverEvictsLive(codeAt, l, presented)
    ensures !EvictedPasses(codeAt, l, {}, presented)
    decreases presented
  {
    if presented != [] {
      assert Evicted(codeAt, l, presented[0]) == {} && {} + Evicted(codeAt, l, presented[0]) == {};
      NothingEvicted(codeAt, Presented(codeAt, l, presented[0]), presented[1..]);
    }
  }

  /** If no accept evicts a live code, no counter's code is ever accepted twice. */
  lemma SingleUse(codeAt: CodeAt, l: Ledger, since: nat, presented: seq<Use>)
    requires Watched(codeAt, l, {}, since) && Distinct(l.accepted) && Legal(presented, since)
    requires NeverEvictsLive(codeAt, l, presented)
    ensures Distinct(After(codeAt, l, presented).accepted)
  {
    NothingEvicted(codeAt, l, presented);
    TwiceIff(codeAt, l, {}, since, presented);
  }

  // ---- in order is enough --------------------------------------------------

  predicate Newest(l: Ledger, counter: nat)
  {
    forall i :: 0 <= i < |l.accepted| ==> l.accepted[i].counter < counter
  }

  /** Counters are used for the first time in increasing order. Presenting a used
      counter again, whenever and however often, is not restricted. */
  predicate FirstUsesInOrder(codeAt: CodeAt, l: Ledger, presented: seq<Use>)
    decreases presented
  {
    presented == [] ||
      (&& (Used(l, presented[0].counter) || Newest(l, presented[0].counter))
       && FirstUsesInOrder(codeAt, Presented(codeAt, l, presented[0]), presented[1..]))
  }

  predicate Growing(accepted: seq<Use>)
  {
    forall i, j :: 0 <= i < j < |accepted| ==> accepted[i].counter < accepted[j].counter
  }

  /** Three remembered counters that grow leave no room for a live oldest one: at
      most two later counters fit into its window, and the new one is a third. */
  lemma OldestIsOut(l: Ledger, u: Use)
    requires IsTail(l.uses, l.accepted) && Growing(l.accepted) && Newest(l, u.counter)
    requires |l.uses| == REPLAY_MEMORY && Verifies(u.counter, u.at)
    ensures !Verifies(l.uses[0].counter, u.at)
  {
    var n := |l.accepted|;
    assert l.uses[0] == l.accepted[n - 3] && l.uses[1] == l.accepted[n - 2] && l.uses[2] == l.accepted[n - 1];
    assert l.uses[0].counter < l.uses[1].counter < l.uses[2].counter < u.counter;
  }

  lemma OrderedNeverEvicts(codeAt: CodeAt, l: Ledger, before: nat, u: Use)
    requires Watched(codeAt, l, {}, before) && before <= u.at && Verifies(u.counter, u.at)
    requires Growing(l.accepted)
    requires Used(l, u.counter) || Newest(l, u.counter)
    ensures Passes(codeAt, l, u) ==> !EvictsLive(l.uses, u.at) && Newest(l, u.counter)
  {
    if Used(l, u.counter) {
      if Passes(codeAt, l, u) { UsedPassesIfLost(codeAt, l, {}, before, u); }
    } else {
      var dropped := PresentedSound(codeAt, l, before, u);
      if |l.uses| == REPLAY_MEMORY && dropped == 0 { OldestIsOut(l, u); }
    }
  }

  lemma StaysGrowing(codeAt: CodeAt, l: Ledger, u: Use)
    requires Growing(l.accepted) && (Passes(codeAt, l, u) ==> Newest(l, u.counter))
    ensures Growing(Presented(codeAt, l, u).accepted)
  {
  }

  lemma {:induction false} OrderedRun(codeAt: CodeAt, l: Ledger, since: nat, presented: seq<Use>)
    requires Watched(codeAt, l, {}, since) && Growing(l.accepted) && Legal(presented, since)
    requires FirstUsesInOrder(codeAt, l, presented)
    ensures NeverEvictsLive(codeAt, l, presented)
    decreases presented
  {
    if presented != [] {
      var u := presented[0];
      OrderedNeverEvicts(codeAt, l, since, u);
      StaysGrowing(codeAt, l, u);
      WatchedKept(codeAt, l, {}, since, u);
      assert {} + Evicted(codeAt, l, u) == {};
      LegalTail(presented, since);
      OrderedRun(codeAt, Presented(codeAt, l, u), u.at, presented[1..]);
    }
  }

  /** An authenticator whose codes are first used in order is safe: whatever is
      presented again, however often, every counter is accepted at most once. */
  lemma OrderedUseIsSingleUse(codeAt: CodeAt, presented: seq<Use>)
    requires Legal(presented, 0) && FirstUsesInOrder(codeAt, NO_USES, presented)
    ensures Distinct(After(codeAt, NO_USES, presented).accepted)
  {
    OrderedRun(codeAt, NO_USES, 0, presented);
    SingleUse(codeAt, NO_USES, 0, presented);
  }

  // ---- out of order it fails -----------------------------------------------

  lemma PassesStep(codeAt: CodeAt, l: Ledger, u: Use)
    requires forall i :: 0 <= i < |l.uses| ==>
        Young(l.uses[i].at, u.at) && codeAt(l.uses[i].counter) != codeAt(u.counter)
    ensures Presented(codeAt, l, u) == Ledger(PushBounded(l.uses, u), l.accepted + [u])
  {
    AllYoung(l.uses, u.at);
  }

  /** Whatever the time: the codes of the current step, the one before and the one after,
      then in the next step the code after that, which pushes the first one out. It still
      verifies, and is accepted a second time. */
  function SecondUse(n: nat, now: nat, later: nat): seq<Use>
  {
    [Use(n + 1, now), Use(n, now), Use(n + 2, now), Use(n + 3, later), Use(n + 1, later)]
  }

  predicate FourCodes(codeAt: CodeAt, n: nat)
  {
    && codeAt(n) != codeAt(n + 1) && codeAt(n) != codeAt(n + 2) && codeAt(n) != codeAt(n + 3)
    && codeAt(n + 1) != codeAt(n + 2) && codeAt(n + 1) != codeAt(n + 3) && codeAt(n + 2) != codeAt(n + 3)
  }

  lemma OutOfOrderSecondUse(codeAt: CodeAt, n: nat, now: nat, later: nat)
    requires FourCodes(codeAt, n) && now / STEP_SECS == n + 1 && later / STEP_SECS == n + 2
    ensures Legal(SecondUse(n, now, later), now)
    ensures After(codeAt, NO_USES, SecondUse(n, now, later)).accepted == SecondUse(n, now, later)
  {
    var p := SecondUse(n, now, later);
    var a, b, c, d, e := p[0], p[1], p[2], p[3], p[4];
    StillYoung(n, now, later);
    var l1, l2 := Ledger([a], [a]), Ledger([a, b], [a, b]);
    var l3, l4 := Ledger([a, b, c], [a, b, c]), Ledger([b, c, d], [a, b, c, d]);
    assert Presented(codeAt, NO_USES, a) == l1 by { PassesStep(codeAt, NO_USES, a); }
    assert Presented(codeAt, l1, b) == l2 by { PassesStep(codeAt, l1, b); }
    assert Presented(codeAt, l2, c) == l3 by { PassesStep(codeAt, l2, c); }
    assert Presented(codeAt, l3, d) == l4 by { PassesStep(codeAt, l3, d); }
    assert Presented(codeAt, l4, e).accepted == p by { PassesStep(codeAt, l4, e); }
    FiveSteps(codeAt, l1, l2, l3, l4, p);
  }

  lemma StillYoung(n: nat, now: nat, later: nat)
    requires now / STEP_SECS == n + 1 && later / STEP_SECS == n + 2
    ensures now <= later && Young(now, now) && Young(now, later) && Young(later, later)
    ensures Legal(SecondUse(n, now, later), now)
  {
  }

  lemma FiveSteps(codeAt: CodeAt, l1: Ledger, l2: Ledger, l3: Ledger, l4: Ledger, p: seq<Use>)
    requires |p| == 5
    requires Presented(codeAt, NO_USES, p[0]) == l1 && Presented(codeAt, l1, p[1]) == l2
    requires Presented(codeAt, l2, p[2]) == l3 && Presented(codeAt, l3, p[3]) == l4
    ensures After(codeAt, NO_USES, p) == Presented(codeAt, l4, p[4])
  {
    TwoSteps(codeAt, NO_USES, p);
    assert p[2..][0] == p[2] && p[2..][1] == p[3] && p[2..][2..] == p[4..];
    TwoSteps(codeAt, l2, p[2..]);
    assert p[4..][0] == p[4] && p[4..][1..] == [];
    assert After(codeAt, l4, p[4..]) == After(codeAt, Presented(codeAt, l4, p[4]), []);
  }

  lemma TwoSteps(codeAt: CodeAt, l: Ledger, p: seq<Use>)
    requires |p| >= 2
    ensures After(codeAt, l, p) == After(codeAt, Presented(codeAt, Presented(codeAt, l, p[0]), p[1]), p[2..])
  {
    assert p[1..][1..] == p[2..] && p[1..][0] == p[1];
  }
}
