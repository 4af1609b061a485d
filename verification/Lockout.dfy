/** The second-factor lockout of `LoginGuard` (src/main.rs). Instants are
    nanoseconds. Judging a code and counting it as wrong is one step here. */
module Lockout {
  import opened Basics

  const SECOND: nat := 1_000_000_000
  const MFA_MAX_STRIKES: nat := 5
  const MFA_LOCKOUT_BASE: nat := 15 * 60 * SECOND
  const MFA_LOCKOUT_MAX: nat := 24 * 60 * 60 * SECOND
  const MFA_STRIKE_MEMORY: nat := 7 * 24 * 60 * 60 * SECOND
  const U32_MAX: nat := 0xFFFF_FFFF

  type Identity = string

  /** A run of consecutive wrong codes. */
  datatype MfaStrikes = MfaStrikes(count: nat, last: nat, lockedUntil: Option<nat>)

  datatype Outcome = Wrong | Replayed | Right

  function Pow2(n: nat): nat { if n == 0 then 1 else 2 * Pow2(n - 1) }

  /** `1u32.checked_shl(round).unwrap_or(u32::MAX)`. */
  function Shifted(round: nat): nat
  {
    if round < 32 then Pow2(round) else U32_MAX
  }

  /** The lock triggered by the `k`-th round of strikes, counting from one. */
  function Lock(k: nat): nat
    requires k >= 1
  {
    Min(MFA_LOCKOUT_BASE * Shifted(k - 1), MFA_LOCKOUT_MAX)
  }

  // ---- specification of one identity's record ------------------------------

  function LockLeft(s: Option<MfaStrikes>, now: nat): Option<nat>
  {
    if s.Some? && s.value.lockedUntil.Some? && now < s.value.lockedUntil.value
    then Some(s.value.lockedUntil.value - now) else None
  }

  function Counted(s: Option<MfaStrikes>, now: nat): (r: MfaStrikes)
    ensures r.count >= 1
  {
    var was := if s.Some? then s.value else MfaStrikes(0, now, None);
    var count := (if SatSub(now, was.last) > MFA_STRIKE_MEMORY then 0 else was.count) + 1;
    MfaStrikes(count, now,
      if count % MFA_MAX_STRIKES == 0 then Some(now + Lock(count / MFA_MAX_STRIKES))
      else was.lockedUntil)
  }

  /** One submitted code: refused while locked, otherwise judged. */
  function Submitted(s: Option<MfaStrikes>, now: nat, outcome: Outcome): Option<MfaStrikes>
  {
    if LockLeft(s, now).Some? then s
    else match outcome
      case Wrong => Some(Counted(s, now))
      case Replayed => s
      case Right => None
  }

  function Lookup(m: map<Identity, MfaStrikes>, id: Identity): Option<MfaStrikes>
  {
    if id in m then Some(m[id]) else None
  }

  class LoginGuard {
    var mfa: map<Identity, MfaStrikes>

    constructor ()
      ensures mfa == map[]
    {
      mfa := map[];
    }

    method MfaLocked(id: Identity, now: nat) returns (left: Option<nat>)
      ensures left == LockLeft(Lookup(mfa, id), now)
      ensures left.Some? <==> id in mfa && mfa[id].lockedUntil.Some? && now < mfa[id].lockedUntil.value
      ensures left.Some? ==> now + left.value == mfa[id].lockedUntil.value
    {
      if id !in mfa || mfa[id].lockedUntil.None? { return None; }
      var remaining := SatSub(mfa[id].lockedUntil.value, now);
      return if remaining == 0 then None else Some(remaining);
    }

    method MfaFailed(id: Identity, now: nat) returns (lock: Option<nat>)
      modifies this
      ensures mfa == old(mfa)[id := Counted(Lookup(old(mfa), id), now)]
      ensures lock == if mfa[id].count % MFA_MAX_STRIKES == 0
                      then Some(Lock(mfa[id].count / MFA_MAX_STRIKES)) else None
    {
      var s := if id in mfa then mfa[id] else MfaStrikes(0, now, None);
      if SatSub(now, s.last) > MFA_STRIKE_MEMORY { s := s.(count := 0); }
      s := s.(count := s.count + 1, last := now);
      lock := None;
      if s.count % MFA_MAX_STRIKES == 0 {
        var round := s.count / MFA_MAX_STRIKES - 1;
        var wait := Min(MFA_LOCKOUT_BASE * Shifted(round), MFA_LOCKOUT_MAX);
        s := s.(lockedUntil := Some(now + wait));
        lock := Some(wait);
      }
      mfa := mfa[id := s];
    }

    method MfaSucceeded(id: Identity)
      modifies this
      ensures mfa == old(mfa) - {id}
    {
      mfa := mfa - {id};
    }

    /** The guard's part of one submission for `id`; nobody else is touched. */
    method Submit(id: Identity, now: nat, outcome: Outcome) returns (refused: bool)
      modifies this
      ensures Lookup(mfa, id) == Submitted(Lookup(old(mfa), id), now, outcome)
      ensures refused == LockLeft(Lookup(old(mfa), id), now).Some?
      ensures forall other :: other != id ==> Lookup(mfa, other) == Lookup(old(mfa), other)
      ensures refused || outcome.Replayed? ==> mfa == old(mfa)
      ensures !refused && outcome.Right? ==> mfa == old(mfa) - {id}
      // A wrong code is one strike more, or the first if the last is over seven days old.
      ensures !refused && outcome.Wrong? ==>
          && id in mfa && mfa[id].last == now
          && mfa[id].count == (if id in old(mfa) && now <= old(mfa)[id].last + 7 * 24 * 3600 * SECOND
                               then old(mfa)[id].count + 1 else 1)
    {
      var left := MfaLocked(id, now);
      if left.Some? { return true; }
      match outcome {
        case Wrong => var _ := MfaFailed(id, now);
        case Replayed =>
        case Right => MfaSucceeded(id);
      }
      return false;
    }
  }

  // ---- what a submission does ----------------------------------------------

  /** An accepted code forgives everything: whatever came before, the next wrong one counts as
      the first and locks nothing. */
  lemma SuccessForgets(s: Option<MfaStrikes>, now: nat, later: nat)
    requires LockLeft(s, now).None?
    ensures Submitted(s, now, Right) == None
    ensures Submitted(Submitted(s, now, Right), later, Wrong) == Some(MfaStrikes(1, later, None))
  {
  }

  /** A replayed code is neither a strike nor a success, and while a lock stands nothing counts,
      not even the right code. */
  lemma NothingElseCounts(s: Option<MfaStrikes>, now: nat, outcome: Outcome)
    ensures Submitted(s, now, Replayed) == s
    ensures s.Some? && s.value.lockedUntil.Some? && now < s.value.lockedUntil.value ==> Submitted(s, now, outcome) == s
  {
  }

  // ---- runs ----------------------------------------------------------------

  /** A submission for one identity. */
  datatype Event = Submission(now: nat, outcome: Outcome)

  predicate Ordered(run: seq<Event>)
  {
    forall i, j :: 0 <= i < j < |run| ==> run[i].now <= run[j].now
  }

  function After(s: Option<MfaStrikes>, run: seq<Event>): Option<MfaStrikes>
    decreases run
  {
    if run == [] then s else After(Submitted(s, run[0].now, run[0].outcome), run[1..])
  }

  /** The times at which a wrong code was counted rather than refused. */
  function CountedTimes(s: Option<MfaStrikes>, run: seq<Event>): seq<nat>
    decreases run
  {
    if run == [] then []
    else
      var e := run[0];
      CountedNow(s, e) + CountedTimes(Submitted(s, e.now, e.outcome), run[1..])
  }

  /** No accepted code in the stretch. */
  predicate NoSuccess(run: seq<Event>)
  {
    forall i :: 0 <= i < |run| ==> !run[i].outcome.Right?
  }

  /** The first `rounds` locks, added up. */
  function LockSum(rounds: nat): nat
  {
    if rounds == 0 then 0 else LockSum(rounds - 1) + Lock(rounds)
  }

  /** The first lock is the base, each is double the one before until the cap. */
  lemma LocksDouble(k: nat)
    requires k >= 1
    ensures Lock(1) == MFA_LOCKOUT_BASE
    ensures Lock(k + 1) == Min(2 * Lock(k), MFA_LOCKOUT_MAX)
    ensures Lock(k) <= MFA_LOCKOUT_MAX < MFA_STRIKE_MEMORY
  {
    assert Pow2(0) == 1;
    if k < 32 {
      Pow2Positive(k - 1);
      assert MFA_LOCKOUT_BASE * Pow2(k) == 2 * (MFA_LOCKOUT_BASE * Pow2(k - 1));
      if k == 31 { Pow2Large(); }
    } else {
      if k == 32 { Pow2Large(); }
    }
  }

  lemma {:induction false} Pow2Positive(n: nat)
    ensures Pow2(n) >= 1
  {
    if n > 0 { Pow2Positive(n - 1); }
  }

  lemma Pow2Large()
    ensures Pow2(30) == 0x4000_0000 && Pow2(31) == 0x8000_0000
  {
    assert Pow2(8) == 256 by { assert Pow2(4) == 16; }
    assert Pow2(16) == 65536 by { assert Pow2(12) == 4096; }
    assert Pow2(24) == 0x100_0000 by { assert Pow2(20) == 0x10_0000; }
    assert Pow2(28) == 0x1000_0000;
  }

  lemma {:induction false} LocksGrow(a: nat, b: nat)
    requires 1 <= a <= b
    ensures Lock(a) <= Lock(b)
    decreases b - a
  {
    if a < b {
      LocksDouble(a);
      LocksGrow(a + 1, b);
    }
  }

  /** `n` wrong codes have been counted since time `first` and the record was
      never reset: every round that ended in between has been waited out. */
  predicate Tally(s: Option<MfaStrikes>, n: nat, first: nat)
  {
    && s.Some? && 1 <= n <= s.value.count
    && first + LockSum((s.value.count - 1) / MFA_MAX_STRIKES)
       <= s.value.last + LockSum((s.value.count - n) / MFA_MAX_STRIKES)
    && (s.value.count % MFA_MAX_STRIKES == 0 ==>
          s.value.lockedUntil == Some(s.value.last + Lock(s.value.count / MFA_MAX_STRIKES)))
  }

  lemma TallyBegins(s: Option<MfaStrikes>, now: nat)
    ensures Tally(Some(Counted(s, now)), 1, now)
  {
  }

  /** One more counted code, not after a gap that forgets the run. */
  lemma TallyGrows(s: Option<MfaStrikes>, n: nat, first: nat, now: nat)
    requires Tally(s, n, first) && LockLeft(s, now).None?
    requires s.value.last <= now && now - s.value.last <= MFA_STRIKE_MEMORY
    ensures Tally(Some(Counted(s, now)), n + 1, first)
  {
    var c := s.value.count;
    if c % MFA_MAX_STRIKES == 0 {
      assert c / MFA_MAX_STRIKES == (c - 1) / MFA_MAX_STRIKES + 1;
    } else {
      assert c / MFA_MAX_STRIKES == (c - 1) / MFA_MAX_STRIKES;
    }
    assert c + 1 - (n + 1) == c - n;
  }

  lemma OneRoundMore(k: nat)
    ensures LockSum(k + 1) == LockSum(k) + Lock(k + 1)
  {
  }

  /** Later rounds are at least as long as the first ones. */
  lemma {:induction false} LaterRoundsCostMore(from: nat, rounds: nat)
    ensures LockSum(from + rounds) >= LockSum(from) + LockSum(rounds)
    decreases rounds
  {
    if rounds > 0 {
      LaterRoundsCostMore(from, rounds - 1);
      var before := from + (rounds - 1);
      LocksGrow(rounds, before + 1);
      OneRoundMore(before);
      OneRoundMore(rounds - 1);
      assert from + rounds == before + 1;
    }
  }

  lemma {:induction false} LockSumGrows(a: nat, b: nat)
    requires a <= b
    ensures LockSum(a) <= LockSum(b)
    decreases b - a
  {
    if a < b { LockSumGrows(a, b - 1); }
  }

  lemma TallyTakesTime(s: Option<MfaStrikes>, n: nat, first: nat)
    requires Tally(s, n, first)
    ensures s.value.last >= first + LockSum((n - 1) / MFA_MAX_STRIKES)
  {
    var c := s.value.count;
    var before := (c - n) / MFA_MAX_STRIKES;
    var ended := (c - 1) / MFA_MAX_STRIKES;
    var rounds := (n - 1) / MFA_MAX_STRIKES;
    assert ended >= before + rounds;
    LaterRoundsCostMore(before, rounds);
    LockSumGrows(before + rounds, ended);
  }

  /** No two neighbours are further apart than the strike memory. */
  predicate NoLongGap(times: seq<nat>)
  {
    forall i :: 0 <= i < |times| - 1 ==> times[i + 1] - times[i] <= MFA_STRIKE_MEMORY
  }

  /** What one event contributes. */
  function CountedNow(s: Option<MfaStrikes>, e: Event): seq<nat>
  {
    if e.outcome.Wrong? && LockLeft(s, e.now).None? then [e.now] else []
  }

  lemma GapsTail(last: nat, now: nat, more: seq<nat>)
    requires NoLongGap([last] + ([now] + more))
    ensures now - last <= MFA_STRIKE_MEMORY && NoLongGap([now] + more)
  {
    var gaps := [last] + ([now] + more);
    assert gaps[0] == last && gaps[1] == now;
    forall i | 0 <= i < |more| ensures ([now] + more)[i + 1] - ([now] + more)[i] <= MFA_STRIKE_MEMORY {
      assert gaps[i + 2] == ([now] + more)[i + 1] && gaps[i + 1] == ([now] + more)[i];
    }
  }

  /** One event of a stretch keeps the tally. */
  lemma TallyStep(s: Option<MfaStrikes>, e: Event, n: nat, first: nat, more: seq<nat>)
    requires Tally(s, n, first) && !e.outcome.Right? && s.value.last <= e.now
    requires NoLongGap([s.value.last] + (CountedNow(s, e) + more))
    ensures var next := Submitted(s, e.now, e.outcome);
            if CountedNow(s, e) != [] then
              && Tally(next, n + 1, first) && next.value.last == e.now
              && NoLongGap([e.now] + more)
              && e.now >= first + LockSum((n + 1 - 1) / MFA_MAX_STRIKES)
            else next == s && NoLongGap([s.value.last] + more)
  {
    if CountedNow(s, e) != [] {
      GapsTail(s.value.last, e.now, more);
      TallyGrows(s, n, first, e.now);
      TallyTakesTime(Some(Counted(s, e.now)), n + 1, first);
    } else {
      assert [] + more == more;
    }
  }

  lemma {:induction false} TallyRun(s: Option<MfaStrikes>, run: seq<Event>, n: nat, first: nat)
    requires n >= 1 && s.Some? && Tally(s, n, first) && Ordered(run) && NoSuccess(run)
    requires run != [] ==> s.value.last <= run[0].now
    requires NoLongGap([s.value.last] + CountedTimes(s, run))
    ensures TookTime(CountedTimes(s, run), n, first)
    decreases run
  {
    if run != [] {
      var e, rest := run[0], run[1..];
      var next := Submitted(s, e.now, e.outcome);
      var more := CountedTimes(next, rest);
      assert rest != [] ==> rest[0] == run[1];
      TallyStep(s, e, n, first, more);
      TallyRun(next, rest, if CountedNow(s, e) != [] then n + 1 else n, first);
      LastOf(CountedNow(s, e), more, n, first);
    }
  }

  lemma LastOf(head: seq<nat>, more: seq<nat>, n: nat, first: nat)
    requires n >= 1 && |head| <= 1
    requires TookTime(more, n + |head|, first)
    requires head != [] ==> head[0] >= first + LockSum(n / MFA_MAX_STRIKES)
    ensures TookTime(head + more, n, first)
  {
    var times := head + more;
    if more != [] {
      assert times[|times| - 1] == more[|more| - 1];
      assert n + |head| + |more| - 1 == n + |times| - 1;
    } else if head != [] {
      assert times == head && n + |times| - 1 == n;
    }
  }

  /** The last of these codes, which follow `n` others, is late enough. */
  predicate TookTime(times: seq<nat>, n: nat, first: nat)
    requires n >= 1
  {
    times != [] ==> times[|times| - 1] >= first + LockSum((n + |times| - 1) / MFA_MAX_STRIKES)
  }

  /** From the first of these codes to the last, all the locks but the one the
      last may start have been waited out. */
  predicate Slow(times: seq<nat>)
  {
    times != [] ==>
      times[|times| - 1] >= times[0] + LockSum((|times| - 1) / MFA_MAX_STRIKES)
  }

  lemma FirstAndRest(now: nat, more: seq<nat>)
    requires TookTime(more, 1, now)
    ensures Slow([now] + more)
  {
    var times := [now] + more;
    if more != [] {
      assert times[|times| - 1] == more[|more| - 1];
      assert 1 + |more| - 1 == |times| - 1;
    }
  }

  /** From any record, if no code is accepted and no gap between counted codes is
      longer than the strike memory, counting `n` wrong codes takes at least the
      first (n-1)/5 locks, added up. */
  lemma {:induction false} WrongCodesTakeTime(s: Option<MfaStrikes>, run: seq<Event>)
    requires Ordered(run) && NoSuccess(run) && NoLongGap(CountedTimes(s, run))
    ensures Slow(CountedTimes(s, run))
    decreases run
  {
    if run != [] {
      var e, rest := run[0], run[1..];
      var next := Submitted(s, e.now, e.outcome);
      var more := CountedTimes(next, rest);
      assert rest != [] ==> rest[0] == run[1];
      if CountedNow(s, e) != [] {
        TallyBegins(s, e.now);
        TallyRun(next, rest, 1, e.now);
        FirstAndRest(e.now, more);
      } else {
        assert CountedTimes(s, run) == more;
        WrongCodesTakeTime(next, rest);
      }
    }
  }

  predicate Sorted(times: seq<nat>)
  {
    forall i, j :: 0 <= i < j < |times| ==> times[i] <= times[j]
  }

  /** Counted times come from the run, so they are in order. */
  lemma {:induction false} CountedInOrder(s: Option<MfaStrikes>, run: seq<Event>)
    requires Ordered(run)
    ensures Sorted(CountedTimes(s, run))
    ensures forall t :: t in CountedTimes(s, run) ==> run != [] && run[0].now <= t
    decreases run
  {
    if run != [] {
      var e, rest := run[0], run[1..];
      var next := Submitted(s, e.now, e.outcome);
      var more := CountedTimes(next, rest);
      assert rest != [] ==> rest[0] == run[1];
      CountedInOrder(next, rest);
      forall i | 0 <= i < |more| ensures e.now <= more[i] {
        assert more[i] in more;
      }
      var head := CountedNow(s, e);
      assert CountedTimes(s, run) == head + more;
      assert Sorted(head + more);
    }
  }

  lemma LockValues()
    ensures Lock(1) == 900 * SECOND && Lock(2) == 1800 * SECOND && Lock(3) == 3600 * SECOND
    ensures Lock(4) == 7200 * SECOND && Lock(5) == 14400 * SECOND && Lock(6) == 28800 * SECOND
    ensures Lock(7) == 57600 * SECOND && Lock(8) == 86400 * SECOND && Lock(9) == 86400 * SECOND
    ensures Lock(10) == 86400 * SECOND && Lock(11) == 86400 * SECOND && Lock(12) == 86400 * SECOND
    ensures Lock(13) == 86400 * SECOND
  {
    LocksDouble(1); LocksDouble(2); LocksDouble(3); LocksDouble(4); LocksDouble(5); LocksDouble(6);
    LocksDouble(7); LocksDouble(8); LocksDouble(9); LocksDouble(10); LocksDouble(11); LocksDouble(12);
  }

  lemma LockSumValues()
    ensures LockSum(12) == 546_300 * SECOND && LockSum(13) == 632_700 * SECOND
  {
    LockValues();
    assert LockSum(3) == 6300 * SECOND;
    assert LockSum(6) == 56_700 * SECOND;
    assert LockSum(9) == 287_100 * SECOND;
  }

  /** In any seven days without an accepted code, whatever the record was when
      they began, at most 65 wrong codes are counted. */
  lemma AtMost65WrongCodesAWeek(s: Option<MfaStrikes>, run: seq<Event>)
    requires Ordered(run) && NoSuccess(run)
    requires var times := CountedTimes(s, run);
             times != [] ==> times[|times| - 1] - times[0] <= MFA_STRIKE_MEMORY
    ensures |CountedTimes(s, run)| <= 65
  {
    var times := CountedTimes(s, run);
    if |times| > 65 {
      CountedInOrder(s, run);
      forall i | 0 <= i < |times| - 1 ensures times[i + 1] - times[i] <= MFA_STRIKE_MEMORY {
        assert times[i + 1] <= times[|times| - 1] && times[0] <= times[i];
      }
      WrongCodesTakeTime(s, run);
      LockSumValues();
      LockSumGrows(13, (|times| - 1) / MFA_MAX_STRIKES);
    }
  }

  // ---- the bound is met ----------------------------------------------------

  /** Guessing as fast as the locks allow: `more` codes after the first `done`. */
  function Fastest(done: nat, more: nat): (run: seq<Event>)
    ensures |run| == more
    decreases more
  {
    if more == 0 then []
    else [Submission(LockSum(done / MFA_MAX_STRIKES), Wrong)] + Fastest(done + 1, more - 1)
  }

  /** The record after `n` codes of the fastest schedule. */
  predicate OnSchedule(s: Option<MfaStrikes>, n: nat)
  {
    if n == 0 then s.None?
    else
      && s.Some? && s.value.count == n
      && s.value.last == LockSum((n - 1) / MFA_MAX_STRIKES)
      && (s.value.lockedUntil.Some? ==> s.value.lockedUntil.value <= LockSum(n / MFA_MAX_STRIKES))
  }

  /** Between the `n`-th time and the next lies the lock of the round that `n` codes end, or
      nothing. */
  lemma NextTime(n: nat)
    ensures LockSum((n + 1) / MFA_MAX_STRIKES)
         == LockSum(n / MFA_MAX_STRIKES)
            + if (n + 1) % MFA_MAX_STRIKES == 0 then Lock((n + 1) / MFA_MAX_STRIKES) else 0
  {
    if (n + 1) % MFA_MAX_STRIKES == 0 {
      assert (n + 1) / MFA_MAX_STRIKES == n / MFA_MAX_STRIKES + 1;
      OneRoundMore(n / MFA_MAX_STRIKES);
    } else {
      assert (n + 1) / MFA_MAX_STRIKES == n / MFA_MAX_STRIKES;
    }
  }

  lemma NoGap(n: nat)
    requires n > 0
    ensures LockSum((n - 1) / MFA_MAX_STRIKES) <= LockSum(n / MFA_MAX_STRIKES)
         <= LockSum((n - 1) / MFA_MAX_STRIKES) + MFA_STRIKE_MEMORY
  {
    RoundsStep(n);
    OneLockMore((n - 1) / MFA_MAX_STRIKES, n / MFA_MAX_STRIKES);
  }

  lemma RoundsStep(n: nat)
    requires n > 0
    ensures n / MFA_MAX_STRIKES - (n - 1) / MFA_MAX_STRIKES in {0, 1}
  {
  }

  lemma OneLockMore(k: nat, j: nat)
    requires j - k in {0, 1}
    ensures LockSum(k) <= LockSum(j) <= LockSum(k) + MFA_STRIKE_MEMORY
  {
    LocksDouble(k + 1);
    assert LockSum(k + 1) == LockSum(k) + Lock(k + 1);
  }

  lemma ScheduleStep(s: Option<MfaStrikes>, n: nat)
    requires OnSchedule(s, n)
    ensures var now := LockSum(n / MFA_MAX_STRIKES);
            LockLeft(s, now).None? && OnSchedule(Some(Counted(s, now)), n + 1)
  {
    NextTime(n);
    if n > 0 { NoGap(n); }
  }

  /** The times at which the fastest codes are sent. */
  function Times(done: nat, more: nat): (times: seq<nat>)
    ensures |times| == more
    ensures forall i :: 0 <= i < more ==> times[i] == LockSum((done + i) / MFA_MAX_STRIKES)
  {
    seq<nat>(more, i requires 0 <= i < more => LockSum((done + i) / MFA_MAX_STRIKES))
  }

  lemma TimesNext(done: nat, more: nat)
    requires more > 0
    ensures Times(done, more) == [LockSum(done / MFA_MAX_STRIKES)] + Times(done + 1, more - 1)
  {
    var rest := Times(done + 1, more - 1);
    forall i | 1 <= i < more
      ensures Times(done, more)[i] == rest[i - 1]
    {
      assert done + i == (done + 1) + (i - 1);
    }
  }

  /** All of them are counted. */
  lemma {:induction false} ScheduleCounts(s: Option<MfaStrikes>, done: nat, more: nat)
    requires OnSchedule(s, done)
    ensures CountedTimes(s, Fastest(done, more)) == Times(done, more)
    decreases more
  {
    if more > 0 {
      ScheduleStep(s, done);
      TimesNext(done, more);
      FastestNext(s, done, more);
      ScheduleCounts(Some(Counted(s, LockSum(done / MFA_MAX_STRIKES))), done + 1, more - 1);
    }
  }

  lemma FastestNext(s: Option<MfaStrikes>, done: nat, more: nat)
    requires more > 0 && LockLeft(s, LockSum(done / MFA_MAX_STRIKES)).None?
    ensures var now := LockSum(done / MFA_MAX_STRIKES);
            CountedTimes(s, Fastest(done, more))
            == [now] + CountedTimes(Some(Counted(s, now)), Fastest(done + 1, more - 1))
  {
    assert Fastest(done, more)[1..] == Fastest(done + 1, more - 1);
  }

  lemma {:induction false} FastestIsARun(done: nat, more: nat)
    ensures Ordered(Fastest(done, more)) && NoSuccess(Fastest(done, more))
    ensures forall i :: 0 <= i < more ==> Fastest(done, more)[i].now >= LockSum(done / MFA_MAX_STRIKES)
    decreases more
  {
    if more > 0 {
      FastestIsARun(done + 1, more - 1);
      LockSumGrows(done / MFA_MAX_STRIKES, (done + 1) / MFA_MAX_STRIKES);
      var run := Fastest(done, more);
      assert forall i :: 0 < i < more ==> run[i] == Fastest(done + 1, more - 1)[i - 1];
    }
  }

  /** The time bound is exact for every number of codes: there is a run without success,
      from no record, in which `n` codes are counted and take just that long. */
  lemma FastestMeetsBound(n: nat) returns (run: seq<Event>)
    requires n >= 1
    ensures Ordered(run) && NoSuccess(run)
    ensures var times := CountedTimes(None, run);
            |times| == n && times[n - 1] == times[0] + LockSum((n - 1) / MFA_MAX_STRIKES)
  {
    run := Fastest(0, n);
    FastestIsARun(0, n);
    ScheduleCounts(None, 0, n);
    assert Times(0, n)[0] == LockSum(0 / MFA_MAX_STRIKES) == 0;
  }

  /** So is the bound for a week: 65 wrong codes can be counted within seven days. */
  lemma SixtyFiveFitInAWeek() returns (run: seq<Event>)
    ensures Ordered(run) && NoSuccess(run)
    ensures var times := CountedTimes(None, run);
            |times| == 65 && times[64] <= times[0] + MFA_STRIKE_MEMORY
  {
    run := FastestMeetsBound(65);
    LockSumValues();
  }

  // ---- when a code is refused, when it continues the count -----------------

  /** What holds of every record: a lock stands only behind the code that ended its round. */
  predicate Settled(s: Option<MfaStrikes>, now: nat)
  {
    s.Some? ==>
      && s.value.count >= 1 && s.value.last <= now
      && if s.value.count % MFA_MAX_STRIKES == 0
         then s.value.lockedUntil == Some(s.value.last + Lock(s.value.count / MFA_MAX_STRIKES))
         else s.value.lockedUntil.Some? ==> s.value.lockedUntil.value <= s.value.last
  }

  lemma SubmittedSettles(s: Option<MfaStrikes>, before: nat, e: Event)
    requires Settled(s, before) && before <= e.now
    ensures Settled(Submitted(s, e.now, e.outcome), e.now)
  {
    var count := if s.Some? && SatSub(e.now, s.value.last) <= MFA_STRIKE_MEMORY then s.value.count + 1 else 1;
    assert s.Some? ==> Counted(s, e.now).count == count;
  }

  lemma {:induction false} RunSettles(s: Option<MfaStrikes>, before: nat, run: seq<Event>)
    requires Settled(s, before) && Ordered(run) && (run != [] ==> before <= run[0].now)
    ensures Settled(After(s, run), if run == [] then before else run[|run| - 1].now)
    decreases run
  {
    if run != [] {
      SubmittedSettles(s, before, run[0]);
      assert run[1..] != [] ==> run[1..][0] == run[1] && run[1..][|run[1..]| - 1] == run[|run| - 1];
      RunSettles(Submitted(s, run[0].now, run[0].outcome), run[0].now, run[1..]);
    }
  }

  /** After any run from no record, a code is refused exactly if the latest counted code
      ended a round of five and that round's lock has not run out; a wrong one continues the
      count exactly if it comes within the strike memory. Every lock ends with at least six
      days of that memory to go, so waiting it out never resets the run. */
  lemma WaitingOutContinues(run: seq<Event>, now: nat)
    requires Ordered(run) && (run != [] ==> run[|run| - 1].now <= now) && After(None, run).Some?
    ensures var s := After(None, run).value;
            var round := s.count / MFA_MAX_STRIKES;
            && (LockLeft(Some(s), now).Some? <==>
                  s.count % MFA_MAX_STRIKES == 0 && round >= 1 && now < s.last + Lock(round))
            && (Counted(Some(s), now).count == s.count + 1 <==> now <= s.last + MFA_STRIKE_MEMORY)
            && (round >= 1 ==> s.last + Lock(round) + 6 * MFA_LOCKOUT_MAX <= s.last + MFA_STRIKE_MEMORY)
  {
    RunSettles(None, 0, run);
    var s := After(None, run).value;
    if s.count / MFA_MAX_STRIKES >= 1 { LocksDouble(s.count / MFA_MAX_STRIKES); }
  }

  /** From no record, four wrong codes within a week of each other lock nothing; the fifth locks
      for a quarter of an hour. */
  lemma FifthWrongLocks(at: seq<nat>)
    requires |at| == 5 && forall i :: 0 <= i < 4 ==> at[i] <= at[i + 1] <= at[i] + 7 * 24 * 3600 * SECOND
    ensures var s1 := Submitted(None, at[0], Wrong);
            var s2 := Submitted(s1, at[1], Wrong);
            var s3 := Submitted(s2, at[2], Wrong);
            var s4 := Submitted(s3, at[3], Wrong);
            var s5 := Submitted(s4, at[4], Wrong);
            && s4 == Some(MfaStrikes(4, at[3], None))
            && s5 == Some(MfaStrikes(5, at[4], Some(at[4] + 15 * 60 * SECOND)))
            && LockLeft(s5, at[4]) == Some(15 * 60 * SECOND) && LockLeft(s5, at[4] + 15 * 60 * SECOND) == None
  {
    assert Shifted(0) == 1;
  }

  // ---- the strike count keeps within its 32 bits ---------------------------

  /** The strikes on record have taken their time, counted from `since`. */
  predicate TookLong(s: Option<MfaStrikes>, since: nat)
  {
    s.Some? ==> s.value.count >= 1 && since + LockSum((s.value.count - 1) / MFA_MAX_STRIKES) <= s.value.last
  }

  lemma SubmittedTookLong(s: Option<MfaStrikes>, since: nat, before: nat, e: Event)
    requires Settled(s, before) && TookLong(s, since) && since <= before <= e.now
    ensures TookLong(Submitted(s, e.now, e.outcome), since)
  {
    var next := Submitted(s, e.now, e.outcome);
    if next != s && next.Some? {
      if s.Some? && SatSub(e.now, s.value.last) <= MFA_STRIKE_MEMORY {
        assert Tally(s, s.value.count, since);
        TallyGrows(s, s.value.count, since, e.now);
        assert LockSum(0) == 0;
      } else {
        assert next.value.count == 1 && LockSum(0) == 0;
      }
    }
  }

  lemma {:induction false} RunTookLong(s: Option<MfaStrikes>, since: nat, before: nat, run: seq<Event>)
    requires Settled(s, before) && TookLong(s, since) && since <= before
    requires Ordered(run) && (run != [] ==> before <= run[0].now)
    ensures TookLong(After(s, run), since)
    decreases run
  {
    if run != [] {
      SubmittedSettles(s, before, run[0]);
      SubmittedTookLong(s, since, before, run[0]);
      assert run[1..] != [] ==> run[1..][0] == run[1];
      RunTookLong(Submitted(s, run[0].now, run[0].outcome), since, run[0].now, run[1..]);
    }
  }

  function Repeated(n: nat, long: nat): nat { if n == 0 then 0 else Repeated(n - 1, long) + long }

  lemma {:induction false} RepeatedIsProduct(n: nat, long: nat)
    ensures Repeated(n, long) == n * long
  {
    if n > 0 {
      RepeatedIsProduct(n - 1, long);
      assert (n - 1) * long + long == n * long;
    }
  }

  /** Locks do not get shorter, so `n` more rounds take at least `n` times the first of them. */
  lemma {:induction false} LocksAddUp(first: nat, n: nat, long: nat)
    requires 1 <= first && long <= Lock(first)
    ensures LockSum(first + n) >= Repeated(n, long)
    decreases n
  {
    if n > 0 {
      LocksAddUp(first, n - 1, long);
      OneRoundMore(first + (n - 1));
      LocksGrow(first, first + n);
    }
  }

  /** In a run shorter than two million years the count never leaves 32 bits. */
  lemma CountNeverWraps(run: seq<Event>)
    requires Ordered(run) && After(None, run).Some?
    requires run != [] ==> run[|run| - 1].now - run[0].now < 2_000_000 * 365 * MFA_LOCKOUT_MAX
    ensures After(None, run).value.count <= U32_MAX
  {
    if run != [] {
      var since, s := run[0].now, After(None, run).value;
      RunTookLong(None, since, since, run);
      RunSettles(None, since, run);
      var rounds := (s.count - 1) / MFA_MAX_STRIKES;
      LockValues();
      if rounds >= 8 {
        LocksAddUp(8, rounds - 8, MFA_LOCKOUT_MAX);
        RepeatedIsProduct(rounds - 8, MFA_LOCKOUT_MAX);
      }
    }
  }
}
