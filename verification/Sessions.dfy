/** Login sessions (src/session.rs): the map in memory and the sessions file, which is
    rewritten under the lock with what is worth keeping, and may fail to be. One clock
    stands for both the monotonic and the wall clock. */
module Sessions {
  import opened Basics

  const PREAUTH_TTL: nat := 1800
  const MAX_SESSIONS: nat := 10000

  type Key = string
  type Flow = string

  datatype Session = Session(authenticated: bool, mfaPending: bool, username: string,
                             oauth: Option<Flow>, csrf: string, created: nat)

  type Table = map<Key, Session>

  datatype Store = Store(inner: Table, disk: Table, ttl: nat)

  function Ttl(s: Session, ttl: nat): nat { if s.authenticated then ttl else PREAUTH_TTL }

  predicate Expired(s: Session, ttl: nat, now: nat) { SatSub(now, s.created) >= Ttl(s, ttl) }

  predicate Meaningful(s: Session) { s.authenticated || s.mfaPending || s.oauth.Some? }

  // ---- specification of the operations ----------------------------------------------

  /** What of the map is worth keeping. */
  function Worth(m: Table, ttl: nat, now: nat): Table
  {
    map k | k in m && Meaningful(m[k]) && !Expired(m[k], ttl, now) :: m[k]
  }

  function Saved(s: Store, inner: Table, now: nat, ok: bool): Store
  {
    Store(inner, if ok then Worth(inner, s.ttl, now) else s.disk, s.ttl)
  }

  function Anonymous(csrf: string, now: nat): Session
  {
    Session(false, false, "", None, csrf, now)
  }

  /** The candidates for eviction: sessions not authenticated, or all if there are none. */
  function Candidates(m: Table): set<Key>
  {
    var unproved := set k | k in m && !m[k].authenticated;
    if unproved != {} then unproved else m.Keys
  }

  predicate Oldest(m: Table, k: Key, of: set<Key>)
  {
    k in of && of <= m.Keys && forall j :: j in of ==> m[k].created <= m[j].created
  }

  predicate Evictable(m: Table, victim: Option<Key>)
  {
    if |m| >= MAX_SESSIONS then victim.Some? && Oldest(m, victim.value, Candidates(m)) else victim.None?
  }

  function AfterCreate(s: Store, key: Key, csrf: string, victim: Option<Key>, now: nat): Store
  {
    var kept := if victim.Some? then s.inner - {victim.value} else s.inner;
    s.(inner := kept[key := Anonymous(csrf, now)])
  }

  function AfterGet(s: Store, key: Key, now: nat, ok: bool): Store
  {
    if key in s.inner && Expired(s.inner[key], s.ttl, now) then Saved(s, s.inner - {key}, now, ok) else s
  }

  function AfterRemove(s: Store, key: Key, now: nat, ok: bool): Store
  {
    if key in s.inner then Saved(s, s.inner - {key}, now, ok) else s
  }

  /** `login` and `begin_mfa`: the old id is taken out, a new one put in. */
  function AfterSwitch(s: Store, retired: Key, key: Key, session: Session, now: nat, ok: bool): Store
  {
    Saved(s, (s.inner - {retired})[key := session], now, ok)
  }

  function LoggedIn(user: string, csrf: string, now: nat): Session
  {
    Session(true, false, user, None, csrf, now)
  }

  function AwaitingCode(user: string, csrf: string, now: nat): Session
  {
    Session(false, true, user, None, csrf, now)
  }

  function Dead(m: Table, ttl: nat, now: nat): set<Key>
  {
    set k | k in m && Expired(m[k], ttl, now)
  }

  function AfterSweep(s: Store, now: nat, ok: bool): Store
  {
    if Dead(s.inner, s.ttl, now) == {} then s
    else Saved(s, s.inner - Dead(s.inner, s.ttl, now), now, ok)
  }

  function AfterSetOauth(s: Store, key: Key, flow: Option<Flow>, now: nat, ok: bool): Store
  {
    if key in s.inner then Saved(s, s.inner[key := s.inner[key].(oauth := flow)], now, ok) else s
  }

  function Loaded(disk: Table, ttl: nat, now: nat, ok: bool): Store
  {
    Saved(Store(map[], disk, ttl), Worth(disk, ttl, now), now, ok)
  }

  // ---- the store ------------------------------------------------------------------------

  class SessionStore {
    var inner: Table
    var disk: Table
    const ttl: nat

    function State(): Store
      reads this
    {
      Store(inner, disk, ttl)
    }

    /** `load`: expired and anonymous entries are passed over, the rest written back. */
    constructor (disk: Table, ttl: nat, now: nat, ok: bool)
      ensures State() == Loaded(disk, ttl, now, ok)
      ensures forall k :: k in inner <==>
                && k in disk && (disk[k].authenticated || disk[k].mfaPending || disk[k].oauth.Some?)
                && SatSub(now, disk[k].created) < if disk[k].authenticated then ttl else 1800
      ensures forall k :: k in inner ==> inner[k] == disk[k]
      ensures this.disk == if ok then inner else disk
    {
      this.ttl := ttl;
      inner := Worth(disk, ttl, now);
      this.disk := if ok then Worth(Worth(disk, ttl, now), ttl, now) else disk;
    }

    method PersistLocked(now: nat, ok: bool)
      modifies this`disk
      ensures State() == Saved(old(State()), inner, now, ok)
      ensures ok ==> forall k :: k in disk <==>
                && k in inner && (inner[k].authenticated || inner[k].mfaPending || inner[k].oauth.Some?)
                && SatSub(now, inner[k].created) < if inner[k].authenticated then ttl else 1800
      ensures ok ==> forall k :: k in disk ==> disk[k] == inner[k]
      ensures !ok ==> disk == old(disk)
    {
      if ok { disk := map k | k in inner && Meaningful(inner[k]) && !Expired(inner[k], ttl, now) :: inner[k]; }
    }

    method Create(key: Key, csrf: string, now: nat) returns (ghost victim: Option<Key>)
      modifies this
      ensures Evictable(old(inner), victim)
      ensures State() == AfterCreate(old(State()), key, csrf, victim, now)
      ensures key in inner && inner[key] == Session(false, false, "", None, csrf, now) && disk == old(disk)
      ensures forall k :: k != key ==> (k in inner <==> k in old(inner) && victim != Some(k))
      ensures forall k :: k in inner && k != key ==> inner[k] == old(inner)[k]
      ensures victim.Some? <==> |old(inner)| >= 10000
      // The oldest of those without a login goes, and only if there are none, the oldest of all.
      ensures victim.Some? ==>
          && victim.value in old(inner)
          && (forall k :: k in old(inner) && (old(inner)[victim.value].authenticated || !old(inner)[k].authenticated)
                ==> old(inner)[victim.value].created <= old(inner)[k].created)
          && (old(inner)[victim.value].authenticated ==> forall k :: k in old(inner) ==> old(inner)[k].authenticated)
    {
      victim := None;
      if |inner| >= MAX_SESSIONS {
        var k := OldestOf(inner, Candidates(inner));
        ghost var unproven := set j | j in inner && !inner[j].authenticated;
        assert forall j :: j in inner && !inner[j].authenticated ==> j in unproven;
        inner := inner - {k};
        victim := Some(k);
      }
      inner := inner[key := Anonymous(csrf, now)];
    }

    method Get(key: Key, now: nat, ok: bool) returns (r: Option<Session>)
      modifies this
      ensures State() == AfterGet(old(State()), key, now, ok)
      ensures r.Some? <==>
          && key in old(inner)
          && SatSub(now, old(inner)[key].created) < if old(inner)[key].authenticated then ttl else 1800
      ensures r.Some? ==> r.value == old(inner)[key] && inner == old(inner) && disk == old(disk)
      ensures r.None? ==> inner == old(inner) - {key}
    {
      if key !in inner { return None; }
      if !Expired(inner[key], ttl, now) { return Some(inner[key]); }
      inner := inner - {key};
      PersistLocked(now, ok);
      return None;
    }

    method Remove(key: Key, now: nat, ok: bool)
      modifies this
      ensures State() == AfterRemove(old(State()), key, now, ok)
      ensures inner == old(inner) - {key} && (key !in old(inner) ==> disk == old(disk))
      ensures key in old(inner) && ok ==> key !in disk
    {
      if key in inner {
        inner := inner - {key};
        PersistLocked(now, ok);
      }
    }

    method Login(oldKey: Key, user: string, key: Key, csrf: string, now: nat, ok: bool)
      modifies this
      ensures State() == AfterSwitch(old(State()), oldKey, key, LoggedIn(user, csrf, now), now, ok)
      ensures key in inner && inner[key].authenticated && !inner[key].mfaPending && inner[key].oauth == None
      ensures inner[key].username == user && inner[key].csrf == csrf && inner[key].created == now
      ensures forall k :: k != key ==> (k in inner <==> k in old(inner) && k != oldKey)
      ensures forall k :: k in inner && k != key ==> inner[k] == old(inner)[k]
    {
      inner := inner - {oldKey};
      inner := inner[key := LoggedIn(user, csrf, now)];
      PersistLocked(now, ok);
    }

    method BeginMfa(oldKey: Key, user: string, key: Key, csrf: string, now: nat, ok: bool)
      modifies this
      ensures State() == AfterSwitch(old(State()), oldKey, key, AwaitingCode(user, csrf, now), now, ok)
      ensures key in inner && !inner[key].authenticated && inner[key].mfaPending && inner[key].oauth == None
      ensures inner[key].username == user && inner[key].csrf == csrf && inner[key].created == now
      ensures forall k :: k != key ==> (k in inner <==> k in old(inner) && k != oldKey)
      ensures forall k :: k in inner && k != key ==> inner[k] == old(inner)[k]
    {
      inner := inner - {oldKey};
      inner := inner[key := AwaitingCode(user, csrf, now)];
      PersistLocked(now, ok);
    }

    method Sweep(now: nat, ok: bool)
      modifies this
      ensures State() == AfterSweep(old(State()), now, ok)
      ensures forall k :: k in inner <==>
                && k in old(inner)
                && SatSub(now, old(inner)[k].created) < if old(inner)[k].authenticated then ttl else 1800
      ensures forall k :: k in inner ==> inner[k] == old(inner)[k]
    {
      var changed := false;
      var todo := inner.Keys;
      ghost var was := inner;
      while todo != {}
        modifies this`inner
        invariant todo <= inner.Keys <= was.Keys
        invariant inner == was - (Dead(was, ttl, now) - todo)
        invariant changed <==> Dead(was, ttl, now) - todo != {}
      {
        var k :| k in todo;
        todo := todo - {k};
        if Expired(inner[k], ttl, now) {
          inner := inner - {k};
          changed := true;
        }
      }
      assert Dead(was, ttl, now) - todo == Dead(was, ttl, now);
      if changed { PersistLocked(now, ok); }
    }

    method SetOauth(key: Key, flow: Option<Flow>, now: nat, ok: bool)
      modifies this
      ensures State() == AfterSetOauth(old(State()), key, flow, now, ok)
      ensures inner.Keys == old(inner).Keys && (key in inner ==> inner[key] == old(inner)[key].(oauth := flow))
      ensures forall k :: k in inner && k != key ==> inner[k] == old(inner)[k]
    {
      if key in inner {
        inner := inner[key := inner[key].(oauth := flow)];
        PersistLocked(now, ok);
      }
    }
  }

  /** `min_by_key` on the creation time. */
  method OldestOf(m: Table, of: set<Key>) returns (k: Key)
    requires of != {} && of <= m.Keys
    ensures Oldest(m, k, of)
  {
    k :| k in of;
    var todo := of - {k};
    while todo != {}
      invariant todo <= of && k in of
      invariant forall j :: j in of - todo ==> m[k].created <= m[j].created
    {
      var j :| j in todo;
      todo := todo - {j};
      if m[j].created < m[k].created { k := j; }
    }
  }

  // ---- runs, restarts included -------------------------------------------------------------

  datatype Step =
    | Create(key: Key, csrf: string, victim: Option<Key>)
    | Get(key: Key)
    | Remove(key: Key)
    | Login(oldKey: Key, user: string, key: Key, csrf: string)
    | BeginMfa(oldKey: Key, user: string, key: Key, csrf: string)
    | Sweep
    | SetOauth(key: Key, flow: Option<Flow>)
    | Restart(ttl: nat)

  /** The steps that put a new id in the place of an old one. */
  predicate Switches(step: Step) { step.Login? || step.BeginMfa? }

  /** A step, when it happens, and whether the file can be written then. */
  datatype Event = Event(step: Step, now: nat, ok: bool)

  predicate Enabled(s: Store, e: Event)
  {
    match e.step
    case Create(_, _, victim) => Evictable(s.inner, victim)
    case _ => true
  }

  function Apply(s: Store, e: Event): Store
  {
    match e.step
    case Create(key, csrf, victim) => AfterCreate(s, key, csrf, victim, e.now)
    case Get(key) => AfterGet(s, key, e.now, e.ok)
    case Remove(key) => AfterRemove(s, key, e.now, e.ok)
    case Login(oldKey, user, key, csrf) => AfterSwitch(s, oldKey, key, LoggedIn(user, csrf, e.now), e.now, e.ok)
    case BeginMfa(oldKey, user, key, csrf) =>
      AfterSwitch(s, oldKey, key, AwaitingCode(user, csrf, e.now), e.now, e.ok)
    case Sweep => AfterSweep(s, e.now, e.ok)
    case SetOauth(key, flow) => AfterSetOauth(s, key, flow, e.now, e.ok)
    case Restart(ttl) => Loaded(s.disk, ttl, e.now, e.ok)
  }

  predicate Legal(s: Store, run: seq<Event>)
    decreases run
  {
    run == [] || (Enabled(s, run[0]) && Legal(Apply(s, run[0]), run[1..]))
  }

  function After(s: Store, run: seq<Event>): Store
    decreases run
  {
    if run == [] then s else After(Apply(s, run[0]), run[1..])
  }

  /** Clock readings go forward from `since` and end by `until`. */
  predicate Forward(run: seq<Event>, since: nat, until: nat)
    decreases run
  {
    if run == [] then since <= until
    else since <= run[0].now && Forward(run[1..], run[0].now, until)
  }

  predicate AllSaved(run: seq<Event>) { forall i :: 0 <= i < |run| ==> run[i].ok }

  /** Session ids never repeat. */
  predicate NeverIssues(run: seq<Event>, key: Key)
  {
    forall i :: 0 <= i < |run| ==>
      (run[i].step.Create? || Switches(run[i].step) ==> run[i].step.key != key)
  }

  // ---- the file follows the map -----------------------------------------------------------------

  /** Every live session worth keeping is on disk, with the same fields. */
  predicate Covers(s: Store, now: nat)
  {
    forall k :: k in Worth(s.inner, s.ttl, now) ==> k in s.disk && s.disk[k] == s.inner[k]
  }

  predicate OnlyWorth(disk: Table)
  {
    forall k :: k in disk ==> disk[k].authenticated || disk[k].mfaPending || disk[k].oauth.Some?
  }

  lemma StepCovers(s: Store, e: Event, since: nat)
    requires Covers(s, since) && since <= e.now && e.ok && Enabled(s, e)
    ensures Covers(Apply(s, e), e.now)
  {
    assert Covers(s, e.now) by {
      forall k | k in Worth(s.inner, s.ttl, e.now) ensures k in Worth(s.inner, s.ttl, since) {}
    }
  }

  lemma {:induction false} RunCovers(s: Store, run: seq<Event>, since: nat, until: nat)
    requires Covers(s, since) && Legal(s, run) && Forward(run, since, until) && AllSaved(run)
    ensures Covers(After(s, run), until)
    decreases run
  {
    if run == [] {
      forall k | k in Worth(s.inner, s.ttl, until) ensures k in Worth(s.inner, s.ttl, since) {}
    } else {
      StepCovers(s, run[0], since);
      RunCovers(Apply(s, run[0]), run[1..], run[0].now, until);
    }
  }

  /** As long as writes succeed, in every reachable state a restart brings back every
      live session worth keeping, with the same fields. */
  lemma RestartKeepsSessions(run: seq<Event>, ttl: nat, since: nat, until: nat, key: Key)
    requires Legal(Store(map[], map[], ttl), run) && Forward(run, since, until) && AllSaved(run)
    requires key in Worth(After(Store(map[], map[], ttl), run).inner, After(Store(map[], map[], ttl), run).ttl, until)
    ensures var s := After(Store(map[], map[], ttl), run);
            var x := Loaded(s.disk, s.ttl, until, true);
            key in x.inner && x.inner[key] == s.inner[key]
  {
    RunCovers(Store(map[], map[], ttl), run, since, until);
  }

  lemma StepKeepsWorth(s: Store, e: Event)
    requires OnlyWorth(s.disk)
    ensures OnlyWorth(Apply(s, e).disk)
  {
  }

  /** Anonymous sessions are never on disk, whatever fails. */
  lemma {:induction false} NothingAnonymousOnDisk(s: Store, run: seq<Event>)
    requires OnlyWorth(s.disk) && Legal(s, run)
    ensures OnlyWorth(After(s, run).disk)
    decreases run
  {
    if run != [] {
      StepKeepsWorth(s, run[0]);
      NothingAnonymousOnDisk(Apply(s, run[0]), run[1..]);
    }
  }

  // ---- where a session's standing comes from ------------------------------------------------------

  /** Nobody is logged in, or half logged in, without the step that says so: same id, same
      user, at the session's own time. */
  predicate LoggedBy(s: Session, key: Key, e: Event)
  {
    e.step.Login? && e.step.key == key && e.step.user == s.username && e.step.csrf == s.csrf && e.now == s.created
  }

  predicate HalfLoggedBy(s: Session, key: Key, e: Event)
  {
    e.step.BeginMfa? && e.step.key == key && e.step.user == s.username && e.step.csrf == s.csrf && e.now == s.created
  }

  predicate Vouched(m: Table, past: seq<Event>)
  {
    && (forall k :: k in m && m[k].authenticated ==>
          !m[k].mfaPending && exists i :: 0 <= i < |past| && LoggedBy(m[k], k, past[i]))
    && (forall k :: k in m && m[k].mfaPending ==> exists i :: 0 <= i < |past| && HalfLoggedBy(m[k], k, past[i]))
  }

  lemma VouchedLonger(m: Table, past: seq<Event>, e: Event)
    requires Vouched(m, past)
    ensures Vouched(m, past + [e])
  {
    forall k | k in m && m[k].authenticated
      ensures exists i :: 0 <= i < |past + [e]| && LoggedBy(m[k], k, (past + [e])[i])
    {
      var i :| 0 <= i < |past| && LoggedBy(m[k], k, past[i]);
      assert (past + [e])[i] == past[i];
    }
    forall k | k in m && m[k].mfaPending
      ensures exists i :: 0 <= i < |past + [e]| && HalfLoggedBy(m[k], k, (past + [e])[i])
    {
      var i :| 0 <= i < |past| && HalfLoggedBy(m[k], k, past[i]);
      assert (past + [e])[i] == past[i];
    }
  }

  /** Sessions that go, or change their flow alone, or are not logged in. */
  lemma VouchedLess(m: Table, less: Table, past: seq<Event>)
    requires Vouched(m, past)
    requires forall k :: k in less && (less[k].authenticated || less[k].mfaPending) ==>
               k in m && less[k] == m[k].(oauth := less[k].oauth)
    ensures Vouched(less, past)
  {
    forall k | k in less && less[k].authenticated
      ensures exists i :: 0 <= i < |past| && LoggedBy(less[k], k, past[i])
    {
      var i :| 0 <= i < |past| && LoggedBy(m[k], k, past[i]);
      assert LoggedBy(less[k], k, past[i]);
    }
    forall k | k in less && less[k].mfaPending
      ensures exists i :: 0 <= i < |past| && HalfLoggedBy(less[k], k, past[i])
    {
      var i :| 0 <= i < |past| && HalfLoggedBy(m[k], k, past[i]);
      assert HalfLoggedBy(less[k], k, past[i]);
    }
  }

  lemma VouchedSwitch(m: Table, more: Table, past: seq<Event>, e: Event)
    requires Vouched(m, past) && Switches(e.step)
    requires more == (m - {e.step.oldKey})[e.step.key := if e.step.Login? then LoggedIn(e.step.user, e.step.csrf, e.now)
                                                          else AwaitingCode(e.step.user, e.step.csrf, e.now)]
    ensures Vouched(more, past + [e])
  {
    VouchedLess(m, more - {e.step.key}, past);
    VouchedLonger(more - {e.step.key}, past, e);
    assert (past + [e])[|past|] == e;
    forall k | k in more && k != e.step.key ensures k in more - {e.step.key} && more[k] == (more - {e.step.key})[k] {}
  }

  /** What a save of vouched sessions leaves on disk. */
  lemma SavedVouched(s: Store, inner: Table, past: seq<Event>, now: nat, ok: bool)
    requires Vouched(inner, past) && Vouched(s.disk, past)
    ensures Vouched(Saved(s, inner, now, ok).inner, past) && Vouched(Saved(s, inner, now, ok).disk, past)
  {
    if ok { VouchedLess(inner, Worth(inner, s.ttl, now), past); }
  }

  lemma SwitchVouched(s: Store, past: seq<Event>, e: Event)
    requires Vouched(s.inner, past) && Vouched(s.disk, past) && Switches(e.step)
    ensures Vouched(Apply(s, e).inner, past + [e]) && Vouched(Apply(s, e).disk, past + [e])
  {
    VouchedLonger(s.disk, past, e);
    VouchedSwitch(s.inner, Apply(s, e).inner, past, e);
    SavedVouched(s, Apply(s, e).inner, past + [e], e.now, e.ok);
  }

  lemma OtherVouched(s: Store, past: seq<Event>, e: Event)
    requires Vouched(s.inner, past) && Vouched(s.disk, past) && !Switches(e.step) && !e.step.Restart?
    ensures Vouched(Apply(s, e).inner, past) && Vouched(Apply(s, e).disk, past)
  {
    var x := Apply(s, e);
    VouchedLess(s.inner, x.inner, past);
    SavedVouched(s, x.inner, past, e.now, e.ok);
  }

  lemma StepVouched(s: Store, past: seq<Event>, e: Event)
    requires Vouched(s.inner, past) && Vouched(s.disk, past)
    ensures Vouched(Apply(s, e).inner, past + [e]) && Vouched(Apply(s, e).disk, past + [e])
  {
    if Switches(e.step) {
      SwitchVouched(s, past, e);
    } else {
      if e.step.Restart? {
        VouchedLess(s.disk, Worth(s.disk, e.step.ttl, e.now), past);
        SavedVouched(Store(map[], s.disk, e.step.ttl), Worth(s.disk, e.step.ttl, e.now), past, e.now, e.ok);
      } else {
        OtherVouched(s, past, e);
      }
      VouchedLonger(Apply(s, e).inner, past, e);
      VouchedLonger(Apply(s, e).disk, past, e);
    }
  }

  lemma {:induction false} RunVouched(s: Store, past: seq<Event>, run: seq<Event>)
    requires Vouched(s.inner, past) && Vouched(s.disk, past) && Legal(s, run)
    ensures Vouched(After(s, run).inner, past + run) && Vouched(After(s, run).disk, past + run)
    decreases run
  {
    if run == [] {
      assert past + run == past;
    } else {
      StepVouched(s, past, run[0]);
      RunVouched(Apply(s, run[0]), past + [run[0]], run[1..]);
      assert past + [run[0]] + run[1..] == past + run;
    }
  }

  /** Over every run from an empty store, evictions, failed writes and restarts included: every
      authenticated session, in memory or on disk, goes back to a `login` with its very id, for
      its very user, and every session that awaits a code to a `begin_mfa`. */
  lemma EveryLoginIsALogin(ttl: nat, run: seq<Event>)
    requires Legal(Store(map[], map[], ttl), run)
    ensures var x := After(Store(map[], map[], ttl), run); Vouched(x.inner, run) && Vouched(x.disk, run)
  {
    RunVouched(Store(map[], map[], ttl), [], run);
    assert [] + run == run;
  }

  // ---- what is taken out stays out ------------------------------------------------------------------

  /** The session a step takes out on purpose. */
  predicate TakesOut(s: Store, e: Event, key: Key)
  {
    match e.step
    case Remove(k) => k == key && key in s.inner
    case Login(k, _, next, _) => k == key && next != key
    case BeginMfa(k, _, next, _) => k == key && next != key
    case _ => false
  }

  lemma {:induction false} GoneForGood(s: Store, run: seq<Event>, key: Key)
    requires Legal(s, run) && NeverIssues(run, key) && key !in s.inner && key !in s.disk
    ensures key !in After(s, run).inner && key !in After(s, run).disk
    decreases run
  {
    if run != [] {
      assert NeverIssues([run[0]], key);
      StepStaysOut(s, run[0], key);
      GoneForGood(Apply(s, run[0]), run[1..], key);
    }
  }

  lemma StepStaysOut(s: Store, e: Event, key: Key)
    requires NeverIssues([e], key) && key !in s.inner && key !in s.disk
    ensures key !in Apply(s, e).inner && key !in Apply(s, e).disk
  {
    assert [e][0] == e;
  }

  /** A session that logging out, logging in or starting the second factor took out, with
      a successful write, never returns, across restarts and later failed writes. */
  lemma TakenOutForGood(s: Store, e: Event, run: seq<Event>, key: Key)
    requires Enabled(s, e) && e.ok && TakesOut(s, e, key)
    requires Legal(Apply(s, e), run) && NeverIssues(run, key)
    ensures key !in After(Apply(s, e), run).inner && key !in After(Apply(s, e), run).disk
  {
    GoneForGood(Apply(s, e), run, key);
  }

  /** Logging out, even with the write succeeding, leaves a session on disk that had been
      evicted from memory. It is back after a restart: creating one session too many evicts
      `key`, and logging out of it finds nothing to do. */
  lemma EvictedThenLoggedOut(s: Store, key: Key, newcomer: Key, csrf: string, now: nat)
    requires |s.inner| >= MAX_SESSIONS && Oldest(s.inner, key, Candidates(s.inner)) && newcomer != key
    requires Covers(s, now) && Meaningful(s.inner[key]) && !Expired(s.inner[key], s.ttl, now)
    ensures Evictable(s.inner, Some(key))
    ensures var created := AfterCreate(s, newcomer, csrf, Some(key), now);
            var removed := AfterRemove(created, key, now, true);
            key in Loaded(removed.disk, s.ttl, now, true).inner
  {
    assert key in Worth(s.inner, s.ttl, now);
  }

  /** Reaching that from an empty store: visitors who each get an anonymous session and log
      in, all within one second. */
  function Name(i: nat): Key { seq(i, _ => 'x') }

  function Visitor(i: nat): Key { ['v'] + Name(i) }

  function Logins(i: nat, n: nat, now: nat): seq<Event>
    decreases n - i
  {
    if i >= n then []
    else [Event(Create(Visitor(i), "", None), now, true),
          Event(Login(Visitor(i), "", Name(i), ""), now, true)] + Logins(i + 1, n, now)
  }

  /** Who is logged in after the first `n`. */
  function Crowd(n: nat, now: nat): Table
  {
    if n == 0 then map[] else Crowd(n - 1, now)[Name(n - 1) := LoggedIn("", "", now)]
  }

  lemma {:induction false} CrowdIs(n: nat, now: nat)
    ensures forall k :: k in Crowd(n, now) ==> k == Name(|k|) && |k| < n && Crowd(n, now)[k] == LoggedIn("", "", now)
    ensures forall i :: 0 <= i < n ==> Name(i) in Crowd(n, now)
    ensures |Crowd(n, now)| == n
  {
    if n > 0 {
      CrowdIs(n - 1, now);
      assert |Name(n - 1)| == n - 1;
      assert Name(n - 1) !in Crowd(n - 1, now);
      assert Crowd(n, now).Keys == Crowd(n - 1, now).Keys + {Name(n - 1)};
    }
  }

  lemma CrowdIsKept(n: nat, ttl: nat, now: nat)
    requires ttl > 0
    ensures Worth(Crowd(n, now), ttl, now) == Crowd(n, now) && Candidates(Crowd(n, now)) == Crowd(n, now).Keys
    ensures forall i: nat :: Visitor(i) !in Crowd(n, now)
  {
    CrowdIs(n, now);
    forall i: nat ensures Visitor(i) !in Crowd(n, now) {
      assert Visitor(i)[0] == 'v';
      assert Visitor(i) != Name(i + 1) by { assert Name(i + 1)[0] == 'x'; }
    }
  }

  lemma OneLogin(i: nat, ttl: nat, now: nat)
    requires ttl > 0 && i < MAX_SESSIONS
    ensures var s, e := Store(Crowd(i, now), Crowd(i, now), ttl), Event(Create(Visitor(i), "", None), now, true);
            && Enabled(s, e)
            && Apply(Apply(s, e), Event(Login(Visitor(i), "", Name(i), ""), now, true))
               == Store(Crowd(i + 1, now), Crowd(i + 1, now), ttl)
  {
    CrowdIs(i, now);
    CrowdIsKept(i, ttl, now);
    CrowdIsKept(i + 1, ttl, now);
    assert Crowd(i, now)[Visitor(i) := Anonymous("", now)] - {Visitor(i)} == Crowd(i, now);
  }

  lemma {:induction false} CrowdGathers(i: nat, n: nat, ttl: nat, now: nat)
    requires ttl > 0 && i <= n <= MAX_SESSIONS
    ensures Legal(Store(Crowd(i, now), Crowd(i, now), ttl), Logins(i, n, now))
    ensures After(Store(Crowd(i, now), Crowd(i, now), ttl), Logins(i, n, now))
         == Store(Crowd(n, now), Crowd(n, now), ttl)
    decreases n - i
  {
    if i < n {
      OneLogin(i, ttl, now);
      CrowdGathers(i + 1, n, ttl, now);
      TwoSteps(Store(Crowd(i, now), Crowd(i, now), ttl), Event(Create(Visitor(i), "", None), now, true),
               Event(Login(Visitor(i), "", Name(i), ""), now, true), Logins(i + 1, n, now));
    }
  }

  lemma TwoSteps(s: Store, a: Event, b: Event, rest: seq<Event>)
    ensures Legal(s, [a, b] + rest)
       <==> Enabled(s, a) && Enabled(Apply(s, a), b) && Legal(Apply(Apply(s, a), b), rest)
    ensures After(s, [a, b] + rest) == After(Apply(Apply(s, a), b), rest)
  {
    assert ([a, b] + rest)[1..] == [b] + rest && ([b] + rest)[1..] == rest;
  }

  lemma {:induction false} RunsJoin(s: Store, a: seq<Event>, b: seq<Event>)
    requires Legal(s, a) && Legal(After(s, a), b)
    ensures Legal(s, a + b) && After(s, a + b) == After(After(s, a), b)
    decreases a
  {
    if a == [] {
      assert a + b == b;
    } else {
      assert (a + b)[1..] == a[1..] + b;
      RunsJoin(Apply(s, a[0]), a[1..], b);
    }
  }

  /** One newcomer too many, the first visitor logs out, the server restarts. */
  function Overflow(n: nat, ttl: nat, now: nat): seq<Event>
  {
    [Event(Create(Visitor(n), "", Some(Name(0))), now, true), Event(Remove(Name(0)), now, true)]
    + [Event(Restart(ttl), now, true)]
  }

  lemma OverflowReturns(n: nat, ttl: nat, now: nat)
    requires ttl > 0 && n >= MAX_SESSIONS
    ensures Legal(Store(Crowd(n, now), Crowd(n, now), ttl), Overflow(n, ttl, now))
    ensures var x := After(Store(Crowd(n, now), Crowd(n, now), ttl), Overflow(n, ttl, now));
            Name(0) in x.inner && x.inner[Name(0)].authenticated
  {
    var s := Store(Crowd(n, now), Crowd(n, now), ttl);
    CrowdIs(n, now);
    CrowdIsKept(n, ttl, now);
    EvictedThenLoggedOut(s, Name(0), Visitor(n), "", now);
    var a, b := Event(Create(Visitor(n), "", Some(Name(0))), now, true), Event(Remove(Name(0)), now, true);
    var restart := Event(Restart(ttl), now, true);
    TwoSteps(s, a, b, [restart]);
    var x := Apply(Apply(s, a), b);
    assert [restart][1..] == [];
    assert After(x, [restart]) == After(Apply(x, restart), []);
  }

  lemma {:induction false} LoginsSaved(i: nat, n: nat, now: nat)
    ensures AllSaved(Logins(i, n, now))
    decreases n - i
  {
    if i < n { LoginsSaved(i + 1, n, now); }
  }

  /** From an empty store, with every write succeeding, `n` visitors having logged in: a user
      who logged out is logged in again after a restart. */
  lemma LoggedOutAfterEvictionReturns(n: nat, ttl: nat, now: nat) returns (run: seq<Event>, key: Key)
    requires ttl > 0 && n == MAX_SESSIONS
    ensures Legal(Store(map[], map[], ttl), run) && AllSaved(run) && |run| >= 2
    ensures run[|run| - 2].step == Remove(key) && run[|run| - 1].step == Restart(ttl)
    ensures var x := After(Store(map[], map[], ttl), run); key in x.inner && x.inner[key].authenticated
  {
    CrowdGathers(0, n, ttl, now);
    OverflowReturns(n, ttl, now);
    LoginsSaved(0, n, now);
    RunsJoin(Store(map[], map[], ttl), Logins(0, n, now), Overflow(n, ttl, now));
    run, key := Logins(0, n, now) + Overflow(n, ttl, now), Name(0);
    LastTwo(Logins(0, n, now), Overflow(n, ttl, now));
  }

  lemma LastTwo(a: seq<Event>, b: seq<Event>)
    requires |b| >= 2
    ensures (a + b)[|a + b| - 2] == b[|b| - 2] && (a + b)[|a + b| - 1] == b[|b| - 1]
  {
  }

  /** Whether the step gets as far as rewriting the file, and does. */
  predicate Saves(s: Store, e: Event)
  {
    && e.ok
    && match e.step
       case Create(_, _, _) => false
       case Get(key) => key in s.inner && Expired(s.inner[key], s.ttl, e.now)
       case Remove(key) => key in s.inner
       case Login(_, _, _, _) => true
       case BeginMfa(_, _, _, _) => true
       case Sweep => Dead(s.inner, s.ttl, e.now) != {}
       case SetOauth(key, _) => key in s.inner
       case Restart(_) => true
  }

  predicate SomeSave(s: Store, run: seq<Event>)
    decreases run
  {
    run != [] && (Saves(s, run[0]) || SomeSave(Apply(s, run[0]), run[1..]))
  }

  predicate NoRestart(run: seq<Event>) { forall i :: 0 <= i < |run| ==> !run[i].step.Restart? }

  /** A session no longer in memory, evicted or taken out, comes back at the next
      restart exactly if the file still had it, worth keeping, and no write has succeeded
      since. */
  lemma {:induction false} ComesBackIff(s: Store, run: seq<Event>, key: Key, ttl: nat, now: nat, ok: bool)
    requires Legal(s, run) && NeverIssues(run, key) && NoRestart(run) && key !in s.inner
    ensures key in Loaded(After(s, run).disk, ttl, now, ok).inner
       <==> key in Worth(s.disk, ttl, now) && !SomeSave(s, run)
    decreases run
  {
    if run != [] {
      var x := Apply(s, run[0]);
      if Saves(s, run[0]) {
        GoneForGood(x, run[1..], key);
      } else {
        ComesBackIff(x, run[1..], key, ttl, now, ok);
      }
    }
  }

  // ---- the ceiling -------------------------------------------------------------------------------------

  /** A flood of anonymous sessions never takes the map over the ceiling. */
  lemma CreateKeepsCeiling(s: Store, key: Key, csrf: string, victim: Option<Key>, now: nat)
    requires |s.inner| <= MAX_SESSIONS && Evictable(s.inner, victim)
    ensures |AfterCreate(s, key, csrf, victim, now).inner| <= MAX_SESSIONS
  {
    if victim.Some? {
      assert |s.inner - {victim.value}| == |s.inner| - 1 by { MinusOne(s.inner, victim.value); }
    }
  }

  lemma MinusOne(m: Table, k: Key)
    ensures |m - {k}| == |m| - if k in m then 1 else 0
  {
    if k in m {
      assert m.Keys == (m - {k}).Keys + {k};
    } else {
      assert m - {k} == m;
    }
  }

  /** Logging in keeps it exactly if the old id was still there, or there was room. */
  lemma SwitchKeepsCeilingIff(s: Store, oldKey: Key, key: Key, session: Session, now: nat, ok: bool)
    requires |s.inner| <= MAX_SESSIONS && key !in s.inner
    ensures |AfterSwitch(s, oldKey, key, session, now, ok).inner| <= MAX_SESSIONS
       <==> oldKey in s.inner || |s.inner| < MAX_SESSIONS
  {
    MinusOne(s.inner, oldKey);
  }

  /** One and the same form, submitted again and again before any answer. */
  function Again(i: nat, n: nat, now: nat): seq<Event>
    decreases n - i
  {
    if i >= n then []
    else [Event(Login(Visitor(0), "", Name(i), ""), now, true)] + Again(i + 1, n, now)
  }

  lemma {:induction false} AgainGathers(i: nat, n: nat, ttl: nat, now: nat)
    requires ttl > 0 && i <= n
    ensures var s := Store(Crowd(i, now), Crowd(i, now), ttl);
            && Legal(s, Again(i, n, now)) && AllSaved(Again(i, n, now))
            && After(s, Again(i, n, now)) == Store(Crowd(n, now), Crowd(n, now), ttl)
    decreases n - i
  {
    if i < n {
      CrowdIsKept(i, ttl, now);
      CrowdIsKept(i + 1, ttl, now);
      assert Crowd(i, now) - {Visitor(0)} == Crowd(i, now);
      assert Again(i, n, now)[1..] == Again(i + 1, n, now);
      AgainGathers(i + 1, n, ttl, now);
    }
  }

  /** So nothing bounds the sessions: for every `n`, far above the ceiling too, a run from an
      empty store, with every write succeeding, ends with `n` of them in memory and on disk. */
  lemma LoginsHaveNoCeiling(n: nat, ttl: nat, now: nat) returns (run: seq<Event>)
    requires ttl > 0 && n >= 1
    ensures Legal(Store(map[], map[], ttl), run) && AllSaved(run)
    ensures |After(Store(map[], map[], ttl), run).inner| == |After(Store(map[], map[], ttl), run).disk| == n
  {
    var first := Logins(0, 1, now);
    CrowdGathers(0, 1, ttl, now);
    LoginsSaved(0, 1, now);
    AgainGathers(1, n, ttl, now);
    RunsJoin(Store(map[], map[], ttl), first, Again(1, n, now));
    CrowdIs(n, now);
    run := first + Again(1, n, now);
  }

  /** Every login replaces a session that is still there, or finds room. */
  predicate Roomy(s: Store, run: seq<Event>)
    decreases run
  {
    run == [] ||
      (&& (Switches(run[0].step) ==> run[0].step.oldKey in s.inner || |s.inner| < MAX_SESSIONS)
       && Roomy(Apply(s, run[0]), run[1..]))
  }

  lemma WorthIsFewer(m: Table, ttl: nat, now: nat)
    ensures |Worth(m, ttl, now)| <= |m|
  {
    SubsetSize(Worth(m, ttl, now).Keys, m.Keys);
  }

  predicate Fits(s: Store) { |s.inner| <= MAX_SESSIONS && |s.disk| <= MAX_SESSIONS }

  lemma SavedFits(s: Store, inner: Table, now: nat, ok: bool)
    requires |inner| <= MAX_SESSIONS && |s.disk| <= MAX_SESSIONS
    ensures Fits(Saved(s, inner, now, ok))
  {
    WorthIsFewer(inner, s.ttl, now);
  }

  /** Taking out some sessions and saving. */
  lemma LessFits(s: Store, gone: set<Key>, now: nat, ok: bool)
    requires Fits(s)
    ensures Fits(Saved(s, s.inner - gone, now, ok))
  {
    SubsetSize((s.inner - gone).Keys, s.inner.Keys);
    SavedFits(s, s.inner - gone, now, ok);
  }

  lemma OneLessFits(s: Store, key: Key, now: nat, ok: bool)
    requires Fits(s)
    ensures Fits(AfterGet(s, key, now, ok)) && Fits(AfterRemove(s, key, now, ok))
  {
    LessFits(s, {key}, now, ok);
  }

  lemma SweepFits(s: Store, now: nat, ok: bool)
    requires Fits(s)
    ensures Fits(AfterSweep(s, now, ok))
  {
    LessFits(s, Dead(s.inner, s.ttl, now), now, ok);
  }

  lemma SwitchFits(s: Store, oldKey: Key, key: Key, session: Session, now: nat, ok: bool)
    requires Fits(s) && (oldKey in s.inner || |s.inner| < MAX_SESSIONS)
    ensures Fits(AfterSwitch(s, oldKey, key, session, now, ok))
  {
    MinusOne(s.inner, oldKey);
    SavedFits(s, (s.inner - {oldKey})[key := session], now, ok);
  }

  lemma FlowFits(s: Store, key: Key, flow: Option<Flow>, now: nat, ok: bool)
    requires Fits(s)
    ensures Fits(AfterSetOauth(s, key, flow, now, ok))
  {
    if key in s.inner {
      var inner := s.inner[key := s.inner[key].(oauth := flow)];
      SubsetSize(inner.Keys, s.inner.Keys);
      SavedFits(s, inner, now, ok);
    }
  }

  lemma LoadedFits(disk: Table, ttl: nat, now: nat, ok: bool)
    requires |disk| <= MAX_SESSIONS
    ensures Fits(Loaded(disk, ttl, now, ok))
  {
    WorthIsFewer(disk, ttl, now);
    SavedFits(Store(map[], disk, ttl), Worth(disk, ttl, now), now, ok);
  }

  lemma CreateFits(s: Store, key: Key, csrf: string, victim: Option<Key>, now: nat)
    requires Fits(s) && Evictable(s.inner, victim)
    ensures Fits(AfterCreate(s, key, csrf, victim, now))
  {
    CreateKeepsCeiling(s, key, csrf, victim, now);
  }

  /** Steps that put nothing in. */
  lemma LessStepFits(s: Store, e: Event)
    requires Fits(s) && (e.step.Get? || e.step.Remove? || e.step.Sweep?)
    ensures Fits(Apply(s, e))
  {
    match e.step {
      case Get(key) => OneLessFits(s, key, e.now, e.ok);
      case Remove(key) => OneLessFits(s, key, e.now, e.ok);
      case Sweep => SweepFits(s, e.now, e.ok);
    }
  }

  /** Steps that keep the ids in memory, or read them back. */
  lemma SameStepFits(s: Store, e: Event)
    requires Fits(s) && (e.step.SetOauth? || e.step.Restart?)
    ensures Fits(Apply(s, e))
  {
    match e.step {
      case SetOauth(key, flow) => FlowFits(s, key, flow, e.now, e.ok);
      case Restart(ttl) => LoadedFits(s.disk, ttl, e.now, e.ok);
    }
  }

  /** Steps that put one in. */
  lemma MoreStepFits(s: Store, e: Event)
    requires Fits(s) && Enabled(s, e) && (e.step.Create? || Switches(e.step))
    requires Switches(e.step) ==> e.step.oldKey in s.inner || |s.inner| < MAX_SESSIONS
    ensures Fits(Apply(s, e))
  {
    match e.step {
      case Create(key, csrf, victim) => CreateFits(s, key, csrf, victim, e.now);
      case Login(oldKey, user, key, csrf) =>
        SwitchFits(s, oldKey, key, LoggedIn(user, csrf, e.now), e.now, e.ok);
      case BeginMfa(oldKey, user, key, csrf) =>
        SwitchFits(s, oldKey, key, AwaitingCode(user, csrf, e.now), e.now, e.ok);
    }
  }

  lemma StepKeepsCeiling(s: Store, e: Event)
    requires Fits(s) && Enabled(s, e)
    requires Switches(e.step) ==> e.step.oldKey in s.inner || |s.inner| < MAX_SESSIONS
    ensures Fits(Apply(s, e))
  {
    if e.step.Create? || Switches(e.step) {
      MoreStepFits(s, e);
    } else if e.step.SetOauth? || e.step.Restart? {
      SameStepFits(s, e);
    } else {
      LessStepFits(s, e);
    }
  }

  /** Over whole runs, restarts included, neither map nor file exceeds the ceiling. */
  lemma {:induction false} RunKeepsCeiling(s: Store, run: seq<Event>)
    requires Fits(s) && Legal(s, run) && Roomy(s, run)
    ensures Fits(After(s, run))
    decreases run
  {
    if run != [] {
      StepKeepsCeiling(s, run[0]);
      RunKeepsCeiling(Apply(s, run[0]), run[1..]);
    }
  }
}
