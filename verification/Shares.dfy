/** Share grants, the viewer leases taken on them, and the frames sent under a
    lease (src/share.rs, `ViewerOutput` in src/pty.rs). */
module Shares {
  import opened Basics
  import opened ShareToken

  const MAX_GRANTS_PER_USER: nat := 32
  const MAX_VIEWERS_PER_GRANT: nat := 32

  /** What was put on a viewer's socket: a frame started at some time, or Close. */
  datatype Wire = Data(frame: Bytes, at: nat) | Close

  datatype Lease = Lease(claim: Claim, wire: seq<Wire>)

  /** The grants held, and the objects that outlive them: `told` are the watch
      channels that carry `true`, `copies` the grants cloned by `list` (each keeps
      the channel's sender alive), `free` the permits left in the semaphore of every
      grant ever created, `leases` the outstanding leases by ticket. */
  datatype World = World(grants: map<Bytes, Claim>, told: set<Bytes>, copies: multiset<Bytes>,
                         free: map<Bytes, nat>, leases: map<nat, Lease>, tickets: nat)

  datatype CreateResult = Created(token: Bytes, id: Bytes) | TooMany
  datatype LeaseResult = Leased(ticket: nat) | Invalid | Full

  predicate Watched(w: World, id: Bytes)
  {
    exists h :: h in w.leases && w.leases[h].claim.id == id
  }

  /** `Lease::revoked`: the channel says so, or its last sender is gone. */
  predicate Revoked(w: World, h: nat)
    requires h in w.leases
  {
    var id := w.leases[h].claim.id;
    id in w.told || (id !in w.grants && id !in w.copies)
  }

  predicate Valid(w: World, h: nat, now: nat)
    requires h in w.leases
  {
    now < w.leases[h].claim.exp && !Revoked(w, h)
  }

  // ---- specification of the operations ----------------------------------------

  /** Grants leave the map: a channel that somebody still watches takes the value;
      sending on one that nobody watches fails and leaves it as it was. */
  function Removed(w: World, gone: set<Bytes>): World
  {
    w.(grants := w.grants - gone, told := w.told + Signalled(w, gone))
  }

  function Signalled(w: World, gone: set<Bytes>): set<Bytes>
  {
    set id | id in gone && Watched(w, id)
  }

  lemma RemovedNone(w: World)
    ensures Removed(w, {}) == w && Signalled(w, {}) == {}
  {
    assert w.grants - {} == w.grants;
  }

  /** Who watches is a matter of the leases. */
  lemma SignalledSame(w: World, x: World, gone: set<Bytes>)
    requires x.leases == w.leases
    ensures Signalled(x, gone) == Signalled(w, gone)
  {
  }

  lemma SignalledOneMore(w: World, gone: set<Bytes>, id: Bytes)
    requires id !in gone
    ensures Signalled(w, {id}) == if Watched(w, id) then {id} else {}
    ensures Signalled(w, gone + {id}) == Signalled(w, gone) + Signalled(w, {id})
    ensures |Signalled(w, gone + {id})| == |Signalled(w, gone)| + |Signalled(w, {id})|
  {
    assert Signalled(w, {id}) == if Watched(w, id) then {id} else {};
    assert Signalled(w, gone + {id}) == Signalled(w, gone) + Signalled(w, {id});
  }

  lemma ScannedOne(w: World, now: nat, todo: set<Bytes>, id: Bytes)
    requires id in todo && id in w.grants
    ensures Expired(w, now) - (todo - {id})
         == Expired(w, now) - todo + if w.grants[id].exp <= now then {id} else {}
  {
  }

  lemma MinusOneMore<K, V>(m: map<K, V>, gone: set<K>, k: K)
    ensures m - (gone + {k}) == m - gone - {k}
  {
  }

  lemma RemovedOneMore(w: World, gone: set<Bytes>, id: Bytes)
    requires id !in gone
    ensures Removed(w, gone + {id}) == Removed(Removed(w, gone), {id})
  {
    SignalledOneMore(w, gone, id);
    SignalledSame(w, Removed(w, gone), {id});
    MinusOneMore(w.grants, gone, id);
    assert w.told + Signalled(w, gone) + Signalled(w, {id}) == w.told + (Signalled(w, gone) + Signalled(w, {id}));
  }

  lemma PrunedOneMore(w: World, gone: set<Bytes>, id: Bytes)
    requires id !in gone
    ensures Removed(w, gone + {id}) == Removed(Removed(w, gone), {id})
    ensures |Signalled(w, gone + {id})| == |Signalled(w, gone)| + |Signalled(Removed(w, gone), {id})|
  {
    RemovedOneMore(w, gone, id);
    SignalledOneMore(w, gone, id);
    SignalledSame(w, Removed(w, gone), {id});
  }

  function Expired(w: World, now: nat): set<Bytes>
  {
    set id | id in w.grants && w.grants[id].exp <= now
  }

  function Pruned(w: World, now: nat): World { Removed(w, Expired(w, now)) }

  lemma PrunedIs(w: World, now: nat)
    ensures forall id :: id in Pruned(w, now).grants <==> id in w.grants && now < w.grants[id].exp
    ensures forall id :: id in Pruned(w, now).grants ==> Pruned(w, now).grants[id] == w.grants[id]
    ensures forall id :: id in Pruned(w, now).told <==>
        id in w.told || (id in w.grants && w.grants[id].exp <= now
                         && exists h :: h in w.leases && w.leases[h].claim.id == id)
  {
  }

  function Owned(w: World, user: Bytes): set<Bytes>
  {
    set id | id in w.grants && w.grants[id].user == user
  }

  function Added(w: World, c: Claim): World
  {
    w.(grants := w.grants[c.id := c], free := w.free[c.id := MAX_VIEWERS_PER_GRANT])
  }

  /** The grant is minted on the first reading of the clock, the map pruned on the
      second. */
  function AfterCreate(w: World, c: Claim, now: nat): World
  {
    var p := Pruned(w, now);
    if |Owned(p, c.user)| >= MAX_GRANTS_PER_USER then p
    else Added(p, c)
  }

  predicate Matches(w: World, c: Claim)
  {
    c.id in w.grants && w.grants[c.id].user == c.user && w.grants[c.id].index == c.index
    && w.grants[c.id].exp == c.exp
  }

  function AfterResolve(w: World, claim: Option<Claim>, now: nat): World
  {
    if claim.Some? && now >= claim.value.exp && claim.value.id in w.grants
    then Removed(w, {claim.value.id})
    else w
  }

  function ResolvesTo(w: World, claim: Option<Claim>, now: nat): Option<(Bytes, nat)>
  {
    if claim.Some? && now < claim.value.exp && Matches(w, claim.value)
    then Some((claim.value.user, claim.value.index))
    else None
  }

  predicate MayRevoke(w: World, user: Bytes, id: Bytes)
  {
    id in w.grants && w.grants[id].user == user
  }

  function AfterRevoke(w: World, user: Bytes, id: Bytes): World
  {
    if MayRevoke(w, user, id) then Removed(w, {id}) else w
  }

  predicate MayLease(w: World, claim: Option<Claim>, now: nat)
  {
    claim.Some? && now < claim.value.exp && Matches(w, claim.value)
  }

  predicate HasRoom(w: World, id: Bytes) { id in w.free && w.free[id] > 0 }

  function LeaseOutcome(w: World, claim: Option<Claim>, now: nat): LeaseResult
  {
    if !MayLease(w, claim, now) then Invalid
    else if HasRoom(w, claim.value.id) then Leased(w.tickets)
    else Full
  }

  function AfterLease(w: World, claim: Option<Claim>, now: nat): World
  {
    if MayLease(w, claim, now) && HasRoom(w, claim.value.id) then
      w.(free := w.free[claim.value.id := w.free[claim.value.id] - 1],
         leases := w.leases[w.tickets := Lease(claim.value, [])],
         tickets := w.tickets + 1)
    else w
  }

  function AfterDrop(w: World, h: nat): World
    requires h in w.leases && w.leases[h].claim.id in w.free
  {
    var id := w.leases[h].claim.id;
    w.(free := w.free[id := w.free[id] + 1], leases := w.leases - {h})
  }

  function AfterList(w: World, user: Bytes, now: nat): World
  {
    var p := Pruned(w, now);
    p.(copies := p.copies + multiset(Owned(p, user)))
  }

  /** One frame: dropped for a Close once the lease is no longer valid. */
  function AfterSend(w: World, h: nat, frame: Bytes, now: nat): World
    requires h in w.leases
  {
    var put := if Valid(w, h, now) then Data(frame, now) else Close;
    w.(leases := w.leases[h := w.leases[h].(wire := w.leases[h].wire + [put])])
  }

  // ---- the invariant ------------------------------------------------------------

  function Holders(w: World, id: Bytes): set<nat>
  {
    set h | h in w.leases && w.leases[h].claim.id == id
  }

  ghost predicate Inv(w: World)
  {
    && (forall id :: id in w.grants ==> w.grants[id].id == id && id in w.free && id !in w.told)
    && (forall id :: id in w.told ==> id in w.free)
    && (forall id :: id in w.free ==> w.free[id] + |Holders(w, id)| == MAX_VIEWERS_PER_GRANT)
    && (forall h :: h in w.leases ==> LeaseInv(w, h))
    && (forall user :: |Owned(w, user)| <= MAX_GRANTS_PER_USER)
  }

  ghost predicate LeaseInv(w: World, h: nat)
    requires h in w.leases
  {
    var c := w.leases[h].claim;
    && h < w.tickets && c.id in w.free
    && (if c.id in w.grants then w.grants[c.id] == c else c.id in w.told)
  }

  const EMPTY: World := World(map[], {}, multiset{}, map[], map[], 0)

  // ---- the store -----------------------------------------------------------------

  class ShareStore {
    const sealing: Sealing
    var grants: map<Bytes, Claim>
    var told: set<Bytes>
    var copies: multiset<Bytes>
    var free: map<Bytes, nat>
    var leases: map<nat, Lease>
    var tickets: nat

    function State(): World
      reads this
    {
      World(grants, told, copies, free, leases, tickets)
    }

    constructor (sealing: Sealing)
      ensures State() == EMPTY && this.sealing == sealing
    {
      this.sealing := sealing;
      grants, told, copies, free, leases, tickets := map[], {}, multiset{}, map[], map[], 0;
    }

    /** Take a grant out of the map, telling its viewers. */
    method Remove(id: Bytes) returns (ok: bool)
      requires id in grants
      modifies this`grants, this`told
      ensures State() == Removed(old(State()), {id})
      ensures Signalled(old(State()), {id}) == if ok then {id} else {}
      ensures grants == old(grants) - {id}
      ensures ok <==> exists h :: h in leases && leases[h].claim.id == id
      ensures told == old(told) + if ok then {id} else {}
    {
      ok := Watched(State(), id);
      SignalledOneMore(State(), {}, id);
      if ok { told := told + {id}; }
      grants := grants - {id};
    }

    method PruneExpired(now: nat) returns (closed: nat)
      modifies this`grants, this`told
      ensures State() == Pruned(old(State()), now)
      ensures closed == |Signalled(old(State()), Expired(old(State()), now))|
      ensures forall id :: id in grants <==> id in old(grants) && now < old(grants)[id].exp
      ensures forall id :: id in grants ==> grants[id] == old(grants)[id]
      ensures forall id :: id in told <==>
          id in old(told) || (id in old(grants) && old(grants)[id].exp <= now
                              && exists h :: h in leases && leases[h].claim.id == id)
    {
      ghost var was := State();
      var todo := grants.Keys;
      closed := 0;
      ghost var gone: set<Bytes> := {};
      RemovedNone(was);
      while todo != {}
        modifies this`grants, this`told
        invariant todo <= grants.Keys <= was.grants.Keys
        invariant gone == Expired(was, now) - todo
        invariant State() == Removed(was, gone) && closed == |Signalled(was, gone)|
      {
        var id :| id in todo;
        assert grants[id] == was.grants[id] && id !in gone;
        ScannedOne(was, now, todo, id);
        todo := todo - {id};
        var more := PruneOne(was, gone, id, now);
        closed := closed + more;
        gone := gone + if was.grants[id].exp <= now then {id} else {};
      }
      assert gone == Expired(was, now);
      PrunedIs(was, now);
    }

    method PruneOne(ghost was: World, ghost gone: set<Bytes>, id: Bytes, now: nat) returns (closed: nat)
      requires id in grants && id !in gone && State() == Removed(was, gone)
      modifies this`grants, this`told
      ensures var more := gone + if old(grants)[id].exp <= now then {id} else {};
              State() == Removed(was, more) && closed + |Signalled(was, gone)| == |Signalled(was, more)|
      ensures grants.Keys == old(grants).Keys - if old(grants)[id].exp <= now then {id} else {}
    {
      if grants[id].exp > now {
        assert gone + {} == gone;
        return 0;
      }
      PrunedOneMore(was, gone, id);
      var ok := Remove(id);
      return if ok then 1 else 0;
    }

    method CountOwned(user: Bytes) returns (n: nat)
      ensures n == |Owned(State(), user)|
    {
      var todo := grants.Keys;
      n := 0;
      ghost var seen: set<Bytes> := {};
      while todo != {}
        invariant todo <= grants.Keys
        invariant seen == Owned(State(), user) - todo && n == |seen|
      {
        var id :| id in todo;
        todo := todo - {id};
        if grants[id].user == user {
          n := n + 1;
          seen := seen + {id};
        }
      }
    }

    method Create(user: Bytes, index: nat, ttl: nat, id: Bytes, minted: nat, now: nat) returns (r: CreateResult)
      modifies this
      ensures State() == AfterCreate(old(State()), Claim(id, user, index, SatAdd(minted, ttl)), now)
      ensures r == if |Owned(Pruned(old(State()), now), user)| >= MAX_GRANTS_PER_USER then TooMany
                   else Created(Token(sealing, Claim(id, user, index, SatAdd(minted, ttl))), id)
      ensures r.Created? ==> id in grants && grants[id].id == id && grants[id].user == user && grants[id].index == index
      ensures r.Created? ==> grants[id].exp == (if minted + ttl <= U64_MAX then minted + ttl else U64_MAX)
      ensures r.Created? ==> id in free && free[id] == 32
      ensures forall k :: k != id || r.TooMany? ==> (k in grants <==> k in old(grants) && now < old(grants)[k].exp)
      ensures forall k :: k in grants && (k != id || r.TooMany?) ==> grants[k] == old(grants)[k]
      ensures r.TooMany? <==>
          |set k | k in old(grants) && now < old(grants)[k].exp && old(grants)[k].user == user| >= 32
    {
      var c := Claim(id, user, index, SatAdd(minted, ttl));
      ghost var alive := set k | k in grants && now < grants[k].exp && grants[k].user == user;
      var _ := PruneExpired(now);
      var n := CountOwned(user);
      assert Owned(State(), user) == alive;
      if n >= MAX_GRANTS_PER_USER { return TooMany; }
      grants := grants[id := c];
      free := free[id := MAX_VIEWERS_PER_GRANT];
      r := Created(Token(sealing, c), id);
    }

    method Sweep(now: nat) returns (closed: nat)
      modifies this
      ensures State() == Pruned(old(State()), now)
      ensures closed == |Signalled(old(State()), Expired(old(State()), now))|
      ensures forall id :: id in grants <==> id in old(grants) && now < old(grants)[id].exp
      ensures forall id :: id in grants ==> grants[id] == old(grants)[id]
    {
      closed := PruneExpired(now);
    }

    method Resolve(token: Bytes, now: nat) returns (r: Option<(Bytes, nat)>)
      modifies this
      ensures State() == AfterResolve(old(State()), Verified(sealing, token), now)
      ensures r == ResolvesTo(old(State()), Verified(sealing, token), now)
      ensures r.Some? <==>
          exists c ::
            && Verified(sealing, token) == Some(c) && now < c.exp && c.id in old(grants)
            && old(grants)[c.id].user == c.user && old(grants)[c.id].index == c.index
            && old(grants)[c.id].exp == c.exp
      ensures r.Some? ==>
          r.value == (Verified(sealing, token).value.user, Verified(sealing, token).value.index)
    {
      r := ResolveClaim(Verified(sealing, token), now);
    }

    method ResolveClaim(claim: Option<Claim>, now: nat) returns (r: Option<(Bytes, nat)>)
      modifies this
      ensures State() == AfterResolve(old(State()), claim, now)
      ensures r == ResolvesTo(old(State()), claim, now)
      ensures r.Some? ==> claim.Some? && r.value == (claim.value.user, claim.value.index)
      ensures r.Some? <==>
          && claim.Some? && now < claim.value.exp
          && claim.value.id in old(grants) && old(grants)[claim.value.id].user == claim.value.user
          && old(grants)[claim.value.id].index == claim.value.index
          && old(grants)[claim.value.id].exp == claim.value.exp
      ensures grants == if claim.Some? && now >= claim.value.exp then old(grants) - {claim.value.id} else old(grants)
    {
      if claim.None? { return None; }
      var c := claim.value;
      if now >= c.exp {
        if c.id in grants { var _ := Remove(c.id); }
        return None;
      }
      if c.id !in grants { return None; }
      var g := grants[c.id];
      if g.user != c.user || g.index != c.index || g.exp != c.exp { return None; }
      return Some((c.user, c.index));
    }

    method RemainingSecs(token: Bytes, now: nat) returns (r: Option<nat>)
      ensures r.Some? <==> exists c :: Verified(sealing, token) == Some(c) && c.id in grants && now < c.exp
      ensures r.Some? ==> r.value > 0 && now + r.value == Verified(sealing, token).value.exp
    {
      var claim := Verified(sealing, token);
      if claim.None? || claim.value.id !in grants || claim.value.exp <= now { return None; }
      return Some(claim.value.exp - now);
    }

    method Revoke(user: Bytes, id: Bytes) returns (ok: bool)
      modifies this
      ensures State() == AfterRevoke(old(State()), user, id)
      ensures ok == MayRevoke(old(State()), user, id)
      ensures ok <==> id in old(grants) && old(grants)[id].user == user
      ensures grants == if ok then old(grants) - {id} else old(grants)
      // Nobody else's grant is touched, and its viewers are not told anything.
      ensures forall k :: k in old(grants) && old(grants)[k].user != user ==> k in grants && grants[k] == old(grants)[k]
      ensures forall k :: k in told ==> k in old(told) || (k == id && ok)
    {
      ok := id in grants && grants[id].user == user;
      if ok { var _ := Remove(id); }
    }

    method LeaseOn(token: Bytes, now: nat) returns (r: LeaseResult)
      modifies this
      ensures State() == AfterLease(old(State()), Verified(sealing, token), now)
      ensures r == LeaseOutcome(old(State()), Verified(sealing, token), now)
      ensures r.Invalid? <==>
          !exists c ::
            && Verified(sealing, token) == Some(c) && now < c.exp && c.id in old(grants)
            && old(grants)[c.id].user == c.user && old(grants)[c.id].index == c.index
            && old(grants)[c.id].exp == c.exp
      ensures r.Leased? ==>
          && r.ticket in leases && Verified(sealing, token) == Some(leases[r.ticket].claim)
          && leases == old(leases)[r.ticket := leases[r.ticket]]
      ensures !r.Leased? ==> State() == old(State())
    {
      r := LeaseClaim(Verified(sealing, token), now);
    }

    method LeaseClaim(claim: Option<Claim>, now: nat) returns (r: LeaseResult)
      modifies this
      ensures State() == AfterLease(old(State()), claim, now)
      ensures r == LeaseOutcome(old(State()), claim, now)
      ensures r.Invalid? <==>
          !(&& claim.Some? && now < claim.value.exp && claim.value.id in grants
            && grants[claim.value.id].user == claim.value.user && grants[claim.value.id].index == claim.value.index
            && grants[claim.value.id].exp == claim.value.exp)
      ensures r.Full? ==> claim.value.id !in old(free) || old(free)[claim.value.id] == 0
      ensures r.Leased? ==>
          && claim.value.id in old(free) && old(free)[claim.value.id] > 0
          && free == old(free)[claim.value.id := old(free)[claim.value.id] - 1]
          && r.ticket == old(tickets) && leases == old(leases)[r.ticket := Lease(claim.value, [])]
      ensures !r.Leased? ==> State() == old(State())
    {
      if claim.None? || now >= claim.value.exp { return Invalid; }
      var c := claim.value;
      if c.id !in grants { return Invalid; }
      var g := grants[c.id];
      if g.user != c.user || g.index != c.index || g.exp != c.exp { return Invalid; }
      if c.id !in free || free[c.id] == 0 { return Full; }
      free := free[c.id := free[c.id] - 1];
      leases := leases[tickets := Lease(c, [])];
      tickets := tickets + 1;
      return Leased(tickets - 1);
    }

    method DropLease(h: nat)
      requires h in leases && leases[h].claim.id in free
      modifies this
      ensures State() == AfterDrop(old(State()), h)
      ensures leases == old(leases) - {h} && grants == old(grants)
      ensures free == old(free)[old(leases)[h].claim.id := old(free)[old(leases)[h].claim.id] + 1]
    {
      var id := leases[h].claim.id;
      free := free[id := free[id] + 1];
      leases := leases - {h};
    }

    method List(user: Bytes, now: nat) returns (listed: set<Bytes>)
      modifies this
      ensures State() == AfterList(old(State()), user, now)
      ensures listed == Owned(State(), user)
      ensures forall id :: id in listed <==>
          id in old(grants) && now < old(grants)[id].exp && old(grants)[id].user == user
      ensures copies == old(copies) + multiset(listed)
    {
      var _ := PruneExpired(now);
      listed := set id | id in grants && grants[id].user == user;
      copies := copies + multiset(listed);
    }

    /** `ViewerOutput::send` up to the start of the write. */
    method Send(h: nat, frame: Bytes, now: nat) returns (started: bool)
      requires h in leases
      modifies this`leases
      ensures State() == AfterSend(old(State()), h, frame, now)
      ensures started == Valid(old(State()), h, now)
      ensures leases.Keys == old(leases).Keys && leases[h].claim == old(leases)[h].claim
      ensures leases[h].wire == old(leases)[h].wire + [if started then Data(frame, now) else Close]
      ensures forall g :: g in leases && g != h ==> leases[g] == old(leases)[g]
    {
      started := Valid(State(), h, now);
      var put := if started then Data(frame, now) else Close;
      leases := leases[h := leases[h].(wire := leases[h].wire + [put])];
    }
  }

  // ---- runs ------------------------------------------------------------------------

  datatype Step =
    | Create(claim: Claim)
    | Sweep
    | Resolve(token: Bytes)
    | Revoke(user: Bytes, id: Bytes)
    | TakeLease(token: Bytes)
    | DropLease(ticket: nat)
    | List(user: Bytes)
    | DropCopy(id: Bytes)
    | Send(ticket: nat, frame: Bytes)

  datatype Event = Event(now: nat, step: Step)

  /** Grant ids are fresh; a lease is used and dropped by who holds it. */
  predicate Enabled(w: World, e: Event)
  {
    match e.step
    case Create(c) => c.id !in w.free
    case DropLease(h) => h in w.leases && w.leases[h].claim.id in w.free
    case Send(h, _) => h in w.leases
    case _ => true
  }

  function Apply(s: Sealing, w: World, e: Event): World
    requires Enabled(w, e)
  {
    match e.step
    case Create(c) => AfterCreate(w, c, e.now)
    case Sweep => Pruned(w, e.now)
    case Resolve(token) => AfterResolve(w, Verified(s, token), e.now)
    case Revoke(user, id) => AfterRevoke(w, user, id)
    case TakeLease(token) => AfterLease(w, Verified(s, token), e.now)
    case DropLease(h) => AfterDrop(w, h)
    case List(user) => AfterList(w, user, e.now)
    case DropCopy(id) => w.(copies := w.copies - multiset{id})
    case Send(h, frame) => AfterSend(w, h, frame, e.now)
  }

  predicate Legal(s: Sealing, w: World, run: seq<Event>)
    decreases run
  {
    run == [] || (Enabled(w, run[0]) && Legal(s, Apply(s, w, run[0]), run[1..]))
  }

  function After(s: Sealing, w: World, run: seq<Event>): World
    requires Legal(s, w, run)
    decreases run
  {
    if run == [] then w else After(s, Apply(s, w, run[0]), run[1..])
  }

  // ---- every step keeps the invariant -------------------------------------------------

  lemma OwnedShrinks(w: World, x: World, user: Bytes)
    requires forall id :: id in x.grants ==> id in w.grants && x.grants[id] == w.grants[id]
    ensures |Owned(x, user)| <= |Owned(w, user)|
  {
    SubsetSize(Owned(x, user), Owned(w, user));
  }

  lemma RemovedKeeps(w: World, gone: set<Bytes>)
    requires Inv(w) && gone <= w.grants.Keys
    ensures Inv(Removed(w, gone))
  {
    var x := Removed(w, gone);
    forall id | id in x.free
      ensures x.free[id] + |Holders(x, id)| == MAX_VIEWERS_PER_GRANT
    {
      assert Holders(x, id) == Holders(w, id);
    }
    forall h | h in x.leases
      ensures LeaseInv(x, h)
    {
      assert LeaseInv(w, h);
      assert Watched(w, w.leases[h].claim.id);
    }
    forall user
      ensures |Owned(x, user)| <= MAX_GRANTS_PER_USER
    {
      OwnedShrinks(w, x, user);
    }
  }

  lemma OwnedGrows(w: World, c: Claim, user: Bytes)
    requires c.id !in w.grants
    ensures |Owned(Added(w, c), user)| == |Owned(w, user)| + if user == c.user then 1 else 0
  {
    var more := if user == c.user then {c.id} else {};
    assert Owned(Added(w, c), user) == Owned(w, user) + more;
  }

  lemma AddedKeeps(w: World, c: Claim)
    requires Inv(w) && c.id !in w.free && |Owned(w, c.user)| < MAX_GRANTS_PER_USER
    ensures Inv(Added(w, c))
  {
    var x := Added(w, c);
    forall h | h in x.leases ensures LeaseInv(x, h) { assert LeaseInv(w, h); }
    forall id | id in x.free
      ensures x.free[id] + |Holders(x, id)| == MAX_VIEWERS_PER_GRANT
    {
      assert Holders(x, id) == Holders(w, id);
      if id == c.id {
        forall h | h in w.leases ensures w.leases[h].claim.id != id { assert LeaseInv(w, h); }
        assert Holders(w, id) == {};
      }
    }
    forall user ensures |Owned(x, user)| <= MAX_GRANTS_PER_USER { OwnedGrows(w, c, user); }
  }

  lemma CreateKeeps(w: World, c: Claim, now: nat)
    requires Inv(w) && c.id !in w.free
    ensures Inv(AfterCreate(w, c, now))
  {
    var p := Pruned(w, now);
    RemovedKeeps(w, Expired(w, now));
    if |Owned(p, c.user)| < MAX_GRANTS_PER_USER { AddedKeeps(p, c); }
  }

  lemma LeaseKeeps(w: World, claim: Option<Claim>, now: nat)
    requires Inv(w)
    ensures Inv(AfterLease(w, claim, now))
  {
    var x := AfterLease(w, claim, now);
    if x != w {
      var c := claim.value;
      assert forall h :: h in w.leases ==> LeaseInv(w, h);
      assert Holders(x, c.id) == Holders(w, c.id) + {w.tickets};
      forall id | id in x.free
        ensures x.free[id] + |Holders(x, id)| == MAX_VIEWERS_PER_GRANT
      {
        if id != c.id { assert Holders(x, id) == Holders(w, id); }
      }
      forall h | h in x.leases ensures LeaseInv(x, h) { if h != w.tickets { assert LeaseInv(w, h); } }
      forall user ensures |Owned(x, user)| <= MAX_GRANTS_PER_USER { OwnedShrinks(w, x, user); }
    }
  }

  lemma DropKeeps(w: World, h: nat)
    requires Inv(w) && h in w.leases && w.leases[h].claim.id in w.free
    ensures Inv(AfterDrop(w, h))
  {
    var x, c := AfterDrop(w, h), w.leases[h].claim;
    assert Holders(w, c.id) == Holders(x, c.id) + {h};
    forall id | id in x.free
      ensures x.free[id] + |Holders(x, id)| == MAX_VIEWERS_PER_GRANT
    {
      if id != c.id { assert Holders(x, id) == Holders(w, id); }
    }
    forall g | g in x.leases ensures LeaseInv(x, g) { assert LeaseInv(w, g); }
    forall user ensures |Owned(x, user)| <= MAX_GRANTS_PER_USER { OwnedShrinks(w, x, user); }
  }

  lemma SendKeeps(w: World, h: nat, frame: Bytes, now: nat)
    requires Inv(w) && h in w.leases
    ensures Inv(AfterSend(w, h, frame, now))
  {
    var x := AfterSend(w, h, frame, now);
    forall id | id in x.free
      ensures x.free[id] + |Holders(x, id)| == MAX_VIEWERS_PER_GRANT
    {
      assert Holders(x, id) == Holders(w, id);
    }
    forall g | g in x.leases ensures LeaseInv(x, g) { assert LeaseInv(w, g); }
    forall user ensures |Owned(x, user)| <= MAX_GRANTS_PER_USER { OwnedShrinks(w, x, user); }
  }

  /** Cloned grants are not part of the invariant. */
  lemma CopiesKeep(w: World, copies: multiset<Bytes>)
    requires Inv(w)
    ensures Inv(w.(copies := copies))
  {
    var x := w.(copies := copies);
    forall id | id in x.free
      ensures x.free[id] + |Holders(x, id)| == MAX_VIEWERS_PER_GRANT
    {
      assert Holders(x, id) == Holders(w, id);
    }
    forall g | g in x.leases ensures LeaseInv(x, g) { assert LeaseInv(w, g); }
    forall user ensures |Owned(x, user)| <= MAX_GRANTS_PER_USER { OwnedShrinks(w, x, user); }
  }

  lemma StepKeeps(s: Sealing, w: World, e: Event)
    requires Inv(w) && Enabled(w, e)
    ensures Inv(Apply(s, w, e))
  {
    match e.step
    case Create(c) => CreateKeeps(w, c, e.now);
    case Sweep => RemovedKeeps(w, Expired(w, e.now));
    case Resolve(token) => ResolveKeeps(w, Verified(s, token), e.now);
    case Revoke(user, id) => if MayRevoke(w, user, id) { RemovedKeeps(w, {id}); }
    case TakeLease(token) => LeaseKeeps(w, Verified(s, token), e.now);
    case DropLease(h) => DropKeeps(w, h);
    case List(user) =>
      RemovedKeeps(w, Expired(w, e.now));
      CopiesKeep(Pruned(w, e.now), AfterList(w, user, e.now).copies);
    case DropCopy(id) => CopiesKeep(w, w.copies - multiset{id});
    case Send(h, frame) => SendKeeps(w, h, frame, e.now);
  }

  lemma ResolveKeeps(w: World, claim: Option<Claim>, now: nat)
    requires Inv(w)
    ensures Inv(AfterResolve(w, claim, now))
  {
    if AfterResolve(w, claim, now) != w { RemovedKeeps(w, {claim.value.id}); }
  }

  lemma {:induction false} RunKeeps(s: Sealing, w: World, run: seq<Event>)
    requires Inv(w) && Legal(s, w, run)
    ensures Inv(After(s, w, run))
    decreases run
  {
    if run != [] {
      StepKeeps(s, w, run[0]);
      RunKeeps(s, Apply(s, w, run[0]), run[1..]);
    }
  }

  lemma EmptyHolds()
    ensures Inv(EMPTY)
  {
    forall user ensures Owned(EMPTY, user) == {} {}
  }

  // ---- main results ------------------------------------------------------------------

  /** In every reachable state an outstanding lease is revoked exactly when its grant
      has left the map, however it left and whoever still holds a clone of it. */
  lemma RevokedIffGrantGone(s: Sealing, run: seq<Event>, h: nat)
    requires Legal(s, EMPTY, run) && h in After(s, EMPTY, run).leases
    ensures var w := After(s, EMPTY, run);
            Revoked(w, h) <==> w.leases[h].claim.id !in w.grants
  {
    EmptyHolds();
    RunKeeps(s, EMPTY, run);
    assert LeaseInv(After(s, EMPTY, run), h);
  }

  /** Viewers and free places under a grant always add up, and no user is over the
      cap on grants. */
  lemma CapsHold(s: Sealing, run: seq<Event>, id: Bytes, user: Bytes)
    requires Legal(s, EMPTY, run) && id in After(s, EMPTY, run).free
    ensures var w := After(s, EMPTY, run);
            && |set h | h in w.leases && w.leases[h].claim.id == id| + w.free[id] == 32
            && |set k | k in w.grants && w.grants[k].user == user| <= 32
  {
    EmptyHolds();
    RunKeeps(s, EMPTY, run);
    var w := After(s, EMPTY, run);
    assert Holders(w, id) == set h | h in w.leases && w.leases[h].claim.id == id;
    assert Owned(w, user) == set k | k in w.grants && w.grants[k].user == user;
  }

  /** A grant that was ever created is still the same grant, or gone for good. */
  lemma {:induction false} GrantsNeverReturn(s: Sealing, w: World, run: seq<Event>, id: Bytes)
    requires Inv(w) && Legal(s, w, run) && id in w.free
    ensures var x := After(s, w, run);
            id in x.free && (id in x.grants ==> id in w.grants && x.grants[id] == w.grants[id])
    decreases run
  {
    if run != [] {
      StepKeeps(s, w, run[0]);
      GrantsNeverReturn(s, Apply(s, w, run[0]), run[1..], id);
    }
  }

  /** The ways a grant can go: its owner revokes it, its time is up when something prunes, or
      somebody presents a token of it whose time is up. */
  predicate TakesOut(s: Sealing, w: World, e: Event, id: Bytes)
    requires id in w.grants
  {
    match e.step
    case Create(_) => w.grants[id].exp <= e.now
    case Sweep => w.grants[id].exp <= e.now
    case List(_) => w.grants[id].exp <= e.now
    case Revoke(user, revoked) => revoked == id && w.grants[id].user == user
    case Resolve(token) =>
      var claim := Verified(s, token);
      claim.Some? && claim.value.id == id && claim.value.exp <= e.now
    case _ => false
  }

  predicate SomeTakesOut(s: Sealing, w: World, run: seq<Event>, id: Bytes)
    requires Legal(s, w, run)
    decreases run
  {
    run != [] && id in w.grants
    && (TakesOut(s, w, run[0], id) || SomeTakesOut(s, Apply(s, w, run[0]), run[1..], id))
  }

  lemma StepTakesOutIff(s: Sealing, w: World, e: Event, id: Bytes)
    requires Inv(w) && Enabled(w, e) && id in w.grants
    ensures var x := Apply(s, w, e);
            (id in x.grants <==> !TakesOut(s, w, e, id)) && (id in x.grants ==> x.grants[id] == w.grants[id])
  {
    match e.step
    case Create(c) => var p := Pruned(w, e.now);
    case Resolve(token) => var claim := Verified(s, token);
    case TakeLease(token) => var claim := Verified(s, token);
    case _ =>
  }

  /** Over every run: a grant is still held, and still the same, if and only if no step of the
      run was one of those. Nothing anybody else does can take it. */
  lemma {:induction false} GrantHeldIff(s: Sealing, w: World, run: seq<Event>, id: Bytes)
    requires Inv(w) && Legal(s, w, run) && id in w.grants
    ensures var x := After(s, w, run);
            (id in x.grants <==> !SomeTakesOut(s, w, run, id)) && (id in x.grants ==> x.grants[id] == w.grants[id])
    decreases run
  {
    if run != [] {
      var x := Apply(s, w, run[0]);
      StepKeeps(s, w, run[0]);
      StepTakesOutIff(s, w, run[0], id);
      if id in x.grants {
        GrantHeldIff(s, x, run[1..], id);
      } else {
        GrantsNeverReturn(s, x, run[1..], id);
      }
    }
  }

  /** The token of every grant ever created resolves exactly while the grant is held
      and unexpired. */
  lemma TokenResolvesIff(s: Sealing, before: World, c: Claim, made: nat, run: seq<Event>, now: nat)
    requires Inv(before) && c.id !in before.free
    requires COLON !in c.id && c.index <= U64_MAX && c.exp <= U64_MAX && s.isText(Payload(c))
    requires |Owned(Pruned(before, made), c.user)| < MAX_GRANTS_PER_USER
    requires Legal(s, AfterCreate(before, c, made), run)
    ensures var w := After(s, AfterCreate(before, c, made), run);
            var r := ResolvesTo(w, Verified(s, Token(s, c)), now);
            && (r.Some? <==> c.id in w.grants && now < c.exp)
            && (r.Some? ==> r.value == (c.user, c.index))
  {
    CreateKeeps(before, c, made);
    GrantsNeverReturn(s, AfterCreate(before, c, made), run, c.id);
    TokenRoundTrip(s, c);
    HeldResolves(After(s, AfterCreate(before, c, made), run), c, now);
  }

  lemma HeldResolves(w: World, c: Claim, now: nat)
    requires c.id in w.grants ==> w.grants[c.id] == c
    ensures ResolvesTo(w, Some(c), now) == if c.id in w.grants && now < c.exp then Some((c.user, c.index)) else None
  {
  }

  /** The frames whose write was started. */
  function Started(wire: seq<Wire>): seq<Wire>
  {
    if wire == [] then []
    else Started(wire[..|wire| - 1]) + if wire[|wire| - 1].Data? then [wire[|wire| - 1]] else []
  }

  /** In a reachable state, validity is about the grant and the clock only. */
  lemma ValidMeans(w: World, h: nat, now: nat)
    requires Inv(w) && h in w.leases
    ensures Valid(w, h, now) <==> now < w.leases[h].claim.exp && w.leases[h].claim.id in w.grants
  {
    assert LeaseInv(w, h);
  }

  /** What a step does to a lease: at most, one frame or Close onto its wire. */
  ghost predicate Continues(w: World, x: World, h: nat, now: nat)
    requires h in w.leases
  {
    && h < x.tickets
    && (h in x.leases ==>
          && x.leases[h].claim == w.leases[h].claim
          && (x.leases[h].wire == w.leases[h].wire
              || (!Valid(w, h, now) && x.leases[h].wire == w.leases[h].wire + [Close])
              || (Valid(w, h, now) && exists frame :: x.leases[h].wire == w.leases[h].wire + [Data(frame, now)])))
  }

  lemma LeaseContinues(w: World, claim: Option<Claim>, now: nat, h: nat)
    requires Inv(w) && h in w.leases
    ensures Continues(w, AfterLease(w, claim, now), h, now)
    ensures Continues(w, AfterResolve(w, claim, now), h, now)
  {
    assert LeaseInv(w, h);
  }

  lemma StepContinues(s: Sealing, w: World, e: Event, h: nat)
    requires Inv(w) && Enabled(w, e) && h in w.leases
    ensures Continues(w, Apply(s, w, e), h, e.now)
  {
    assert LeaseInv(w, h);
    match e.step
    case Resolve(token) => LeaseContinues(w, Verified(s, token), e.now, h);
    case TakeLease(token) => LeaseContinues(w, Verified(s, token), e.now, h);
    case _ =>
  }

  /** Tickets are never handed out twice. */
  lemma NewTicketOnly(s: Sealing, w: World, e: Event, h: nat)
    requires Inv(w) && Enabled(w, e) && h < w.tickets && h !in w.leases
    ensures h < Apply(s, w, e).tickets && h !in Apply(s, w, e).leases
  {
    match e.step
    case Resolve(token) => var claim := Verified(s, token);
    case TakeLease(token) => var claim := Verified(s, token);
    case _ =>
  }

  lemma StartedClose(wire: seq<Wire>)
    ensures Started(wire + [Close]) == Started(wire)
  {
    assert (wire + [Close])[..|wire|] == wire;
  }

  lemma {:induction false} GoneStaysGone(s: Sealing, w: World, run: seq<Event>, h: nat)
    requires Inv(w) && Legal(s, w, run) && h < w.tickets && h !in w.leases
    ensures h !in After(s, w, run).leases
    decreases run
  {
    if run != [] {
      StepKeeps(s, w, run[0]);
      NewTicketOnly(s, w, run[0], h);
      GoneStaysGone(s, Apply(s, w, run[0]), run[1..], h);
    }
  }

  lemma StepStaysInvalid(s: Sealing, w: World, e: Event, h: nat)
    requires Inv(w) && Enabled(w, e) && h in w.leases && !Valid(w, h, e.now)
    ensures Inv(Apply(s, w, e)) && h < Apply(s, w, e).tickets
    ensures h in Apply(s, w, e).leases ==>
              && !Valid(Apply(s, w, e), h, e.now)
              && Started(Apply(s, w, e).leases[h].wire) == Started(w.leases[h].wire)
  {
    var x, id := Apply(s, w, e), w.leases[h].claim.id;
    StepKeeps(s, w, e);
    StepContinues(s, w, e, h);
    if h in x.leases {
      StartedClose(w.leases[h].wire);
      ValidMeans(w, h, e.now);
      assert LeaseInv(w, h);
      if id !in w.grants { GrantGoneOrOld(s, w, e, id); }
      ValidMeans(x, h, e.now);
    }
  }

  /** A run whose clock readings go forward from `since` and end by `until`. */
  predicate Forward(run: seq<Event>, since: nat, until: nat)
    decreases run
  {
    if run == [] then since <= until
    else since <= run[0].now && Forward(run[1..], run[0].now, until)
  }

  /** Once a lease has been invalid it never becomes valid again, and no frame is
      started on it any more, whatever is attempted. */
  lemma {:induction false} InvalidForGood(s: Sealing, w: World, run: seq<Event>, h: nat, since: nat, until: nat)
    requires Inv(w) && Legal(s, w, run) && Forward(run, since, until)
    requires h in w.leases && !Valid(w, h, since)
    ensures h in After(s, w, run).leases ==>
              && !Valid(After(s, w, run), h, until)
              && Started(After(s, w, run).leases[h].wire) == Started(w.leases[h].wire)
    decreases run
  {
    if run == [] {
      ValidMeans(w, h, since);
      ValidMeans(w, h, until);
    } else {
      var e, x := run[0], Apply(s, w, run[0]);
      ValidMeans(w, h, since);
      ValidMeans(w, h, e.now);
      StepStaysInvalid(s, w, e, h);
      if h in x.leases {
        InvalidForGood(s, x, run[1..], h, e.now, until);
      } else {
        GoneStaysGone(s, x, run[1..], h);
      }
    }
  }

  lemma GrantGoneOrOld(s: Sealing, w: World, e: Event, id: Bytes)
    requires Inv(w) && Enabled(w, e) && id in w.free && id !in w.grants
    ensures id !in Apply(s, w, e).grants
  {
    assert [e][1..] == [];
    assert Legal(s, Apply(s, w, e), [e][1..]);
    GrantsNeverReturn(s, w, [e], id);
  }
}
