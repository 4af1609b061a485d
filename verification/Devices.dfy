/** Trusted devices (src/devices.rs): a map in memory and its copy in a file, which
    every mutation rewrites under the lock, and which may fail to be written. */
module Devices {
  import opened Basics

  type Hash = string
  type Identity = string
  type DeviceId = string

  /** What a browser says of itself, cleaned for display. */
  datatype Client = Client(agent: string, ip: string)

  /** `seen` and `createdIp` are shown to the owner and never compared. */
  datatype Device = Device(id: DeviceId, owner: Identity, createdAt: nat, expiresAt: nat,
                           lastUsedAt: nat, enrolledAt: nat, createdIp: string, seen: Client)

  type Table = map<Hash, Device>

  datatype Store = Store(inner: Table, file: Table)

  // ---- specification of the operations ------------------------------------------

  function Live(m: Table, now: nat): Table
  {
    map k | k in m && now < m[k].expiresAt :: m[k]
  }

  /** Memory moves to `inner`; the file follows if the write succeeds. */
  function Written(s: Store, inner: Table, ok: bool): Store
  {
    Store(inner, if ok then inner else s.file)
  }

  function Loaded(file: Table, now: nat): Store { Store(Live(file, now), file) }

  function Mine(m: Table, owner: Identity): set<Hash>
  {
    set k | k in m && m[k].owner == owner
  }

  function Cap(max: nat): nat { Max(max, 1) }

  function Excess(m: Table, owner: Identity, max: nat): nat
  {
    if |Mine(m, owner)| >= Cap(max) then |Mine(m, owner)| + 1 - Cap(max) else 0
  }

  /** As many of the owner's records as are too many, none used after one that is
      kept. Between records last used in the same second the choice is free. */
  ghost predicate LeastUsed(m: Table, owner: Identity, max: nat, victims: set<Hash>)
  {
    && victims <= Mine(m, owner) && |victims| == Excess(m, owner, max)
    && forall v, k :: v in victims && k in Mine(m, owner) - victims ==> m[v].lastUsedAt <= m[k].lastUsedAt
  }

  function Fresh(id: DeviceId, owner: Identity, enrolledAt: nat, window: nat, client: Client, now: nat): Device
  {
    Device(id, owner, now, SatAdd(now, window), now, enrolledAt, client.ip, client)
  }

  function Minted(s: Store, hash: Hash, d: Device, victims: set<Hash>, ok: bool, now: nat): Store
  {
    var kept := Live(s.inner, now) - victims;
    if ok then Store(kept[hash := d], kept[hash := d]) else Store(kept[hash := d] - {hash}, s.file)
  }

  predicate Trusts(m: Table, hash: Hash, owner: Identity, enrolledAt: nat, now: nat)
  {
    && hash in m && m[hash].owner == owner && now < m[hash].expiresAt
    && m[hash].enrolledAt == enrolledAt
  }

  function Authorized(s: Store, hash: Hash, owner: Identity, enrolledAt: nat, client: Client, ok: bool, now: nat): Store
  {
    if Trusts(s.inner, hash, owner, enrolledAt, now)
    then Written(s, s.inner[hash := s.inner[hash].(lastUsedAt := now, seen := client)], ok)
    else s
  }

  predicate Named(m: Table, key: Hash, owner: Identity, id: DeviceId)
  {
    key in m && m[key].id == id && m[key].owner == owner
  }

  /** `key` is the record found under the public handle, if there is one. */
  predicate Found(m: Table, key: Option<Hash>, owner: Identity, id: DeviceId)
  {
    match key
    case Some(k) => Named(m, k, owner, id)
    case None => forall k :: k in m ==> !Named(m, k, owner, id)
  }

  /** Nothing removed, nothing written. */
  function Without(s: Store, gone: set<Hash>, ok: bool): Store
  {
    if gone * s.inner.Keys == {} then s else Written(s, s.inner - gone, ok)
  }

  function Dead(m: Table, now: nat): set<Hash>
  {
    set k | k in m && m[k].expiresAt <= now
  }

  // ---- the store --------------------------------------------------------------------

  class DeviceStore {
    var inner: Table
    var file: Table

    function State(): Store
      reads this
    {
      Store(inner, file)
    }

    /** `load`: expired records are dropped on the way in. */
    constructor (file: Table, now: nat)
      ensures State() == Loaded(file, now) && this.file == file
      ensures forall k :: k in inner <==> k in file && now < file[k].expiresAt
      ensures forall k :: k in inner ==> inner[k] == file[k]
    {
      this.file := file;
      inner := Live(file, now);
    }

    /** The whole file is replaced at once, or not at all. */
    method Write(ok: bool)
      modifies this`file
      ensures State() == Written(old(State()), inner, ok)
    {
      if ok { file := inner; }
    }

    method Mint(hash: Hash, id: DeviceId, owner: Identity, enrolledAt: nat, windowSecs: nat, max: nat,
                client: Client, ok: bool, now: nat) returns (minted: Option<DeviceId>, ghost victims: set<Hash>)
      modifies this
      ensures LeastUsed(Live(old(inner), now), owner, max, victims)
      ensures State() == Minted(old(State()), hash, Fresh(id, owner, enrolledAt, windowSecs, client, now),
                                victims, ok, now)
      ensures minted == if ok then Some(id) else None
      ensures ok ==>
          && hash in inner && inner[hash].id == id && inner[hash].owner == owner
          && inner[hash].createdAt == inner[hash].lastUsedAt == now && inner[hash].enrolledAt == enrolledAt
          && inner[hash].expiresAt == (if now + windowSecs <= U64_MAX then now + windowSecs else U64_MAX)
          && inner[hash].createdIp == client.ip && inner[hash].seen == client && file == inner
      ensures !ok ==> hash !in inner && file == old(file)
      // Unexpired records stay but for the victims, which are the owner's.
      ensures forall k :: k != hash ==>
          (k in inner <==> k in old(inner) && now < old(inner)[k].expiresAt && k !in victims)
      ensures forall k :: k in inner && k != hash ==> inner[k] == old(inner)[k]
      ensures forall k :: k in victims ==> k in old(inner) && old(inner)[k].owner == owner
    {
      inner := Live(inner, now);
      victims := MakeRoom(owner, max);
      inner := inner[hash := Fresh(id, owner, enrolledAt, windowSecs, client, now)];
      if !ok {
        inner := inner - {hash};
        return None, victims;
      }
      file := inner;
      return Some(id), victims;
    }

    /** At the cap the owner's least recently used records go. */
    method MakeRoom(owner: Identity, max: nat) returns (ghost victims: set<Hash>)
      modifies this`inner
      ensures LeastUsed(old(inner), owner, max, victims) && inner == old(inner) - victims
    {
      var mine := OwnedBy(inner, owner);
      var cap := Max(max, 1);
      if |mine| < cap {
        victims := {};
        return;
      }
      mine := SortedByUse(mine);
      var excess := |mine| + 1 - cap;
      FirstAreLeastUsed(inner, owner, mine, max, excess);
      victims := Evict(mine, excess);
    }

    method Evict(mine: seq<Use>, n: nat) returns (ghost victims: set<Hash>)
      requires n <= |mine|
      modifies this`inner
      ensures victims == Keys(mine[..n]) && inner == old(inner) - victims
    {
      victims := {};
      for i := 0 to n
        invariant victims == Keys(mine[..i]) && inner == old(inner) - victims
      {
        KeysNext(mine, i);
        inner := inner - {mine[i].0};
        victims := victims + {mine[i].0};
      }
    }

    method Authorize(hash: Hash, owner: Identity, enrolledAt: nat, client: Client, ok: bool, now: nat)
      returns (id: Option<DeviceId>)
      modifies this
      ensures State() == Authorized(old(State()), hash, owner, enrolledAt, client, ok, now)
      ensures id.Some? <==>
          && hash in old(inner) && old(inner)[hash].owner == owner && now < old(inner)[hash].expiresAt
          && old(inner)[hash].enrolledAt == enrolledAt
      ensures id.Some? ==> id.value == old(inner)[hash].id
      // The use is noted as the last one, and nothing else about the record moves.
      ensures id.Some? ==> inner == old(inner)[hash := old(inner)[hash].(lastUsedAt := now, seen := client)]
      ensures id.Some? ==> file == if ok then inner else old(file)
      ensures id.None? ==> inner == old(inner) && file == old(file)
    {
      if hash !in inner { return None; }
      var device := inner[hash];
      if device.owner != owner || now >= device.expiresAt || device.enrolledAt != enrolledAt { return None; }
      inner := inner[hash := device.(lastUsedAt := now, seen := client)];
      Write(ok);
      return Some(device.id);
    }

    method Revoke(owner: Identity, id: DeviceId, ok: bool) returns (done: bool, ghost key: Option<Hash>)
      modifies this
      ensures Found(old(inner), key, owner, id) && done == key.Some?
      ensures State() == Without(old(State()), if done then {key.value} else {}, ok)
      ensures done <==> exists k :: k in old(inner) && old(inner)[k].id == id && old(inner)[k].owner == owner
      ensures done ==>
          && key.value in old(inner) && old(inner)[key.value].id == id && old(inner)[key.value].owner == owner
          && inner == old(inner) - {key.value} && file == (if ok then inner else old(file))
      ensures !done ==> inner == old(inner) && file == old(file)
      // Nobody else's record is touched.
      ensures forall k :: k in old(inner) && old(inner)[k].owner != owner ==> k in inner && inner[k] == old(inner)[k]
    {
      var found: Option<Hash> := None;
      var todo := inner.Keys;
      while todo != {} && found.None?
        invariant todo <= inner.Keys
        invariant found.Some? ==> Named(inner, found.value, owner, id)
        invariant found.None? ==> forall k :: k in inner.Keys - todo ==> !Named(inner, k, owner, id)
        decreases |todo|
      {
        var k :| k in todo;
        todo := todo - {k};
        if inner[k].id == id && inner[k].owner == owner { found := Some(k); }
      }
      key := found;
      if found.None? { return false, key; }
      assert {found.value} * inner.Keys == {found.value};
      inner := inner - {found.value};
      Write(ok);
      return true, key;
    }

    method RevokeAll(owner: Identity, ok: bool) returns (removed: nat)
      modifies this
      ensures State() == Without(old(State()), Mine(old(inner), owner), ok)
      ensures removed == |Mine(old(inner), owner)|
      ensures forall k :: k in inner <==> k in old(inner) && old(inner)[k].owner != owner
      ensures forall k :: k in inner ==> inner[k] == old(inner)[k]
      ensures removed > 0 ==> file == if ok then inner else old(file)
    {
      removed := Drop(Mine(inner, owner), ok);
    }

    /** `retain`, then a write if that took anything out. */
    method Drop(gone: set<Hash>, ok: bool) returns (removed: nat)
      requires gone <= inner.Keys
      modifies this
      ensures State() == Without(old(State()), gone, ok)
      ensures inner == old(inner) - gone && file == (if gone != {} && ok then inner else old(file))
      ensures removed == |gone|
    {
      var before := |inner.Keys|;
      assert inner.Keys == (inner - gone).Keys + gone;
      inner := inner - gone;
      removed := before - |inner.Keys|;
      if removed > 0 {
        Write(ok);
      } else {
        assert inner == old(inner);
      }
    }

    method RevokeToken(hash: Hash, ok: bool) returns (id: Option<DeviceId>)
      modifies this
      ensures State() == Without(old(State()), {hash}, ok)
      ensures id == if hash in old(inner) then Some(old(inner)[hash].id) else None
      ensures inner == old(inner) - {hash}
      ensures file == if hash in old(inner) && ok then inner else old(file)
    {
      if hash !in inner { return None; }
      assert {hash} * inner.Keys == {hash};
      id := Some(inner[hash].id);
      inner := inner - {hash};
      Write(ok);
    }

    method ForgetIfOwned(hash: Hash, owner: Identity, ok: bool) returns (id: Option<DeviceId>)
      modifies this
      ensures State() == Without(old(State()), {hash} * Mine(old(inner), owner), ok)
      ensures id.Some? <==> hash in old(inner) && old(inner)[hash].owner == owner
      ensures id.Some? ==> id.value == old(inner)[hash].id && inner == old(inner) - {hash}
      ensures id.None? ==> inner == old(inner) && file == old(file)
      ensures id.Some? ==> file == if ok then inner else old(file)
    {
      if hash !in inner || inner[hash].owner != owner { return None; }
      assert {hash} * Mine(inner, owner) == {hash} && {hash} * inner.Keys == {hash};
      id := Some(inner[hash].id);
      inner := inner - {hash};
      Write(ok);
    }

    method Sweep(ok: bool, now: nat) returns (removed: nat)
      modifies this
      ensures State() == Without(old(State()), Dead(old(inner), now), ok)
      ensures removed == |Dead(old(inner), now)|
      ensures forall k :: k in inner <==> k in old(inner) && now < old(inner)[k].expiresAt
      ensures forall k :: k in inner ==> inner[k] == old(inner)[k]
    {
      removed := Drop(Dead(inner, now), ok);
    }
  }

  // ---- the eviction order ---------------------------------------------------------------

  type Use = (Hash, nat)

  function Uses(m: Table, keys: set<Hash>): set<Use>
    requires keys <= m.Keys
  {
    set k | k in keys :: (k, m[k].lastUsedAt)
  }

  lemma UsesGrow(m: Table, seen: set<Hash>, mine: seq<Use>, k: Hash)
    requires seen <= m.Keys && k in m && k !in seen && multiset(mine) == multiset(Uses(m, seen))
    ensures multiset(mine + [(k, m[k].lastUsedAt)]) == multiset(Uses(m, seen + {k}))
  {
    assert Uses(m, seen + {k}) == Uses(m, seen) + {(k, m[k].lastUsedAt)};
  }

  /** The owner's records, in whatever order the map yields them. */
  method OwnedBy(m: Table, owner: Identity) returns (mine: seq<Use>)
    ensures multiset(mine) == multiset(Uses(m, Mine(m, owner)))
    ensures |mine| == |Mine(m, owner)|
  {
    mine := [];
    var todo := m.Keys;
    ghost var seen: set<Hash> := {};
    while todo != {}
      invariant todo <= m.Keys && seen == Mine(m, owner) - todo
      invariant multiset(mine) == multiset(Uses(m, seen))
    {
      var k :| k in todo;
      if m[k].owner == owner {
        UsesGrow(m, seen, mine, k);
        mine, seen := mine + [(k, m[k].lastUsedAt)], seen + {k};
      }
      todo := todo - {k};
    }
    assert seen == Mine(m, owner);
    UsesLength(m, owner, mine);
  }

  lemma UsesLength(m: Table, owner: Identity, mine: seq<Use>)
    requires multiset(mine) == multiset(Uses(m, Mine(m, owner)))
    ensures |mine| == |Mine(m, owner)|
  {
    UsesCount(m, Mine(m, owner));
    assert |multiset(mine)| == |mine|;
  }

  predicate Ordered(s: seq<Use>)
  {
    forall i, j :: 0 <= i < j < |s| ==> s[i].1 <= s[j].1
  }

  lemma OrderedCons(x: Use, s: seq<Use>, u: Use, rest: seq<Use>)
    requires Ordered([x] + s) && x.1 <= u.1 && Ordered(rest)
    requires multiset(rest) == multiset(s) + multiset{u}
    ensures Ordered([x] + rest)
  {
    forall i | 0 <= i < |rest|
      ensures x.1 <= rest[i].1
    {
      assert rest[i] in multiset(rest);
      if rest[i] != u {
        assert rest[i] in multiset(s);
        var j :| 0 <= j < |s| && s[j] == rest[i];
        assert ([x] + s)[0] == x && ([x] + s)[j + 1] == s[j];
      }
    }
  }

  function Inserted(u: Use, s: seq<Use>): (r: seq<Use>)
    requires Ordered(s)
    ensures Ordered(r) && multiset(r) == multiset(s) + multiset{u}
  {
    if s == [] then [u]
    else if u.1 < s[0].1 then [u] + s
    else
      var rest := Inserted(u, s[1..]);
      assert s == [s[0]] + s[1..];
      OrderedCons(s[0], s[1..], u, rest);
      [s[0]] + rest
  }

  function SortedByUse(s: seq<Use>): (r: seq<Use>)
    ensures Ordered(r) && multiset(r) == multiset(s)
  {
    if s == [] then []
    else
      assert s == s[..|s| - 1] + [s[|s| - 1]];
      Inserted(s[|s| - 1], SortedByUse(s[..|s| - 1]))
  }

  function Keys(s: seq<Use>): set<Hash>
  {
    set u | u in s :: u.0
  }

  lemma Twice<T>(s: seq<T>, i: nat, j: nat)
    requires i < j < |s| && s[i] == s[j]
    ensures multiset(s)[s[i]] >= 2
  {
    assert s == s[..i] + [s[i]] + s[i + 1..j] + [s[j]] + s[j + 1..];
  }

  lemma NoDuplicates<T>(s: seq<T>, all: set<T>, i: nat, j: nat)
    requires multiset(s) == multiset(all) && i < j < |s|
    ensures s[i] != s[j]
  {
    if s[i] == s[j] { Twice(s, i, j); }
  }

  lemma KeyAt(mine: seq<Use>, n: nat, j: nat)
    requires j < |mine| && n <= |mine|
    ensures mine[j].0 in Keys(mine[..n]) || j >= n
  {
    if j < n { assert mine[..n][j] == mine[j]; }
  }

  /** The first of the records in order of use are the least used. */
  lemma FirstAreLeastUsed(m: Table, owner: Identity, mine: seq<Use>, max: nat, n: nat)
    requires multiset(mine) == multiset(Uses(m, Mine(m, owner))) && Ordered(mine)
    requires n == Excess(m, owner, max)
    ensures n <= |mine| == |Mine(m, owner)| && LeastUsed(m, owner, max, Keys(mine[..n]))
  {
    UsesLength(m, owner, mine);
    var victims := Keys(mine[..n]);
    KeysCount(m, owner, mine, n);
    forall v, k | v in victims && k in Mine(m, owner) - victims
      ensures m[v].lastUsedAt <= m[k].lastUsedAt
    {
      var u := (k, m[k].lastUsedAt);
      assert u in multiset(mine);
      var i :| 0 <= i < n && mine[i].0 == v;
      var j :| 0 <= j < |mine| && mine[j] == u;
      assert mine[i] in multiset(mine);
      KeyAt(mine, n, j);
    }
  }

  lemma {:induction false} UsesCount(m: Table, keys: set<Hash>)
    requires keys <= m.Keys
    ensures |Uses(m, keys)| == |keys|
    decreases keys
  {
    if keys != {} {
      var k :| k in keys;
      UsesCount(m, keys - {k});
      assert Uses(m, keys) == Uses(m, keys - {k}) + {(k, m[k].lastUsedAt)};
    }
  }

  lemma {:induction false} KeysCount(m: Table, owner: Identity, mine: seq<Use>, n: nat)
    requires multiset(mine) == multiset(Uses(m, Mine(m, owner))) && n <= |mine|
    ensures |Keys(mine[..n])| == n && Keys(mine[..n]) <= Mine(m, owner)
    decreases n
  {
    if n > 0 {
      KeysCount(m, owner, mine, n - 1);
      KeysNext(mine, n - 1);
      assert mine[n - 1] in multiset(mine);
      forall i | 0 <= i < n - 1
        ensures mine[i].0 != mine[n - 1].0
      {
        NoDuplicates(mine, Uses(m, Mine(m, owner)), i, n - 1);
        assert mine[i] in multiset(mine);
      }
    }
  }

  lemma KeysNext(mine: seq<Use>, i: nat)
    requires i < |mine|
    ensures Keys(mine[..i + 1]) == Keys(mine[..i]) + {mine[i].0}
  {
    assert mine[..i + 1] == mine[..i] + [mine[i]];
  }

  // ---- what one mint does -----------------------------------------------------------------

  /** After a mint the identity holds at most the cap (at least one) of live records
      and the new one is among them; it evicted only the least recently used, and only
      this identity's. */
  lemma MintKeepsCap(s: Store, hash: Hash, d: Device, max: nat, victims: set<Hash>, now: nat)
    requires hash !in s.inner
    requires LeastUsed(Live(s.inner, now), d.owner, max, victims)
    ensures var x := Minted(s, hash, d, victims, true, now);
            && x.file == x.inner
            && |Mine(x.inner, d.owner)| <= (if max == 0 then 1 else max)
            && hash in x.inner && x.inner[hash] == d
            && (forall k :: k in Live(s.inner, now) && s.inner[k].owner != d.owner ==>
                  k in x.inner && x.inner[k] == s.inner[k])
            && (forall k :: k in x.inner && k != hash ==> k in s.inner && x.inner[k] == s.inner[k])
            && (forall v, k ::
                  v in Mine(Live(s.inner, now), d.owner) - x.inner.Keys && k in Mine(x.inner, d.owner) - {hash}
                  ==> s.inner[v].lastUsedAt <= x.inner[k].lastUsedAt)
            && (|Mine(Live(s.inner, now), d.owner)| < Cap(max) ==> Live(s.inner, now).Keys <= x.inner.Keys)
  {
    MintCounts(Live(s.inner, now), hash, d, victims);
  }

  lemma MintCounts(live: Table, hash: Hash, d: Device, victims: set<Hash>)
    requires hash !in live && victims <= Mine(live, d.owner)
    ensures |Mine((live - victims)[hash := d], d.owner)| == |Mine(live, d.owner)| - |victims| + 1
  {
    assert Mine((live - victims)[hash := d], d.owner) == Mine(live, d.owner) - victims + {hash};
    assert |Mine(live, d.owner) - victims| == |Mine(live, d.owner)| - |victims|;
  }

  /** A mint that cannot be saved leaves no trace of the new record; what it evicted
      stays out of memory but is still in the file. */
  lemma FailedMintLeavesNoTrace(s: Store, hash: Hash, d: Device, victims: set<Hash>, now: nat)
    requires hash !in s.inner
    ensures var x := Minted(s, hash, d, victims, false, now);
            x.inner == Live(s.inner, now) - victims && x.file == s.file
  {
    var kept := Live(s.inner, now) - victims;
    assert kept[hash := d] - {hash} == kept;
  }

  // ---- runs, restarts included ---------------------------------------------------------------

  datatype Step =
    | Mint(hash: Hash, id: DeviceId, owner: Identity, enrolledAt: nat, window: nat, max: nat, client: Client,
           victims: set<Hash>)
    | Authorize(hash: Hash, owner: Identity, enrolledAt: nat, client: Client)
    | Revoke(owner: Identity, id: DeviceId, key: Option<Hash>)
    | RevokeAll(owner: Identity)
    | RevokeToken(hash: Hash)
    | ForgetIfOwned(hash: Hash, owner: Identity)
    | Sweep
    | Restart

  /** A step, when it happens, and whether the file can be written then. */
  datatype Event = Event(step: Step, now: nat, ok: bool)

  ghost predicate Enabled(s: Store, e: Event)
  {
    match e.step
    case Mint(hash, _, owner, _, _, max, _, victims) => LeastUsed(Live(s.inner, e.now), owner, max, victims)
    case Revoke(owner, id, key) => Found(s.inner, key, owner, id)
    case _ => true
  }

  /** The records a step takes out of memory and, if it can, out of the file. */
  function Taken(s: Store, e: Event): set<Hash>
  {
    match e.step
    case Revoke(_, _, key) => if key.Some? then {key.value} else {}
    case RevokeAll(owner) => Mine(s.inner, owner)
    case RevokeToken(hash) => {hash}
    case ForgetIfOwned(hash, owner) => {hash} * Mine(s.inner, owner)
    case Sweep => Dead(s.inner, e.now)
    case _ => {}
  }

  function Apply(s: Store, e: Event): Store
  {
    match e.step
    case Mint(hash, id, owner, enrolledAt, window, _, client, victims) =>
      Minted(s, hash, Fresh(id, owner, enrolledAt, window, client, e.now), victims, e.ok, e.now)
    case Authorize(hash, owner, enrolledAt, client) => Authorized(s, hash, owner, enrolledAt, client, e.ok, e.now)
    case Restart => Loaded(s.file, e.now)
    case _ => Without(s, Taken(s, e), e.ok)
  }

  /** Whether the step gets as far as writing the file, and does. */
  predicate Saves(s: Store, e: Event)
  {
    && e.ok
    && match e.step
       case Mint(_, _, _, _, _, _, _, _) => true
       case Authorize(hash, owner, enrolledAt, _) => Trusts(s.inner, hash, owner, enrolledAt, e.now)
       case Restart => false
       case _ => Taken(s, e) * s.inner.Keys != {}
  }

  ghost predicate Legal(s: Store, run: seq<Event>)
    decreases run
  {
    run == [] || (Enabled(s, run[0]) && Legal(Apply(s, run[0]), run[1..]))
  }

  function After(s: Store, run: seq<Event>): Store
    decreases run
  {
    if run == [] then s else After(Apply(s, run[0]), run[1..])
  }

  /** New tokens never repeat the value behind `hash`. */
  predicate NeverMints(run: seq<Event>, hash: Hash)
  {
    forall i :: 0 <= i < |run| ==> run[i].step.Mint? ==> run[i].step.hash != hash
  }

  /** After any write that succeeds the file is the map, whatever failed before. */
  lemma SavedIsInSync(s: Store, e: Event)
    requires Enabled(s, e) && Saves(s, e)
    ensures Apply(s, e).file == Apply(s, e).inner
  {
  }

  /** A device that is neither in memory nor in the file authorizes nobody ever again,
      across restarts and whatever else is minted meanwhile. */
  lemma {:induction false} GoneForGood(s: Store, run: seq<Event>, hash: Hash)
    requires Legal(s, run) && NeverMints(run, hash)
    requires hash !in s.inner && hash !in s.file
    ensures hash !in After(s, run).inner && hash !in After(s, run).file
    decreases run
  {
    if run != [] { GoneForGood(Apply(s, run[0]), run[1..], hash); }
  }

  /** The step does not concern this device: it is minted under another hash and does not
      evict it, revokes for somebody else or by another handle or token, and no step that
      throws expired records out comes after its time. */
  predicate Spares(e: Event, hash: Hash, d: Device)
  {
    match e.step
    case Mint(h, _, _, _, _, _, _, victims) => h != hash && hash !in victims && e.now < d.expiresAt
    case Authorize(_, _, _, _) => true
    case Revoke(owner, id, _) => owner != d.owner || id != d.id
    case RevokeAll(owner) => owner != d.owner
    case RevokeToken(h) => h != hash
    case ForgetIfOwned(h, owner) => h != hash || owner != d.owner
    case Sweep => e.now < d.expiresAt
    case Restart => false
  }

  lemma StepSpares(s: Store, e: Event, hash: Hash, d: Device)
    requires Enabled(s, e) && Spares(e, hash, d) && hash in s.inner && Lasting(s.inner[hash]) == Lasting(d)
    ensures hash in Apply(s, e).inner && Lasting(Apply(s, e).inner[hash]) == Lasting(d)
  {
    assert s.inner[hash].owner == d.owner && s.inner[hash].id == d.id && s.inner[hash].expiresAt == d.expiresAt;
  }

  /** A device stays trusted: in every run without a restart whose steps spare it, it goes on
      letting in exactly its owner, at its enrollment and within its time. */
  lemma {:induction false} StaysTrusted(s: Store, run: seq<Event>, hash: Hash, d: Device,
                                        owner: Identity, enrolledAt: nat, now: nat)
    requires Legal(s, run) && (forall i :: 0 <= i < |run| ==> Spares(run[i], hash, d))
    requires hash in s.inner && Lasting(s.inner[hash]) == Lasting(d)
    ensures Trusts(After(s, run).inner, hash, owner, enrolledAt, now)
       <==> owner == d.owner && enrolledAt == d.enrolledAt && now < d.expiresAt
    decreases run
  {
    if run == [] {
      assert s.inner[hash].owner == d.owner && s.inner[hash].enrolledAt == d.enrolledAt;
      assert s.inner[hash].expiresAt == d.expiresAt;
    } else {
      StepSpares(s, run[0], hash, d);
      assert forall i :: 0 <= i < |run[1..]| ==> run[1..][i] == run[i + 1];
      StaysTrusted(Apply(s, run[0]), run[1..], hash, d, owner, enrolledAt, now);
    }
  }

  /** What the revoking steps of a run take out of memory, and nothing else; the file follows if
      it can be written. */
  lemma StepRevokes(s: Store, e: Event, k: Hash)
    requires Enabled(s, e) && k in s.inner
    ensures var x, d := Apply(s, e), s.inner[k];
            && (e.step.Revoke? ==> (k in x.inner <==> e.step.key != Some(k)))
            && (e.step.Revoke? && e.step.key == Some(k) ==> d.id == e.step.id && d.owner == e.step.owner)
            && (e.step.RevokeAll? ==> (k in x.inner <==> d.owner != e.step.owner))
            && (e.step.RevokeToken? ==> (k in x.inner <==> k != e.step.hash))
            && (e.step.ForgetIfOwned? ==> (k in x.inner <==> k != e.step.hash || d.owner != e.step.owner))
            && (e.step.Sweep? ==> (k in x.inner <==> e.now < d.expiresAt))
            && (e.ok && s.file == s.inner && !e.step.Mint? && !e.step.Restart? ==> (k in x.file <==> k in x.inner))
  {
    assert k in Taken(s, e) ==> k in Taken(s, e) * s.inner.Keys;
  }

  /** Revoking with a successful write is for good. */
  lemma RevokedForGood(s: Store, e: Event, run: seq<Event>, hash: Hash)
    requires Enabled(s, e) && hash in Taken(s, e) && hash in s.inner && e.ok
    requires Legal(Apply(s, e), run) && NeverMints(run, hash)
    ensures forall owner, enrolledAt, now ::
              !Trusts(After(Apply(s, e), run).inner, hash, owner, enrolledAt, now)
  {
    assert hash in Taken(s, e) * s.inner.Keys;
    GoneForGood(Apply(s, e), run, hash);
  }

  /** Some step of the run saves. */
  predicate SomeSave(s: Store, run: seq<Event>)
    decreases run
  {
    run != [] && (Saves(s, run[0]) || SomeSave(Apply(s, run[0]), run[1..]))
  }

  predicate NoRestart(run: seq<Event>)
  {
    forall i :: 0 <= i < |run| ==> !run[i].step.Restart?
  }

  /** What memory has dropped comes back at the next restart exactly if no write has
      succeeded since, the file still had it, and it has not expired. */
  lemma {:induction false} ComesBackIff(s: Store, run: seq<Event>, hash: Hash, now: nat)
    requires Legal(s, run) && NeverMints(run, hash) && NoRestart(run) && hash !in s.inner
    ensures hash in Loaded(After(s, run).file, now).inner
       <==> hash in s.file && !SomeSave(s, run) && now < s.file[hash].expiresAt
    decreases run
  {
    if run != [] {
      var x := Apply(s, run[0]);
      assert hash !in x.inner;
      if Saves(s, run[0]) {
        SavedIsInSync(s, run[0]);
        GoneForGood(x, run[1..], hash);
      } else {
        assert x.file == s.file;
        ComesBackIff(x, run[1..], hash, now);
      }
    }
  }

  /** A mint whose write failed hands out nothing: its token authorizes nobody in any run that
      follows. What it evicted on the way comes back at a restart exactly if the file had it,
      unexpired, and no write has succeeded since. */
  lemma FailedMintIsUndone(s: Store, mint: Event, run: seq<Event>, evicted: Hash, now: nat)
    requires mint.step.Mint? && Enabled(s, mint) && !mint.ok
    requires mint.step.hash !in s.inner && mint.step.hash !in s.file
    requires Legal(Apply(s, mint), run) && NeverMints(run, mint.step.hash)
    ensures forall owner, enrolledAt, at ::
              !Trusts(After(Apply(s, mint), run).inner, mint.step.hash, owner, enrolledAt, at)
    ensures evicted in mint.step.victims && NeverMints(run, evicted) && NoRestart(run) ==>
              (evicted in Loaded(After(Apply(s, mint), run).file, now).inner
               <==> evicted in s.file && !SomeSave(Apply(s, mint), run) && now < s.file[evicted].expiresAt)
  {
    var d := Fresh(mint.step.id, mint.step.owner, mint.step.enrolledAt, mint.step.window, mint.step.client, mint.now);
    FailedMintLeavesNoTrace(s, mint.step.hash, d, mint.step.victims, mint.now);
    GoneForGood(Apply(s, mint), run, mint.step.hash);
    if evicted in mint.step.victims && NeverMints(run, evicted) && NoRestart(run) {
      ComesBackIff(Apply(s, mint), run, evicted, now);
    }
  }

  // ---- the cap over whole runs -----------------------------------------------------------------

  function Owners(m: Table): set<Identity> { set k | k in m :: m[k].owner }

  /** No identity has more records than the cap. */
  predicate Capped(m: Table, max: nat) { forall owner :: owner in Owners(m) ==> |Mine(m, owner)| <= Cap(max) }

  lemma CappedFor(m: Table, owner: Identity, max: nat)
    requires Capped(m, max)
    ensures |Mine(m, owner)| <= Cap(max)
  {
    if owner !in Owners(m) { assert Mine(m, owner) == {}; }
  }

  /** Records that go, or change but for their owner, keep the cap. */
  lemma FewerRecords(m: Table, fewer: Table, max: nat)
    requires Capped(m, max)
    requires forall k :: k in fewer ==> k in m && m[k].owner == fewer[k].owner
    ensures Capped(fewer, max)
  {
    forall owner | owner in Owners(fewer) ensures |Mine(fewer, owner)| <= Cap(max) {
      SubsetSize(Mine(fewer, owner), Mine(m, owner));
      CappedFor(m, owner, max);
    }
  }

  /** Room was made for the new record, whatever record its hash replaces. */
  lemma OwnerIsCapped(live: Table, hash: Hash, d: Device, victims: set<Hash>, max: nat)
    requires LeastUsed(live, d.owner, max, victims)
    ensures |Mine((live - victims)[hash := d], d.owner)| <= Cap(max)
  {
    var mine := Mine(live, d.owner);
    SubsetSize(Mine((live - victims)[hash := d], d.owner), mine - victims + {hash});
    assert |mine - victims| == |mine| - |victims|;
  }

  lemma MintIsCapped(live: Table, hash: Hash, d: Device, victims: set<Hash>, max: nat, most: nat)
    requires Capped(live, most) && max <= most && LeastUsed(live, d.owner, max, victims)
    ensures Capped((live - victims)[hash := d], most)
  {
    var minted := (live - victims)[hash := d];
    OwnerIsCapped(live, hash, d, victims, max);
    forall owner | owner in Owners(minted) && owner != d.owner ensures |Mine(minted, owner)| <= Cap(most) {
      SubsetSize(Mine(minted, owner), Mine(live, owner));
      CappedFor(live, owner, most);
    }
  }

  lemma MintStepCapped(s: Store, e: Event, most: nat)
    requires e.step.Mint? && e.step.max <= most && Enabled(s, e) && Capped(s.inner, most) && Capped(s.file, most)
    ensures Capped(Apply(s, e).inner, most) && Capped(Apply(s, e).file, most)
  {
    var live := Live(s.inner, e.now);
    var d := Fresh(e.step.id, e.step.owner, e.step.enrolledAt, e.step.window, e.step.client, e.now);
    FewerRecords(s.inner, live, most);
    MintIsCapped(live, e.step.hash, d, e.step.victims, e.step.max, most);
    var minted := (live - e.step.victims)[e.step.hash := d];
    FewerRecords(minted, minted - {e.step.hash}, most);
  }

  lemma StepCapped(s: Store, e: Event, most: nat)
    requires Enabled(s, e) && Capped(s.inner, most) && Capped(s.file, most)
    requires e.step.Mint? ==> e.step.max <= most
    ensures Capped(Apply(s, e).inner, most) && Capped(Apply(s, e).file, most)
  {
    if e.step.Mint? {
      MintStepCapped(s, e, most);
    } else if e.step.Restart? {
      FewerRecords(s.file, Live(s.file, e.now), most);
    } else {
      FewerRecords(s.inner, Apply(s, e).inner, most);
    }
  }

  /** Over every run, restarts and failed writes included, no identity ever has more records
      than the largest cap a mint went by, neither in memory nor in the file. */
  lemma {:induction false} RunKeepsCap(s: Store, run: seq<Event>, most: nat, owner: Identity)
    requires Legal(s, run) && Capped(s.inner, most) && Capped(s.file, most)
    requires forall i :: 0 <= i < |run| ==> run[i].step.Mint? ==> run[i].step.max <= most
    ensures |set k | k in After(s, run).inner && After(s, run).inner[k].owner == owner| <= Cap(most)
    ensures |set k | k in After(s, run).file && After(s, run).file[k].owner == owner| <= Cap(most)
    decreases run
  {
    if run == [] {
      CappedFor(s.inner, owner, most);
      CappedFor(s.file, owner, most);
    } else {
      StepCapped(s, run[0], most);
      RunKeepsCap(Apply(s, run[0]), run[1..], most, owner);
    }
  }

  // ---- what a device is trusted for ------------------------------------------------------------

  /** What using a device does not change. */
  function Lasting(d: Device): Device { d.(lastUsedAt := 0, seen := Client("", "")) }

  /** Memory and file say the same about what a device is trusted for. */
  predicate Fixed(m: Table, hash: Hash, d: Device) { hash in m ==> Lasting(m[hash]) == Lasting(d) }

  lemma {:induction false} TrustIsFixed(s: Store, run: seq<Event>, hash: Hash, d: Device)
    requires Legal(s, run) && NeverMints(run, hash)
    requires Fixed(s.inner, hash, d) && Fixed(s.file, hash, d)
    ensures Fixed(After(s, run).inner, hash, d) && Fixed(After(s, run).file, hash, d)
    decreases run
  {
    if run != [] { TrustIsFixed(Apply(s, run[0]), run[1..], hash, d); }
  }

  /** However often a device is used, and across restarts, it authorizes only the
      identity and the enrollment it was minted for, and only within the window counted
      from the mint. */
  lemma TrustIsAbsolute(s: Store, mint: Event, run: seq<Event>, owner: Identity, enrolledAt: nat, now: nat)
    requires mint.step.Mint? && Enabled(s, mint)
    requires mint.step.hash !in s.inner && mint.step.hash !in s.file
    requires Legal(Apply(s, mint), run) && NeverMints(run, mint.step.hash)
    requires Trusts(After(Apply(s, mint), run).inner, mint.step.hash, owner, enrolledAt, now)
    ensures owner == mint.step.owner && enrolledAt == mint.step.enrolledAt
    ensures now < SatAdd(mint.now, mint.step.window)
  {
    var d := Fresh(mint.step.id, mint.step.owner, mint.step.enrolledAt, mint.step.window, mint.step.client, mint.now);
    TrustIsFixed(Apply(s, mint), run, mint.step.hash, d);
  }
}
