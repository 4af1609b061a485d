/** Signing in with the second factor required: `local_login`, `oauth_callback`,
    `trusted_device` and `mfa_submit` (src/main.rs) as requests that interleave step by
    step over the session, enrollment and device stores, across restarts at which an
    operator may have edited the enrollment file. */
module Login {
  import opened Basics
  import opened Enrollments

  type Key = string
  type Hash = string
  type Otp = string

  /** Where in the log the grounds of a login are. */
  datatype Grounds = ByCode(code: nat) | ByDevice(first: nat, read: nat, mint: nat)

  /** What happened, in order; numbers are positions of earlier entries. A first factor passed
      by the password, or by the account the issuer knows under a subject; a code came with the
      wish to be remembered, if that was on offer. */
  datatype Entry =
    | Loaded(table: Table)
    | FirstPassed(user: Identity, sub: Option<Subject>)
    | CodeAccepted(user: Identity, first: nat, secret: Secret, otp: Otp, at: nat, remember: bool)
    | SecretStored(user: Identity, secret: Secret, at: nat, code: nat)
    | DateRead(user: Identity, enrolledAt: nat)
    | LoggedIn(user: Identity, grounds: Grounds)
    | DeviceMinted(user: Identity, enrolledAt: nat, code: nat)

  datatype Session =
    | Anonymous
    | Pending(user: Identity, first: nat)
    | Authenticated(user: Identity, login: nat)

  datatype Device = Device(owner: Identity, enrolledAt: nat, mint: nat)

  /** A submitted code form: the seed only matters while enrolling. */
  datatype Form = Form(otp: Otp, seed: Secret, remember: bool)

  /** Where a request stands. The first four belong to the two first-factor handlers,
      the others to `mfa_submit`; from `Entered` to `Accepted` it holds the bucket. */
  datatype Request =
    | Passed(user: Identity, key: Key, first: nat)
    | Trusting(user: Identity, key: Key, first: nat, hash: Hash, read: nat, enrolledAt: nat)
    | Trusted(user: Identity, key: Key, first: nat, read: nat, mint: nat)
    | Untrusted(user: Identity, key: Key, first: nat)
    | Waiting(user: Identity, key: Key, first: nat, form: Form)
    | Entered(user: Identity, key: Key, first: nat, form: Form)
    | Judging(user: Identity, key: Key, first: nat, form: Form, enrolling: bool, secret: Secret)
    | Enrolling(user: Identity, key: Key, form: Form, secret: Secret, code: nat)
    | Stored(user: Identity, key: Key, form: Form, code: nat)
    | Accepted(user: Identity, key: Key, form: Form, enrolling: bool, code: nat)
    | Released(user: Identity, key: Key, form: Form, enrolling: bool, code: nat)
    | Remembering(user: Identity, code: nat)
    | Minting(user: Identity, code: nat, enrolledAt: nat)

  /** `issued` and `minted` are the sessions and devices there ever were: since a write may
      fail, any of them may still be on disk and come back at a restart. */
  datatype World = World(sessions: map<Key, Session>, issued: map<Key, Session>, enrollment: Store,
                         devices: map<Hash, Device>, minted: map<Hash, Device>,
                         buckets: map<Identity, nat>, requests: map<nat, Request>, log: seq<Entry>)

  predicate Holds(r: Request)
  {
    r.Entered? || r.Judging? || r.Enrolling? || r.Stored? || r.Accepted?
  }

  /** `totp::valid_seed` and `totp::verify`, at some time. */
  datatype Totp = Totp(verifies: (Secret, Otp, nat) -> bool)

  /** What an identity is enrolled with. */
  datatype View = View(secret: Option<Secret>, enrolledAt: Option<nat>)

  function ViewOf(m: Table, user: Identity): View
  {
    View(Get(m, user).mfaSecret, Get(m, user).enrolledAt)
  }

  /** `current_enrolled_at`: no date without a secret. */
  function DateOf(v: View): Option<nat> { if v.secret.Some? then v.enrolledAt else None }

  function Current(w: World, user: Identity): View { ViewOf(w.enrollment.inner, user) }

  // ---- steps ---------------------------------------------------------------------------

  /** `r` is the number of a request. */
  datatype Step =
    | VisitLogin(key: Key)                              // `ensure_session`
    | PasswordRight(r: nat, key: Key, user: Identity)
    | GoogleVouches(r: nat, key: Key, user: Identity, sub: Subject, ok: bool)
    | LookForTrust(r: nat, cookie: Option<Hash>)        // remember_device off counts as no cookie
    | Authorize(r: nat, unexpired: bool)
    | TrustedLogin(r: nat, key: Key)
    | BeginMfa(r: nat, key: Key)
    | SubmitCode(r: nat, key: Key, form: Form)
    | Enter(r: nat)
    | LockedOut(r: nat)
    | ReadRecord(r: nat)
    | Judge(r: nat, at: nat, unused: bool)
    | StoreSecret(r: nat, at: nat, ok: bool)
    | StrandDevices(r: nat)
    | Succeed(r: nat)
    | CodeLogin(r: nat, key: Key)
    | ReadEnrolledAt(r: nat)
    | MintDevice(r: nat, hash: Hash, ok: bool)
    | Abandon(r: nat)                                   // an error answer, or the client went away
    | DropSession(key: Key)                             // logout, cancel, expiry, eviction
    | DropDevice(hash: Hash)                            // revocation, expiry, eviction
    | Restart(edited: Table, keys: set<Key>, hashes: set<Hash>)

  predicate At(w: World, r: nat) { r in w.requests }

  /** Fresh request numbers, session ids and tokens; each step where its handler stands. */
  predicate Enabled(w: World, s: Step)
  {
    match s
    case VisitLogin(key) => key !in w.issued
    case PasswordRight(r, key, _) => r !in w.requests && key in w.sessions
    case GoogleVouches(r, key, _, _, _) => r !in w.requests && key in w.sessions
    case LookForTrust(r, _) => At(w, r) && w.requests[r].Passed?
    case Authorize(r, _) => At(w, r) && w.requests[r].Trusting?
    case TrustedLogin(r, key) => At(w, r) && w.requests[r].Trusted? && key !in w.issued
    case BeginMfa(r, key) => At(w, r) && w.requests[r].Untrusted? && key !in w.issued
    case SubmitCode(r, key, _) => r !in w.requests && key in w.sessions && w.sessions[key].Pending?
    case Enter(r) => At(w, r) && w.requests[r].Waiting? && w.requests[r].user !in w.buckets
    case LockedOut(r) => At(w, r) && w.requests[r].Entered?
    case ReadRecord(r) => At(w, r) && w.requests[r].Entered?
    case Judge(r, _, _) => At(w, r) && w.requests[r].Judging?
    case StoreSecret(r, _, _) => At(w, r) && w.requests[r].Enrolling?
    case StrandDevices(r) => At(w, r) && w.requests[r].Stored?
    case Succeed(r) => At(w, r) && w.requests[r].Accepted?
    case CodeLogin(r, key) => At(w, r) && w.requests[r].Released? && key !in w.issued
    case ReadEnrolledAt(r) => At(w, r) && w.requests[r].Remembering?
    case MintDevice(r, hash, _) => At(w, r) && w.requests[r].Minting? && hash !in w.minted
    case Abandon(r) => At(w, r)
    case DropSession(_) => true
    case DropDevice(_) => true
    case Restart(_, keys, hashes) => keys <= w.issued.Keys && hashes <= w.minted.Keys
  }

  function Noted(w: World, e: Entry): World { w.(log := w.log + [e]) }

  /** The request moves on. */
  function To(w: World, r: nat, next: Request): World { w.(requests := w.requests[r := next]) }

  /** The request ends; a bucket it holds is released. */
  function Ended(w: World, r: nat): World
    requires r in w.requests
  {
    w.(requests := w.requests - {r},
       buckets := if Holds(w.requests[r]) then w.buckets - {w.requests[r].user} else w.buckets)
  }

  function FirstFactor(w: World, r: nat, key: Key, user: Identity, sub: Option<Subject>): World
  {
    To(Noted(w, FirstPassed(user, sub)), r, Passed(user, key, |w.log|))
  }

  function AfterGoogle(w: World, r: nat, key: Key, user: Identity, sub: Subject, ok: bool): World
  {
    var x := w.(enrollment := AfterPin(w.enrollment, user, sub, ok));
    if PinOutcome(w.enrollment, user, sub, ok).Matches? then FirstFactor(x, r, key, user, Some(sub)) else x
  }

  function AfterLook(w: World, r: nat, cookie: Option<Hash>): World
    requires r in w.requests && w.requests[r].Passed?
  {
    var q := w.requests[r];
    var date := DateOf(Current(w, q.user));
    if cookie.Some? && date.Some?
    then To(Noted(w, DateRead(q.user, date.value)), r,
            Trusting(q.user, q.key, q.first, cookie.value, |w.log|, date.value))
    else To(w, r, Untrusted(q.user, q.key, q.first))
  }

  /** `DeviceStore::authorize`, on the date read before. */
  function Authorized(devices: map<Hash, Device>, q: Request, unexpired: bool): Request
    requires q.Trusting?
  {
    if q.hash in devices && devices[q.hash].owner == q.user && unexpired
       && devices[q.hash].enrolledAt == q.enrolledAt
    then Trusted(q.user, q.key, q.first, q.read, devices[q.hash].mint)
    else Untrusted(q.user, q.key, q.first)
  }

  function AfterAuthorize(w: World, r: nat, unexpired: bool): World
    requires r in w.requests && w.requests[r].Trusting?
  {
    To(w, r, Authorized(w.devices, w.requests[r], unexpired))
  }

  function Opened(w: World, key: Key, session: Session): World
  {
    w.(sessions := w.sessions[key := session], issued := w.issued[key := session])
  }

  /** A new session id replaces the old one. */
  function Switched(w: World, retired: Key, key: Key, session: Session): World
  {
    Opened(w.(sessions := w.sessions - {retired}), key, session)
  }

  function AfterTrusted(w: World, r: nat, key: Key): World
    requires r in w.requests && w.requests[r].Trusted?
  {
    var q := w.requests[r];
    var x := Noted(w, LoggedIn(q.user, ByDevice(q.first, q.read, q.mint)));
    Ended(Switched(x, q.key, key, Authenticated(q.user, |w.log|)), r)
  }

  function AfterBegin(w: World, r: nat, key: Key): World
    requires r in w.requests && w.requests[r].Untrusted?
  {
    var q := w.requests[r];
    Ended(Switched(w, q.key, key, Pending(q.user, q.first)), r)
  }

  function AfterEnter(w: World, r: nat): World
    requires r in w.requests && w.requests[r].Waiting?
  {
    var q := w.requests[r];
    To(w.(buckets := w.buckets[q.user := r]), r, Entered(q.user, q.key, q.first, q.form))
  }

  function AfterRead(w: World, r: nat): World
    requires r in w.requests && w.requests[r].Entered?
  {
    var q := w.requests[r];
    match Current(w, q.user).secret
    case Some(secret) => To(w, r, Judging(q.user, q.key, q.first, q.form, false, secret))
    case None => To(w, r, Judging(q.user, q.key, q.first, q.form, true, q.form.seed))
  }

  /** Where a request goes whose code was accepted. */
  function Judged(q: Request, code: nat): Request
    requires q.Judging?
  {
    if q.enrolling then Enrolling(q.user, q.key, q.form, q.secret, code)
    else Accepted(q.user, q.key, q.form, false, code)
  }

  function AfterJudge(t: Totp, w: World, r: nat, at: nat, unused: bool): World
    requires r in w.requests && w.requests[r].Judging?
  {
    var q := w.requests[r];
    if t.verifies(q.secret, q.form.otp, at) && unused then
      To(Noted(w, CodeAccepted(q.user, q.first, q.secret, q.form.otp, at, q.form.remember && !q.enrolling)), r,
         Judged(q, |w.log|))
    else Ended(w, r)
  }

  /** `enroll` overwrites whatever is there, also when the write fails. */
  function Enroll(w: World, q: Request, at: nat, ok: bool): World
    requires q.Enrolling?
  {
    Noted(w.(enrollment := AfterEnroll(w.enrollment, q.user, q.secret, at, ok)),
          SecretStored(q.user, q.secret, at, q.code))
  }

  function AfterStore(w: World, r: nat, at: nat, ok: bool): World
    requires r in w.requests && w.requests[r].Enrolling?
  {
    var q := w.requests[r];
    var y := To(Enroll(w, q, at, ok), r, Stored(q.user, q.key, q.form, q.code));
    if ok then y else Ended(y, r)
  }

  function NotOf(devices: map<Hash, Device>, user: Identity): map<Hash, Device>
  {
    map h | h in devices && devices[h].owner != user :: devices[h]
  }

  function AfterStrand(w: World, r: nat): World
    requires r in w.requests && w.requests[r].Stored?
  {
    var q := w.requests[r];
    To(w.(devices := NotOf(w.devices, q.user)), r, Accepted(q.user, q.key, q.form, true, q.code))
  }

  function AfterSucceed(w: World, r: nat): World
    requires r in w.requests && w.requests[r].Accepted?
  {
    var q := w.requests[r];
    To(w.(buckets := w.buckets - {q.user}), r, Released(q.user, q.key, q.form, q.enrolling, q.code))
  }

  /** The session of a code login, its request still there. */
  function LoggedByCode(w: World, q: Request, key: Key): World
    requires q.Released?
  {
    Switched(Noted(w, LoggedIn(q.user, ByCode(q.code))), q.key, key, Authenticated(q.user, |w.log|))
  }

  function AfterCodeLogin(w: World, r: nat, key: Key): World
    requires r in w.requests && w.requests[r].Released?
  {
    var q := w.requests[r];
    var x := LoggedByCode(w, q, key);
    if q.form.remember && !q.enrolling then To(x, r, Remembering(q.user, q.code)) else Ended(x, r)
  }

  function AfterReadAt(w: World, r: nat): World
    requires r in w.requests && w.requests[r].Remembering?
  {
    var q := w.requests[r];
    match DateOf(Current(w, q.user))
    case Some(at) => To(w, r, Minting(q.user, q.code, at))
    case None => Ended(w, r)
  }

  function AfterMint(w: World, r: nat, hash: Hash, ok: bool): World
    requires r in w.requests && w.requests[r].Minting?
  {
    var q := w.requests[r];
    if ok then
      var d := Device(q.user, q.enrolledAt, |w.log|);
      Noted(Ended(w, r), DeviceMinted(q.user, q.enrolledAt, q.code))
      .(devices := w.devices[hash := d], minted := w.minted[hash := d])
    else Ended(w, r)
  }

  function Kept<K, V>(m: map<K, V>, keys: set<K>): map<K, V>
    requires keys <= m.Keys
  {
    map k | k in keys :: m[k]
  }

  /** A new process: what disk still has of sessions and devices, and whatever the
      enrollment file says by now. */
  function Restarted(w: World, edited: Table, keys: set<Key>, hashes: set<Hash>): World
    requires keys <= w.issued.Keys && hashes <= w.minted.Keys
  {
    World(Kept(w.issued, keys), w.issued, Store(edited, edited), Kept(w.minted, hashes), w.minted,
          map[], map[], w.log + [Loaded(edited)])
  }

  function Apply(t: Totp, w: World, s: Step): World
    requires Enabled(w, s)
  {
    match s
    case VisitLogin(key) => Opened(w, key, Anonymous)
    case PasswordRight(r, key, user) => FirstFactor(w, r, key, user, None)
    case GoogleVouches(r, key, user, sub, ok) => AfterGoogle(w, r, key, user, sub, ok)
    case LookForTrust(r, cookie) => AfterLook(w, r, cookie)
    case Authorize(r, unexpired) => AfterAuthorize(w, r, unexpired)
    case TrustedLogin(r, key) => AfterTrusted(w, r, key)
    case BeginMfa(r, key) => AfterBegin(w, r, key)
    case SubmitCode(r, key, form) =>
      To(w, r, Waiting(w.sessions[key].user, key, w.sessions[key].first, form))
    case Enter(r) => AfterEnter(w, r)
    case LockedOut(r) => Ended(w.(sessions := w.sessions - {w.requests[r].key}), r)
    case ReadRecord(r) => AfterRead(w, r)
    case Judge(r, at, unused) => AfterJudge(t, w, r, at, unused)
    case StoreSecret(r, at, ok) => AfterStore(w, r, at, ok)
    case StrandDevices(r) => AfterStrand(w, r)
    case Succeed(r) => AfterSucceed(w, r)
    case CodeLogin(r, key) => AfterCodeLogin(w, r, key)
    case ReadEnrolledAt(r) => AfterReadAt(w, r)
    case MintDevice(r, hash, ok) => AfterMint(w, r, hash, ok)
    case Abandon(r) => Ended(w, r)
    case DropSession(key) => w.(sessions := w.sessions - {key})
    case DropDevice(hash) => w.(devices := w.devices - {hash})
    case Restart(edited, keys, hashes) => Restarted(w, edited, keys, hashes)
  }

  predicate Legal(t: Totp, w: World, run: seq<Step>)
    decreases run
  {
    run == [] || (Enabled(w, run[0]) && Legal(t, Apply(t, w, run[0]), run[1..]))
  }

  function After(t: Totp, w: World, run: seq<Step>): World
    requires Legal(t, w, run)
    decreases run
  {
    if run == [] then w else After(t, Apply(t, w, run[0]), run[1..])
  }

  /** The rest of one process's life. */
  predicate NoRestart(run: seq<Step>) { forall i :: 0 <= i < |run| ==> !run[i].Restart? }

  // ---- what the log says ------------------------------------------------------------------

  /** What the identity is enrolled with after these events: the last file loaded, and the
      secrets stored since. */
  function Enrolled(log: seq<Entry>, user: Identity): View
    decreases |log|
  {
    if log == [] then View(None, None)
    else
      var e := log[|log| - 1];
      if e.Loaded? then ViewOf(e.table, user)
      else if e.SecretStored? && e.user == user then View(Some(e.secret), Some(e.at))
      else Enrolled(log[..|log| - 1], user)
  }

  predicate FirstAt(log: seq<Entry>, user: Identity, first: nat)
  {
    first < |log| && log[first].FirstPassed? && log[first].user == user
  }

  /** Position `code` is an accepted code of `user`, on a login whose first factor had
      passed before, for exactly this secret. */
  predicate CodeFor(t: Totp, log: seq<Entry>, user: Identity, code: nat, secret: Secret)
  {
    && code < |log| && log[code].CodeAccepted?
    && log[code].user == user && log[code].secret == secret
    && log[code].first < code && FirstAt(log, user, log[code].first)
    && t.verifies(secret, log[code].otp, log[code].at)
  }

  /** Position `mint` created a device against date `d`, after a code accepted for the very
      secret that was stored with that date. */
  predicate MintAt(t: Totp, log: seq<Entry>, user: Identity, mint: nat, d: nat)
  {
    && mint < |log| && log[mint].DeviceMinted? && log[mint].user == user && log[mint].enrolledAt == d
    && log[mint].code < mint && log[log[mint].code].CodeAccepted? && log[log[mint].code].remember
    && CodeFor(t, log, user, log[mint].code, log[log[mint].code].secret)
    && Enrolled(log[..mint], user) == View(Some(log[log[mint].code].secret), Some(d))
  }

  /** Position `read` found date `d` to be the identity's. */
  predicate ReadAt(log: seq<Entry>, user: Identity, read: nat, d: nat)
  {
    read < |log| && log[read] == DateRead(user, d) && DateOf(Enrolled(log[..read], user)) == Some(d)
  }

  /** The device of `mint` fits the date found at `read`. */
  predicate DeviceFits(t: Totp, log: seq<Entry>, user: Identity, first: nat, read: nat, mint: nat)
  {
    && FirstAt(log, user, first) && first < read < |log| && log[read].DateRead?
    && ReadAt(log, user, read, log[read].enrolledAt)
    && MintAt(t, log, user, mint, log[read].enrolledAt)
  }

  /** Position `login` is a login with good grounds: a code accepted for the secret the
      identity was enrolled with at that moment, or a device. */
  predicate LoginAt(t: Totp, log: seq<Entry>, user: Identity, login: nat)
  {
    && login < |log| && log[login].LoggedIn? && log[login].user == user
    && match log[login].grounds
       case ByCode(code) =>
         && code < login && log[code].CodeAccepted?
         && CodeFor(t, log, user, code, log[code].secret)
         && Enrolled(log[..login], user).secret == Some(log[code].secret)
       case ByDevice(first, read, mint) =>
         read < login && mint < login && DeviceFits(t, log, user, first, read, mint)
  }

  /** Every secret ever stored went into a record without one, after a code accepted for it. */
  predicate StoresProven(t: Totp, log: seq<Entry>)
  {
    forall j :: 0 <= j < |log| && log[j].SecretStored? ==>
      && log[j].code < j && CodeFor(t, log, log[j].user, log[j].code, log[j].secret)
      && Enrolled(log[..j], log[j].user).secret.None?
  }

  // ---- the invariant -----------------------------------------------------------------------

  predicate SessionInv(t: Totp, log: seq<Entry>, s: Session)
  {
    match s
    case Anonymous => true
    case Pending(user, first) => FirstAt(log, user, first)
    case Authenticated(user, login) => LoginAt(t, log, user, login)
  }

  predicate DeviceInv(t: Totp, log: seq<Entry>, d: Device) { MintAt(t, log, d.owner, d.mint, d.enrolledAt) }

  /** An accepted code for the secret the identity is enrolled with now. */
  predicate CodeNow(t: Totp, w: World, user: Identity, code: nat)
  {
    Current(w, user).secret.Some? && CodeFor(t, w.log, user, code, Current(w, user).secret.value)
  }

  predicate RequestInv(t: Totp, w: World, r: Request)
  {
    match r
    case Passed(user, _, first) => FirstAt(w.log, user, first)
    case Trusting(user, _, first, _, read, d) =>
      FirstAt(w.log, user, first) && first < read && ReadAt(w.log, user, read, d)
    case Trusted(user, _, first, read, mint) => DeviceFits(t, w.log, user, first, read, mint)
    case Untrusted(user, _, first) => FirstAt(w.log, user, first)
    case Waiting(user, _, first, _) => FirstAt(w.log, user, first)
    case Entered(user, _, first, _) => FirstAt(w.log, user, first)
    case Judging(user, _, first, _, enrolling, secret) =>
      FirstAt(w.log, user, first) && Current(w, user).secret == if enrolling then None else Some(secret)
    case Enrolling(user, _, _, secret, code) =>
      Current(w, user).secret.None? && CodeFor(t, w.log, user, code, secret) && !w.log[code].remember
    case Stored(user, _, _, code) => CodeNow(t, w, user, code) && !w.log[code].remember
    case Accepted(user, _, form, enrolling, code) =>
      CodeNow(t, w, user, code) && w.log[code].remember == (form.remember && !enrolling)
    case Released(user, _, form, enrolling, code) =>
      CodeNow(t, w, user, code) && w.log[code].remember == (form.remember && !enrolling)
    case Remembering(user, code) => CodeNow(t, w, user, code) && w.log[code].remember
    case Minting(user, code, at) =>
      CodeNow(t, w, user, code) && w.log[code].remember && Current(w, user).enrolledAt == Some(at)
  }

  /** A bucket is held by the request it names, and by nobody else. */
  predicate BucketInv(w: World, r: nat)
    requires r in w.requests
  {
    Holds(w.requests[r]) ==> w.requests[r].user in w.buckets && w.buckets[w.requests[r].user] == r
  }

  predicate Within<K, V(==)>(part: map<K, V>, whole: map<K, V>)
  {
    forall k :: k in part ==> k in whole && part[k] == whole[k]
  }

  /** The log accounts for the stores. */
  ghost predicate Accounted(t: Totp, w: World)
  {
    && (forall k :: k in w.issued ==> SessionInv(t, w.log, w.issued[k])) && Within(w.sessions, w.issued)
    && (forall h :: h in w.minted ==> DeviceInv(t, w.log, w.minted[h])) && Within(w.devices, w.minted)
    && (forall user :: Enrolled(w.log, user) == Current(w, user))
    && StoresProven(t, w.log)
  }

  ghost predicate Inv(t: Totp, w: World)
  {
    && Accounted(t, w)
    && forall r :: r in w.requests ==> RequestInv(t, w, w.requests[r]) && BucketInv(w, r)
  }

  /** A fresh install with whatever the enrollment file says. */
  function Initial(table: Table): World
  {
    World(map[], map[], Store(table, table), map[], map[], map[], map[], [Loaded(table)])
  }

  lemma InitialHolds(t: Totp, table: Table)
    ensures Inv(t, Initial(table))
  {
  }

  // ---- what a longer log keeps ----------------------------------------------------------------

  lemma EnrolledSnoc(log: seq<Entry>, e: Entry, user: Identity)
    ensures Enrolled(log + [e], user)
         == if e.Loaded? then ViewOf(e.table, user)
            else if e.SecretStored? && e.user == user then View(Some(e.secret), Some(e.at))
            else Enrolled(log, user)
  {
    assert (log + [e])[..|log|] == log;
  }

  lemma PrefixOfPrefix(log: seq<Entry>, more: seq<Entry>, n: nat)
    requires log <= more && n <= |log|
    ensures more[..n] == log[..n]
  {
  }

  lemma CodeCarries(t: Totp, log: seq<Entry>, more: seq<Entry>, user: Identity, code: nat, secret: Secret)
    requires log <= more && CodeFor(t, log, user, code, secret)
    ensures CodeFor(t, more, user, code, secret)
  {
  }

  lemma MintCarries(t: Totp, log: seq<Entry>, more: seq<Entry>, user: Identity, mint: nat, d: nat)
    requires log <= more && MintAt(t, log, user, mint, d)
    ensures MintAt(t, more, user, mint, d)
  {
    PrefixOfPrefix(log, more, mint);
    CodeCarries(t, log, more, user, log[mint].code, log[log[mint].code].secret);
  }

  lemma ReadCarries(log: seq<Entry>, more: seq<Entry>, user: Identity, read: nat, d: nat)
    requires log <= more && ReadAt(log, user, read, d)
    ensures ReadAt(more, user, read, d)
  {
    PrefixOfPrefix(log, more, read);
  }

  lemma FitsCarries(t: Totp, log: seq<Entry>, more: seq<Entry>, user: Identity, first: nat, read: nat, mint: nat)
    requires log <= more && DeviceFits(t, log, user, first, read, mint)
    ensures DeviceFits(t, more, user, first, read, mint)
  {
    ReadCarries(log, more, user, read, log[read].enrolledAt);
    MintCarries(t, log, more, user, mint, log[read].enrolledAt);
  }

  lemma SessionCarries(t: Totp, log: seq<Entry>, more: seq<Entry>, s: Session)
    requires log <= more && SessionInv(t, log, s)
    ensures SessionInv(t, more, s)
  {
    if s.Authenticated? {
      PrefixOfPrefix(log, more, s.login);
      match log[s.login].grounds {
        case ByCode(code) => CodeCarries(t, log, more, s.user, code, log[code].secret);
        case ByDevice(first, read, mint) => FitsCarries(t, log, more, s.user, first, read, mint);
      }
    }
  }

  lemma StoresCarry(t: Totp, log: seq<Entry>, e: Entry)
    requires StoresProven(t, log)
    requires e.SecretStored? ==> CodeFor(t, log, e.user, e.code, e.secret) && Enrolled(log, e.user).secret.None?
    ensures StoresProven(t, log + [e])
  {
    var more := log + [e];
    forall j | 0 <= j < |more| && more[j].SecretStored?
      ensures more[j].code < j && CodeFor(t, more, more[j].user, more[j].code, more[j].secret)
      ensures Enrolled(more[..j], more[j].user).secret.None?
    {
      PrefixOfPrefix(log, more, j);
      CodeCarries(t, log, more, more[j].user, more[j].code, more[j].secret);
      assert log[..|log|] == log;
    }
  }

  // ---- every step keeps the invariant ----------------------------------------------------------

  predicate Plain(e: Entry) { !e.Loaded? && !e.SecretStored? }

  ghost predicate SameViews(w: World, x: World) { forall u :: Current(x, u) == Current(w, u) }

  /** Writing down something that is not about enrollment. */
  lemma NotedAccounts(t: Totp, w: World, e: Entry)
    requires Accounted(t, w) && Plain(e)
    ensures Accounted(t, Noted(w, e))
  {
    var x := Noted(w, e);
    forall k | k in x.issued ensures SessionInv(t, x.log, x.issued[k]) {
      SessionCarries(t, w.log, x.log, x.issued[k]);
    }
    forall h | h in x.minted ensures DeviceInv(t, x.log, x.minted[h]) {
      MintCarries(t, w.log, x.log, x.minted[h].owner, x.minted[h].mint, x.minted[h].enrolledAt);
    }
    forall user ensures Enrolled(x.log, user) == Current(x, user) { EnrolledSnoc(w.log, e, user); }
    StoresCarry(t, w.log, e);
  }

  /** The log is as it was, sessions and devices are old ones or good ones. */
  lemma MovedAccounts(t: Totp, w: World, x: World)
    requires Accounted(t, w) && x.log == w.log && SameViews(w, x)
    requires Within(x.sessions, x.issued) && Within(x.devices, x.minted)
    requires forall k :: k in x.issued ==>
               (k in w.issued && x.issued[k] == w.issued[k]) || SessionInv(t, x.log, x.issued[k])
    requires forall h :: h in x.minted ==>
               (h in w.minted && x.minted[h] == w.minted[h]) || DeviceInv(t, x.log, x.minted[h])
    ensures Accounted(t, x)
  {
    forall user ensures Enrolled(x.log, user) == Current(x, user) { assert Current(x, user) == Current(w, user); }
  }

  /** A request that expects its identity not to be enrolled needs that to stay so. */
  lemma RequestCarries(t: Totp, w: World, x: World, r: Request)
    requires RequestInv(t, w, r) && w.log <= x.log
    requires Current(w, r.user).secret.Some? ==> Current(x, r.user) == Current(w, r.user)
    requires Holds(r) && Current(w, r.user).secret.None? ==> Current(x, r.user).secret.None?
    ensures RequestInv(t, x, r)
  {
    match r
    case Trusting(user, _, first, _, read, d) => ReadCarries(w.log, x.log, user, read, d);
    case Trusted(user, _, first, read, mint) => FitsCarries(t, w.log, x.log, user, first, read, mint);
    case _ =>
  }

  /** Buckets are released or taken by the requests in `moved` only. */
  predicate BucketsKept(w: World, x: World, moved: set<nat>)
  {
    forall u :: u in w.buckets && w.buckets[u] !in moved ==> u in x.buckets && x.buckets[u] == w.buckets[u]
  }

  ghost predicate MovedOnly(t: Totp, w: World, x: World, moved: set<nat>)
  {
    && (forall r :: r in x.requests ==>
          if r in moved then RequestInv(t, x, x.requests[r]) && BucketInv(x, r)
          else r in w.requests && x.requests[r] == w.requests[r])
    && BucketsKept(w, x, moved)
  }

  lemma Assembled(t: Totp, w: World, x: World, moved: set<nat>)
    requires Inv(t, w) && Accounted(t, x) && w.log <= x.log && SameViews(w, x) && MovedOnly(t, w, x, moved)
    ensures Inv(t, x)
  {
    forall r | r in x.requests ensures RequestInv(t, x, x.requests[r]) && BucketInv(x, r) {
      if r !in moved {
        assert BucketInv(w, r) && RequestInv(t, w, x.requests[r]);
        assert Current(x, x.requests[r].user) == Current(w, x.requests[r].user);
        RequestCarries(t, w, x, x.requests[r]);
      }
    }
  }

  lemma NotedKeeps(t: Totp, w: World, e: Entry)
    requires Inv(t, w) && Plain(e)
    ensures Inv(t, Noted(w, e)) && SameViews(w, Noted(w, e))
  {
    NotedAccounts(t, w, e);
    Assembled(t, w, Noted(w, e), {});
  }

  /** A request that appears, or moves on keeping or never having held its bucket. */
  lemma ToKeeps(t: Totp, w: World, r: nat, next: Request)
    requires Inv(t, w) && RequestInv(t, w, next)
    requires if r in w.requests then next.user == w.requests[r].user && (Holds(next) ==> Holds(w.requests[r]))
             else !Holds(next)
    ensures Inv(t, To(w, r, next))
  {
    var x := To(w, r, next);
    if r in w.requests { assert BucketInv(w, r); }
    MovedAccounts(t, w, x);
    assert RequestInv(t, x, next) by { RequestCarries(t, w, x, next); }
    Assembled(t, w, x, {r});
  }

  lemma EndedKeeps(t: Totp, w: World, r: nat)
    requires Inv(t, w) && r in w.requests
    ensures Inv(t, Ended(w, r))
  {
    assert BucketInv(w, r);
    MovedAccounts(t, w, Ended(w, r));
    Assembled(t, w, Ended(w, r), {r});
  }

  lemma OpenedKeeps(t: Totp, w: World, key: Key, s: Session)
    requires Inv(t, w) && SessionInv(t, w.log, s) && key !in w.issued
    ensures Inv(t, Opened(w, key, s))
  {
    MovedAccounts(t, w, Opened(w, key, s));
    Assembled(t, w, Opened(w, key, s), {});
  }

  /** Sessions and devices that only go. */
  lemma DroppedKeeps(t: Totp, w: World, x: World)
    requires Inv(t, w) && x == w.(sessions := x.sessions, devices := x.devices)
    requires Within(x.sessions, w.sessions) && Within(x.devices, w.devices)
    ensures Inv(t, x)
  {
    MovedAccounts(t, w, x);
    Assembled(t, w, x, {});
  }

  lemma SwitchedKeeps(t: Totp, w: World, retired: Key, key: Key, s: Session)
    requires Inv(t, w) && SessionInv(t, w.log, s) && key !in w.issued
    ensures Inv(t, Switched(w, retired, key, s))
  {
    var x := w.(sessions := w.sessions - {retired});
    DroppedKeeps(t, w, x);
    OpenedKeeps(t, x, key, s);
  }

  lemma FirstFactorKeeps(t: Totp, w: World, r: nat, key: Key, user: Identity, sub: Option<Subject>)
    requires Inv(t, w) && r !in w.requests
    ensures Inv(t, FirstFactor(w, r, key, user, sub))
  {
    NotedKeeps(t, w, FirstPassed(user, sub));
    ToKeeps(t, Noted(w, FirstPassed(user, sub)), r, Passed(user, key, |w.log|));
  }

  lemma PinnedKeeps(t: Totp, w: World, user: Identity, sub: Subject, ok: bool)
    requires Inv(t, w)
    ensures var x := w.(enrollment := AfterPin(w.enrollment, user, sub, ok)); Inv(t, x) && SameViews(w, x)
  {
    var x := w.(enrollment := AfterPin(w.enrollment, user, sub, ok));
    assert SameViews(w, x);
    MovedAccounts(t, w, x);
    Assembled(t, w, x, {});
  }

  lemma GoogleKeeps(t: Totp, w: World, r: nat, key: Key, user: Identity, sub: Subject, ok: bool)
    requires Inv(t, w) && r !in w.requests
    ensures Inv(t, AfterGoogle(w, r, key, user, sub, ok))
  {
    PinnedKeeps(t, w, user, sub, ok);
    FirstFactorKeeps(t, w.(enrollment := AfterPin(w.enrollment, user, sub, ok)), r, key, user, Some(sub));
  }

  lemma LookKeeps(t: Totp, w: World, r: nat, cookie: Option<Hash>)
    requires Inv(t, w) && Enabled(w, LookForTrust(r, cookie))
    ensures Inv(t, AfterLook(w, r, cookie))
  {
    var q, date := w.requests[r], DateOf(Current(w, w.requests[r].user));
    assert RequestInv(t, w, q);
    if cookie.Some? && date.Some? {
      var x := Noted(w, DateRead(q.user, date.value));
      NotedKeeps(t, w, DateRead(q.user, date.value));
      assert x.log[..|w.log|] == w.log;
      ToKeeps(t, x, r, Trusting(q.user, q.key, q.first, cookie.value, |w.log|, date.value));
    } else {
      ToKeeps(t, w, r, Untrusted(q.user, q.key, q.first));
    }
  }

  lemma FoundFits(t: Totp, w: World, q: Request, unexpired: bool)
    requires Accounted(t, w) && q.Trusting? && RequestInv(t, w, q)
    ensures RequestInv(t, w, Authorized(w.devices, q, unexpired))
  {
    if q.hash in w.devices { assert DeviceInv(t, w.log, w.minted[q.hash]); }
  }

  lemma AuthorizeKeeps(t: Totp, w: World, r: nat, unexpired: bool)
    requires Inv(t, w) && r in w.requests && w.requests[r].Trusting?
    ensures Inv(t, AfterAuthorize(w, r, unexpired))
  {
    assert RequestInv(t, w, w.requests[r]);
    FoundFits(t, w, w.requests[r], unexpired);
    ToKeeps(t, w, r, Authorized(w.devices, w.requests[r], unexpired));
  }

  lemma TrustedKeeps(t: Totp, w: World, r: nat, key: Key)
    requires Inv(t, w) && Enabled(w, TrustedLogin(r, key))
    ensures Inv(t, AfterTrusted(w, r, key))
  {
    var q := w.requests[r];
    var e := LoggedIn(q.user, ByDevice(q.first, q.read, q.mint));
    assert RequestInv(t, w, q);
    NotedKeeps(t, w, e);
    ByDeviceFits(t, w.log, q);
    LoginKeeps(t, Noted(w, e), r, key, Authenticated(q.user, |w.log|));
  }

  lemma ByDeviceFits(t: Totp, log: seq<Entry>, q: Request)
    requires q.Trusted? && DeviceFits(t, log, q.user, q.first, q.read, q.mint)
    ensures LoginAt(t, log + [LoggedIn(q.user, ByDevice(q.first, q.read, q.mint))], q.user, |log|)
  {
    FitsCarries(t, log, log + [LoggedIn(q.user, ByDevice(q.first, q.read, q.mint))], q.user, q.first, q.read, q.mint);
  }

  lemma LoginKeeps(t: Totp, w: World, r: nat, key: Key, s: Session)
    requires Inv(t, w) && r in w.requests && !w.requests[r].Remembering? && !w.requests[r].Minting?
    requires SessionInv(t, w.log, s) && key !in w.issued
    ensures Inv(t, Ended(Switched(w, w.requests[r].key, key, s), r))
  {
    SwitchedKeeps(t, w, w.requests[r].key, key, s);
    EndedKeeps(t, Switched(w, w.requests[r].key, key, s), r);
  }

  lemma BeginKeeps(t: Totp, w: World, r: nat, key: Key)
    requires Inv(t, w) && Enabled(w, BeginMfa(r, key))
    ensures Inv(t, AfterBegin(w, r, key))
  {
    assert RequestInv(t, w, w.requests[r]);
    LoginKeeps(t, w, r, key, Pending(w.requests[r].user, w.requests[r].first));
  }

  lemma SubmitKeeps(t: Totp, w: World, r: nat, key: Key, form: Form)
    requires Inv(t, w) && Enabled(w, SubmitCode(r, key, form))
    ensures Inv(t, To(w, r, Waiting(w.sessions[key].user, key, w.sessions[key].first, form)))
  {
    assert SessionInv(t, w.log, w.sessions[key]);
    ToKeeps(t, w, r, Waiting(w.sessions[key].user, key, w.sessions[key].first, form));
  }

  lemma EnterKeeps(t: Totp, w: World, r: nat)
    requires Inv(t, w) && Enabled(w, Enter(r))
    ensures Inv(t, AfterEnter(w, r))
  {
    var x := AfterEnter(w, r);
    assert RequestInv(t, w, w.requests[r]);
    MovedAccounts(t, w, x);
    assert RequestInv(t, x, x.requests[r]);
    Assembled(t, w, x, {r});
  }

  lemma LockedOutKeeps(t: Totp, w: World, r: nat)
    requires Inv(t, w) && Enabled(w, LockedOut(r))
    ensures Inv(t, Ended(w.(sessions := w.sessions - {w.requests[r].key}), r))
  {
    var x := w.(sessions := w.sessions - {w.requests[r].key});
    DroppedKeeps(t, w, x);
    EndedKeeps(t, x, r);
  }

  lemma ReadKeeps(t: Totp, w: World, r: nat)
    requires Inv(t, w) && Enabled(w, ReadRecord(r))
    ensures Inv(t, AfterRead(w, r))
  {
    assert RequestInv(t, w, w.requests[r]);
    ToKeeps(t, w, r, AfterRead(w, r).requests[r]);
  }

  lemma JudgedFits(t: Totp, w: World, q: Request, at: nat)
    requires q.Judging? && RequestInv(t, w, q) && t.verifies(q.secret, q.form.otp, at)
    ensures var e := CodeAccepted(q.user, q.first, q.secret, q.form.otp, at, q.form.remember && !q.enrolling);
            RequestInv(t, Noted(w, e), Judged(q, |w.log|))
  {
    var e := CodeAccepted(q.user, q.first, q.secret, q.form.otp, at, q.form.remember && !q.enrolling);
    assert Current(Noted(w, e), q.user) == Current(w, q.user);
    assert CodeFor(t, Noted(w, e).log, q.user, |w.log|, q.secret);
  }

  lemma JudgeKeeps(t: Totp, w: World, r: nat, at: nat, unused: bool)
    requires Inv(t, w) && Enabled(w, Judge(r, at, unused))
    ensures Inv(t, AfterJudge(t, w, r, at, unused))
  {
    var q := w.requests[r];
    assert RequestInv(t, w, q);
    if t.verifies(q.secret, q.form.otp, at) && unused {
      var e := CodeAccepted(q.user, q.first, q.secret, q.form.otp, at, q.form.remember && !q.enrolling);
      NotedKeeps(t, w, e);
      JudgedFits(t, w, q, at);
      ToKeeps(t, Noted(w, e), r, Judged(q, |w.log|));
    } else {
      EndedKeeps(t, w, r);
    }
  }

  /** Because the bucket is held from the read to the write, `enroll` finds nothing to
      overwrite, and nobody else relies on the identity not being enrolled. */
  lemma EnrollAccounts(t: Totp, w: World, q: Request, at: nat, ok: bool)
    requires Accounted(t, w) && q.Enrolling? && RequestInv(t, w, q)
    ensures Accounted(t, Enroll(w, q, at, ok))
    ensures CodeNow(t, Enroll(w, q, at, ok), q.user, q.code)
    ensures forall u :: u != q.user ==> Current(Enroll(w, q, at, ok), u) == Current(w, u)
  {
    var x, e := Enroll(w, q, at, ok), SecretStored(q.user, q.secret, at, q.code);
    assert x.log == w.log + [e];
    forall k | k in x.issued ensures SessionInv(t, x.log, x.issued[k]) {
      SessionCarries(t, w.log, x.log, x.issued[k]);
    }
    forall h | h in x.minted ensures DeviceInv(t, x.log, x.minted[h]) {
      MintCarries(t, w.log, x.log, x.minted[h].owner, x.minted[h].mint, x.minted[h].enrolledAt);
    }
    forall user ensures Enrolled(x.log, user) == Current(x, user) { EnrolledSnoc(w.log, e, user); }
    StoresCarry(t, w.log, e);
    CodeCarries(t, w.log, x.log, q.user, q.code, q.secret);
  }

  /** Another request that counts on the identity not being enrolled would hold its bucket. */
  lemma OthersCarry(t: Totp, w: World, y: World, r: nat, i: nat)
    requires Inv(t, w) && r in w.requests && w.requests[r].Enrolling? && i in w.requests && i != r
    requires w.log <= y.log && y.buckets == w.buckets
    requires i in y.requests && y.requests[i] == w.requests[i]
    requires forall u :: u != w.requests[r].user ==> Current(y, u) == Current(w, u)
    ensures RequestInv(t, y, y.requests[i]) && BucketInv(y, i)
  {
    assert RequestInv(t, w, w.requests[r]) && BucketInv(w, r) && BucketInv(w, i);
    RequestCarries(t, w, y, y.requests[i]);
  }

  lemma StoreKeeps(t: Totp, w: World, r: nat, at: nat, ok: bool)
    requires Inv(t, w) && Enabled(w, StoreSecret(r, at, ok))
    ensures Inv(t, AfterStore(w, r, at, ok))
  {
    var q := w.requests[r];
    assert RequestInv(t, w, q) && BucketInv(w, r);
    var x := Enroll(w, q, at, ok);
    var y := To(x, r, Stored(q.user, q.key, q.form, q.code));
    EnrollAccounts(t, w, q, at, ok);
    assert SameViews(x, y);
    MovedAccounts(t, x, y);
    forall i | i in y.requests ensures RequestInv(t, y, y.requests[i]) && BucketInv(y, i) {
      if i != r { OthersCarry(t, w, y, r, i); }
    }
    EndedKeeps(t, y, r);
  }

  lemma StrandKeeps(t: Totp, w: World, r: nat)
    requires Inv(t, w) && Enabled(w, StrandDevices(r))
    ensures Inv(t, AfterStrand(w, r))
  {
    var q := w.requests[r];
    assert RequestInv(t, w, q);
    var x := w.(devices := NotOf(w.devices, q.user));
    DroppedKeeps(t, w, x);
    assert Current(x, q.user) == Current(w, q.user);
    ToKeeps(t, x, r, Accepted(q.user, q.key, q.form, true, q.code));
  }

  lemma SucceedKeeps(t: Totp, w: World, r: nat)
    requires Inv(t, w) && Enabled(w, Succeed(r))
    ensures Inv(t, AfterSucceed(w, r))
  {
    var x := AfterSucceed(w, r);
    assert RequestInv(t, w, w.requests[r]) && BucketInv(w, r);
    MovedAccounts(t, w, x);
    assert RequestInv(t, x, x.requests[r]);
    Assembled(t, w, x, {r});
  }

  lemma LoggedByCodeKeeps(t: Totp, w: World, q: Request, key: Key)
    requires Inv(t, w) && q.Released? && RequestInv(t, w, q) && key !in w.issued
    ensures Inv(t, LoggedByCode(w, q, key)) && CodeNow(t, LoggedByCode(w, q, key), q.user, q.code)
  {
    var e := LoggedIn(q.user, ByCode(q.code));
    NotedKeeps(t, w, e);
    ByCodeFits(t, w, q);
    SwitchedKeeps(t, Noted(w, e), q.key, key, Authenticated(q.user, |w.log|));
  }

  lemma CodeLoginKeeps(t: Totp, w: World, r: nat, key: Key)
    requires Inv(t, w) && Enabled(w, CodeLogin(r, key))
    ensures Inv(t, AfterCodeLogin(w, r, key))
  {
    var q := w.requests[r];
    assert RequestInv(t, w, q);
    LoggedByCodeKeeps(t, w, q, key);
    var x := LoggedByCode(w, q, key);
    if q.form.remember && !q.enrolling {
      ToKeeps(t, x, r, Remembering(q.user, q.code));
    } else {
      EndedKeeps(t, x, r);
    }
  }

  lemma ByCodeFits(t: Totp, w: World, q: Request)
    requires Accounted(t, w) && q.Released? && RequestInv(t, w, q)
    ensures LoginAt(t, w.log + [LoggedIn(q.user, ByCode(q.code))], q.user, |w.log|)
    ensures CodeFor(t, w.log + [LoggedIn(q.user, ByCode(q.code))], q.user, q.code, Current(w, q.user).secret.value)
  {
    var more := w.log + [LoggedIn(q.user, ByCode(q.code))];
    assert Enrolled(w.log, q.user) == Current(w, q.user) && more[..|w.log|] == w.log;
    CodeCarries(t, w.log, more, q.user, q.code, Current(w, q.user).secret.value);
  }

  lemma MayMint(t: Totp, w: World, q: Request, d: nat)
    requires q.Remembering? && RequestInv(t, w, q) && DateOf(Current(w, q.user)) == Some(d)
    ensures RequestInv(t, w, Minting(q.user, q.code, d))
  {
  }

  lemma ReadAtKeeps(t: Totp, w: World, r: nat)
    requires Inv(t, w) && Enabled(w, ReadEnrolledAt(r))
    ensures Inv(t, AfterReadAt(w, r))
  {
    var q := w.requests[r];
    var date := DateOf(Current(w, q.user));
    if date.Some? {
      MayMint(t, w, q, date.value);
      ToKeeps(t, w, r, Minting(q.user, q.code, date.value));
    } else {
      EndedKeeps(t, w, r);
    }
  }

  /** The code was accepted for what the identity is enrolled with, so the device is bound to
      that. */
  lemma MintedFits(t: Totp, w: World, q: Request)
    requires Accounted(t, w) && q.Minting? && RequestInv(t, w, q)
    ensures MintAt(t, w.log + [DeviceMinted(q.user, q.enrolledAt, q.code)], q.user, |w.log|, q.enrolledAt)
  {
    var more := w.log + [DeviceMinted(q.user, q.enrolledAt, q.code)];
    assert Enrolled(w.log, q.user) == Current(w, q.user) && more[..|w.log|] == w.log;
    CodeCarries(t, w.log, more, q.user, q.code, w.log[q.code].secret);
  }

  lemma KeptDevice(t: Totp, w: World, hash: Hash, d: Device)
    requires Inv(t, w) && DeviceInv(t, w.log, d) && hash !in w.minted
    ensures Inv(t, w.(devices := w.devices[hash := d], minted := w.minted[hash := d]))
  {
    var x := w.(devices := w.devices[hash := d], minted := w.minted[hash := d]);
    MovedAccounts(t, w, x);
    Assembled(t, w, x, {});
  }

  lemma MintKeeps(t: Totp, w: World, r: nat, hash: Hash, ok: bool)
    requires Inv(t, w) && Enabled(w, MintDevice(r, hash, ok))
    ensures Inv(t, AfterMint(w, r, hash, ok))
  {
    var q := w.requests[r];
    assert RequestInv(t, w, q);
    EndedKeeps(t, w, r);
    if ok {
      var e := DeviceMinted(q.user, q.enrolledAt, q.code);
      NotedKeeps(t, Ended(w, r), e);
      MintedFits(t, w, q);
      KeptDevice(t, Noted(Ended(w, r), e), hash, Device(q.user, q.enrolledAt, |w.log|));
    }
  }

  lemma RestartKeeps(t: Totp, w: World, edited: Table, keys: set<Key>, hashes: set<Hash>)
    requires Inv(t, w) && keys <= w.issued.Keys && hashes <= w.minted.Keys
    ensures Inv(t, Restarted(w, edited, keys, hashes))
  {
    var x := Restarted(w, edited, keys, hashes);
    forall k | k in x.issued ensures SessionInv(t, x.log, x.issued[k]) {
      SessionCarries(t, w.log, x.log, x.issued[k]);
    }
    forall h | h in x.minted ensures DeviceInv(t, x.log, x.minted[h]) {
      MintCarries(t, w.log, x.log, x.minted[h].owner, x.minted[h].mint, x.minted[h].enrolledAt);
    }
    forall user ensures Enrolled(x.log, user) == Current(x, user) { EnrolledSnoc(w.log, Loaded(edited), user); }
    StoresCarry(t, w.log, Loaded(edited));
  }

  /** The steps of the two first-factor handlers, and the way into `mfa_submit`. */
  predicate OfFirstFactor(s: Step)
  {
    s.VisitLogin? || s.PasswordRight? || s.GoogleVouches? || Reads(s) || s.BeginMfa? || s.SubmitCode? || s.Enter?
  }

  predicate Reads(s: Step) { s.LookForTrust? || s.Authorize? || s.TrustedLogin? }

  lemma FirstFactorStepKeeps(t: Totp, w: World, s: Step)
    requires Inv(t, w) && Enabled(w, s) && OfFirstFactor(s)
    ensures Inv(t, Apply(t, w, s))
  {
    match s
    case VisitLogin(key) => OpenedKeeps(t, w, key, Anonymous);
    case PasswordRight(r, key, user) => FirstFactorKeeps(t, w, r, key, user, None);
    case GoogleVouches(r, key, user, sub, ok) => GoogleKeeps(t, w, r, key, user, sub, ok);
    case LookForTrust(r, cookie) => LookKeeps(t, w, r, cookie);
    case Authorize(r, unexpired) => AuthorizeKeeps(t, w, r, unexpired);
    case TrustedLogin(r, key) => TrustedKeeps(t, w, r, key);
    case BeginMfa(r, key) => BeginKeeps(t, w, r, key);
    case SubmitCode(r, key, form) => SubmitKeeps(t, w, r, key, form);
    case Enter(r) => EnterKeeps(t, w, r);
  }

  lemma CodeStepKeeps(t: Totp, w: World, s: Step)
    requires Inv(t, w) && Enabled(w, s) && !OfFirstFactor(s)
    ensures Inv(t, Apply(t, w, s))
  {
    match s
    case LockedOut(r) => LockedOutKeeps(t, w, r);
    case ReadRecord(r) => ReadKeeps(t, w, r);
    case Judge(r, at, unused) => JudgeKeeps(t, w, r, at, unused);
    case StoreSecret(r, at, ok) => StoreKeeps(t, w, r, at, ok);
    case StrandDevices(r) => StrandKeeps(t, w, r);
    case Succeed(r) => SucceedKeeps(t, w, r);
    case CodeLogin(r, key) => CodeLoginKeeps(t, w, r, key);
    case ReadEnrolledAt(r) => ReadAtKeeps(t, w, r);
    case MintDevice(r, hash, ok) => MintKeeps(t, w, r, hash, ok);
    case Abandon(r) => EndedKeeps(t, w, r);
    case DropSession(key) => DroppedKeeps(t, w, w.(sessions := w.sessions - {key}));
    case DropDevice(hash) => DroppedKeeps(t, w, w.(devices := w.devices - {hash}));
    case Restart(edited, keys, hashes) => RestartKeeps(t, w, edited, keys, hashes);
  }

  /** Every step of every handler, and every restart, keeps the invariant. */
  lemma StepKeeps(t: Totp, w: World, s: Step)
    requires Inv(t, w) && Enabled(w, s)
    ensures Inv(t, Apply(t, w, s))
  {
    if OfFirstFactor(s) {
      FirstFactorStepKeeps(t, w, s);
    } else {
      CodeStepKeeps(t, w, s);
    }
  }

  lemma {:induction false} RunKeeps(t: Totp, w: World, run: seq<Step>)
    requires Inv(t, w) && Legal(t, w, run)
    ensures Inv(t, After(t, w, run))
    decreases run
  {
    if run != [] {
      StepKeeps(t, w, run[0]);
      RunKeeps(t, Apply(t, w, run[0]), run[1..]);
    }
  }

  // ---- main results --------------------------------------------------------------------------

  /** From any start that its log accounts for, persisted sessions and devices included, and
      over every run with restarts and edits: an authenticated session goes back to a first
      factor passed for its identity and a code accepted for it. By code, the code was given
      on that very login, for the secret the identity was enrolled with when it logged in. By
      device, the date the identity had when it was asked for is that of the device, and the
      device was minted after a code for the very secret that was stored with that date. */
  lemma EverySessionIsEarned(t: Totp, w: World, run: seq<Step>, key: Key) returns (first: nat, code: nat)
    requires Inv(t, w) && Legal(t, w, run)
    requires key in After(t, w, run).sessions && After(t, w, run).sessions[key].Authenticated?
    ensures var log, s := After(t, w, run).log, After(t, w, run).sessions[key];
            && s.login < |log| && log[s.login].LoggedIn? && log[s.login].user == s.user
            && first < s.login && FirstAt(log, s.user, first)
            && code < s.login && log[code].CodeAccepted? && CodeFor(t, log, s.user, code, log[code].secret)
            && match log[s.login].grounds
               case ByCode(c) =>
                 && code == c && first == log[code].first < code
                 && Enrolled(log[..s.login], s.user).secret == Some(log[code].secret)
               case ByDevice(f, read, mint) =>
                 && first == f < read < s.login && code < mint < s.login && log[code].remember
                 && log[mint].DeviceMinted? && log[mint].user == s.user
                 && DateOf(Enrolled(log[..read], s.user)) == Some(log[mint].enrolledAt)
                 && Enrolled(log[..mint], s.user) == View(Some(log[code].secret), Some(log[mint].enrolledAt))
  {
    RunKeeps(t, w, run);
    var x := After(t, w, run);
    var s := x.sessions[key];
    assert SessionInv(t, x.log, x.issued[key]);
    match x.log[s.login].grounds {
      case ByCode(c) => code := c; first := x.log[c].first;
      case ByDevice(f, read, mint) => first := f; code := x.log[mint].code;
    }
  }

  /** A file that was loaded, or an enrollment, gave the identity this secret. */
  predicate Given(e: Entry, user: Identity, secret: Secret)
  {
    || (e.Loaded? && ViewOf(e.table, user).secret == Some(secret))
    || (e.SecretStored? && e.user == user && e.secret == secret)
  }

  lemma {:induction false} EnrolledIsGiven(log: seq<Entry>, user: Identity) returns (j: nat)
    requires Enrolled(log, user).secret.Some?
    ensures j < |log| && Given(log[j], user, Enrolled(log, user).secret.value)
    decreases |log|
  {
    var e := log[|log| - 1];
    if e.Loaded? || (e.SecretStored? && e.user == user) {
      j := |log| - 1;
    } else {
      j := EnrolledIsGiven(log[..|log| - 1], user);
    }
  }

  /** On a fresh install, with whatever the enrollment file says, nothing has to be taken on
      trust: behind every authenticated session there is in the log of the run itself a first
      factor, a code, and where the secret came from that the code was accepted for. */
  lemma FreshInstallAccountsForAll(t: Totp, table: Table, run: seq<Step>, key: Key)
    returns (first: nat, code: nat, given: nat)
    requires Legal(t, Initial(table), run)
    requires var x := After(t, Initial(table), run); key in x.sessions && x.sessions[key].Authenticated?
    ensures var log, s := After(t, Initial(table), run).log, After(t, Initial(table), run).sessions[key];
            && first < s.login < |log| && FirstAt(log, s.user, first) && log[s.login].LoggedIn?
            && code < s.login && log[code].CodeAccepted? && CodeFor(t, log, s.user, code, log[code].secret)
            && given < s.login && Given(log[given], s.user, log[code].secret)
  {
    InitialHolds(t, table);
    var x := After(t, Initial(table), run);
    var s := x.sessions[key];
    first, code := EverySessionIsEarned(t, Initial(table), run, key);
    var upto := match x.log[s.login].grounds
                case ByCode(_) => s.login
                case ByDevice(_, _, mint) => mint;
    given := EnrolledIsGiven(x.log[..upto], s.user);
  }

  /** Over every run, each secret ever stored went into a record that had none, after a code
      accepted for it on a login past the first factor. */
  lemma SecretsAreProven(t: Totp, w: World, run: seq<Step>, j: nat)
    requires Inv(t, w) && Legal(t, w, run)
    requires j < |After(t, w, run).log| && After(t, w, run).log[j].SecretStored?
    ensures var log := After(t, w, run).log;
            && log[j].code < j && CodeFor(t, log, log[j].user, log[j].code, log[j].secret)
            && Enrolled(log[..j], log[j].user).secret == None
  {
    RunKeeps(t, w, run);
  }

  /** Over every run, whatever device there ever was goes back to a code that came with the wish
      to be remembered, on a login that was not an enrollment. */
  lemma DevicesWereAskedFor(t: Totp, w: World, run: seq<Step>, hash: Hash)
    requires Inv(t, w) && Legal(t, w, run) && hash in After(t, w, run).minted
    ensures var x := After(t, w, run);
            var mint := x.minted[hash].mint;
            && mint < |x.log| && x.log[mint].DeviceMinted? && x.log[mint].code < mint
            && x.log[x.log[mint].code].CodeAccepted? && x.log[x.log[mint].code].remember
  {
    RunKeeps(t, w, run);
    assert DeviceInv(t, After(t, w, run).log, After(t, w, run).minted[hash]);
  }

  // ---- one account per identity ---------------------------------------------------------------

  /** The subject an identity's record has. */
  function SubjectOf(m: Table, user: Identity): Option<Subject>
  {
    if user in m then m[user].sub else None
  }

  /** Pinning goes by the record, and what it answers is whether the subject is the pinned one,
      or a first one that was saved. */
  lemma PinGoesByTheRecord(s: Store, user: Identity, sub: Subject, ok: bool)
    ensures var pin := SubjectOf(s.inner, user);
            && SubjectOf(AfterPin(s, user, sub, ok).inner, user) == (if pin.Some? then pin else Some(sub))
            && (PinOutcome(s, user, sub, ok).Matches? <==> pin == Some(sub) || (pin.None? && ok))
    ensures forall other :: other != user ==>
              SubjectOf(AfterPin(s, user, sub, ok).inner, other) == SubjectOf(s.inner, other)
  {
  }

  /** The callback goes by the record: another subject than the pinned one gets nowhere, whatever
      the disk does; the pinned one passes; a first one is pinned, and passes if that is saved. */
  lemma CallbackObeysThePin(w: World, r: nat, key: Key, user: Identity, sub: Subject, ok: bool)
    requires Enabled(w, GoogleVouches(r, key, user, sub, ok))
    ensures var x, pin := AfterGoogle(w, r, key, user, sub, ok), SubjectOf(w.enrollment.inner, user);
            && SubjectOf(x.enrollment.inner, user) == (if pin.Some? then pin else Some(sub))
            && x.sessions == w.sessions && x.devices == w.devices && x.buckets == w.buckets
            && (if pin == Some(sub) || (pin.None? && ok)
                then x.requests == w.requests[r := Passed(user, key, |w.log|)]
                     && x.log == w.log + [FirstPassed(user, Some(sub))]
                else x.requests == w.requests && x.log == w.log)
  {
    PinGoesByTheRecord(w.enrollment, user, sub, ok);
  }

  /** Since position `n`, each identity's Google first factors carry the subject it has now. */
  ghost predicate OneSubject(w: World, n: nat)
  {
    n <= |w.log| && forall i :: n <= i < |w.log| && w.log[i].FirstPassed? && w.log[i].sub.Some? ==>
      SubjectOf(w.enrollment.inner, w.log[i].user) == w.log[i].sub
  }

  /** Subjects, once there, stay, and what is new in the log is no first factor by Google. */
  ghost predicate SubjectsStay(w: World, x: World)
  {
    && (forall user :: SubjectOf(w.enrollment.inner, user).Some? ==>
          SubjectOf(x.enrollment.inner, user) == SubjectOf(w.enrollment.inner, user))
    && w.log <= x.log
    && (forall i :: |w.log| <= i < |x.log| && x.log[i].FirstPassed? ==> x.log[i].sub.None?)
  }

  lemma OneSubjectKept(w: World, x: World, n: nat)
    requires OneSubject(w, n) && SubjectsStay(w, x)
    ensures OneSubject(x, n)
  {
    forall i | n <= i < |x.log| && x.log[i].FirstPassed? && x.log[i].sub.Some?
      ensures SubjectOf(x.enrollment.inner, x.log[i].user) == x.log[i].sub
    {
      assert i < |w.log| && w.log[i] == x.log[i];
    }
  }

  lemma GoogleOneSubject(w: World, r: nat, key: Key, user: Identity, sub: Subject, ok: bool, n: nat)
    requires OneSubject(w, n) && Enabled(w, GoogleVouches(r, key, user, sub, ok))
    ensures OneSubject(AfterGoogle(w, r, key, user, sub, ok), n)
    ensures forall other :: SubjectOf(w.enrollment.inner, other).Some? ==>
              SubjectOf(AfterGoogle(w, r, key, user, sub, ok).enrollment.inner, other)
                == SubjectOf(w.enrollment.inner, other)
  {
    var x := w.(enrollment := AfterPin(w.enrollment, user, sub, ok));
    PinGoesByTheRecord(w.enrollment, user, sub, ok);
    OneSubjectKept(w, x, n);
    if PinOutcome(w.enrollment, user, sub, ok).Matches? { OneMoreSubject(x, r, key, user, sub, n); }
  }

  lemma OneMoreSubject(x: World, r: nat, key: Key, user: Identity, sub: Subject, n: nat)
    requires OneSubject(x, n) && SubjectOf(x.enrollment.inner, user) == Some(sub)
    ensures OneSubject(FirstFactor(x, r, key, user, Some(sub)), n)
  {
  }

  lemma StoreSubjectsStay(w: World, r: nat, at: nat, ok: bool)
    requires r in w.requests && w.requests[r].Enrolling?
    ensures SubjectsStay(w, AfterStore(w, r, at, ok))
  {
  }

  lemma LooksSubjectsStay(w: World, r: nat, cookie: Option<Hash>)
    requires r in w.requests && w.requests[r].Passed?
    ensures SubjectsStay(w, AfterLook(w, r, cookie))
  {
  }

  lemma JudgeSubjectsStay(t: Totp, w: World, r: nat, at: nat, unused: bool)
    requires r in w.requests && w.requests[r].Judging?
    ensures SubjectsStay(w, AfterJudge(t, w, r, at, unused))
  {
  }

  lemma LoginsSubjectsStay(w: World, r: nat, key: Key)
    requires r in w.requests
    ensures w.requests[r].Trusted? ==> SubjectsStay(w, AfterTrusted(w, r, key))
    ensures w.requests[r].Released? ==> SubjectsStay(w, AfterCodeLogin(w, r, key))
  {
  }

  lemma MintSubjectsStay(w: World, r: nat, hash: Hash, ok: bool)
    requires r in w.requests && w.requests[r].Minting?
    ensures SubjectsStay(w, AfterMint(w, r, hash, ok))
  {
  }

  lemma FirstFactorSubjectsStay(t: Totp, w: World, s: Step)
    requires Enabled(w, s) && OfFirstFactor(s) && !s.GoogleVouches?
    ensures SubjectsStay(w, Apply(t, w, s))
  {
    match s
    case LookForTrust(r, cookie) => LooksSubjectsStay(w, r, cookie);
    case TrustedLogin(r, key) => LoginsSubjectsStay(w, r, key);
    case _ =>
  }

  lemma CodeSubjectsStay(t: Totp, w: World, s: Step)
    requires Enabled(w, s) && !OfFirstFactor(s) && !s.Restart?
    ensures SubjectsStay(w, Apply(t, w, s))
  {
    match s
    case Judge(r, at, unused) => JudgeSubjectsStay(t, w, r, at, unused);
    case StoreSecret(r, at, ok) => StoreSubjectsStay(w, r, at, ok);
    case CodeLogin(r, key) => LoginsSubjectsStay(w, r, key);
    case MintDevice(r, hash, ok) => MintSubjectsStay(w, r, hash, ok);
    case _ => QuietSubjectsStay(t, w, s);
  }

  lemma QuietSubjectsStay(t: Totp, w: World, s: Step)
    requires Enabled(w, s)
    requires s.LockedOut? || s.ReadRecord? || s.StrandDevices? || s.Succeed? || s.ReadEnrolledAt? || s.Abandon?
          || s.DropSession? || s.DropDevice?
    ensures SubjectsStay(w, Apply(t, w, s))
  {
    assert Apply(t, w, s).log == w.log && Apply(t, w, s).enrollment == w.enrollment;
  }

  lemma StepOneSubject(t: Totp, w: World, s: Step, n: nat)
    requires OneSubject(w, n) && Enabled(w, s) && !s.Restart?
    ensures OneSubject(Apply(t, w, s), n)
    ensures forall user :: SubjectOf(w.enrollment.inner, user).Some? ==>
              SubjectOf(Apply(t, w, s).enrollment.inner, user) == SubjectOf(w.enrollment.inner, user)
  {
    if s.GoogleVouches? {
      GoogleOneSubject(w, s.r, s.key, s.user, s.sub, s.ok, n);
    } else {
      if OfFirstFactor(s) { FirstFactorSubjectsStay(t, w, s); } else { CodeSubjectsStay(t, w, s); }
      OneSubjectKept(w, Apply(t, w, s), n);
    }
  }

  lemma {:induction false} RunOneSubject(t: Totp, w: World, run: seq<Step>, n: nat)
    requires OneSubject(w, n) && Legal(t, w, run) && NoRestart(run)
    ensures OneSubject(After(t, w, run), n)
    ensures forall user :: SubjectOf(w.enrollment.inner, user).Some? ==>
              SubjectOf(After(t, w, run).enrollment.inner, user) == SubjectOf(w.enrollment.inner, user)
    decreases run
  {
    if run != [] {
      StepOneSubject(t, w, run[0], n);
      assert forall i :: 0 <= i < |run[1..]| ==> run[1..][i] == run[i + 1];
      RunOneSubject(t, Apply(t, w, run[0]), run[1..], n);
    }
  }

  /** For the whole life of a process, one Google account per identity: all first factors passed
      by Google carry one subject, the pinned one if there was one at the start. */
  lemma OneAccountPerIdentity(t: Totp, w: World, run: seq<Step>, i: nat, j: nat)
    requires Legal(t, w, run) && NoRestart(run)
    requires |w.log| <= i < |After(t, w, run).log| && |w.log| <= j < |After(t, w, run).log|
    requires var log := After(t, w, run).log;
             && log[i].FirstPassed? && log[j].FirstPassed? && log[i].user == log[j].user
             && log[i].sub.Some? && log[j].sub.Some?
    ensures var log := After(t, w, run).log;
            && log[i].sub == log[j].sub
            && (SubjectOf(w.enrollment.inner, log[i].user).Some? ==>
                  log[i].sub == SubjectOf(w.enrollment.inner, log[i].user))
  {
    RunOneSubject(t, w, run, |w.log|);
  }

  // ---- what the steps of a login do and do not do ------------------------------------------------

  /** A device stands in for the code exactly if it is there, the identity's own, unexpired and of
      the date read before; without a cookie, or without a secret, it is not even asked. */
  lemma TrustIsChecked(w: World, r: nat, cookie: Option<Hash>, unexpired: bool)
    requires r in w.requests && (w.requests[r].Passed? || w.requests[r].Trusting?)
    ensures w.requests[r].Passed? ==>
              var q, x := w.requests[r], AfterLook(w, r, cookie).requests[r];
              var rec := if q.user in w.enrollment.inner then w.enrollment.inner[q.user] else BLANK;
              && (x.Trusting? <==> cookie.Some? && rec.mfaSecret.Some? && rec.enrolledAt.Some?)
              && (x.Trusting? ==> x.hash == cookie.value && Some(x.enrolledAt) == rec.enrolledAt && x.user == q.user)
              && (!x.Trusting? ==> x.Untrusted?)
    ensures w.requests[r].Trusting? ==>
              var q, x := w.requests[r], AfterAuthorize(w, r, unexpired).requests[r];
              && (x.Trusted? <==> q.hash in w.devices && w.devices[q.hash].owner == q.user && unexpired
                                  && w.devices[q.hash].enrolledAt == q.enrolledAt)
              && (!x.Trusted? ==> x.Untrusted?)
  {
  }

  /** Logging in takes the old session id out and puts a new one in: half logged in as long as a
      code is owed, fully on the strength of a device or of a code. */
  lemma SessionIdsChange(w: World, r: nat, key: Key)
    requires r in w.requests && key !in w.sessions
    ensures w.requests[r].Untrusted? ==>
              var q := w.requests[r];
              AfterBegin(w, r, key).sessions == (w.sessions - {q.key})[key := Pending(q.user, q.first)]
    ensures w.requests[r].Trusted? ==>
              var q := w.requests[r];
              AfterTrusted(w, r, key).sessions == (w.sessions - {q.key})[key := Authenticated(q.user, |w.log|)]
    ensures w.requests[r].Released? ==>
              var q := w.requests[r];
              AfterCodeLogin(w, r, key).sessions == (w.sessions - {q.key})[key := Authenticated(q.user, |w.log|)]
  {
  }

  /** A wrong or used code ends the request with nothing gained; so does a lock, which costs the
      half-logged-in session too. */
  lemma WrongCodesGainNothing(t: Totp, w: World, r: nat, at: nat, unused: bool)
    requires r in w.requests
    ensures w.requests[r].Judging? && !(unused && t.verifies(w.requests[r].secret, w.requests[r].form.otp, at)) ==>
              var x := AfterJudge(t, w, r, at, unused);
              && r !in x.requests && x.log == w.log && x.sessions == w.sessions && x.devices == w.devices
              && x.enrollment == w.enrollment && w.requests[r].user !in x.buckets
    ensures w.requests[r].Entered? ==>
              var x := Apply(t, w, LockedOut(r));
              && r !in x.requests && x.log == w.log && x.sessions == w.sessions - {w.requests[r].key}
              && w.requests[r].user !in x.buckets
  {
  }

  predicate AsksTrust(r: Request) { r.Trusting? || r.Trusted? }

  /** What a step adds to the log, and what it does not touch: earlier entries, what other
      requests ask of devices, and the devices themselves. */
  ghost predicate Framed(w: World, x: World, s: Step)
  {
    && w.log <= x.log
    && (forall j :: |w.log| <= j < |x.log| ==>
          && (x.log[j].Loaded? ==> s.Restart?)
          && (x.log[j].LoggedIn? && x.log[j].grounds.ByDevice? ==> s.TrustedLogin?))
    && (!Reads(s) ==> forall r :: r in x.requests && AsksTrust(x.requests[r]) ==>
                        r in w.requests && w.requests[r] == x.requests[r])
    && (!s.MintDevice? && !s.Restart? ==> Within(x.devices, w.devices))
  }

  lemma PassedFrame(w: World, x: World, r: nat, key: Key, user: Identity, sub: Subject, s: Step)
    requires r !in w.requests && x == w.(enrollment := x.enrollment) && !Reads(s)
    ensures Framed(w, x, s) && Framed(w, FirstFactor(x, r, key, user, Some(sub)), s)
  {
  }

  lemma GoogleFrame(w: World, r: nat, key: Key, user: Identity, sub: Subject, ok: bool)
    requires r !in w.requests
    ensures Framed(w, AfterGoogle(w, r, key, user, sub, ok), GoogleVouches(r, key, user, sub, ok))
  {
    PassedFrame(w, w.(enrollment := AfterPin(w.enrollment, user, sub, ok)), r, key, user, sub,
                GoogleVouches(r, key, user, sub, ok));
  }

  lemma LookFrame(w: World, r: nat, cookie: Option<Hash>)
    requires r in w.requests && w.requests[r].Passed?
    ensures Framed(w, AfterLook(w, r, cookie), LookForTrust(r, cookie))
  {
  }

  lemma TrustedFrame(w: World, r: nat, key: Key)
    requires r in w.requests && w.requests[r].Trusted?
    ensures Framed(w, AfterTrusted(w, r, key), TrustedLogin(r, key))
  {
  }

  lemma BeginFrame(w: World, r: nat, key: Key)
    requires r in w.requests && w.requests[r].Untrusted?
    ensures Framed(w, AfterBegin(w, r, key), BeginMfa(r, key))
  {
  }

  lemma ReadFrame(w: World, r: nat)
    requires r in w.requests && w.requests[r].Entered?
    ensures Framed(w, AfterRead(w, r), ReadRecord(r))
  {
  }

  lemma JudgeFrame(w: World, t: Totp, r: nat, at: nat, unused: bool)
    requires r in w.requests && w.requests[r].Judging?
    ensures Framed(w, AfterJudge(t, w, r, at, unused), Judge(r, at, unused))
  {
  }

  lemma StoreFrame(w: World, r: nat, at: nat, ok: bool)
    requires r in w.requests && w.requests[r].Enrolling?
    ensures Framed(w, AfterStore(w, r, at, ok), StoreSecret(r, at, ok))
  {
  }

  lemma StrandFrame(w: World, r: nat)
    requires r in w.requests && w.requests[r].Stored?
    ensures Framed(w, AfterStrand(w, r), StrandDevices(r))
  {
  }

  lemma CodeLoginFrame(w: World, r: nat, key: Key)
    requires r in w.requests && w.requests[r].Released?
    ensures Framed(w, AfterCodeLogin(w, r, key), CodeLogin(r, key))
  {
    var x := LoggedByCode(w, w.requests[r], key);
    assert |x.log| == |w.log| + 1 && x.log[..|w.log|] == w.log && x.log[|w.log|].LoggedIn?;
    assert x.requests == w.requests && x.devices == w.devices;
  }

  lemma ReadAtFrame(w: World, r: nat)
    requires r in w.requests && w.requests[r].Remembering?
    ensures Framed(w, AfterReadAt(w, r), ReadEnrolledAt(r))
  {
  }

  lemma MintFrame(w: World, r: nat, hash: Hash, ok: bool)
    requires r in w.requests && w.requests[r].Minting? && hash !in w.minted
    ensures Framed(w, AfterMint(w, r, hash, ok), MintDevice(r, hash, ok))
  {
  }

  lemma FirstFactorFrame(t: Totp, w: World, s: Step)
    requires Enabled(w, s) && OfFirstFactor(s)
    ensures Framed(w, Apply(t, w, s), s)
  {
    match s
    case GoogleVouches(r, key, user, sub, ok) => GoogleFrame(w, r, key, user, sub, ok);
    case LookForTrust(r, cookie) => LookFrame(w, r, cookie);
    case TrustedLogin(r, key) => TrustedFrame(w, r, key);
    case BeginMfa(r, key) => BeginFrame(w, r, key);
    case _ =>
  }

  lemma CodeFrame(t: Totp, w: World, s: Step)
    requires Enabled(w, s) && !OfFirstFactor(s)
    ensures Framed(w, Apply(t, w, s), s)
  {
    match s
    case ReadRecord(r) => ReadFrame(w, r);
    case Judge(r, at, unused) => JudgeFrame(w, t, r, at, unused);
    case StoreSecret(r, at, ok) => StoreFrame(w, r, at, ok);
    case StrandDevices(r) => StrandFrame(w, r);
    case CodeLogin(r, key) => CodeLoginFrame(w, r, key);
    case ReadEnrolledAt(r) => ReadAtFrame(w, r);
    case MintDevice(r, hash, ok) => MintFrame(w, r, hash, ok);
    case _ =>
  }

  lemma StepFrame(t: Totp, w: World, s: Step)
    requires Enabled(w, s)
    ensures Framed(w, Apply(t, w, s), s)
  {
    if OfFirstFactor(s) {
      FirstFactorFrame(t, w, s);
    } else {
      CodeFrame(t, w, s);
    }
  }

  lemma {:induction false} RunExtends(t: Totp, w: World, run: seq<Step>)
    requires Legal(t, w, run)
    ensures w.log <= After(t, w, run).log
    ensures NoRestart(run) ==>
              forall j :: |w.log| <= j < |After(t, w, run).log| ==> !After(t, w, run).log[j].Loaded?
    decreases run
  {
    if run != [] {
      var x := Apply(t, w, run[0]);
      StepFrame(t, w, run[0]);
      RunExtends(t, x, run[1..]);
      assert NoRestart(run) ==> NoRestart(run[1..]);
    }
  }

  /** Without a restart in between, what the log says an enrolled identity is enrolled with
      never changes again. */
  lemma {:induction false} EnrollmentStays(t: Totp, log: seq<Entry>, user: Identity, n: nat, p: nat)
    requires StoresProven(t, log) && n <= p <= |log| && Enrolled(log[..n], user).secret.Some?
    requires forall j :: n <= j < p ==> !log[j].Loaded?
    ensures Enrolled(log[..p], user) == Enrolled(log[..n], user)
    decreases p - n
  {
    if p > n {
      EnrollmentStays(t, log, user, n, p - 1);
      assert log[..p][..p - 1] == log[..p - 1] && log[..p][p - 1] == log[p - 1];
    }
  }

  /** Whatever enrolls at the same time, within one process a stored secret and its date are
      never replaced. */
  lemma SecretsAreNeverOverwritten(t: Totp, w: World, run: seq<Step>, user: Identity)
    requires Inv(t, w) && Legal(t, w, run) && NoRestart(run) && Current(w, user).secret.Some?
    ensures Current(After(t, w, run), user) == Current(w, user)
  {
    var x := After(t, w, run);
    RunKeeps(t, w, run);
    RunExtends(t, w, run);
    assert Enrolled(x.log, user) == Current(x, user) && Enrolled(w.log, user) == Current(w, user);
    assert x.log[..|w.log|] == w.log && x.log[..|x.log|] == x.log;
    EnrollmentStays(t, x.log, user, |w.log|, |x.log|);
  }

  // ---- devices and edits of the enrollment file --------------------------------------------------

  /** Dates were read in this process, as far as the log goes back to it. */
  ghost predicate ReadsSince(w: World, n: nat)
  {
    && n <= |w.log|
    && (forall r :: r in w.requests && AsksTrust(w.requests[r]) ==> w.requests[r].read >= n)
    && (forall j :: n <= j < |w.log| && w.log[j].LoggedIn? && w.log[j].grounds.ByDevice? ==>
          w.log[j].grounds.read >= n)
  }

  lemma OtherReadsSince(w: World, x: World, s: Step, n: nat)
    requires ReadsSince(w, n) && !Reads(s) && Framed(w, x, s)
    ensures ReadsSince(x, n)
  {
  }

  lemma LookReadsSince(w: World, r: nat, cookie: Option<Hash>, n: nat)
    requires ReadsSince(w, n) && r in w.requests && w.requests[r].Passed?
    ensures ReadsSince(AfterLook(w, r, cookie), n)
  {
  }

  lemma AuthorizeReadsSince(w: World, r: nat, unexpired: bool, n: nat)
    requires ReadsSince(w, n) && r in w.requests && w.requests[r].Trusting?
    ensures ReadsSince(AfterAuthorize(w, r, unexpired), n)
  {
    assert AsksTrust(w.requests[r]);
  }

  lemma TrustedReadsSince(w: World, r: nat, key: Key, n: nat)
    requires ReadsSince(w, n) && r in w.requests && w.requests[r].Trusted?
    ensures ReadsSince(AfterTrusted(w, r, key), n)
  {
    assert AsksTrust(w.requests[r]);
  }

  lemma StepReadsSince(t: Totp, w: World, s: Step, n: nat)
    requires ReadsSince(w, n) && Enabled(w, s)
    ensures ReadsSince(Apply(t, w, s), n)
  {
    if Reads(s) {
      match s
      case LookForTrust(r, cookie) => LookReadsSince(w, r, cookie, n);
      case Authorize(r, unexpired) => AuthorizeReadsSince(w, r, unexpired, n);
      case TrustedLogin(r, key) => TrustedReadsSince(w, r, key, n);
    } else {
      StepFrame(t, w, s);
      OtherReadsSince(w, Apply(t, w, s), s, n);
    }
  }

  lemma {:induction false} RunReadsSince(t: Totp, w: World, run: seq<Step>, n: nat)
    requires ReadsSince(w, n) && Legal(t, w, run)
    ensures ReadsSince(After(t, w, run), n)
    decreases run
  {
    if run != [] {
      StepReadsSince(t, w, run[0], n);
      RunReadsSince(t, Apply(t, w, run[0]), run[1..], n);
    }
  }

  /** A session of the identity that began with this stretch, on the strength of the device
      minted at `mint`. */
  predicate LetIn(w: World, x: World, key: Key, user: Identity, mint: nat)
  {
    && key in x.sessions && x.sessions[key].Authenticated? && x.sessions[key].user == user
    && |w.log| <= x.sessions[key].login < |x.log|
    && var e := x.log[x.sessions[key].login];
       e.LoggedIn? && e.grounds.ByDevice? && e.grounds.mint == mint
  }

  /** For the whole life of a process, a device lets an enrolled identity in only if its date
      is the one the identity was enrolled with when the process started. */
  lemma StaleDevicesStayOut(t: Totp, w: World, run: seq<Step>, key: Key, user: Identity, mint: nat)
    requires Inv(t, w) && w.requests == map[] && Legal(t, w, run) && NoRestart(run)
    requires LetIn(w, After(t, w, run), key, user, mint) && Current(w, user).secret.Some?
    ensures mint < |After(t, w, run).log| && After(t, w, run).log[mint].DeviceMinted?
    ensures MintAt(t, After(t, w, run).log, user, mint, After(t, w, run).log[mint].enrolledAt)
    ensures Current(w, user).enrolledAt == Some(After(t, w, run).log[mint].enrolledAt)
  {
    var x := After(t, w, run);
    var read := x.log[x.sessions[key].login].grounds.read;
    RunKeeps(t, w, run);
    assert SessionInv(t, x.log, x.issued[key]);
    RunExtends(t, w, run);
    RunReadsSince(t, w, run, |w.log|);
    assert Enrolled(w.log, user) == Current(w, user) && x.log[..|w.log|] == w.log;
    EnrollmentStays(t, x.log, user, |w.log|, read);
  }

  /** Some run of this process lets the identity in with the device minted at `mint`. */
  ghost predicate CanGetIn(t: Totp, w: World, user: Identity, mint: nat)
  {
    exists run, key :: Legal(t, w, run) && NoRestart(run) && LetIn(w, After(t, w, run), key, user, mint)
  }

  lemma TwoSteps(t: Totp, w: World, a: Step, b: Step, rest: seq<Step>)
    requires Enabled(w, a) && Enabled(Apply(t, w, a), b) && Legal(t, Apply(t, Apply(t, w, a), b), rest)
    ensures Legal(t, w, [a, b] + rest)
    ensures After(t, w, [a, b] + rest) == After(t, Apply(t, Apply(t, w, a), b), rest)
  {
    assert ([a, b] + rest)[1..] == [b] + rest && ([b] + rest)[1..] == rest;
  }

  lemma OneStep(t: Totp, w: World, a: Step)
    requires Enabled(w, a)
    ensures Legal(t, w, [a]) && After(t, w, [a]) == Apply(t, w, a)
  {
    assert [a][1..] == [];
  }

  /** A visit and the password. */
  lemma AsksForDevice(t: Totp, w: World, r: nat, visit: Key, user: Identity, hash: Hash) returns (x: World)
    requires r !in w.requests && visit !in w.issued
    ensures var a, b := VisitLogin(visit), PasswordRight(r, visit, user);
            && Enabled(w, a) && Enabled(Apply(t, w, a), b) && x == Apply(t, Apply(t, w, a), b)
    ensures Enabled(x, LookForTrust(r, Some(hash)))
    ensures x.devices == w.devices && x.issued.Keys == w.issued.Keys + {visit}
    ensures x.log == w.log + [FirstPassed(user, None)] && x.enrollment == w.enrollment && x.requests[r].user == user
  {
    x := Apply(t, Apply(t, w, VisitLogin(visit)), PasswordRight(r, visit, user));
  }

  /** Then the device instead of a code. */
  lemma UsesDevice(t: Totp, x: World, r: nat, key: Key, hash: Hash)
    requires Enabled(x, LookForTrust(r, Some(hash))) && key !in x.issued
    requires DateOf(Current(x, x.requests[r].user)).Some?
    requires hash in x.devices && x.devices[hash].owner == x.requests[r].user
    requires DateOf(Current(x, x.requests[r].user)) == Some(x.devices[hash].enrolledAt)
    ensures var run := [LookForTrust(r, Some(hash)), Authorize(r, true)] + [TrustedLogin(r, key)];
            Legal(t, x, run) && LetIn(x, After(t, x, run), key, x.requests[r].user, x.devices[hash].mint)
  {
    var y := Apply(t, Apply(t, x, LookForTrust(r, Some(hash))), Authorize(r, true));
    OneStep(t, y, TrustedLogin(r, key));
    TwoSteps(t, x, LookForTrust(r, Some(hash)), Authorize(r, true), [TrustedLogin(r, key)]);
  }

  lemma DeviceGetsIn(t: Totp, w: World, r: nat, visit: Key, key: Key, user: Identity, hash: Hash)
    requires r !in w.requests && visit !in w.issued && key !in w.issued && visit != key
    requires hash in w.devices && w.devices[hash].owner == user
    requires DateOf(Current(w, user)) == Some(w.devices[hash].enrolledAt)
    ensures CanGetIn(t, w, user, w.devices[hash].mint)
  {
    var rest := [LookForTrust(r, Some(hash)), Authorize(r, true)] + [TrustedLogin(r, key)];
    var run := [VisitLogin(visit), PasswordRight(r, visit, user)] + rest;
    var x := AsksForDevice(t, w, r, visit, user, hash);
    UsesDevice(t, x, r, key, hash);
    TwoSteps(t, w, VisitLogin(visit), PasswordRight(r, visit, user), rest);
    assert LetIn(w, After(t, w, run), key, user, w.devices[hash].mint);
    assert NoRestart(run);
  }

  /** After a restart onto an edited file that gives the identity a secret, a device still on
      disk can let it in, in any run of the new process, if and only if the device is its own
      and the file's date is exactly the device's: an edit strands it as soon as the dates
      differ. */
  lemma EditedDateDecides(t: Totp, w: World, edited: Table, keys: set<Key>, hashes: set<Hash>,
                          visit: Key, key: Key, user: Identity, hash: Hash)
    requires Inv(t, w) && keys <= w.issued.Keys && hashes <= w.minted.Keys && hash in hashes
    requires visit !in w.issued && key !in w.issued && visit != key
    requires ViewOf(edited, user).secret.Some?
    ensures CanGetIn(t, Restarted(w, edited, keys, hashes), user, w.minted[hash].mint)
       <==> w.minted[hash].owner == user && ViewOf(edited, user).enrolledAt == Some(w.minted[hash].enrolledAt)
  {
    var d, x := w.minted[hash], Restarted(w, edited, keys, hashes);
    assert Enabled(w, Step.Restart(edited, keys, hashes));
    StepKeeps(t, w, Step.Restart(edited, keys, hashes));
    assert DeviceInv(t, w.log, d);
    if d.owner == user && ViewOf(edited, user).enrolledAt == Some(d.enrolledAt) {
      DeviceGetsIn(t, x, 0, visit, key, user, hash);
    }
    if CanGetIn(t, x, user, d.mint) {
      var run, k :| Legal(t, x, run) && NoRestart(run) && LetIn(x, After(t, x, run), k, user, d.mint);
      StaleDevicesStayOut(t, x, run, k, user, d.mint);
      RunExtends(t, x, run);
      assert After(t, x, run).log[d.mint] == w.log[d.mint];
    }
  }

  /** Devices of the identity in memory were minted from position `n` on. */
  ghost predicate MintedSince(w: World, user: Identity, n: nat)
  {
    n <= |w.log| && forall h :: h in w.devices && w.devices[h].owner == user ==> w.devices[h].mint >= n
  }

  lemma {:induction false} RunMintedSince(t: Totp, w: World, run: seq<Step>, user: Identity, n: nat)
    requires MintedSince(w, user, n) && Legal(t, w, run) && NoRestart(run)
    ensures MintedSince(After(t, w, run), user, n)
    decreases run
  {
    if run != [] {
      StepMintedSince(t, w, run[0], user, n);
      assert NoRestart(run[1..]);
      RunMintedSince(t, Apply(t, w, run[0]), run[1..], user, n);
    }
  }

  lemma StepMintedSince(t: Totp, w: World, s: Step, user: Identity, n: nat)
    requires MintedSince(w, user, n) && Enabled(w, s) && !s.Restart?
    ensures MintedSince(Apply(t, w, s), user, n)
  {
    StepFrame(t, w, s);
    if s.MintDevice? { assert Within(AfterMint(w, s.r, s.hash, s.ok).devices - {s.hash}, w.devices); }
  }

  lemma StrandedSince(t: Totp, w: World, run: seq<Step>, user: Identity, hash: Hash)
    requires Inv(t, w) && MintedSince(w, user, |w.log|) && Current(w, user).secret.Some?
    requires Legal(t, w, run) && NoRestart(run)
    requires hash in After(t, w, run).devices && After(t, w, run).devices[hash].owner == user
    ensures var x := After(t, w, run);
            var mint := x.devices[hash].mint;
            && |w.log| <= mint < |x.log| && x.log[mint].DeviceMinted? && x.log[mint].code < mint
            && CodeFor(t, x.log, user, x.log[mint].code, Current(w, user).secret.value)
  {
    var x := After(t, w, run);
    RunKeeps(t, w, run);
    RunExtends(t, w, run);
    RunMintedSince(t, w, run, user, |w.log|);
    assert Enrolled(w.log, user) == Current(w, user);
    assert DeviceInv(t, x.log, x.minted[hash]);
    MintedAfter(t, w.log, x.log, user, x.devices[hash]);
  }

  /** A re-enrollment strands every older device at once, even one whose date happens to be
      the new one: from then on, in this process, whatever device the identity has was minted
      after a code for the new secret. */
  lemma ReEnrollmentStrands(t: Totp, w: World, r: nat, run: seq<Step>, hash: Hash)
    requires Inv(t, w) && Enabled(w, StrandDevices(r))
    requires Legal(t, AfterStrand(w, r), run) && NoRestart(run)
    requires hash in After(t, AfterStrand(w, r), run).devices
    requires After(t, AfterStrand(w, r), run).devices[hash].owner == w.requests[r].user
    ensures var x, user := After(t, AfterStrand(w, r), run), w.requests[r].user;
            var mint := x.devices[hash].mint;
            && |w.log| <= mint < |x.log| && x.log[mint].DeviceMinted? && x.log[mint].code < mint
            && Current(w, user).secret.Some?
            && CodeFor(t, x.log, user, x.log[mint].code, Current(w, user).secret.value)
  {
    StrandKeeps(t, w, r);
    assert RequestInv(t, w, w.requests[r]);
    assert Current(AfterStrand(w, r), w.requests[r].user) == Current(w, w.requests[r].user);
    StrandedSince(t, AfterStrand(w, r), run, w.requests[r].user, hash);
  }

  lemma MintedAfter(t: Totp, log: seq<Entry>, more: seq<Entry>, user: Identity, d: Device)
    requires log <= more && StoresProven(t, more) && DeviceInv(t, more, d) && d.owner == user && d.mint >= |log|
    requires Enrolled(log, user).secret.Some? && forall j :: |log| <= j < |more| ==> !more[j].Loaded?
    ensures CodeFor(t, more, user, more[d.mint].code, Enrolled(log, user).secret.value)
  {
    assert more[..|log|] == log;
    EnrollmentStays(t, more, user, |log|, d.mint);
  }
}
