/** What the login handlers do to sessions and devices, seen from outside (src/main.rs): what
    ends one and what does not, and that a device asked for is good for the next login. */
module LoginEffects {
  import opened Basics
  import Enrollments
  import opened Login

  // ---- what a step touches ---------------------------------------------------------------

  predicate Looks(s: Step) { s.PasswordRight? || s.LookForTrust? || s.Authorize? }

  predicate Submits(s: Step) { s.SubmitCode? || s.Enter? || s.ReadRecord? }

  predicate Decides(s: Step) { s.GoogleVouches? || s.Judge? || s.StoreSecret? }

  predicate Finishes(s: Step) { s.Succeed? || s.ReadEnrolledAt? || s.Abandon? }

  predicate Switches(s: Step) { s.TrustedLogin? || s.BeginMfa? || s.CodeLogin? }

  predicate Untouched(w: World, x: World)
  {
    x.sessions == w.sessions && x.issued == w.issued && x.devices == w.devices
  }

  lemma LooksTouch(t: Totp, w: World, s: Step)
    requires Enabled(w, s) && Looks(s)
    ensures Untouched(w, Apply(t, w, s))
  {
  }

  lemma SubmitsTouch(t: Totp, w: World, s: Step)
    requires Enabled(w, s) && Submits(s)
    ensures Untouched(w, Apply(t, w, s))
  {
  }

  lemma PinTouches(w: World, r: nat, key: Key, user: Enrollments.Identity, sub: Enrollments.Subject, ok: bool)
    ensures Untouched(w, AfterGoogle(w, r, key, user, sub, ok))
  {
  }

  lemma JudgeTouches(t: Totp, w: World, r: nat, at: nat, unused: bool)
    requires r in w.requests && w.requests[r].Judging?
    ensures Untouched(w, AfterJudge(t, w, r, at, unused))
  {
  }

  lemma DecidesTouch(t: Totp, w: World, s: Step)
    requires Enabled(w, s) && Decides(s)
    ensures Untouched(w, Apply(t, w, s))
  {
    match s
    case GoogleVouches(r, key, user, sub, ok) => PinTouches(w, r, key, user, sub, ok);
    case Judge(r, at, unused) => JudgeTouches(t, w, r, at, unused);
    case StoreSecret(_, _, _) =>
  }

  lemma FinishesTouch(t: Totp, w: World, s: Step)
    requires Enabled(w, s) && Finishes(s)
    ensures Untouched(w, Apply(t, w, s))
  {
  }

  /** Session `key` came in place of `retired`, and that is all. */
  predicate Replaced(w: World, x: World, retired: Key, key: Key)
  {
    && x.sessions.Keys == w.sessions.Keys - {retired} + {key} && x.issued.Keys == w.issued.Keys + {key}
    && x.devices == w.devices && forall k :: k in x.sessions && k != key ==> x.sessions[k] == w.sessions[k]
  }

  lemma SwitchedReplaces(w: World, retired: Key, key: Key, session: Session)
    ensures Replaced(w, Switched(w, retired, key, session), retired, key)
  {
  }

  /** What each step does to sessions and devices. */
  predicate Effect(w: World, s: Step, x: World)
    requires Enabled(w, s)
  {
    match s
    case VisitLogin(key) =>
      && x.sessions == w.sessions[key := Anonymous] && x.issued == w.issued[key := Anonymous]
      && x.devices == w.devices
    case LockedOut(r) =>
      x.sessions == w.sessions - {w.requests[r].key} && x.issued == w.issued && x.devices == w.devices
    case DropSession(key) => x.sessions == w.sessions - {key} && x.issued == w.issued && x.devices == w.devices
    case TrustedLogin(r, key) => Replaced(w, x, w.requests[r].key, key)
    case BeginMfa(r, key) => Replaced(w, x, w.requests[r].key, key)
    case CodeLogin(r, key) => Replaced(w, x, w.requests[r].key, key)
    case StrandDevices(r) =>
      && x.sessions == w.sessions && x.issued == w.issued
      && x.devices == map h | h in w.devices && w.devices[h].owner != w.requests[r].user :: w.devices[h]
    case MintDevice(r, hash, ok) =>
      && x.sessions == w.sessions && x.issued == w.issued
      && x.devices == if ok then w.devices[hash := Device(w.requests[r].user, w.requests[r].enrolledAt, |w.log|)]
                      else w.devices
    case DropDevice(hash) => x.sessions == w.sessions && x.issued == w.issued && x.devices == w.devices - {hash}
    case Restart(_, keys, hashes) =>
      && x.sessions.Keys == keys && (forall k :: k in keys && k in w.sessions ==> x.sessions[k] == w.sessions[k])
      && x.devices.Keys == hashes && (forall h :: h in hashes && h in w.devices ==> x.devices[h] == w.devices[h])
    case _ => Untouched(w, x)
  }

  lemma StepHasEffect(t: Totp, w: World, s: Step)
    requires Enabled(w, s) && Within(w.sessions, w.issued) && Within(w.devices, w.minted)
    ensures Effect(w, s, Apply(t, w, s))
  {
    if Looks(s) {
      LooksTouch(t, w, s);
    } else if Submits(s) {
      SubmitsTouch(t, w, s);
    } else if Decides(s) {
      DecidesTouch(t, w, s);
    } else if Finishes(s) {
      FinishesTouch(t, w, s);
    } else if Switches(s) {
      SwitchesTouch(t, w, s);
    } else {
      RestHasEffect(t, w, s);
    }
  }

  lemma RestHasEffect(t: Totp, w: World, s: Step)
    requires Enabled(w, s) && Within(w.sessions, w.issued) && Within(w.devices, w.minted)
    requires !Looks(s) && !Submits(s) && !Decides(s) && !Finishes(s) && !Switches(s)
    ensures Effect(w, s, Apply(t, w, s))
  {
  }

  lemma SwitchesTouch(t: Totp, w: World, s: Step)
    requires Enabled(w, s) && Switches(s)
    ensures Replaced(w, Apply(t, w, s), w.requests[s.r].key, s.key)
  {
    var q := w.requests[s.r];
    match s
    case TrustedLogin(r, key) =>
      SwitchedReplaces(Noted(w, LoggedIn(q.user, ByDevice(q.first, q.read, q.mint))), q.key, key,
                       Authenticated(q.user, |w.log|));
    case BeginMfa(r, key) =>
      SwitchedReplaces(w, q.key, key, Pending(q.user, q.first));
    case CodeLogin(r, key) =>
      SwitchedReplaces(Noted(w, LoggedIn(q.user, ByCode(q.code))), q.key, key, Authenticated(q.user, |w.log|));
  }

  // ---- when a session ends --------------------------------------------------------------

  /** The step takes this session id out of memory: a login that replaces it, a lock on the code
      asked of it, a removal, or a restart that does not find it on disk. */
  predicate Ends(w: World, s: Step, key: Key)
    requires Enabled(w, s)
  {
    match s
    case TrustedLogin(r, _) => w.requests[r].key == key
    case BeginMfa(r, _) => w.requests[r].key == key
    case CodeLogin(r, _) => w.requests[r].key == key
    case LockedOut(r) => w.requests[r].key == key
    case DropSession(dropped) => dropped == key
    case Restart(_, keys, _) => key !in keys
    case _ => false
  }

  lemma EndsByEffect(w: World, s: Step, x: World, key: Key)
    requires Enabled(w, s) && Effect(w, s, x) && key in w.issued
    ensures !s.Restart? ==> key in x.issued && (key !in w.sessions ==> key !in x.sessions)
    ensures key in w.sessions ==> (key in x.sessions <==> !Ends(w, s, key))
    ensures key in w.sessions && key in x.sessions ==> x.sessions[key] == w.sessions[key]
  {
  }

  /** A session stays exactly as it is, or it is ended by one of these; whoever else visits, logs
      in, fails or enrolls does nothing to it. */
  lemma SessionEndsIff(t: Totp, w: World, s: Step, key: Key)
    requires Inv(t, w) && Enabled(w, s) && key in w.sessions
    ensures key in Apply(t, w, s).sessions <==> !Ends(w, s, key)
    ensures key in Apply(t, w, s).sessions ==> Apply(t, w, s).sessions[key] == w.sessions[key]
  {
    StepHasEffect(t, w, s);
    EndsByEffect(w, s, Apply(t, w, s), key);
  }

  predicate EndedIn(t: Totp, w: World, run: seq<Step>, key: Key)
    requires Legal(t, w, run)
    decreases run
  {
    run != [] && (Ends(w, run[0], key) || EndedIn(t, Apply(t, w, run[0]), run[1..], key))
  }

  /** Within one process: a session is there, the same, until a step ends it, and never again. */
  lemma {:induction false} ThereUntilEnded(t: Totp, w: World, run: seq<Step>, key: Key)
    requires Inv(t, w) && Legal(t, w, run) && NoRestart(run) && key in w.issued
    ensures key !in w.sessions ==> key !in After(t, w, run).sessions
    ensures key in w.sessions ==> (key in After(t, w, run).sessions <==> !EndedIn(t, w, run, key))
    ensures key in w.sessions && key in After(t, w, run).sessions ==> After(t, w, run).sessions[key] == w.sessions[key]
    decreases run
  {
    if run != [] {
      StepKeeps(t, w, run[0]);
      StepHasEffect(t, w, run[0]);
      EndsByEffect(w, run[0], Apply(t, w, run[0]), key);
      assert NoRestart(run[1..]);
      ThereUntilEnded(t, Apply(t, w, run[0]), run[1..], key);
    }
  }

  // ---- when a device goes ------------------------------------------------------------------

  /** A device goes when its owner enrolls anew, when it is dropped, or when a restart does not
      find it on disk; otherwise it stays as it is. */
  lemma DeviceGoesIff(t: Totp, w: World, s: Step, hash: Hash)
    requires Inv(t, w) && Enabled(w, s) && hash in w.devices
    ensures hash !in Apply(t, w, s).devices <==>
              || (s.StrandDevices? && w.requests[s.r].user == w.devices[hash].owner)
              || (s.DropDevice? && s.hash == hash)
              || (s.Restart? && hash !in s.hashes)
    ensures hash in Apply(t, w, s).devices ==> Apply(t, w, s).devices[hash] == w.devices[hash]
  {
    StepHasEffect(t, w, s);
    GoesByEffect(w, s, Apply(t, w, s), hash);
  }

  lemma GoesByEffect(w: World, s: Step, x: World, hash: Hash)
    requires Enabled(w, s) && Effect(w, s, x) && hash in w.devices && hash in w.minted
    ensures hash !in x.devices <==>
              || (s.StrandDevices? && w.requests[s.r].user == w.devices[hash].owner)
              || (s.DropDevice? && s.hash == hash)
              || (s.Restart? && hash !in s.hashes)
    ensures hash in x.devices ==> x.devices[hash] == w.devices[hash]
  {
  }

  /** A device comes only with a restart or a successful write for a request that waits for one;
      it is its owner's, of the date read for it. */
  lemma DeviceComesIff(t: Totp, w: World, s: Step, hash: Hash)
    requires Inv(t, w) && Enabled(w, s) && !s.Restart? && hash !in w.devices
    ensures hash in Apply(t, w, s).devices <==> s.MintDevice? && s.hash == hash && s.ok
    ensures s.MintDevice? && s.hash == hash && s.ok ==>
              && w.requests[s.r].Minting?
              && Apply(t, w, s).devices[hash] == Device(w.requests[s.r].user, w.requests[s.r].enrolledAt, |w.log|)
  {
    StepHasEffect(t, w, s);
  }

  // ---- what a login leads to ------------------------------------------------------------------

  /** An enrollment that cannot be saved ends the request: nobody is logged in, nothing is
      revoked or remembered, and the bucket is free again. */
  lemma UnsavedEnrollmentGainsNothing(t: Totp, w: World, r: nat, at: nat)
    requires Enabled(w, StoreSecret(r, at, false))
    ensures var x := Apply(t, w, StoreSecret(r, at, false));
            && r !in x.requests && x.sessions == w.sessions && x.devices == w.devices
            && x.enrollment.file == w.enrollment.file && w.requests[r].user !in x.buckets
  {
  }

  /** The code login goes on to remember the browser exactly if the form asked for it and this is
      no enrollment. */
  lemma RememberedIffAsked(t: Totp, w: World, r: nat, key: Key)
    requires Enabled(w, CodeLogin(r, key))
    ensures var q, x := w.requests[r], Apply(t, w, CodeLogin(r, key));
            && (r in x.requests <==> q.form.remember && !q.enrolling)
            && (r in x.requests ==> x.requests[r] == Remembering(q.user, q.code))
  {
  }

  lemma RemembersDate(t: Totp, w: World, r: nat, key: Key)
    requires Enabled(w, CodeLogin(r, key)) && w.requests[r].form.remember && !w.requests[r].enrolling
    requires DateOf(Current(w, w.requests[r].user)).Some?
    ensures var q, u := w.requests[r], Apply(t, w, CodeLogin(r, key));
            && Enabled(u, ReadEnrolledAt(r))
            && var v := Apply(t, u, ReadEnrolledAt(r));
               && r in v.requests
               && v.requests[r] == Minting(q.user, q.code, DateOf(Current(w, q.user)).value)
               && v.enrollment == w.enrollment && v.minted == w.minted && v.issued.Keys == w.issued.Keys + {key}
  {
  }

  lemma MintsDevice(t: Totp, v: World, r: nat, hash: Hash)
    requires r in v.requests && v.requests[r].Minting? && hash !in v.minted
    ensures var x := Apply(t, v, MintDevice(r, hash, true));
            && hash in x.devices && x.devices[hash] == Device(v.requests[r].user, v.requests[r].enrolledAt, |v.log|)
            && x.enrollment == v.enrollment && x.issued == v.issued && r !in x.requests
  {
  }

  /** Asking to be remembered is worth it: the login leaves a device with which, in some
      continuation, its owner gets in next time by a first factor and no code. */
  lemma RememberedGetsIn(t: Totp, w: World, r: nat, key: Key, hash: Hash, visit: Key, next: Key)
    requires Inv(t, w) && Enabled(w, CodeLogin(r, key)) && hash !in w.minted
    requires w.requests[r].form.remember && !w.requests[r].enrolling
    requires DateOf(Current(w, w.requests[r].user)).Some?
    requires visit !in w.issued && next !in w.issued && key != visit && visit != next && next != key
    ensures var u := Apply(t, w, CodeLogin(r, key));
            && Enabled(u, ReadEnrolledAt(r)) && Enabled(Apply(t, u, ReadEnrolledAt(r)), MintDevice(r, hash, true))
            && var x := Apply(t, Apply(t, u, ReadEnrolledAt(r)), MintDevice(r, hash, true));
               hash in x.devices && CanGetIn(t, x, w.requests[r].user, x.devices[hash].mint)
  {
    RemembersDate(t, w, r, key);
    var v := Apply(t, Apply(t, w, CodeLogin(r, key)), ReadEnrolledAt(r));
    MintsDevice(t, v, r, hash);
    DeviceGetsIn(t, Apply(t, v, MintDevice(r, hash, true)), r, visit, next, w.requests[r].user, hash);
  }
}
