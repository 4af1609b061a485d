/** What is remembered per identity (src/enrollment.rs): the pinned issuer subject and
    the TOTP secret, in memory and in a file that may fail to be written. */
module Enrollments {
  import opened Basics

  type Identity = string
  type Subject = string
  type Secret = string

  datatype Record = Record(sub: Option<Subject>, mfaSecret: Option<Secret>, enrolledAt: Option<nat>)

  type Table = map<Identity, Record>

  datatype Store = Store(inner: Table, file: Table)

  datatype PinResult = Matches | Mismatch | NotSaved

  const BLANK: Record := Record(None, None, None)

  /** `entry(id).or_default()`. */
  function Get(m: Table, id: Identity): Record { if id in m then m[id] else BLANK }

  // ---- specification of the operations ---------------------------------------------

  /** The subject is pinned by the first login and never moves. */
  function Pinned(m: Table, id: Identity, sub: Subject): Table
  {
    m[id := if Get(m, id).sub.Some? then Get(m, id) else Get(m, id).(sub := Some(sub))]
  }

  function AfterPin(s: Store, id: Identity, sub: Subject, ok: bool): Store
  {
    Store(Pinned(s.inner, id, sub),
          if Get(s.inner, id).sub.None? && ok then Pinned(s.inner, id, sub) else s.file)
  }

  function PinOutcome(s: Store, id: Identity, sub: Subject, ok: bool): PinResult
  {
    match Get(s.inner, id).sub
    case Some(known) => if known == sub then Matches else Mismatch
    case None => if ok then Matches else NotSaved
  }

  function WithSecret(m: Table, id: Identity, secret: Secret, now: nat): Table
  {
    m[id := Record(Get(m, id).sub, Some(secret), Some(now))]
  }

  function AfterEnroll(s: Store, id: Identity, secret: Secret, now: nat, ok: bool): Store
  {
    Store(WithSecret(s.inner, id, secret, now), if ok then WithSecret(s.inner, id, secret, now) else s.file)
  }

  class EnrollmentStore {
    var inner: Table
    var file: Table

    function State(): Store
      reads this
    {
      Store(inner, file)
    }

    constructor (file: Table)
      ensures State() == Store(file, file)
    {
      this.file := file;
      inner := file;
    }

    method Write(ok: bool)
      modifies this`file
      ensures file == if ok then inner else old(file)
    {
      if ok { file := inner; }
    }

    method PinSubject(id: Identity, sub: Subject, ok: bool) returns (r: PinResult)
      modifies this
      ensures State() == AfterPin(old(State()), id, sub, ok)
      ensures r == PinOutcome(old(State()), id, sub, ok)
      ensures id in old(inner) && old(inner)[id].sub.Some? ==>
          && r == (if old(inner)[id].sub == Some(sub) then Matches else Mismatch)
          && inner == old(inner) && file == old(file)
      ensures id !in old(inner) || old(inner)[id].sub.None? ==>
          && r == (if ok then Matches else NotSaved) && file == (if ok then inner else old(file))
          && inner == old(inner)[id := if id in old(inner) then old(inner)[id].(sub := Some(sub))
                                       else Record(Some(sub), None, None)]
    {
      if id !in inner { inner := inner[id := BLANK]; }
      var record := inner[id];
      if record.sub.Some? {
        assert inner == Pinned(old(inner), id, sub);
        return if record.sub.value == sub then Matches else Mismatch;
      }
      inner := inner[id := record.(sub := Some(sub))];
      Write(ok);
      return if ok then Matches else NotSaved;
    }

    method Enroll(id: Identity, secret: Secret, now: nat, ok: bool)
      modifies this
      ensures State() == AfterEnroll(old(State()), id, secret, now, ok)
      ensures id in inner && inner[id].mfaSecret == Some(secret) && inner[id].enrolledAt == Some(now)
      ensures inner[id].sub == if id in old(inner) then old(inner)[id].sub else None
      ensures inner.Keys == old(inner).Keys + {id} && file == (if ok then inner else old(file))
      ensures forall other :: other in old(inner) && other != id ==> inner[other] == old(inner)[other]
    {
      if id !in inner { inner := inner[id := BLANK]; }
      inner := inner[id := inner[id].(mfaSecret := Some(secret), enrolledAt := Some(now))];
      Write(ok);
    }
  }

  // ---- runs, restarts included --------------------------------------------------------

  datatype Step =
    | Pin(id: Identity, sub: Subject)
    | Enroll(id: Identity, secret: Secret, now: nat)
    | Restart

  datatype Event = Event(step: Step, ok: bool)

  function Apply(s: Store, e: Event): Store
  {
    match e.step
    case Pin(id, sub) => AfterPin(s, id, sub, e.ok)
    case Enroll(id, secret, now) => AfterEnroll(s, id, secret, now, e.ok)
    case Restart => Store(s.file, s.file)
  }

  function After(s: Store, run: seq<Event>): Store
    decreases run
  {
    if run == [] then s else After(Apply(s, run[0]), run[1..])
  }

  lemma {:induction false} PinInSync(s: Store, run: seq<Event>, id: Identity, sub: Subject)
    requires Get(s.inner, id).sub == Some(sub) && Get(s.file, id).sub == Some(sub)
    ensures Get(After(s, run).inner, id).sub == Some(sub) && Get(After(s, run).file, id).sub == Some(sub)
    decreases run
  {
    if run != [] { PinInSync(Apply(s, run[0]), run[1..], id, sub); }
  }

  /** A subject that reached the file belongs to its identity for good: afterwards, and
      across restarts and failing writes, exactly that subject is let in. */
  lemma PinIsForGood(s: Store, run: seq<Event>, id: Identity, sub: Subject, other: Subject, ok: bool)
    requires Get(s.inner, id).sub == Some(sub) && Get(s.file, id).sub == Some(sub)
    ensures var x := After(s, run);
            PinOutcome(x, id, other, ok) == if other == sub then Matches else Mismatch
  {
    PinInSync(s, run, id, sub);
  }

  predicate NoRestart(run: seq<Event>) { forall i :: 0 <= i < |run| ==> !run[i].step.Restart? }

  predicate SomeSave(s: Store, run: seq<Event>)
    decreases run
  {
    run != [] && (Saves(s, run[0]) || SomeSave(Apply(s, run[0]), run[1..]))
  }

  predicate Saves(s: Store, e: Event)
  {
    e.ok && match e.step
            case Pin(id, _) => Get(s.inner, id).sub.None?
            case Enroll(_, _, _) => true
            case Restart => false
  }

  /** A first login whose write failed is refused, but the next one with the same subject
      is let in without another write. Whether the pin outlives the process then depends
      on some later write succeeding, and on nothing else. */
  lemma {:induction false} PinOutlivesProcessIff(s: Store, run: seq<Event>, id: Identity, sub: Subject)
    requires Get(s.inner, id).sub == Some(sub) && Get(s.file, id).sub.None? && NoRestart(run)
    ensures PinOutcome(After(s, run), id, sub, false) == Matches
    ensures Get(After(s, run).file, id).sub == Some(sub) <==> SomeSave(s, run)
    ensures Get(After(s, run).file, id).sub.None? <==> !SomeSave(s, run)
    decreases run
  {
    if run != [] {
      var x := Apply(s, run[0]);
      if Saves(s, run[0]) {
        PinInSync(x, run[1..], id, sub);
      } else {
        PinOutlivesProcessIff(x, run[1..], id, sub);
      }
    }
  }
}
