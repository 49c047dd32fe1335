/**
 * Ownership of the handles and buffers the lookup tool obtains from its
 * collaborators, recorded as a trace of events and replayed against a ledger.
 */
module Resources {
  import opened Wrappers

  /** What the tool may own: the config handle, the malloc'd default registry
      path, the registry handle, the fetched entry and the classad text. */
  datatype Resource = ConfigHandle | OwnedPath | RegistryHandle | EntryRecord | ClassadText

  datatype Event =
    | Acquire(res: Resource)   // the call returned the resource; the tool now owns it
    | Failed(res: Resource)    // the call that would have produced it returned NULL
    | Release(res: Resource)   // config_free, free or job_registry_destroy on it

  /** The events so far, the latest last. */
  datatype Trace = Begin | Then(before: Trace, last: Event)

  /** Where one resource stands. */
  datatype Status = Unused | Owned | Released | NotObtained

  /** The status of each resource. */
  datatype Ledger = Ledger(config: Status, path: Status, registry: Status, entry: Status, classad: Status)
  {
    function At(r: Resource): Status
    {
      match r
      case ConfigHandle => config
      case OwnedPath => path
      case RegistryHandle => registry
      case EntryRecord => entry
      case ClassadText => classad
    }

    function With(r: Resource, s: Status): Ledger
    {
      match r
      case ConfigHandle => this.(config := s)
      case OwnedPath => this.(path := s)
      case RegistryHandle => this.(registry := s)
      case EntryRecord => this.(entry := s)
      case ClassadText => this.(classad := s)
    }

    /** Nothing is owned. */
    predicate AllReturned()
    {
      config != Owned && path != Owned && registry != Owned && entry != Owned && classad != Owned
    }

    /** The registry handle is owned and nothing else is. */
    predicate OnlyRegistryOwned()
    {
      config != Owned && path != Owned && registry == Owned && entry != Owned && classad != Owned
    }
  }

  const Start := Ledger(Unused, Unused, Unused, Unused, Unused)

  /** The ledger after one event, or None when the event is a misuse: obtaining a
      resource a second time, or releasing one that is not owned (a double free). */
  function Step(l: Ledger, e: Event): Option<Ledger>
  {
    match e
    case Acquire(r) => if l.At(r) == Unused then Some(l.With(r, Owned)) else None
    case Failed(r) => if l.At(r) == Unused then Some(l.With(r, NotObtained)) else None
    case Release(r) => if l.At(r) == Owned then Some(l.With(r, Released)) else None
  }

  /** The ledger after a whole trace, or None if some event in it is a misuse. */
  function Replay(t: Trace): Option<Ledger>
  {
    match t
    case Begin => Some(Start)
    case Then(before, e) =>
      match Replay(before)
      case None => None
      case Some(l) => Step(l, e)
  }

  /** No misuse, and nothing is still owned at the end. */
  predicate Disciplined(t: Trace)
  {
    Replay(t).Some? && Replay(t).value.AllReturned()
  }

  /** The number of events in a trace. */
  function Length(t: Trace): nat
  {
    match t
    case Begin => 0
    case Then(before, _) => Length(before) + 1
  }

  /** The event at position k, counting from the first. */
  function EventAt(t: Trace, k: nat): Event
    requires k < Length(t)
  {
    if k == Length(t) - 1 then t.last else EventAt(t.before, k)
  }

  /** The trace of the first n events. */
  function Prefix(t: Trace, n: nat): (p: Trace)
    requires n <= Length(t)
    ensures Length(p) == n
  {
    if n == Length(t) then t else Prefix(t.before, n)
  }

  /** The number of occurrences of an event in a trace. */
  function Count(t: Trace, e: Event): nat
  {
    match t
    case Begin => 0
    case Then(before, last) => Count(before, e) + (if last == e then 1 else 0)
  }

  /** Some event of the trace is about the resource. */
  predicate Touches(t: Trace, r: Resource)
  {
    t.Then? && (Touches(t.before, r) || t.last.res == r)
  }

  /** The event records the registry lookup: the entry came back, or did not. */
  predicate IsFetch(e: Event)
  {
    e == Acquire(EntryRecord) || e == Failed(EntryRecord)
  }

  /** Whenever the entry is fetched, the registry handle is the only thing owned:
      the config handle and the owned path were given back before the lookup. */
  predicate ReleasedBeforeFetch(t: Trace)
  {
    match t
    case Begin => true
    case Then(before, e) =>
      ReleasedBeforeFetch(before) &&
      (IsFetch(e) ==> Replay(before).Some? && Replay(before).value.OnlyRegistryOwned())
  }

  /** One more event: its step on the ledger, the fetch condition, and the
      resources touched. */
  lemma Extended(t: Trace, e: Event)
    ensures Replay(Then(t, e)) == if Replay(t).Some? then Step(Replay(t).value, e) else None
    ensures ReleasedBeforeFetch(Then(t, e))
      == (ReleasedBeforeFetch(t) &&
          (IsFetch(e) ==> Replay(t).Some? && Replay(t).value.OnlyRegistryOwned()))
    ensures forall r :: Touches(Then(t, e), r) == (Touches(t, r) || e.res == r)
  {
  }

  /** What a successful replay says about the trace: a resource has been obtained
      once if it is owned or released and never otherwise, and released once if it
      is released. */
  lemma {:induction false} LedgerCounts(t: Trace, r: Resource)
    requires Replay(t).Some?
    ensures var s := Replay(t).value.At(r);
      && Count(t, Acquire(r)) == (if s == Owned || s == Released then 1 else 0)
      && Count(t, Release(r)) == (if s == Released then 1 else 0)
  {
    if t.Then? {
      LedgerCounts(t.before, r);
    }
  }

  /** In a disciplined trace each resource is released exactly as often as it is
      obtained, and at most once. */
  lemma ReleasedExactlyOnce(t: Trace, r: Resource)
    requires Disciplined(t)
    ensures Count(t, Release(r)) == Count(t, Acquire(r)) <= 1
  {
    LedgerCounts(t, r);
  }

  /** The recursive ReleasedBeforeFetch read position by position: at every fetch
      event, the events before it leave the registry handle the one thing owned. */
  lemma {:induction false} ReleasedBeforeFetchAt(t: Trace, k: nat)
    requires ReleasedBeforeFetch(t)
    requires k < Length(t) && IsFetch(EventAt(t, k))
    ensures Replay(Prefix(t, k)).Some? && Replay(Prefix(t, k)).value.OnlyRegistryOwned()
  {
    if k < Length(t) - 1 {
      ReleasedBeforeFetchAt(t.before, k);
    }
  }
}
