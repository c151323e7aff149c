/** An abstract heap for the C allocator and the library constructors that
    X509_PKEY_new and X509_PKEY_free call. The heap is a set of live object
    identities together with the log of every allocation and release made so
    far, in order. The log is what lets the model speak about "released exactly
    once": removing an object from a set twice is invisible, a second Release
    call in the log is not. */
module Memory {

  /** The allocator family an object comes from, and so the routine that must
      release it:
      Raw         OPENSSL_malloc / OPENSSL_free
      Algor       X509_ALGOR_new / X509_ALGOR_free
      OctetString ASN1_OCTET_STRING_new / ASN1_OCTET_STRING_free
      EvpKey      EVP_PKEY_new / EVP_PKEY_free */
  datatype Kind = Raw | Algor | OctetString | EvpKey

  /** One successful call into an allocator or a deallocator. A failed
      allocation returns NULL and changes nothing, so it leaves no entry. */
  datatype Call = Alloc(kind: Kind, obj: object) | Release(kind: Kind, obj: object)

  /** The live set after one call. */
  function Step(live: set<object>, c: Call): set<object>
  {
    match c
    case Alloc(_, o) => live + {o}
    case Release(_, o) => live - {o}
  }

  /** A call is permitted when it allocates an identity that is not live, or
      releases one that is (no double release, no release of foreign memory). */
  predicate Permitted(live: set<object>, c: Call)
  {
    match c
    case Alloc(_, o) => o !in live
    case Release(_, o) => o in live
  }

  /** The live set after a sequence of calls, performed left to right. */
  ghost function Replay(live: set<object>, calls: seq<Call>): set<object>
    decreases |calls|
  {
    if calls == [] then live else Replay(Step(live, calls[0]), calls[1..])
  }

  /** Every call of the sequence is permitted at the point where it is made. */
  ghost predicate Safe(live: set<object>, calls: seq<Call>)
    decreases |calls|
  {
    calls == [] || (Permitted(live, calls[0]) && Safe(Step(live, calls[0]), calls[1..]))
  }

  /** How many times `o` is released by the sequence of calls. */
  function Releases(calls: seq<Call>, o: object): nat
    decreases |calls|
  {
    if calls == [] then 0
    else (if calls[0].Release? && calls[0].obj == o then 1 else 0) + Releases(calls[1..], o)
  }

  /** The identities a sequence of calls touches. */
  ghost function Objects(calls: seq<Call>): set<object>
    decreases |calls|
  {
    if calls == [] then {} else {calls[0].obj} + Objects(calls[1..])
  }

  /** Every call of the sequence is a release. */
  predicate AllReleases(calls: seq<Call>)
    decreases |calls|
  {
    calls == [] || (calls[0].Release? && AllReleases(calls[1..]))
  }

  /** No identity is touched by two calls of the sequence. */
  ghost predicate DistinctObjects(calls: seq<Call>)
    decreases |calls|
  {
    calls == [] || (calls[0].obj !in Objects(calls[1..]) && DistinctObjects(calls[1..]))
  }

  /** Running two sequences one after the other is running their concatenation. */
  lemma {:induction false} ReplayAppend(live: set<object>, a: seq<Call>, b: seq<Call>)
    ensures Replay(live, a + b) == Replay(Replay(live, a), b)
    decreases |a|
  {
    if a != [] {
      assert (a + b)[0] == a[0];
      assert (a + b)[1..] == a[1..] + b;
      ReplayAppend(Step(live, a[0]), a[1..], b);
    } else {
      assert a + b == b;
    }
  }

  /** A concatenation is safe exactly when its first part is, and its second
      part is from the state the first part leaves. */
  lemma {:induction false} SafeAppend(live: set<object>, a: seq<Call>, b: seq<Call>)
    ensures Safe(live, a + b) <==> Safe(live, a) && Safe(Replay(live, a), b)
    decreases |a|
  {
    if a != [] {
      assert (a + b)[0] == a[0];
      assert (a + b)[1..] == a[1..] + b;
      SafeAppend(Step(live, a[0]), a[1..], b);
    } else {
      assert a + b == b;
    }
  }

  /** Release counts add up over a concatenation. */
  lemma {:induction false} ReleasesAppend(a: seq<Call>, b: seq<Call>, o: object)
    ensures Releases(a + b, o) == Releases(a, o) + Releases(b, o)
    decreases |a|
  {
    if a != [] {
      assert (a + b)[0] == a[0];
      assert (a + b)[1..] == a[1..] + b;
      ReleasesAppend(a[1..], b, o);
    } else {
      assert a + b == b;
    }
  }

  /** The identities touched by a concatenation are those of its parts, and
      it is all releases exactly when both parts are. */
  lemma {:induction false} ObjectsAppend(a: seq<Call>, b: seq<Call>)
    ensures Objects(a + b) == Objects(a) + Objects(b)
    ensures AllReleases(a + b) <==> AllReleases(a) && AllReleases(b)
    decreases |a|
  {
    if a != [] {
      assert (a + b)[0] == a[0];
      assert (a + b)[1..] == a[1..] + b;
      ObjectsAppend(a[1..], b);
    } else {
      assert a + b == b;
    }
  }

  /** Two parts that each touch an identity at most once, and share none,
      give a concatenation that touches each identity at most once. */
  lemma {:induction false} DistinctAppend(a: seq<Call>, b: seq<Call>)
    requires DistinctObjects(a) && DistinctObjects(b) && Objects(a) !! Objects(b)
    ensures DistinctObjects(a + b)
    decreases |a|
  {
    if a != [] {
      assert (a + b)[0] == a[0];
      assert (a + b)[1..] == a[1..] + b;
      ObjectsAppend(a[1..], b);
      DistinctAppend(a[1..], b);
    } else {
      assert a + b == b;
    }
  }

  /** Appending to a log that already ends in `done`. */
  lemma AppendTo(log: seq<Call>, done: seq<Call>, more: seq<Call>)
    ensures log + (done + more) == (log + done) + more
    ensures log + [] == log
  {
  }

  /** A single call: safe iff permitted, and its effect is one Step. */
  lemma OneCall(live: set<object>, c: Call)
    ensures Safe(live, [c]) <==> Permitted(live, c)
    ensures Replay(live, [c]) == Step(live, c)
  {
    assert [c][1..] == [];
  }

  /** Releasing pairwise distinct live identities, one call each, is safe,
      removes exactly those identities and releases each of them once. */
  lemma {:induction false} ReleaseDistinct(live: set<object>, calls: seq<Call>)
    requires AllReleases(calls) && DistinctObjects(calls)
    requires Objects(calls) <= live
    ensures Safe(live, calls)
    ensures Replay(live, calls) == live - Objects(calls)
    ensures forall o :: Releases(calls, o) == if o in Objects(calls) then 1 else 0
    decreases |calls|
  {
    if calls != [] {
      ReleaseDistinct(live - {calls[0].obj}, calls[1..]);
    }
  }

  /** The converse discipline: a safe run of releases never releases the same
      identity twice, and releases nothing that was not live. */
  lemma {:induction false} SafeReleasesAtMostOnce(live: set<object>, calls: seq<Call>, o: object)
    requires AllReleases(calls) && Safe(live, calls)
    ensures Releases(calls, o) <= if o in live then 1 else 0
    decreases |calls|
  {
    if calls != [] {
      SafeReleasesAtMostOnce(Step(live, calls[0]), calls[1..], o);
    }
  }

  /** The process heap: the live identities and the log of calls that
      produced them from the identities live when the heap was set up. */
  class Heap {
    ghost const initial: set<object>
    ghost var live: set<object>
    ghost var log: seq<Call>

    /** Every call made so far was permitted, and `live` is their effect. */
    ghost predicate Valid()
      reads this
    {
      Safe(initial, log) && live == Replay(initial, log)
    }

    constructor (ghost objects: set<object>)
      ensures Valid() && live == objects && log == []
    {
      initial := objects;
      live := objects;
      log := [];
    }

    /** Records a successful allocation of `o`, which must not be live. */
    method RecordAlloc(kind: Kind, o: object)
      requires Valid() && o !in live
      modifies this
      ensures Valid()
      ensures live == old(live) + {o} && log == old(log) + [Alloc(kind, o)]
    {
      ReplayAppend(initial, log, [Alloc(kind, o)]);
      SafeAppend(initial, log, [Alloc(kind, o)]);
      OneCall(live, Alloc(kind, o));
      log := log + [Alloc(kind, o)];
      live := live + {o};
    }

    /** Records the release of `o`, which must be live. */
    method RecordRelease(kind: Kind, o: object)
      requires Valid() && o in live
      modifies this
      ensures Valid()
      ensures live == old(live) - {o} && log == old(log) + [Release(kind, o)]
    {
      ReplayAppend(initial, log, [Release(kind, o)]);
      SafeAppend(initial, log, [Release(kind, o)]);
      OneCall(live, Release(kind, o));
      log := log + [Release(kind, o)];
      live := live - {o};
    }
  }
}
