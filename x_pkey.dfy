/** The lifecycle of X509_PKEY, the container that holds a private key both
    in encoded form (an algorithm identifier and an octet string) and in
    decoded form (an EVP_PKEY, plus optional format-specific key data whose
    ownership is decided by the flag key_free). */
module XPkey {
  import opened Memory
  import opened Foreign

  /** The container. NULL pointers are null references; the zero-filled
      struct of a successful construction has every optional field null and
      keyFree false. */
  class X509Pkey {
    var encAlgor: X509Algor?
    var encPkey: Asn1OctetString?
    var decPkey: EvpPkey?
    var keyData: object?
    var keyFree: bool

    /** The container's identity and field values, as one value. */
    function View(): Snapshot
      reads this
    {
      Snapshot(this, encAlgor, encPkey, decPkey, keyData, keyFree)
    }
  }

  /** The fields of a container at one moment, together with its identity. */
  datatype Snapshot = Snapshot(
    self: X509Pkey,
    encAlgor: X509Algor?,
    encPkey: Asn1OctetString?,
    decPkey: EvpPkey?,
    keyData: object?,
    keyFree: bool)

  /** The state in which X509_PKEY_new leaves the container once the two
      mandatory sub-objects have been attempted: zero-filled, then enc_algor
      and enc_pkey set to what their constructors returned. */
  function Built(self: X509Pkey, algor: X509Algor?, oct: Asn1OctetString?): Snapshot
  {
    Snapshot(self, algor, oct, null, null, false)
  }

  /** The identity behind a nullable pointer, as a set. */
  ghost function Present(o: object?): set<object>
  {
    if o == null then {} else {o}
  }

  /** The key data when the container owns it (key_free set), else null. */
  function OwnedKeyData(v: Snapshot): object?
  {
    if v.keyFree then v.keyData else null
  }

  /** What the container is responsible for releasing: its own storage, every
      present encoded or decoded field, and the key data only when key_free
      says it is owned rather than borrowed. */
  ghost function Owned(v: Snapshot): set<object>
  {
    Present(v.encAlgor) + Present(v.encPkey) + Present(v.decPkey)
    + Present(OwnedKeyData(v)) + {v.self}
  }

  /** Owned key data is not also one of the container's other objects, so
      no identity is owned twice. (The other fields have distinct classes,
      so they cannot coincide.) */
  predicate Disjoint(v: Snapshot)
  {
    var d := OwnedKeyData(v);
    d != null ==> d != v.self && d != v.encAlgor && d != v.encPkey && d != v.decPkey
  }

  /** The release of a field if the pointer is non-null; nothing otherwise. */
  function ReleaseOf(kind: Kind, o: object?): (r: seq<Call>)
    ensures AllReleases(r) && DistinctObjects(r) && Objects(r) == Present(o)
  {
    if o == null then [] else [Release(kind, o)]
  }

  /** A log extended by the release of a field if the pointer is non-null. */
  function AfterRelease(log: seq<Call>, kind: Kind, o: object?): seq<Call>
  {
    if o == null then log else log + [Release(kind, o)]
  }

  /** The calls X509_PKEY_free makes on a non-null container, in order: each
      present field with its own destructor, owned key data with
      OPENSSL_free, and last the container's storage. */
  function FreeCalls(v: Snapshot): (r: seq<Call>)
    ensures |r| > 0 && r[|r| - 1] == Release(Raw, v.self)
    ensures v.encAlgor != null ==> Release(Algor, v.encAlgor) in r
    ensures v.encPkey != null ==> Release(OctetString, v.encPkey) in r
    ensures v.decPkey != null ==> Release(EvpKey, v.decPkey) in r
    ensures v.keyData != null && v.keyFree ==> Release(Raw, v.keyData) in r
  {
    ReleaseOf(Algor, v.encAlgor) + ReleaseOf(OctetString, v.encPkey)
    + ReleaseOf(EvpKey, v.decPkey) + ReleaseOf(Raw, OwnedKeyData(v))
    + [Release(Raw, v.self)]
  }

  /** X509_PKEY_free releases exactly what the container owns. */
  lemma FreeCallsReleaseOwned(v: Snapshot)
    ensures AllReleases(FreeCalls(v)) && Objects(FreeCalls(v)) == Owned(v)
  {
    var p1, p2, p3 := ReleaseOf(Algor, v.encAlgor), ReleaseOf(OctetString, v.encPkey), ReleaseOf(EvpKey, v.decPkey);
    var p4, p5 := ReleaseOf(Raw, OwnedKeyData(v)), [Release(Raw, v.self)];
    assert FreeCalls(v) == p1 + p2 + p3 + p4 + p5;
    ObjectsAppend(p1, p2);
    ObjectsAppend(p1 + p2, p3);
    ObjectsAppend(p1 + p2 + p3, p4);
    ObjectsAppend(p1 + p2 + p3 + p4, p5);
  }

  /** When no identity is owned twice, X509_PKEY_free touches each released
      identity in one call only. */
  lemma FreeCallsDistinct(v: Snapshot)
    requires Disjoint(v)
    ensures DistinctObjects(FreeCalls(v))
  {
    var p1, p2, p3 := ReleaseOf(Algor, v.encAlgor), ReleaseOf(OctetString, v.encPkey), ReleaseOf(EvpKey, v.decPkey);
    var p4, p5 := ReleaseOf(Raw, OwnedKeyData(v)), [Release(Raw, v.self)];
    assert FreeCalls(v) == p1 + p2 + p3 + p4 + p5;
    ObjectsAppend(p1, p2);
    ObjectsAppend(p1 + p2, p3);
    ObjectsAppend(p1 + p2 + p3, p4);
    DistinctAppend(p1, p2);
    DistinctAppend(p1 + p2, p3);
    DistinctAppend(p1 + p2 + p3, p4);
    DistinctAppend(p1 + p2 + p3 + p4, p5);
  }

  /** The log after X509_PKEY_free, built one guarded release at a time as
      the C code runs, is the log before it followed by FreeCalls. */
  lemma FreeLog(log: seq<Call>, v: Snapshot)
    ensures AfterRelease(AfterRelease(AfterRelease(AfterRelease(log, Algor, v.encAlgor),
              OctetString, v.encPkey), EvpKey, v.decPkey), Raw, OwnedKeyData(v))
            + [Release(Raw, v.self)] == log + FreeCalls(v)
  {
    var p1, p2, p3 := ReleaseOf(Algor, v.encAlgor), ReleaseOf(OctetString, v.encPkey), ReleaseOf(EvpKey, v.decPkey);
    var p4 := ReleaseOf(Raw, OwnedKeyData(v));
    AppendTo(log, [], []);
    assert AfterRelease(log, Algor, v.encAlgor) == log + p1;
    AppendTo(log, p1, p2);
    AppendTo(log + p1, [], []);
    AppendTo(log, p1 + p2, p3);
    AppendTo(log + (p1 + p2), [], []);
    AppendTo(log, p1 + p2 + p3, p4);
    AppendTo(log + (p1 + p2 + p3), [], []);
    AppendTo(log, p1 + p2 + p3 + p4, [Release(Raw, v.self)]);
  }

  /** The calls X509_PKEY_new makes, given what each allocator returned
      (null for a failure; an allocator after the first failure is never
      reached, so its argument is then ignored). */
  function NewCalls(top: X509Pkey?, algor: X509Algor?, oct: Asn1OctetString?): (r: seq<Call>)
    ensures r == [] <==> top == null
    ensures top != null ==> r[0] == Alloc(Raw, top)
    ensures top != null && (algor == null || oct == null) ==> r[|r| - 1] == Release(Raw, top)
  {
    if top == null then []
    else if algor == null then [Alloc(Raw, top)] + FreeCalls(Built(top, null, null))
    else if oct == null then [Alloc(Raw, top), Alloc(Algor, algor)] + FreeCalls(Built(top, algor, null))
    else [Alloc(Raw, top), Alloc(Algor, algor), Alloc(OctetString, oct)]
  }

  /** X509_PKEY_free on a container whose owned objects are live releases
      them safely, and the live set loses exactly those objects. */
  lemma FreeEffect(live: set<object>, v: Snapshot)
    requires Disjoint(v) && Owned(v) <= live
    ensures Safe(live, FreeCalls(v))
    ensures Replay(live, FreeCalls(v)) == live - Owned(v)
  {
    FreeCallsReleaseOwned(v);
    FreeCallsDistinct(v);
    ReleaseDistinct(live, FreeCalls(v));
  }

  /** Every owned object is released exactly once, and nothing else at all. */
  lemma FreeReleasesEachOnce(v: Snapshot, o: object)
    requires Disjoint(v)
    ensures Releases(FreeCalls(v), o) == if o in Owned(v) then 1 else 0
  {
    FreeCallsReleaseOwned(v);
    FreeCallsDistinct(v);
    ReleaseDistinct(Owned(v), FreeCalls(v));
  }

  /** Borrowed key data (key_free false) is never released: it is as live
      after X509_PKEY_free as before. */
  lemma BorrowedKeyDataSurvives(live: set<object>, v: Snapshot)
    requires v.keyData != null && !v.keyFree && v.keyData in live
    requires v.keyData != v.self && v.keyData != v.encAlgor
    requires v.keyData != v.encPkey && v.keyData != v.decPkey
    ensures Releases(FreeCalls(v), v.keyData) == 0
    ensures Owned(v) <= live ==> v.keyData in Replay(live, FreeCalls(v))
  {
    FreeReleasesEachOnce(v, v.keyData);
    if Owned(v) <= live {
      FreeEffect(live, v);
    }
  }

  /** X509_PKEY_new, from fresh allocator results: every call it makes is
      permitted; on success the live set gains exactly the container and its
      two sub-objects, on any failure it is left as it was. */
  lemma NewEffect(live: set<object>, top: X509Pkey?, algor: X509Algor?, oct: Asn1OctetString?)
    requires top != null ==> top !in live
    requires algor != null ==> algor !in live
    requires oct != null ==> oct !in live
    ensures Safe(live, NewCalls(top, algor, oct))
    ensures top != null && algor != null && oct != null ==>
              Replay(live, NewCalls(top, algor, oct)) == live + {top, algor, oct}
    ensures top == null || algor == null || oct == null ==>
              Replay(live, NewCalls(top, algor, oct)) == live
  {
    if top != null {
      var calls := NewCalls(top, algor, oct);
      if algor == null {
        var head, free := [Alloc(Raw, top)], FreeCalls(Built(top, null, null));
        assert calls == head + free;
        OneCall(live, head[0]);
        assert Owned(Built(top, null, null)) == {top};
        FreeEffect(live + {top}, Built(top, null, null));
        SafeAppend(live, head, free);
        ReplayAppend(live, head, free);
      } else if oct == null {
        var head, free := [Alloc(Raw, top), Alloc(Algor, algor)], FreeCalls(Built(top, algor, null));
        assert calls == head + free;
        assert [head[0]] + [head[1]] == head;
        OneCall(live, head[0]);
        OneCall(live + {top}, head[1]);
        ReplayAppend(live, [head[0]], [head[1]]);
        SafeAppend(live, [head[0]], [head[1]]);
        assert Replay(live, head) == live + {top, algor};
        assert Owned(Built(top, algor, null)) == {top, algor};
        FreeEffect(live + {top, algor}, Built(top, algor, null));
        SafeAppend(live, head, free);
        ReplayAppend(live, head, free);
      } else {
        ReplayAppend(live, [calls[0]], calls[1..]);
        SafeAppend(live, [calls[0]], calls[1..]);
        ReplayAppend(live + {top}, [calls[1]], [calls[2]]);
        SafeAppend(live + {top}, [calls[1]], [calls[2]]);
        OneCall(live, calls[0]);
        OneCall(live + {top}, calls[1]);
        OneCall(live + {top, algor}, calls[2]);
        assert calls == [calls[0]] + ([calls[1]] + [calls[2]]);
      }
    }
  }

  /** A failed X509_PKEY_new releases every object it allocated exactly once;
      a successful one releases nothing. */
  lemma NewReleasesOnFailure(top: X509Pkey?, algor: X509Algor?, oct: Asn1OctetString?, o: object)
    ensures top == null ==> NewCalls(top, algor, oct) == []
    ensures top != null && algor == null ==>
              Releases(NewCalls(top, algor, oct), o) == (if o == top then 1 else 0)
    ensures top != null && algor != null && oct == null ==>
              Releases(NewCalls(top, algor, oct), o) == (if o == top || o == algor then 1 else 0)
    ensures top != null && algor != null && oct != null ==>
              Releases(NewCalls(top, algor, oct), o) == 0
  {
    if top != null {
      if algor == null {
        ReleasesAppend([Alloc(Raw, top)], FreeCalls(Built(top, null, null)), o);
        FreeReleasesEachOnce(Built(top, null, null), o);
      } else if oct == null {
        ReleasesAppend([Alloc(Raw, top), Alloc(Algor, algor)], FreeCalls(Built(top, algor, null)), o);
        FreeReleasesEachOnce(Built(top, algor, null), o);
      } else {
        var c0, c1, c2 := Alloc(Raw, top), Alloc(Algor, algor), Alloc(OctetString, oct);
        assert NewCalls(top, algor, oct) == [c0] + ([c1] + [c2]);
        ReleasesAppend([c0], [c1] + [c2], o);
        ReleasesAppend([c1], [c2], o);
      }
    }
  }

  /** OPENSSL_malloc(sizeof(X509_PKEY)): the storage comes back with
      unspecified contents, so nothing is promised about its fields. */
  method MallocX509Pkey(h: Heap, ok: bool) returns (p: X509Pkey?)
    requires h.Valid()
    modifies h
    ensures h.Valid()
    ensures ok ==> p != null && fresh(p) && p !in old(h.live)
    ensures ok ==> h.live == old(h.live) + {p} && h.log == old(h.log) + [Alloc(Raw, p)]
    ensures !ok ==> p == null && h.live == old(h.live) && h.log == old(h.log)
  {
    p := null;
    if ok {
      p := new X509Pkey;
      h.RecordAlloc(Raw, p);
    }
  }

  /** X509_PKEY_new. The three flags say whether OPENSSL_malloc,
      X509_ALGOR_new and ASN1_OCTET_STRING_new succeed; the ghost results are
      what those allocators returned (null when one failed or was not reached). */
  method X509PkeyNew(h: Heap, mallocOk: bool, algorOk: bool, octOk: bool)
    returns (ret: X509Pkey?, ghost top: X509Pkey?, ghost algor: X509Algor?, ghost oct: Asn1OctetString?)
    requires h.Valid()
    modifies h
    ensures h.Valid()
    ensures h.log == old(h.log) + NewCalls(top, algor, oct)
    ensures top != null <==> mallocOk
    ensures algor != null <==> mallocOk && algorOk
    ensures oct != null <==> mallocOk && algorOk && octOk
    ensures ret != null <==> mallocOk && algorOk && octOk
    ensures ret != null ==>
              ret == top && fresh(ret) && fresh(algor) && fresh(oct) &&
              ret !in old(h.live) && algor !in old(h.live) && oct !in old(h.live) &&
              ret.View() == Built(ret, algor, oct) &&
              h.live == old(h.live) + {ret, algor, oct}
    ensures ret == null ==> h.live == old(h.live)
  {
    algor, oct := null, null;
    ret := MallocX509Pkey(h, mallocOk);
    top := ret;
    ghost var made: seq<Call> := [];
    label build: {
      if ret == null {
        break build;
      }
      ret.encAlgor, ret.encPkey, ret.decPkey, ret.keyData, ret.keyFree := null, null, null, null, false;
      made := [Alloc(Raw, ret)];

      ret.encAlgor := X509AlgorNew(h, algorOk);
      algor := ret.encAlgor;
      if ret.encAlgor == null {
        break build;
      }
      AppendTo(old(h.log), made, [Alloc(Algor, algor)]);
      made := made + [Alloc(Algor, algor)];
      ret.encPkey := Asn1OctetStringNew(h, octOk);
      oct := ret.encPkey;
      if ret.encPkey == null {
        break build;
      }
      AppendTo(old(h.log), made, [Alloc(OctetString, oct)]);
      made := made + [Alloc(OctetString, oct)];
      assert made == NewCalls(top, algor, oct);
      return;
    }
    // err:
    if ret != null {
      assert h.log == old(h.log) + made && ret.View() == Built(ret, algor, null);
      assert NewCalls(top, algor, oct) == made + FreeCalls(Built(ret, algor, null));
      AppendTo(old(h.log), made, FreeCalls(Built(ret, algor, null)));
      X509PkeyFree(h, ret);
    }
    ret := null;
  }

  /** X509_PKEY_free. Single release is the caller's obligation: a non-null
      container and everything it owns must be live, and owned key data must
      not be one of its other objects. */
  method X509PkeyFree(h: Heap, x: X509Pkey?)
    requires h.Valid()
    requires x != null ==> Disjoint(x.View()) && Owned(x.View()) <= h.live
    modifies h
    ensures h.Valid()
    ensures x == null ==> h.live == old(h.live) && h.log == old(h.log)
    ensures x != null ==> h.log == old(h.log) + FreeCalls(old(x.View()))
    ensures x != null ==> h.live == old(h.live) - Owned(old(x.View()))
  {
    if x == null {
      return;
    }
    ghost var v, log0, live0 := x.View(), h.log, h.live;
    assert v.encPkey != null ==> v.encPkey in live0;
    assert v.decPkey != null ==> v.decPkey in live0;
    assert OwnedKeyData(v) != null ==> OwnedKeyData(v) in live0;
    assert v.self in live0;
    if x.encAlgor != null {
      X509AlgorFree(h, x.encAlgor);
    }
    ghost var trail := AfterRelease(log0, Algor, v.encAlgor);
    assert h.log == trail;
    if x.encPkey != null {
      Asn1OctetStringFree(h, x.encPkey);
    }
    trail := AfterRelease(trail, OctetString, v.encPkey);
    assert h.log == trail;
    if x.decPkey != null {
      EvpPkeyFree(h, x.decPkey);
    }
    trail := AfterRelease(trail, EvpKey, v.decPkey);
    assert h.log == trail;
    if x.keyData != null && x.keyFree {
      OpensslFree(h, x.keyData);
    }
    trail := AfterRelease(trail, Raw, OwnedKeyData(v));
    assert h.log == trail;
    OpensslFree(h, x);
    FreeLog(log0, v);
    // The live set follows from the log: replaying FreeCalls from live0.
    ReplayAppend(h.initial, log0, FreeCalls(v));
    FreeEffect(live0, v);
  }

  /** A whole lifecycle: construct, let outside code attach a decoded key and
      key data with either ownership, then destroy. Only borrowed key data
      outlives the container. */
  method Lifecycle(h: Heap, mallocOk: bool, algorOk: bool, octOk: bool,
                   decOk: bool, dataOk: bool, keyFree: bool)
    returns (ghost payload: Block?)
    requires h.Valid()
    modifies h
    ensures h.Valid()
    ensures payload != null ==> fresh(payload)
    ensures h.live == old(h.live) + (if payload != null && !keyFree then {payload} else {})
  {
    payload := null;
    var x, top, algor, oct := X509PkeyNew(h, mallocOk, algorOk, octOk);
    if x == null {
      return;
    }
    var k := EvpPkeyNew(h, decOk);
    var d := OpensslMalloc(h, dataOk);
    x.decPkey, x.keyData, x.keyFree := k, d, keyFree;
    payload := d;
    ghost var owned := {x as object, algor, oct} + Present(k) + Present(OwnedKeyData(x.View()));
    ghost var lent: set<object> := if d != null && !keyFree then {d} else {};
    assert Owned(x.View()) == owned;
    assert h.live == old(h.live) + owned + lent;
    assert old(h.live) !! owned && lent !! owned;
    ghost var before := h.live;
    X509PkeyFree(h, x);
    assert h.live == before - owned;
    Unlend(old(h.live), owned, lent);
  }

  /** Taking back what was added leaves the starting set and what was lent. */
  lemma Unlend(start: set<object>, owned: set<object>, lent: set<object>)
    requires start !! owned && lent !! owned
    ensures (start + owned + lent) - owned == start + lent
  {
  }
}
