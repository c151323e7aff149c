/** The library routines that X509_PKEY_new and X509_PKEY_free call but do not
    define. Each is opaque: an allocator either fails (returns NULL and changes
    nothing) or adds one fresh identity to the heap; a deallocator removes one
    live identity. Whether an allocator fails is not something the model can
    predict, so it is passed in as the flag `ok`. */
module Foreign {
  import opened Memory

  /** An X509_ALGOR (algorithm identifier); its contents are not modelled. */
  class X509Algor {}

  /** An ASN1_OCTET_STRING (the encoded key bytes); its contents are not modelled. */
  class Asn1OctetString {}

  /** An EVP_PKEY (a decoded key); its contents are not modelled. */
  class EvpPkey {}

  /** A block of raw memory from OPENSSL_malloc, as used for key data. */
  class Block {}

  method X509AlgorNew(h: Heap, ok: bool) returns (a: X509Algor?)
    requires h.Valid()
    modifies h
    ensures h.Valid()
    ensures ok ==> a != null && fresh(a) && a !in old(h.live)
    ensures ok ==> h.live == old(h.live) + {a} && h.log == old(h.log) + [Alloc(Algor, a)]
    ensures !ok ==> a == null && h.live == old(h.live) && h.log == old(h.log)
  {
    a := null;
    if ok {
      a := new X509Algor;
      h.RecordAlloc(Algor, a);
    }
  }

  method X509AlgorFree(h: Heap, a: X509Algor)
    requires h.Valid() && a in h.live
    modifies h
    ensures h.Valid()
    ensures h.live == old(h.live) - {a} && h.log == old(h.log) + [Release(Algor, a)]
  {
    h.RecordRelease(Algor, a);
  }

  method Asn1OctetStringNew(h: Heap, ok: bool) returns (s: Asn1OctetString?)
    requires h.Valid()
    modifies h
    ensures h.Valid()
    ensures ok ==> s != null && fresh(s) && s !in old(h.live)
    ensures ok ==> h.live == old(h.live) + {s} && h.log == old(h.log) + [Alloc(OctetString, s)]
    ensures !ok ==> s == null && h.live == old(h.live) && h.log == old(h.log)
  {
    s := null;
    if ok {
      s := new Asn1OctetString;
      h.RecordAlloc(OctetString, s);
    }
  }

  method Asn1OctetStringFree(h: Heap, s: Asn1OctetString)
    requires h.Valid() && s in h.live
    modifies h
    ensures h.Valid()
    ensures h.live == old(h.live) - {s} && h.log == old(h.log) + [Release(OctetString, s)]
  {
    h.RecordRelease(OctetString, s);
  }

  method EvpPkeyNew(h: Heap, ok: bool) returns (k: EvpPkey?)
    requires h.Valid()
    modifies h
    ensures h.Valid()
    ensures ok ==> k != null && fresh(k) && k !in old(h.live)
    ensures ok ==> h.live == old(h.live) + {k} && h.log == old(h.log) + [Alloc(EvpKey, k)]
    ensures !ok ==> k == null && h.live == old(h.live) && h.log == old(h.log)
  {
    k := null;
    if ok {
      k := new EvpPkey;
      h.RecordAlloc(EvpKey, k);
    }
  }

  method EvpPkeyFree(h: Heap, k: EvpPkey)
    requires h.Valid() && k in h.live
    modifies h
    ensures h.Valid()
    ensures h.live == old(h.live) - {k} && h.log == old(h.log) + [Release(EvpKey, k)]
  {
    h.RecordRelease(EvpKey, k);
  }

  /** OPENSSL_malloc of an untyped block. */
  method OpensslMalloc(h: Heap, ok: bool) returns (p: Block?)
    requires h.Valid()
    modifies h
    ensures h.Valid()
    ensures ok ==> p != null && fresh(p) && p !in old(h.live)
    ensures ok ==> h.live == old(h.live) + {p} && h.log == old(h.log) + [Alloc(Raw, p)]
    ensures !ok ==> p == null && h.live == old(h.live) && h.log == old(h.log)
  {
    p := null;
    if ok {
      p := new Block;
      h.RecordAlloc(Raw, p);
    }
  }

  /** OPENSSL_free of any live identity. */
  method OpensslFree(h: Heap, p: object)
    requires h.Valid() && p in h.live
    modifies h
    ensures h.Valid()
    ensures h.live == old(h.live) - {p} && h.log == old(h.log) + [Release(Raw, p)]
  {
    h.RecordRelease(Raw, p);
  }
}
