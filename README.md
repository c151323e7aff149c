# X509_PKEY lifecycle

A model of the private-key container `X509_PKEY` from BoringSSL, as vendored in
Sources/CCryptoBoringSSL/crypto/x509/x_pkey.c. The container holds a private
key in two forms:

- encoded: an algorithm identifier `enc_algor` and an octet string `enc_pkey`;
- decoded: an `EVP_PKEY` `dec_pkey`, plus optional format-specific `key_data`
  that the container owns only when its `key_free` flag is set.

The model has two operations:

- `X509_PKEY_new` allocates a zero-filled container, then builds `enc_algor`
  and `enc_pkey`. On any failure it hands the partly built container to the
  destructor and returns NULL.
- `X509_PKEY_free` ignores NULL. Otherwise it releases every present field,
  releases `key_data` only when it is owned, and always releases the
  container.

Three modules:

- `Memory` (memory.dfy) is an abstract heap. It keeps the set of live object
  identities and the log of every successful allocation and release, in
  order. `Replay` gives the live set a log produces. `Safe` says a log never
  allocates a live identity and never releases a dead one. `Releases` counts
  how often a log releases one identity. The log is what makes "released
  exactly once" expressible.
- `Foreign` (foreign.dfy) holds the library routines the two functions call.
  Each allocator takes a flag that says whether it succeeds. On success it
  adds one fresh identity and logs it; on failure it returns null and changes
  nothing. Each deallocator removes one live identity and logs the release.
- `XPkey` (x_pkey.dfy) is the container as a class with nullable fields, and
  the two operations as methods that change the heap. Each method is proved
  against a function that lists the calls it makes: `NewCalls` for the
  constructor and `FreeCalls` for the destructor. Lemmas then prove what
  those call lists do to any live set.

## Model

| member | source | states |
|---|---|---|
| XPkey.X509PkeyNew | Sources/CCryptoBoringSSL/crypto/x509/x_pkey.c:69-91 | The log grows by exactly `NewCalls` of what the allocators returned. The result is non-null iff all three allocations succeed. On success it is a fresh container whose `enc_algor` and `enc_pkey` are fresh and non-null, with `dec_pkey` and `key_data` null and `key_free` false, and the live set gains exactly those three objects. On any failure the live set is what it was before. |
| XPkey.MallocX509Pkey | Sources/CCryptoBoringSSL/crypto/x509/x_pkey.c:70-73 | `OPENSSL_malloc` of the container: a failure returns null and changes nothing; a success adds one fresh identity and logs one raw allocation. |
| XPkey.NewCalls | Sources/CCryptoBoringSSL/crypto/x509/x_pkey.c:69-91 | The calls `X509_PKEY_new` makes for each combination of allocator outcomes, including the destructor calls on the `err` path. It makes no call iff the container allocation fails; otherwise it first allocates the container, and on a later failure its last call releases the container. |
| XPkey.NewEffect | Sources/CCryptoBoringSSL/crypto/x509/x_pkey.c:69-91 | For fresh allocator results, every call `X509_PKEY_new` makes is permitted. On success the live set gains exactly the container, `enc_algor` and `enc_pkey`. On every failure path (top-level, `enc_algor` or `enc_pkey`) the live set ends as it began, so nothing leaks. |
| XPkey.NewReleasesOnFailure | Sources/CCryptoBoringSSL/crypto/x509/x_pkey.c:70-90 | A failed top-level allocation makes no call. A failed `enc_algor` releases the container once and nothing else. A failed `enc_pkey` releases the container and `enc_algor` once each and nothing else. A success releases nothing. |
| XPkey.X509PkeyFree | Sources/CCryptoBoringSSL/crypto/x509/x_pkey.c:93-111 | NULL leaves the live set and the log unchanged. For a non-null container, the log grows by exactly `FreeCalls` of the container's fields on entry, and the live set loses exactly the objects the container owns. |
| XPkey.FreeCalls | Sources/CCryptoBoringSSL/crypto/x509/x_pkey.c:98-110 | The last call releases the container with `OPENSSL_free`. Each non-null `enc_algor`, `enc_pkey` and `dec_pkey` is released by its own destructor. `key_data` is released with `OPENSSL_free` when it is non-null and `key_free` is set. |
| XPkey.FreeCallsReleaseOwned | Sources/CCryptoBoringSSL/crypto/x509/x_pkey.c:98-110 | The destructor's calls are all releases, and they touch exactly the owned set: the container, each present field, and `key_data` only when it is owned. |
| XPkey.FreeCallsDistinct | Sources/CCryptoBoringSSL/crypto/x509/x_pkey.c:98-110 | When owned `key_data` is not also one of the container's other objects, no identity is released by two calls. |
| XPkey.FreeReleasesEachOnce | Sources/CCryptoBoringSSL/crypto/x509/x_pkey.c:98-110 | Every owned object is released exactly once, and every other object is released zero times. |
| XPkey.FreeEffect | Sources/CCryptoBoringSSL/crypto/x509/x_pkey.c:98-110 | When everything the container owns is live, the destructor's calls are all permitted, and the live set afterwards is the live set before minus exactly the owned objects. |
| XPkey.BorrowedKeyDataSurvives | Sources/CCryptoBoringSSL/crypto/x509/x_pkey.c:107-109 | Non-null `key_data` with `key_free` clear is never released, and it is still live after the container is freed. |
| XPkey.FreeLog | Sources/CCryptoBoringSSL/crypto/x509/x_pkey.c:98-110 | Appending the four guarded releases in source order, then the container's release, gives the log before the call followed by `FreeCalls`. |
| XPkey.Lifecycle | Sources/CCryptoBoringSSL/crypto/x509/x_pkey.c:69-111 | The scenario is construct, attach a decoded key and key data with either ownership, then destroy. Afterwards the live set is what it was before, plus the key data exactly when it was borrowed. |
| Foreign.X509AlgorNew | Sources/CCryptoBoringSSL/crypto/x509/x_pkey.c:76-79 | `X509_ALGOR_new` either fails (returns null, changes nothing) or adds one fresh identity and logs it. |
| Foreign.Asn1OctetStringNew | Sources/CCryptoBoringSSL/crypto/x509/x_pkey.c:80-83 | `ASN1_OCTET_STRING_new` either fails (returns null, changes nothing) or adds one fresh identity and logs it. |
| Foreign.X509AlgorFree | Sources/CCryptoBoringSSL/crypto/x509/x_pkey.c:98-100 | `X509_ALGOR_free` of a live object removes it from the live set and logs one release. |
| Foreign.Asn1OctetStringFree | Sources/CCryptoBoringSSL/crypto/x509/x_pkey.c:101-103 | `ASN1_OCTET_STRING_free` of a live object removes it and logs one release. |
| Foreign.EvpPkeyFree | Sources/CCryptoBoringSSL/crypto/x509/x_pkey.c:104-106 | `EVP_PKEY_free` of a live object removes it and logs one release. |
| Foreign.OpensslFree | Sources/CCryptoBoringSSL/crypto/x509/x_pkey.c:107-110 | `OPENSSL_free` of a live object removes it and logs one release. |

## Left out

- Sources/_CryptoExtras/Util/BoringSSLHelpers.swift is not part of this model. Its functions are thin scoped wrappers around BoringSSL BIO and BIGNUM calls, with no logic of their own.
- What `X509_ALGOR_new`, `ASN1_OCTET_STRING_new`, `EVP_PKEY_new`/`EVP_PKEY_free` and `OPENSSL_malloc`/`OPENSSL_free` do inside is library code outside this file. Each is modelled only as a fallible allocation of one fresh identity, or as the release of one live identity. Whether an allocation fails is an input flag, because the model cannot predict it.
- The byte layout of the struct and `OPENSSL_memset` are not modelled. The zero fill is modelled as setting every pointer field to null and `key_free` to false.
- How `dec_pkey`, `key_data` and `key_free` are filled in happens in code outside this file. `XPkey.Lifecycle` sets them directly.
- XPkey.X509PkeyFree: double release is not guarded by the C code. Single release is a precondition: a non-null container and everything it owns must be live, and owned `key_data` must not be one of the container's other objects.
- Reference counting inside `EVP_PKEY_free` is not modelled: the call is treated as releasing the key outright.
- Error-queue entries that a failing allocator may push are not modelled.
- Concurrency is not modelled; the code is not thread-aware.
