/**
 * The local-storage response cache (`CacheService`). Storage is the whole
 * browser `localStorage`, a string-keyed map shared with other parts of the
 * application (`theme`, `azure_config`); cache entries live under keys that
 * start with `azure_api_cache_`. The clock is an explicit `now` parameter and
 * a failing storage write is the flag `quotaExceeded`.
 */
module ResponseCache {
  import opened Wrappers
  import opened JsText
  import opened JsValue
  import opened Http
  import Base64
  import Utf8

  const Prefix: string := "azure_api_cache_"

  /** 30 minutes, in milliseconds. */
  const DefaultMaxAge: int := 1800000

  /** What `put` stores: the response's parts and the time after which it is stale. */
  datatype CacheEntry = CacheEntry(body: Value, status: int, statusText: string, url: Option<string>, expiry: int)

  /**
   * The value under a storage key: a cache entry, or raw text that does not
   * parse as JSON (and, under keys of other services, whatever they store).
   */
  datatype Slot = Entry(entry: CacheEntry) | Raw(text: string)

  type Storage = map<string, Slot>

  predicate IsCacheKey(key: string)
  {
    StartsWith(key, Prefix)
  }

  // ---------------------------------------------------------------------
  // Keys
  // ---------------------------------------------------------------------

  /**
   * `createKey` as written: the body is encoded with `btoa`, and when `btoa`
   * throws (a character above U+00FF) the suffix falls back to the body's length.
   */
  function CreateKeyAsWritten(req: HttpRequest): (key: string)
    ensures IsCacheKey(key)
    ensures StartsWith(key, Prefix + UrlWithParams(req))
  {
    var url := UrlWithParams(req);
    if req.body == "" then Prefix + url
    else match Base64.Btoa(req.body)
      case Some(encoded) => Prefix + url + "_" + encoded
      case None => Prefix + url + "_" + NatToString(Utf16Length(req.body))
  }

  /**
   * The key the cache uses: the body's UTF-8 bytes in Base64, which never
   * fails and never maps two bodies to one key.
   */
  function CreateKey(req: HttpRequest): (key: string)
    ensures IsCacheKey(key)
    ensures StartsWith(key, Prefix + UrlWithParams(req))
    ensures req.body == "" <==> key == Prefix + UrlWithParams(req)
  {
    var url := UrlWithParams(req);
    if req.body == "" then Prefix + url
    else Prefix + url + "_" + Base64.Encode(Utf8.Encode(req.body))
  }

  /** Requests for the same URL with different bodies get different keys. */
  lemma CreateKeyInjective(a: HttpRequest, b: HttpRequest)
    requires UrlWithParams(a) == UrlWithParams(b)
    requires CreateKey(a) == CreateKey(b)
    ensures a.body == b.body
  {
    var head := Prefix + UrlWithParams(a);
    if a.body != "" && b.body != "" {
      var ea := Base64.Encode(Utf8.Encode(a.body));
      var eb := Base64.Encode(Utf8.Encode(b.body));
      assert CreateKey(a) == head + "_" + ea;
      assert CreateKey(b) == head + "_" + eb;
      assert ea == CreateKey(a)[|head| + 1..];
      assert eb == CreateKey(b)[|head| + 1..];
      Base64.EncodeInjective(Utf8.Encode(a.body), Utf8.Encode(b.body));
      Utf8.EncodeInjective(a.body, b.body);
    }
  }

  /**
   * On ASCII bodies the two keys coincide. A WIQL query embeds the configured
   * e-mail address, so a body is ASCII only when that address is.
   */
  lemma CreateKeyAgreesOnAscii(req: HttpRequest)
    requires Utf8.IsAscii(req.body)
    ensures CreateKey(req) == CreateKeyAsWritten(req)
  {
    Utf8.AsciiEncodesAsLatin1(req.body);
  }

  /** Two POSTs to the same URL whose bodies differ but have the same length and a character above U+00FF. */
  lemma CreateKeyAsWrittenCollides()
    ensures var a := HttpRequest("POST", "https://dev.azure.com/o/p/_apis/wit/wiql", "", "\"" + [0x101 as char] + "\"", map[]);
            var b := a.(body := "\"" + [0x113 as char] + "\"");
            a.body != b.body && CreateKeyAsWritten(a) == CreateKeyAsWritten(b)
  {
    var a := HttpRequest("POST", "https://dev.azure.com/o/p/_apis/wit/wiql", "", "\"" + [0x101 as char] + "\"", map[]);
    var b := a.(body := "\"" + [0x113 as char] + "\"");
    assert a.body[1] != b.body[1];
    assert !Base64.IsLatin1(a.body) by { assert a.body[1] as int >= 256; }
    assert !Base64.IsLatin1(b.body) by { assert b.body[1] as int >= 256; }
    Utf16LengthBmp(a.body);
    Utf16LengthBmp(b.body);
  }

  // ---------------------------------------------------------------------
  // Storage transitions
  // ---------------------------------------------------------------------

  /** The entry `put` writes for a response at time `now`. */
  function EntryOf(resp: HttpResponse, now: int, maxAge: int): (e: CacheEntry)
    ensures e.expiry == now + maxAge
  {
    CacheEntry(resp.body, resp.status, resp.statusText, resp.url, now + maxAge)
  }

  /** The response `get` rebuilds from an entry. */
  function ResponseOf(e: CacheEntry): (resp: HttpResponse)
    ensures EntryOf(resp, e.expiry, 0) == e
  {
    HttpResponse(e.body, e.status, e.statusText, e.url)
  }

  /** `setItem` succeeds, or it throws and `put` clears the cache instead of storing. */
  function AfterPut(m: Storage, key: string, e: CacheEntry, quotaExceeded: bool): (r: Storage)
    ensures !quotaExceeded ==> key in r && r[key] == Entry(e)
    ensures quotaExceeded ==> r == Without(m, AllEntries)
    ensures forall k | k in m && k != key && !IsCacheKey(k) :: k in r && r[k] == m[k]
  {
    if quotaExceeded then Without(m, AllEntries) else m[key := Entry(e)]
  }

  /** A slot the sweep removes: unparseable text, or an entry whose expiry has passed. */
  predicate Stale(slot: Slot, now: int)
  {
    match slot
      case Raw(_) => true
      case Entry(e) => e.expiry < now
  }

  /** `get`: what it returns, and the storage afterwards. */
  function Lookup(m: Storage, key: string, now: int): (r: (Option<HttpResponse>, Storage))
    ensures r.1 == m || (key in m && r.1 == m - {key})
    ensures r.0.Some? <==> key in m && m[key].Entry? && now <= m[key].entry.expiry
    ensures r.0.Some? ==> r.1 == m && r.0.value == ResponseOf(m[key].entry)
  {
    if key !in m then (None, m)
    else match m[key]
      case Raw(text) => if text == "" then (None, m) else (None, m - {key})
      case Entry(e) => if e.expiry < now then (None, m - {key}) else (Some(ResponseOf(e)), m)
  }

  /** Which prefixed keys a removal pass picks: `delete(p)`, `clear()` or the sweep at `now`. */
  datatype Selector = Matching(pattern: string) | AllEntries | StaleAt(now: int)

  predicate Selected(sel: Selector, key: string, slot: Slot)
  {
    IsCacheKey(key) &&
    match sel
      case Matching(p) => Contains(key, p)
      case AllEntries => true
      case StaleAt(now) => Stale(slot, now)
  }

  /** The storage after removing the selected keys. */
  function Without(m: Storage, sel: Selector): (r: Storage)
    ensures forall k :: k in r <==> k in m && !Selected(sel, k, m[k])
    ensures forall k | k in r :: r[k] == m[k]
  {
    map k | k in m && !Selected(sel, k, m[k]) :: m[k]
  }

  // ---------------------------------------------------------------------
  // Properties of the transitions
  // ---------------------------------------------------------------------

  /** A stored response comes back unchanged at any time up to and including its expiry, and reading it changes nothing. */
  lemma PutThenGet(m: Storage, req: HttpRequest, resp: HttpResponse, t: int, maxAge: int, t2: int)
    requires t2 <= t + maxAge
    ensures var m2 := AfterPut(m, CreateKey(req), EntryOf(resp, t, maxAge), false);
            Lookup(m2, CreateKey(req), t2) == (Some(resp), m2)
  {
  }

  /** Past its expiry the entry is gone: `get` misses and removes the key. */
  lemma PutThenGetExpired(m: Storage, req: HttpRequest, resp: HttpResponse, t: int, maxAge: int, t2: int)
    requires t + maxAge < t2
    ensures var m2 := AfterPut(m, CreateKey(req), EntryOf(resp, t, maxAge), false);
            Lookup(m2, CreateKey(req), t2) == (None, m2 - {CreateKey(req)})
  {
  }

  /** With the default time-to-live, a response put at `t` is served until `t + 1800000` and not after. */
  lemma DefaultTimeToLive(m: Storage, req: HttpRequest, resp: HttpResponse, t: int, t2: int)
    ensures var m2 := AfterPut(m, CreateKey(req), EntryOf(resp, t, DefaultMaxAge), false);
            Lookup(m2, CreateKey(req), t2).0.Some? <==> t2 <= t + 1800000
  {
  }

  /** A missing key and an empty slot are misses that leave storage alone; unparseable text is a miss that removes the key. */
  lemma LookupMisses(m: Storage, key: string, now: int)
    ensures key !in m ==> Lookup(m, key, now) == (None, m)
    ensures key in m && m[key] == Raw("") ==> Lookup(m, key, now) == (None, m)
    ensures key in m && m[key].Raw? && m[key].text != "" ==> Lookup(m, key, now) == (None, m - {key})
  {
  }

  /** A failed write leaves no cache entry at all, the new one included, and keeps every other key. */
  lemma PutWithFullStorage(m: Storage, key: string, e: CacheEntry)
    requires IsCacheKey(key)
    ensures var r := AfterPut(m, key, e, true);
            key !in r && (forall k | k in r :: !IsCacheKey(k)) &&
            (forall k | k in m && !IsCacheKey(k) :: k in r && r[k] == m[k])
  {
  }

  /** Every cache key contains the prefix, so deleting by the prefix is `clear()`. */
  lemma DeletePrefixIsClear(m: Storage)
    ensures Without(m, Matching(Prefix)) == Without(m, AllEntries)
  {
    forall k | k in m && IsCacheKey(k) ensures Contains(k, Prefix) {
      assert OccursAt(k, Prefix, 0);
    }
  }

  /** A second sweep at the same time removes nothing more. */
  lemma SweepIdempotent(m: Storage, now: int)
    ensures Without(Without(m, StaleAt(now)), StaleAt(now)) == Without(m, StaleAt(now))
  {
  }

  /** Sweeping later removes at least what sweeping earlier removes. */
  lemma SweepMonotone(m: Storage, t1: int, t2: int)
    requires t1 <= t2
    ensures Without(m, StaleAt(t2)).Keys <= Without(m, StaleAt(t1)).Keys
  {
  }

  /** After the sweep, a `get` at the same time never has to remove anything. */
  lemma SweptLookupIsPure(m: Storage, req: HttpRequest, now: int)
    ensures var s := Without(m, StaleAt(now));
            Lookup(s, CreateKey(req), now).1 == s
  {
    var s := Without(m, StaleAt(now));
    var key := CreateKey(req);
    if key in s {
      assert !Stale(m[key], now);
    }
  }

  // ---------------------------------------------------------------------
  // The service
  // ---------------------------------------------------------------------

  class CacheService {
    /** The browser's `localStorage`, all keys. */
    var storage: Storage

    /** Construction sweeps out every expired or unparseable entry. */
    constructor(initial: Storage, now: int)
      ensures storage == Without(initial, StaleAt(now))
    {
      storage := initial;
      new;
      CleanExpired(now);
    }

    method Put(req: HttpRequest, resp: HttpResponse, now: int, quotaExceeded: bool, maxAge: int := DefaultMaxAge)
      modifies this
      ensures storage == AfterPut(old(storage), CreateKey(req), EntryOf(resp, now, maxAge), quotaExceeded)
    {
      var key := CreateKey(req);
      var entry := EntryOf(resp, now, maxAge);
      if !quotaExceeded {
        storage := storage[key := Entry(entry)];
      } else {
        Clear();
      }
    }

    method Get(req: HttpRequest, now: int) returns (r: Option<HttpResponse>)
      modifies this
      ensures (r, storage) == Lookup(old(storage), CreateKey(req), now)
    {
      var key := CreateKey(req);
      if key !in storage || storage[key] == Raw("") {
        return None;
      }
      match storage[key]
      case Raw(_) =>
        storage := storage - {key};
        r := None;
      case Entry(e) =>
        if e.expiry < now {
          storage := storage - {key};
          r := None;
        } else {
          r := Some(ResponseOf(e));
        }
    }

    method Delete(urlPattern: string)
      modifies this
      ensures storage == Without(old(storage), Matching(urlPattern))
    {
      var keys := CollectKeys(Matching(urlPattern));
      RemoveAll(keys);
    }

    method Clear()
      modifies this
      ensures storage == Without(old(storage), AllEntries)
    {
      var keys := CollectKeys(AllEntries);
      RemoveAll(keys);
    }

    method CleanExpired(now: int)
      modifies this
      ensures storage == Without(old(storage), StaleAt(now))
    {
      var keys := CollectKeys(StaleAt(now));
      RemoveAll(keys);
    }

    /** The pass over every storage key that gathers `keysToRemove`; each key is visited once. */
    method CollectKeys(sel: Selector) returns (keys: seq<string>)
      ensures forall k :: k in keys <==> k in storage && Selected(sel, k, storage[k])
    {
      keys := [];
      var pending := storage.Keys;
      while pending != {}
        invariant pending <= storage.Keys
        invariant forall k :: k in keys <==> k in storage && k !in pending && Selected(sel, k, storage[k])
        decreases pending
      {
        var key :| key in pending;
        if Selected(sel, key, storage[key]) {
          keys := keys + [key];
        }
        pending := pending - {key};
      }
    }

    /** `keysToRemove.forEach(key => localStorage.removeItem(key))`. */
    method RemoveAll(keys: seq<string>)
      modifies this
      ensures storage == map k | k in old(storage) && k !in keys :: old(storage)[k]
    {
      var i := 0;
      while i < |keys|
        invariant 0 <= i <= |keys|
        invariant storage == map k | k in old(storage) && k !in keys[..i] :: old(storage)[k]
      {
        storage := storage - {keys[i]};
        i := i + 1;
      }
    }
  }
}
