/**
 * The HTTP interceptor in front of the cache (`CacheInterceptor.intercept`).
 * The next handler's output is the parameter `upstream`: the events it would
 * emit if called. The result says which events the caller sees and whether the
 * request went to the network at all.
 */
module CacheInterception {
  import opened Wrappers
  import opened JsText
  import opened Http
  import opened ResponseCache

  /** GETs, and POSTs to a WIQL endpoint, addressed to Azure DevOps. */
  predicate IsCacheable(req: HttpRequest)
  {
    (req.verb == "GET" || (req.verb == "POST" && Contains(req.url, "/wiql")))
    && Contains(req.url, "dev.azure.com")
  }

  /** `req.headers.get('x-force-refresh') === 'true'`: this header skips the cache read. */
  predicate ForceRefresh(req: HttpRequest)
  {
    "x-force-refresh" in req.headers && req.headers["x-force-refresh"] == "true"
  }

  /** The storage after the `tap` has stored every response event among `events`, in order. */
  function WriteBack(m: Storage, req: HttpRequest, events: seq<HttpEvent>, now: int, quotaExceeded: bool): Storage
  {
    if events == [] then m
    else
      var before := WriteBack(m, req, events[..|events| - 1], now, quotaExceeded);
      match events[|events| - 1]
        case ResponseEvent(resp) => AfterPut(before, CreateKey(req), EntryOf(resp, now, DefaultMaxAge), quotaExceeded)
        case OtherEvent => before
  }

  /** Writing back one more event. */
  lemma WriteBackSnoc(m: Storage, req: HttpRequest, events: seq<HttpEvent>, e: HttpEvent, now: int, quotaExceeded: bool)
    ensures WriteBack(m, req, events + [e], now, quotaExceeded)
         == if e.ResponseEvent?
            then AfterPut(WriteBack(m, req, events, now, quotaExceeded), CreateKey(req), EntryOf(e.response, now, DefaultMaxAge), quotaExceeded)
            else WriteBack(m, req, events, now, quotaExceeded)
  {
    assert (events + [e])[..|events|] == events;
  }

  /** The outcome of `intercept`: the events the caller sees, whether the request was forwarded, and the storage afterwards. */
  datatype Outcome = Outcome(events: seq<HttpEvent>, forwarded: bool, storage: Storage)

  /**
   * `intercept` with the storage `m` at time `now`; responses arriving from the
   * network are written back at `writeTime`.
   */
  function Intercepted(m: Storage, req: HttpRequest, now: int, upstream: seq<HttpEvent>, writeTime: int, quotaExceeded: bool): (r: Outcome)
    ensures r.forwarded ==> r.events == upstream
    ensures !r.forwarded ==> |r.events| == 1 && r.events[0].ResponseEvent? && r.storage == m
  {
    if !IsCacheable(req) then Outcome(upstream, true, m)
    else if ForceRefresh(req) then Outcome(upstream, true, WriteBack(m, req, upstream, writeTime, quotaExceeded))
    else
      var (hit, afterGet) := Lookup(m, CreateKey(req), now);
      if hit.Some? then Outcome([ResponseEvent(hit.value)], false, afterGet)
      else Outcome(upstream, true, WriteBack(afterGet, req, upstream, writeTime, quotaExceeded))
  }

  /** PATCH requests and POSTs other than WIQL queries are never cached; neither is anything off Azure DevOps. */
  lemma OnlyReadsAreCacheable(req: HttpRequest)
    ensures req.verb != "GET" && req.verb != "POST" ==> !IsCacheable(req)
    ensures req.verb == "POST" && !Contains(req.url, "/wiql") ==> !IsCacheable(req)
    ensures !Contains(req.url, "dev.azure.com") ==> !IsCacheable(req)
  {
  }

  /** A request that is not cacheable passes through: same events, storage neither read nor written. */
  lemma NotCacheablePassesThrough(m: Storage, req: HttpRequest, now: int, upstream: seq<HttpEvent>, writeTime: int, quotaExceeded: bool)
    requires !IsCacheable(req)
    ensures Intercepted(m, req, now, upstream, writeTime, quotaExceeded) == Outcome(upstream, true, m)
  {
  }

  /** A live entry, without the force flag, is the whole answer: the network is not called and storage is unchanged. */
  lemma HitIsServedFromCache(m: Storage, req: HttpRequest, now: int, upstream: seq<HttpEvent>, writeTime: int, quotaExceeded: bool)
    requires IsCacheable(req) && !ForceRefresh(req)
    requires var key := CreateKey(req); key in m && m[key].Entry? && now <= m[key].entry.expiry
    ensures var r := Intercepted(m, req, now, upstream, writeTime, quotaExceeded);
            !r.forwarded && r.storage == m && r.events == [ResponseEvent(ResponseOf(m[CreateKey(req)].entry))]
  {
  }

  /** Events that are not responses are never stored. */
  lemma {:induction false} NoResponseNoWrite(m: Storage, req: HttpRequest, events: seq<HttpEvent>, now: int, quotaExceeded: bool)
    requires forall i :: 0 <= i < |events| ==> events[i] == OtherEvent
    ensures WriteBack(m, req, events, now, quotaExceeded) == m
  {
    if events != [] {
      NoResponseNoWrite(m, req, events[..|events| - 1], now, quotaExceeded);
    }
  }

  /** The last response written back is the one under the key, whatever was stored before. */
  lemma {:induction false} LastResponseWins(m: Storage, req: HttpRequest, events: seq<HttpEvent>, resp: HttpResponse, now: int)
    requires events != [] && events[|events| - 1] == ResponseEvent(resp)
    ensures var s := WriteBack(m, req, events, now, false);
            CreateKey(req) in s && s[CreateKey(req)] == Entry(EntryOf(resp, now, DefaultMaxAge))
  {
  }

  /** A response followed only by other events stays the stored one. */
  lemma {:induction false} TrailingEventsKeepEntry(m: Storage, req: HttpRequest, events: seq<HttpEvent>, k: nat, now: int)
    requires k < |events| && events[k].ResponseEvent?
    requires forall i :: k < i < |events| ==> events[i] == OtherEvent
    ensures var s := WriteBack(m, req, events, now, false);
            CreateKey(req) in s && s[CreateKey(req)] == Entry(EntryOf(events[k].response, now, DefaultMaxAge))
  {
    if k < |events| - 1 {
      TrailingEventsKeepEntry(m, req, events[..|events| - 1], k, now);
    } else {
      LastResponseWins(m, req, events, events[k].response, now);
    }
  }

  /**
   * With the force flag the cache is not consulted, the request is forwarded,
   * and the network's response replaces whatever entry was there.
   */
  lemma ForceRefreshOverwrites(m: Storage, req: HttpRequest, now: int, upstream: seq<HttpEvent>, k: nat, writeTime: int)
    requires IsCacheable(req) && ForceRefresh(req)
    requires k < |upstream| && upstream[k].ResponseEvent?
    requires forall i :: k < i < |upstream| ==> upstream[i] == OtherEvent
    ensures var r := Intercepted(m, req, now, upstream, writeTime, false);
            r.forwarded && r.events == upstream &&
            CreateKey(req) in r.storage &&
            r.storage[CreateKey(req)] == Entry(EntryOf(upstream[k].response, writeTime, DefaultMaxAge))
  {
    TrailingEventsKeepEntry(m, req, upstream, k, writeTime);
  }

  /** On a miss the request is forwarded and its response becomes the entry, served by a later `get` before it expires. */
  lemma MissThenHit(m: Storage, req: HttpRequest, now: int, resp: HttpResponse, writeTime: int, later: int)
    requires IsCacheable(req) && !ForceRefresh(req)
    requires Lookup(m, CreateKey(req), now).0.None?
    requires later <= writeTime + DefaultMaxAge
    ensures var r := Intercepted(m, req, now, [OtherEvent, ResponseEvent(resp)], writeTime, false);
            r.forwarded && Lookup(r.storage, CreateKey(req), later) == (Some(resp), r.storage)
  {
    var afterGet := Lookup(m, CreateKey(req), now).1;
    WriteBackSnoc(afterGet, req, [OtherEvent], ResponseEvent(resp), writeTime, false);
    WriteBackSnoc(afterGet, req, [], OtherEvent, writeTime, false);
  }

  class CacheInterceptor {
    const cache: CacheService

    constructor(cache: CacheService)
      ensures this.cache == cache
    {
      this.cache := cache;
    }

    method Intercept(req: HttpRequest, now: int, upstream: seq<HttpEvent>, writeTime: int, quotaExceeded: bool)
      returns (events: seq<HttpEvent>, forwarded: bool)
      modifies cache
      ensures Outcome(events, forwarded, cache.storage)
              == Intercepted(old(cache.storage), req, now, upstream, writeTime, quotaExceeded)
    {
      if !IsCacheable(req) {
        return upstream, true;
      }
      if !ForceRefresh(req) {
        var cached := cache.Get(req, now);
        if cached.Some? {
          return [ResponseEvent(cached.value)], false;
        }
      }
      StoreResponses(req, upstream, writeTime, quotaExceeded);
      return upstream, true;
    }

    /** The `tap`: every response event is put into the cache as it passes. */
    method StoreResponses(req: HttpRequest, upstream: seq<HttpEvent>, writeTime: int, quotaExceeded: bool)
      modifies cache
      ensures cache.storage == WriteBack(old(cache.storage), req, upstream, writeTime, quotaExceeded)
    {
      var i := 0;
      while i < |upstream|
        invariant 0 <= i <= |upstream|
        invariant cache.storage == WriteBack(old(cache.storage), req, upstream[..i], writeTime, quotaExceeded)
      {
        WriteBackSnoc(old(cache.storage), req, upstream[..i], upstream[i], writeTime, quotaExceeded);
        assert upstream[..i + 1] == upstream[..i] + [upstream[i]];
        if upstream[i].ResponseEvent? {
          cache.Put(req, upstream[i].response, writeTime, quotaExceeded);
        }
        i := i + 1;
      }
      assert upstream[..|upstream|] == upstream;
    }
  }
}
