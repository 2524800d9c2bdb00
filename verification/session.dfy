/** Several gateway calls against one client: what the cache remembers between
    calls, and how a later conditional request depends on an earlier success. */
module Session {
  import opened Wrappers
  import opened Http
  import opened Gateway

  /** One `_request` call with the replies its requests receive. */
  datatype Call = Call(endpoint: string, useCache: bool, replies: seq<Reply>)

  /** The call's script holds a fresh 200 carrying exactly this payload and validator. */
  predicate Supplies(c: Call, e: Entry) {
    exists j :: 0 <= j < |c.replies| && c.replies[j] == Reply(200, Some(e.data), Some(e.lastModified))
  }

  /** Whatever entry a call writes is a (body, Last-Modified) pair one of its own
      replies delivered for that endpoint. */
  lemma FetchStoresScriptReply(cfg: Config, cache: Cache, c: Call)
    ensures var after := Fetch(cfg, cache, c.endpoint, c.useCache, c.replies).cache;
      after != cache ==> c.endpoint in after && Supplies(c, after[c.endpoint])
  {
  }

  /** The cache after a sequence of calls, each one's error (if any) caught by the
      caller. Entries are never evicted; every entry that differs from the starting
      cache was written by a call to that endpoint from one of that call's replies. */
  function Run(cfg: Config, cache: Cache, calls: seq<Call>): (after: Cache)
    ensures cache.Keys <= after.Keys
    ensures forall k :: k in after && !(k in cache && after[k] == cache[k]) ==>
      exists i :: 0 <= i < |calls| && calls[i].endpoint == k && Supplies(calls[i], after[k])
    decreases |calls|
  {
    if |calls| == 0 then cache
    else
      var next := Fetch(cfg, cache, calls[0].endpoint, calls[0].useCache, calls[0].replies).cache;
      FetchStoresScriptReply(cfg, cache, calls[0]);
      var after := Run(cfg, next, calls[1..]);
      assert forall k :: k in after && !(k in next && after[k] == next[k]) ==>
        exists i :: 1 <= i < |calls| && calls[i].endpoint == k && Supplies(calls[i], after[k]) by {
        forall k | k in after && !(k in next && after[k] == next[k])
          ensures exists i :: 1 <= i < |calls| && calls[i].endpoint == k && Supplies(calls[i], after[k])
        {
          var i :| 0 <= i < |calls[1..]| && calls[1..][i].endpoint == k && Supplies(calls[1..][i], after[k]);
          assert calls[i + 1] == calls[1..][i];
        }
      }
      after
  }

  /** Running one more call applies that call's fetch to the cache the earlier
      calls left. */
  lemma {:induction false} RunSnoc(cfg: Config, cache: Cache, calls: seq<Call>, c: Call)
    ensures Run(cfg, cache, calls + [c])
         == Fetch(cfg, Run(cfg, cache, calls), c.endpoint, c.useCache, c.replies).cache
    decreases |calls|
  {
    if |calls| == 0 {
      assert calls + [c] == [c];
      assert [c][1..] == [];
    } else {
      var next := Fetch(cfg, cache, calls[0].endpoint, calls[0].useCache, calls[0].replies).cache;
      assert (calls + [c])[0] == calls[0];
      assert (calls + [c])[1..] == calls[1..] + [c];
      RunSnoc(cfg, next, calls[1..], c);
    }
  }

  /** A call whose plain GET gets a fresh 200 leaves that response's payload and
      `Last-Modified` in the cache, whatever calls came before it. */
  lemma LastFreshResponseStored(cfg: Config, cache: Cache, calls: seq<Call>, c: Call,
                                body: Json, lastModified: string)
    requires var before := Run(cfg, cache, calls);
      && !(Revalidates(before, c.endpoint, c.useCache) && !ReplyAt(c.replies, 0).Reply?)
      && !(Revalidates(before, c.endpoint, c.useCache) && HasStatus(ReplyAt(c.replies, 0), 304))
      && ReplyAt(c.replies, PlainIndex(before, c.endpoint, c.useCache)) == Reply(200, Some(body), Some(lastModified))
    ensures var after := Run(cfg, cache, calls + [c]);
      c.endpoint in after && after[c.endpoint] == Entry(body, lastModified)
  {
    RunSnoc(cfg, cache, calls, c);
    FreshResponseStored(cfg, Run(cfg, cache, calls), c.endpoint, c.useCache, c.replies, body, lastModified);
  }

  /** After a successful call, a conditional call answered 304 returns the same
      payload, sends the validator the cache now holds, and changes nothing. */
  lemma NotModifiedRepeatsLastSuccess(cfg: Config, cache: Cache, endpoint: string, useCache: bool,
                                                         first: seq<Reply>, second: seq<Reply>)
    requires Fetch(cfg, cache, endpoint, useCache, first).result.Ok?
    requires HasStatus(ReplyAt(second, 0), 304)
    ensures var o1 := Fetch(cfg, cache, endpoint, useCache, first);
      var o2 := Fetch(cfg, o1.cache, endpoint, true, second);
      && o2.result == o1.result
      && o2.cache == o1.cache
      && o2.sent == [Get(UrlFor(endpoint), ConditionalHeaders(cfg, o1.cache[endpoint].lastModified))]
  {
  }

  /** A fresh 200 fetched with the cache disabled still fills the cache: the next
      call with the cache enabled revalidates with that response's `Last-Modified`. */
  lemma UncachedFetchThenRevalidate(cfg: Config, cache: Cache, endpoint: string,
                                                       body: Json, lastModified: string, second: seq<Reply>)
    ensures var o1 := Fetch(cfg, cache, endpoint, false, [Reply(200, Some(body), Some(lastModified))]);
      var o2 := Fetch(cfg, o1.cache, endpoint, true, second);
      && o1.sent == [Get(UrlFor(endpoint), BaseHeaders(cfg))]
      && o2.sent[0].headers[IF_MODIFIED_SINCE] == lastModified
  {
  }
}
