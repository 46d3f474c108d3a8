/**
 * Proxy: a caching proxy forwards the first request for each resource to the
 * real server and answers later requests for it from its cache.
 */
module Proxy {

  /** The value cached for a resource; the resource can be read back from it. */
  function Response(resource: string): (response: string)
    ensures |response| == |resource| + 15
    ensures response[14..|response| - 1] == resource
  {
    "Response for '" + resource + "'"
  }

  /** The real server handles every request it receives; `handled` records them in order. */
  class RealServer {
    var handled: seq<string>

    constructor ()
      ensures handled == []
    {
      handled := [];
    }

    method Request(resource: string)
      modifies this
      ensures handled == old(handled) + [resource]
    {
      handled := handled + [resource];
    }
  }

  /** ProxyServer. */
  class ProxyServer {
    const realServer: RealServer
    var cache: map<string, string>
    /** The resources requested through the proxy and those it forwarded, in order. */
    ghost var requested: seq<string>
    ghost var forwarded: seq<string>

    /**
     * The cache holds a response for exactly the resources requested so far,
     * and each of them was forwarded exactly once.
     */
    ghost predicate Valid()
      reads this
    {
      && cache.Keys == (set r | r in requested)
      && (forall r :: r in cache ==> cache[r] == Response(r))
      && (set r | r in forwarded) == cache.Keys
      && |forwarded| == |cache.Keys|
    }

    constructor (realServer: RealServer)
      ensures Valid() && this.realServer == realServer
      ensures cache == map[] && requested == [] && forwarded == []
    {
      this.realServer := realServer;
      cache := map[];
      requested := [];
      forwarded := [];
    }

    /** Serves a cached resource without forwarding; otherwise forwards once and caches the response. */
    method Request(resource: string)
      requires Valid()
      modifies this, realServer
      ensures Valid()
      ensures requested == old(requested) + [resource]
      ensures resource in old(cache) ==>
        cache == old(cache) && forwarded == old(forwarded) &&
        realServer.handled == old(realServer.handled)
      ensures resource !in old(cache) ==>
        cache == old(cache)[resource := Response(resource)] &&
        forwarded == old(forwarded) + [resource] &&
        realServer.handled == old(realServer.handled) + [resource]
    {
      if resource in cache {
        // served from the cache
      } else {
        realServer.Request(resource);
        cache := cache[resource := Response(resource)];
        forwarded := forwarded + [resource];
      }
      requested := requested + [resource];
    }
  }

  /** The example script: two requests to the real server, then /data1 and /data3 through the proxy. */
  method ProxyScenario() returns (handled: seq<string>)
    ensures handled == ["/data1", "/data2", "/data1", "/data3"]
  {
    var realServer := new RealServer();
    var proxyServer := new ProxyServer(realServer);
    realServer.Request("/data1");
    realServer.Request("/data2");
    proxyServer.Request("/data1");
    proxyServer.Request("/data3");
    handled := realServer.handled;
  }
}
