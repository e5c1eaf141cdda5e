/** The per-address rate limiter of internal/api/server.go, with its clean-up of idle visitors. */
module RateLimiter {
  import opened TokenBucket

  const IDLE_LIMIT := 600.0

  datatype Seen = Seen(bucket: Bucket, lastSeen: real)

  /** The visitors map as a value. */
  type Visitors = map<string, Seen>

  /** The three clock readings of one call: creating a visitor, noting it was seen, refilling. */
  datatype Readings = Readings(created: real, seen: real, now: real)

  function Find(p: Params, m: Visitors, ip: string, created: real): Bucket {
    if ip in m then m[ip].bucket else Bucket(p.capacity, created)
  }

  function Allowed(p: Params, m: Visitors, ip: string, at: Readings): bool {
    Refilled(p, Find(p, m, ip, at.created), at.now) >= 1.0
  }

  function AfterRequest(p: Params, m: Visitors, ip: string, at: Readings): Visitors {
    m[ip := Seen(Asked(p, Find(p, m, ip, at.created), at.now), at.seen)]
  }

  predicate Idle(s: Seen, now: real) {
    now - s.lastSeen > IDLE_LIMIT
  }

  function AfterCleanup(m: Visitors, now: real): Visitors {
    map ip | ip in m && !Idle(m[ip], now) :: m[ip]
  }

  lemma PutTwice<K, V>(m: map<K, V>, k: K, a: V, b: V)
    ensures m[k := a][k := b] == m[k := b]
  {}

  class Visitor {
    const limiter: TokenBucket
    var lastSeen: real
    ghost const owner: string

    constructor (limiter: TokenBucket, now: real, ghost owner: string)
      ensures this.limiter == limiter && lastSeen == now && this.owner == owner
    {
      this.limiter, lastSeen, this.owner := limiter, now, owner;
    }
  }

  class RateLimiter {
    const p: Params
    var visitors: map<string, Visitor>

    /** Visitors and their buckets are not shared between addresses. */
    ghost predicate Valid()
      reads this, visitors.Values
    {
      forall a :: a in visitors ==>
        visitors[a].owner == a && visitors[a].limiter.owner == a && visitors[a].limiter.p == p
    }

    ghost function Buckets(): set<object>
      reads this
    {
      set a | a in visitors :: visitors[a].limiter
    }

    ghost function View(): Visitors
      reads this, visitors.Values, Buckets()
    {
      map a | a in visitors :: Seen(visitors[a].limiter.View(), visitors[a].lastSeen)
    }

    constructor (rate: nat, burst: nat)
      ensures Valid() && View() == map[] && p == Params(rate as real, burst as real)
    {
      p := Params(rate as real, burst as real);
      visitors := map[];
    }

    /** The visitor of an address, created on its first request. */
    method Visit(ip: string, created: real) returns (v: Visitor)
      requires Valid()
      modifies `visitors
      ensures Valid() && ip in visitors && visitors[ip] == v
      ensures visitors == old(visitors)[ip := v]
      ensures View() == old(View())[ip := View()[ip]]
      ensures View()[ip].bucket == Find(p, old(View()), ip, created)
      ensures ip in old(visitors) ==> v == old(visitors)[ip]
      ensures ip !in old(visitors) ==> fresh(v) && fresh(v.limiter) && v.limiter.View() == Bucket(p.capacity, created)
    {
      if ip !in visitors {
        var bucket := new TokenBucket(p, created, ip);
        v := new Visitor(bucket, created, ip);
        visitors := visitors[ip := v];
      }
      v := visitors[ip];
    }

    method Use(ip: string, v: Visitor, at: Readings) returns (allowed: bool)
      requires Valid() && ip in visitors && visitors[ip] == v
      modifies v, v.limiter
      ensures Valid()
      ensures View() == old(View())[ip := Seen(Asked(p, old(View())[ip].bucket, at.now), at.seen)]
      ensures allowed <==> Refilled(p, old(View())[ip].bucket, at.now) >= 1.0
    {
      v.lastSeen := at.seen;
      allowed := v.limiter.Allow(at.now);
    }

    method Allow(ip: string, at: Readings) returns (allowed: bool)
      requires Valid()
      modifies `visitors, if ip in visitors then {visitors[ip] as object, visitors[ip].limiter} else {}
      ensures Valid()
      ensures View() == AfterRequest(p, old(View()), ip, at)
      ensures allowed <==> Allowed(p, old(View()), ip, at)
    {
      ghost var m := View();
      var v := Visit(ip, at.created);
      ghost var found := View();
      allowed := Use(ip, v, at);
      PutTwice(m, ip, found[ip], Seen(Asked(p, found[ip].bucket, at.now), at.seen));
    }

    /** One tick of the clean-up goroutine: idle visitors are deleted, in any order. */
    method CleanupVisitors(now: real)
      requires Valid()
      modifies `visitors
      ensures Valid()
      ensures View() == AfterCleanup(old(View()), now)
    {
      var todo := visitors.Keys;
      while todo != {}
        invariant todo <= visitors.Keys <= old(visitors).Keys
        invariant forall a :: a in visitors ==> visitors[a] == old(visitors)[a]
        invariant forall a :: a in old(visitors) && a !in todo ==>
          (a in visitors <==> !(now - old(visitors)[a].lastSeen > IDLE_LIMIT))
        decreases todo
      {
        var ip :| ip in todo;
        todo := todo - {ip};
        if now - visitors[ip].lastSeen > IDLE_LIMIT {
          visitors := visitors - {ip};
        }
      }
    }
  }
}
