/**
 * Token buckets and the pool of per-email login limiters (internal/user/service/service.go).
 * `rate.Limiter` is exact: a token costs `interval` units of credit, refilled one a time unit.
 */
module RateLimiter {
  import opened Clock

  /** `rate.Every(interval)` together with a burst size. */
  datatype Rate = Rate(interval: nat, burst: nat) {
    function Cap(): nat {
      burst * interval
    }
  }

  datatype Bucket = Bucket(rate: Rate, credit: int, last: Time)

  /** `rate.NewLimiter`: a full bucket that has never been used. */
  function NewBucket(rate: Rate): Bucket {
    Bucket(rate, rate.Cap(), 0)
  }

  /** The credit a bucket holds when it is consulted at time `t`. */
  function Level(b: Bucket, t: Time): int {
    var elapsed := if Before(t, b.last) then 0 else t - b.last;
    if b.credit + elapsed < b.rate.Cap() then b.credit + elapsed else b.rate.Cap()
  }

  /** One `Allow()` at time `t`: a refusal spends nothing. */
  function Allow(b: Bucket, t: Time): (Bucket, bool) {
    if 1 <= b.rate.burst && b.rate.interval <= Level(b, t) then
      (b.(credit := Level(b, t) - b.rate.interval, last := t), true)
    else
      (b.(last := if Before(t, b.last) then t else b.last), false)
  }

  datatype Entry = Entry(bucket: Bucket, exp: Time)

  type Pool = map<string, Entry>

  /** `newLimiterPool(ttl, maxKeys)`. */
  datatype Config = Config(ttl: int, maxKeys: int)

  /** The entries that survive the sweep: everything not past its expiry. */
  function Sweep(pool: Pool, now: Time): Pool {
    map k | k in pool && !(pool[k].exp < now) :: pool[k]
  }

  /** The pool `Get` leaves behind. */
  function Get(cfg: Config, pool: Pool, key: string, rate: Rate, now: Time): Pool {
    if key in pool then
      pool[key := pool[key].(exp := now + cfg.ttl)]
    else
      var kept := if |pool| >= cfg.maxKeys then Sweep(pool, now) else pool;
      kept[key := Entry(NewBucket(rate), now + cfg.ttl)]
  }

  /** `Get` followed by `Allow` on the limiter it returned, as Login does. */
  function Pass(cfg: Config, pool: Pool, key: string, rate: Rate, getAt: Time, allowAt: Time): (Pool, bool) {
    var got := Get(cfg, pool, key, rate, getAt);
    var (b, ok) := Allow(got[key].bucket, allowAt);
    (got[key := got[key].(bucket := b)], ok)
  }

  /**
   * The pool is not capped at `maxKeys`: after an inserting Get either it holds
   * at most `maxKeys` entries or nothing in it is expired.
   */
  lemma GetBoundsOrCleans(cfg: Config, pool: Pool, key: string, rate: Rate, now: Time)
    requires key !in pool
    requires 0 <= cfg.ttl
    ensures var after := Get(cfg, pool, key, rate, now);
            || |after| <= cfg.maxKeys
            || forall k :: k in after ==> now <= after[k].exp
  {
    var after := Get(cfg, pool, key, rate, now);
    if |pool| < cfg.maxKeys {
      assert after.Keys == pool.Keys + {key};
    }
  }

  /** An inserting Get leaves more than `maxKeys` entries exactly when that many are unexpired. */
  lemma GetExceedsExactly(cfg: Config, pool: Pool, key: string, rate: Rate, now: Time)
    requires key !in pool
    ensures |Get(cfg, pool, key, rate, now)| > cfg.maxKeys <==> |Sweep(pool, now)| >= cfg.maxKeys
  {
    var kept := if |pool| >= cfg.maxKeys then Sweep(pool, now) else pool;
    assert Get(cfg, pool, key, rate, now).Keys == kept.Keys + {key};
    SubsetSize(Sweep(pool, now).Keys, pool.Keys);
  }

  lemma {:induction false} SubsetSize(a: set<string>, b: set<string>)
    requires a <= b
    ensures |a| <= |b|
  {
    if a != {} {
      var x :| x in a;
      SubsetSize(a - {x}, b - {x});
    }
  }

  /** The pool after first Logins of `n` different emails at one instant. */
  function Crowd(cfg: Config, rate: Rate, n: nat, now: Time): Pool {
    if n == 0 then map[] else Get(cfg, Crowd(cfg, rate, n - 1, now), Name(n), rate, now)
  }

  function Name(n: nat): string {
    seq(n, _ => 'a')
  }

  /** So no `maxKeys` bounds the pool: within one ttl it grows with the number of emails. */
  lemma {:induction false} PoolGrowsWithoutBound(cfg: Config, rate: Rate, n: nat, now: Time)
    requires 0 <= cfg.ttl
    ensures |Crowd(cfg, rate, n, now)| == n
    ensures forall k :: k in Crowd(cfg, rate, n, now) ==> |k| <= n && Crowd(cfg, rate, n, now)[k].exp == now + cfg.ttl
  {
    if n != 0 {
      var pool := Crowd(cfg, rate, n - 1, now);
      PoolGrowsWithoutBound(cfg, rate, n - 1, now);
      assert Sweep(pool, now) == pool;
      assert |Name(n)| == n && Name(n) !in pool;
      assert Crowd(cfg, rate, n, now).Keys == pool.Keys + {Name(n)};
    }
  }

  /** A sweep removes exactly the expired entries, and changes no survivor. */
  lemma SweepExact(pool: Pool, now: Time, k: string)
    ensures k in Sweep(pool, now) <==> k in pool && now <= pool[k].exp
    ensures k in Sweep(pool, now) ==> Sweep(pool, now)[k] == pool[k]
  {
  }

  /** `*rate.Limiter`, shared by whoever holds the pointer. */
  class Limiter {
    const rate: Rate
    var credit: int
    var last: Time

    constructor (rate: Rate)
      ensures this.rate == rate
      ensures View() == NewBucket(rate)
    {
      this.rate := rate;
      credit := rate.burst * rate.interval;
      last := 0;
    }

    function View(): Bucket
      reads this
    {
      Bucket(rate, credit, last)
    }

    method AllowAt(now: Time) returns (ok: bool)
      modifies this
      ensures View() == Allow(old(View()), now).0
      ensures ok == Allow(old(View()), now).1
    {
      // advance: a clock that went backwards is read as no time passing
      if now < last {
        last := now;
      }
      var tokens := credit + (now - last);
      if rate.burst * rate.interval < tokens {
        tokens := rate.burst * rate.interval;
      }
      ok := 1 <= rate.burst && 0 <= tokens - rate.interval;
      if ok {
        credit, last := tokens - rate.interval, now;
      }
    }
  }

  class LimiterItem {
    const lim: Limiter
    var exp: Time

    constructor (lim: Limiter, exp: Time)
      ensures this.lim == lim && this.exp == exp
    {
      this.lim, this.exp := lim, exp;
    }

    function View(): Entry
      reads this, lim
    {
      Entry(lim.View(), exp)
    }
  }

  class LimiterPool {
    const cfg: Config
    var items: map<string, LimiterItem>

    ghost function Repr(): set<object>
      reads this
    {
      (set k | k in items :: items[k] as object) + (set k | k in items :: items[k].lim as object)
    }

    /** No two keys share an item or a limiter. */
    ghost predicate Valid()
      reads this
    {
      forall k, l :: k in items && l in items && k != l ==> items[k] != items[l] && items[k].lim != items[l].lim
    }

    ghost function View(): Pool
      reads this, Repr()
    {
      map k | k in items :: items[k].View()
    }

    constructor (cfg: Config)
      ensures this.cfg == cfg
      ensures Valid() && items == map[] && View() == map[]
    {
      this.cfg := cfg;
      items := map[];
    }

    /** The in-place sweep: visits every key once and deletes the expired ones. */
    method DeleteExpired(now: Time)
      requires Valid()
      modifies this
      ensures Valid()
      ensures items == map k | k in old(items) && !(old(items)[k].exp < now) :: old(items)[k]
    {
      var all := items;
      var todo := all.Keys;
      while todo != {}
        invariant todo <= all.Keys
        invariant items == map k | k in all && (k in todo || !(all[k].exp < now)) :: all[k]
        decreases todo
      {
        var k :| k in todo;
        todo := todo - {k};
        if all[k].exp < now {
          items := items - {k};
        }
      }
    }

    method Prune(now: Time)
      requires Valid()
      modifies this
      ensures Valid()
      ensures View() == Sweep(old(View()), now)
      ensures items.Keys <= old(items.Keys) && Repr() <= old(Repr())
    {
      ghost var before := View();
      DeleteExpired(now);
      assert View().Keys == Sweep(before, now).Keys;
      assert forall k :: k in items ==> View()[k] == before[k];
    }

    method Touch(key: string, now: Time)
      requires Valid() && key in items
      modifies items[key]
      ensures Valid() && items == old(items) && Repr() == old(Repr())
      ensures View() == old(View())[key := old(View())[key].(exp := now + cfg.ttl)]
    {
      items[key].exp := now + cfg.ttl;
    }

    method NewItem(rate: Rate, exp: Time) returns (item: LimiterItem)
      ensures fresh(item) && fresh(item.lim)
      ensures item.View() == Entry(NewBucket(rate), exp)
    {
      var lim := new Limiter(rate);
      item := new LimiterItem(lim, exp);
    }

    method Insert(key: string, rate: Rate, now: Time) returns (lim: Limiter)
      requires Valid() && key !in items
      modifies this
      ensures Valid()
      ensures key in items && lim == items[key].lim
      ensures View() == old(View())[key := Entry(NewBucket(rate), now + cfg.ttl)]
      ensures fresh(Repr() - old(Repr()))
    {
      hide NewBucket;
      var item := NewItem(rate, now + cfg.ttl);
      lim := item.lim;
      Put(key, item);
    }

    /** `p.items[key] = item`, for an item nobody else has. */
    method Put(key: string, item: LimiterItem)
      requires Valid() && key !in items && item !in Repr() && item.lim !in Repr()
      modifies this
      ensures Valid() && items == old(items)[key := item]
      ensures View() == old(View())[key := item.View()]
      ensures Repr() <= old(Repr()) + {item, item.lim}
    {
      ghost var before := View();
      items := items[key := item];
      assert forall k :: k in before ==> View()[k] == before[k];
      assert View().Keys == before.Keys + {key};
    }

    /** Asking the limiter of one key changes that key's bucket and nothing else. */
    method Ask(ghost key: string, lim: Limiter, now: Time) returns (ok: bool)
      requires Valid() && key in items && lim == items[key].lim
      modifies lim
      ensures Valid() && items == old(items) && Repr() == old(Repr())
      ensures var (b, allowed) := Allow(old(View())[key].bucket, now);
              View() == old(View())[key := old(View())[key].(bucket := b)] && ok == allowed
    {
      ok := lim.AllowAt(now);
      assert View().Keys == old(View()).Keys;
      assert forall k :: k in items && k != key ==> items[k].View() == old(items[k].View());
    }

    /** `limiterPool.Get`. */
    method GetLimiter(key: string, rate: Rate, now: Time) returns (lim: Limiter)
      requires Valid()
      modifies this, Repr()
      ensures Valid()
      ensures key in items && lim == items[key].lim
      ensures View() == Get(cfg, old(View()), key, rate, now)
      ensures fresh(Repr() - old(Repr()))
    {
      if key in items {
        Touch(key, now);
        lim := items[key].lim;
      } else {
        assert |View()| == |items| by {
          assert View().Keys == items.Keys;
        }
        if |items| >= cfg.maxKeys {
          Prune(now);
        }
        lim := Insert(key, rate, now);
      }
    }
  }
}
