/**
 * The fixed-window limiter of app/core/rate_limit.py for one key, with INCR and EXPIRE as separate
 * Redis commands that concurrent requests may interleave. The run lemmas are about the requests that Redis
 * counts; the class also covers a Redis that fails.
 */
module RateLimit {
  import opened Common

  /** One life of the key: its first INCR, and its expiry once the EXPIRE has run. */
  datatype Life = Life(start: int, expiry: Option<int>)

  /** One INCR: when, in which life, and the count it returned. */
  datatype Hit = Hit(time: int, life: nat, count: nat)

  /** `count` is the counter of the last life. */
  datatype Key = Key(lives: seq<Life>, count: nat, hits: seq<Hit>, now: int)

  predicate Exists(k: Key) {
    |k.lives| > 0 && var last := k.lives[|k.lives| - 1]; last.expiry.None? || k.now < last.expiry.value
  }

  /** INCR creates the key at 1 without a TTL, or adds one. */
  function Incr(k: Key): Key {
    if Exists(k) then
      k.(count := k.count + 1, hits := k.hits + [Hit(k.now, |k.lives| - 1, k.count + 1)])
    else
      k.(lives := k.lives + [Life(k.now, None)], count := 1, hits := k.hits + [Hit(k.now, |k.lives|, 1)])
  }

  /** EXPIRE by the request whose INCR returned 1; until then the life has no TTL. */
  function Expire(k: Key, window: nat): Key {
    if |k.lives| == 0 || k.lives[|k.lives| - 1].expiry.Some? then k
    else k.(lives := k.lives[|k.lives| - 1 := k.lives[|k.lives| - 1].(expiry := Some(k.now + window))])
  }

  /** TTL in seconds, negative when there is none. */
  function Ttl(k: Key): int {
    if !Exists(k) then -2
    else match k.lives[|k.lives| - 1].expiry case None => -1 case Some(e) => e - k.now
  }

  predicate Admitted(h: Hit, limit: nat) {
    h.count <= limit
  }

  function RetryAfter(k: Key, window: nat): int {
    if Ttl(k) > 0 then Ttl(k) else window
  }

  datatype Command = Tick(elapsed: nat) | Increment | SetExpiry

  function Next(k: Key, c: Command, window: nat): Key {
    match c
    case Tick(elapsed) => k.(now := k.now + elapsed)
    case Increment => Incr(k)
    case SetExpiry => Expire(k, window)
  }

  function Run(k: Key, commands: seq<Command>, window: nat): Key
    decreases |commands|
  {
    if |commands| == 0 then k else Run(Next(k, commands[0], window), commands[1..], window)
  }

  predicate Untouched(k: Key) {
    |k.lives| == 0 && |k.hits| == 0
  }

  // ---- Invariant ----

  /** A life lasts at least a window, at most a window from now, and ends before the next one starts. */
  predicate LifeOk(k: Key, window: nat, i: nat)
    requires i < |k.lives|
  {
    var l := k.lives[i];
    && l.start <= k.now
    && (l.expiry.Some? ==> l.start + window <= l.expiry.value <= k.now + window)
    && (i + 1 < |k.lives| ==> l.expiry.Some? && l.expiry.value <= k.lives[i + 1].start)
  }

  /** How many of the first `n` hits fall in a life. */
  function HitsIn(hits: seq<Hit>, n: nat, life: nat): (c: nat)
    requires n <= |hits|
    ensures c <= n
  {
    if n == 0 then 0 else HitsIn(hits, n - 1, life) + if hits[n - 1].life == life then 1 else 0
  }

  /** A hit lies within its life and its count is its rank there. */
  predicate HitOk(k: Key, i: nat)
    requires i < |k.hits|
  {
    var h := k.hits[i];
    && h.life < |k.lives| && k.lives[h.life].start <= h.time <= k.now
    && (k.lives[h.life].expiry.Some? ==> h.time < k.lives[h.life].expiry.value)
    && h.count == 1 + HitsIn(k.hits, i, h.life)
  }

  ghost predicate KeyOk(k: Key, window: nat) {
    && (forall i :: 0 <= i < |k.lives| ==> LifeOk(k, window, i))
    && (forall i :: 0 <= i < |k.hits| ==> HitOk(k, i))
    && (forall i, j :: 0 <= i < j < |k.hits| ==> k.hits[i].life <= k.hits[j].life)
    && (|k.lives| > 0 ==> k.count == HitsIn(k.hits, |k.hits|, |k.lives| - 1))
  }

  lemma {:induction false} HitsInPrefix(hits: seq<Hit>, more: seq<Hit>, n: nat, life: nat)
    requires n <= |hits|
    ensures HitsIn(hits + more, n, life) == HitsIn(hits, n, life)
  {
    if n > 0 {
      HitsInPrefix(hits, more, n - 1, life);
    }
  }

  lemma {:induction false} NoHitsIn(hits: seq<Hit>, n: nat, life: nat)
    requires n <= |hits| && forall i :: 0 <= i < n ==> hits[i].life != life
    ensures HitsIn(hits, n, life) == 0
  {
    if n > 0 {
      NoHitsIn(hits, n - 1, life);
    }
  }

  lemma {:induction false} RankGrows(hits: seq<Hit>, m: nat, n: nat, life: nat)
    requires m <= n <= |hits|
    ensures HitsIn(hits, m, life) <= HitsIn(hits, n, life)
    ensures m < n && hits[m].life == life ==> HitsIn(hits, m, life) < HitsIn(hits, n, life)
  {
    if m < n {
      RankGrows(hits, m, n - 1, life);
    }
  }

  lemma IncrOk(k: Key, window: nat)
    requires KeyOk(k, window)
    ensures KeyOk(Incr(k), window)
  {
    var k', n := Incr(k), |k.hits|;
    var h := k'.hits[n];
    forall i | 0 <= i < |k'.lives| ensures LifeOk(k', window, i) {
      assert i < |k.lives| ==> LifeOk(k, window, i);
    }
    HitsInPrefix(k.hits, [h], n, h.life);
    if !Exists(k) {
      forall i | 0 <= i < n ensures k.hits[i].life != |k.lives| {
        assert HitOk(k, i);
      }
      NoHitsIn(k.hits, n, |k.lives|);
    }
    forall i | 0 <= i < |k'.hits| ensures HitOk(k', i) {
      if i < n {
        assert HitOk(k, i);
        HitsInPrefix(k.hits, [h], i, k.hits[i].life);
      } else {
        assert LifeOk(k', window, h.life);
      }
    }
    forall i | 0 <= i < n ensures k.hits[i].life <= h.life {
      assert HitOk(k, i);
    }
  }

  lemma ExpireOk(k: Key, window: nat)
    requires KeyOk(k, window) && window >= 1
    ensures KeyOk(Expire(k, window), window)
  {
    var k' := Expire(k, window);
    forall i | 0 <= i < |k'.lives| ensures LifeOk(k', window, i) {
      assert LifeOk(k, window, i);
    }
    forall i | 0 <= i < |k'.hits| ensures HitOk(k', i) {
      assert HitOk(k, i);
    }
  }

  lemma TickOk(k: Key, elapsed: nat, window: nat)
    requires KeyOk(k, window)
    ensures KeyOk(k.(now := k.now + elapsed), window)
  {
    var k' := k.(now := k.now + elapsed);
    forall i | 0 <= i < |k'.lives| ensures LifeOk(k', window, i) {
      assert LifeOk(k, window, i);
    }
    forall i | 0 <= i < |k'.hits| ensures HitOk(k', i) {
      assert HitOk(k, i);
    }
  }

  lemma {:induction false} RunOk(k: Key, commands: seq<Command>, window: nat)
    requires KeyOk(k, window) && window >= 1
    ensures KeyOk(Run(k, commands, window), window)
    decreases |commands|
  {
    hide KeyOk;
    if |commands| > 0 {
      match commands[0] {
        case Tick(elapsed) => TickOk(k, elapsed, window);
        case Increment => IncrOk(k, window);
        case SetExpiry => ExpireOk(k, window);
      }
      RunOk(Next(k, commands[0], window), commands[1..], window);
    }
  }

  // ---- What is admitted ----

  /** Within one life the hits are counted 1, 2, 3, ... so a life admits exactly its first `limit`. */
  lemma LifeAdmitsFirst(k: Key, window: nat, limit: nat, i: nat)
    requires KeyOk(k, window) && i < |k.hits|
    ensures Admitted(k.hits[i], limit) <==> HitsIn(k.hits, i, k.hits[i].life) < limit
  {
    assert HitOk(k, i);
  }

  lemma SameLifeDistinctCounts(k: Key, window: nat, i: nat, j: nat)
    requires KeyOk(k, window) && i < |k.hits| && j < |k.hits|
    requires k.hits[i].life == k.hits[j].life && k.hits[i].count == k.hits[j].count
    ensures i == j
  {
    assert HitOk(k, i) && HitOk(k, j);
    if i < j {
      RankGrows(k.hits, i, j, k.hits[i].life);
    } else if j < i {
      RankGrows(k.hits, j, i, k.hits[i].life);
    }
  }

  lemma {:induction false} StartsGrow(k: Key, window: nat, i: nat, j: nat)
    requires KeyOk(k, window) && i <= j < |k.lives|
    ensures k.lives[i].start <= k.lives[j].start
    decreases j - i
  {
    if i < j {
      assert LifeOk(k, window, i);
      StartsGrow(k, window, i + 1, j);
    }
  }

  /** Hits less than a window apart lie in the same life or in adjacent lives. */
  lemma CloseHitsAdjacentLives(k: Key, window: nat, i: nat, j: nat)
    requires KeyOk(k, window) && i <= j < |k.hits|
    requires k.hits[j].time < k.hits[i].time + window
    ensures k.hits[i].life <= k.hits[j].life <= k.hits[i].life + 1
  {
    var a, b := k.hits[i].life, k.hits[j].life;
    assert HitOk(k, i) && HitOk(k, j);
    if b >= a + 2 {
      assert LifeOk(k, window, a) && LifeOk(k, window, a + 1);
      StartsGrow(k, window, a + 2, b);
    }
  }

  predicate InSpan(h: Hit, from: int, window: nat) {
    from <= h.time < from + window
  }

  function AdmittedInSpan(k: Key, limit: nat, from: int, window: nat): set<nat> {
    set i: nat | i < |k.hits| && Admitted(k.hits[i], limit) && InSpan(k.hits[i], from, window)
  }

  /** The admitted hits of one half-open window number at most twice the limit. */
  lemma SpanBound(k: Key, window: nat, limit: nat, from: int)
    requires KeyOk(k, window)
    ensures |AdmittedInSpan(k, limit, from, window)| <= 2 * limit
  {
    var admitted := AdmittedInSpan(k, limit, from, window);
    if admitted != {} {
      var first := FirstOf(admitted);
      var base := k.hits[first].life;
      var slots := map i | i in admitted :: (if k.hits[i].life == base then 0 else limit) + k.hits[i].count;
      var room := Slots(2 * limit);
      forall i | i in admitted ensures slots[i] in room && (k.hits[i].life == base || k.hits[i].life == base + 1) {
        assert HitOk(k, i);
        CloseHitsAdjacentLives(k, window, first, i);
      }
      forall i, j | i in admitted && j in admitted && slots[i] == slots[j] ensures i == j {
        assert HitOk(k, i) && HitOk(k, j);
        SameLifeDistinctCounts(k, window, i, j);
      }
      InjectionBound(admitted, room, slots);
    }
  }

  lemma {:induction false} FirstOf(s: set<nat>) returns (m: nat)
    requires s != {}
    ensures m in s && forall x :: x in s ==> m <= x
    decreases |s|
  {
    var some :| some in s;
    m := some;
    var others := s - {some};
    if others != {} {
      var least := FirstOf(others);
      m := if least < some then least else some;
    }
    forall x | x in s ensures m <= x {
      assert x == some || x in others;
    }
  }

  /** The slots 1 to n. */
  function Slots(n: nat): (s: set<nat>)
    ensures |s| == n && forall x :: x in s <==> 1 <= x <= n
  {
    if n == 0 then {} else Slots(n - 1) + {n}
  }

  /**
   * Whatever the interleaving of requests, each life of the key admits exactly its first `limit` hits,
   * and any half-open span of one window admits at most 2 * limit.
   */
  lemma WindowBound(k: Key, commands: seq<Command>, window: nat, limit: nat, from: int, i: nat)
    requires Untouched(k) && window >= 1
    ensures var k' := Run(k, commands, window);
      && |AdmittedInSpan(k', limit, from, window)| <= 2 * limit
      && (i < |k'.hits| ==> (Admitted(k'.hits[i], limit) <==> HitsIn(k'.hits, i, k'.hits[i].life) < limit))
  {
    hide Run, Admitted;
    assert KeyOk(k, window);
    RunOk(k, commands, window);
    var k' := Run(k, commands, window);
    SpanBound(k', window, limit, from);
    if i < |k'.hits| {
      LifeAdmitsFirst(k', window, limit, i);
    }
  }

  /** A rejected request is told to wait between one second and one window. */
  lemma RetryAfterBounds(k: Key, window: nat)
    requires KeyOk(k, window) && window >= 1
    ensures 1 <= RetryAfter(k, window) <= window
  {
    if Exists(k) {
      assert LifeOk(k, window, |k.lives| - 1);
    }
  }

  /**
   * A rejected caller who waits as told, with nobody else calling, is admitted exactly if the key's life has
   * got its expiry; a life that never got one goes on rejecting.
   */
  lemma {:induction false} WaitingHelpsIff(k: Key, window: nat, limit: nat)
    requires KeyOk(k, window) && window >= 1 && limit >= 1 && Exists(k) && k.count >= limit
    ensures var k' := Run(k, [Tick(RetryAfter(k, window))] + [Increment], window);
      && |k'.hits| == |k.hits| + 1
      && (Admitted(k'.hits[|k.hits|], limit) <==> k.lives[|k.lives| - 1].expiry.Some?)
      && (k.lives[|k.lives| - 1].expiry.Some? ==> RetryAfter(k, window) == k.lives[|k.lives| - 1].expiry.value - k.now)
  {
    RetryAfterBounds(k, window);
    var wait := RetryAfter(k, window);
    assert ([Tick(wait)] + [Increment])[1..] == [Increment] && [Increment][1..] == [];
    assert LifeOk(k, window, |k.lives| - 1);
  }

  // ---- The dependency ----

  /** The three commands of `increment_fixed_window` with no other command in between. */
  function Counted(k: Key, window: nat): Key {
    var incremented := Incr(k);
    if incremented.count == 1 then Expire(incremented, window) else incremented
  }

  predicate HasExpiry(k: Key) {
    Exists(k) ==> k.lives[|k.lives| - 1].expiry.Some?
  }

  /**
   * A request that nothing interrupts counts itself once: it joins a life under way, or starts one that ends
   * a window later. So a key without faults never lacks its expiry.
   */
  lemma {:induction false} CountedAlone(k: Key, window: nat)
    requires KeyOk(k, window) && window >= 1 && HasExpiry(k)
    ensures var k' := Counted(k, window);
      && KeyOk(k', window) && Exists(k') && HasExpiry(k') && k'.now == k.now
      && |k'.hits| == |k.hits| + 1 && k'.hits[|k.hits|].time == k.now
      && if Exists(k) then k'.lives == k.lives && k'.hits[|k.hits|].count == k.count + 1
         else k'.lives == k.lives + [Life(k.now, Some(k.now + window))] && k'.hits[|k.hits|].count == 1
  {
    IncrOk(k, window);
    ExpireOk(Incr(k), window);
  }

  /** Which Redis command raises, if it is issued at all. */
  datatype Fault = NoFault | IncrFails | ExpireFails | TtlFails

  /** The commands before the failing one have taken effect. */
  function CountedUntil(k: Key, window: nat, fault: Fault): Key {
    if fault.IncrFails? then k
    else if fault.ExpireFails? && Incr(k).count == 1 then Incr(k)
    else Counted(k, window)
  }

  predicate Answers(k: Key, fault: Fault) {
    fault.NoFault? || (fault.ExpireFails? && Incr(k).count != 1)
  }

  datatype Decision = Allow | Reject(retryAfter: int)

  /** One Redis key and the limiter that uses it. */
  class Limiter {
    const limit: nat
    const window: nat
    var lives: seq<Life>
    var count: nat
    var hits: seq<Hit>
    var now: int

    constructor (limit: nat, window: nat, now: int)
      ensures this.limit == limit && this.window == window && KeyState() == Key([], 0, [], now)
    {
      this.limit, this.window, this.now := limit, window, now;
      lives, count, hits := [], 0, [];
    }

    function KeyState(): Key
      reads this
    {
      Key(lives, count, hits, now)
    }

    /** `increment_fixed_window`: the count and the TTL, or None if Redis failed on the way. */
    method IncrementFixedWindow(fault: Fault) returns (r: Option<(nat, int)>)
      modifies this
      ensures KeyState() == CountedUntil(old(KeyState()), window, fault)
      ensures r == if Answers(old(KeyState()), fault) then Some((count, Ttl(KeyState()))) else None
    {
      if fault.IncrFails? {
        return None;
      }
      if Exists(KeyState()) {
        count := count + 1;
      } else {
        lives, count := lives + [Life(now, None)], 1;
      }
      hits := hits + [Hit(now, |lives| - 1, count)];
      if count == 1 {
        if fault.ExpireFails? {
          return None;
        }
        var last := |lives| - 1;
        if lives[last].expiry.None? {
          lives := lives[last := lives[last].(expiry := Some(now + window))];
        }
      }
      if fault.TtlFails? {
        return None;
      }
      return Some((count, Ttl(KeyState())));
    }

    /**
     * `enforce_rate_limit`: it admits exactly the hit it adds when that hit is within the limit, and lets
     * the request pass when Redis fails.
     */
    method Enforce(fault: Fault) returns (d: Decision)
      modifies this
      ensures KeyState() == CountedUntil(old(KeyState()), window, fault)
      ensures !Answers(old(KeyState()), fault) ==> d == Allow
      ensures Answers(old(KeyState()), fault) ==>
        && |hits| == |old(hits)| + 1
        && d == if Admitted(hits[|old(hits)|], limit) then Allow else Reject(RetryAfter(KeyState(), window))
    {
      var counted := IncrementFixedWindow(fault);
      if counted.None? {
        return Allow;
      }
      var (c, ttl) := counted.value;
      if c <= limit {
        return Allow;
      }
      return Reject(if ttl > 0 then ttl else window);
    }
  }
}
