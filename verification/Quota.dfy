/**
 * Quotas over fixed windows. A reservation checks every quota that applies and, only when all pass, counts the
 * request under every scope and window; a refusal names the second at which the request would be admitted.
 */
module Quota {
  import opened Common

  datatype Kind = Global | Service | Actor | Attribution

  datatype Scope = Scope(kind: Kind, id: string)

  datatype Window = Minute | Hour | Day

  function Length(w: Window): nat {
    match w
    case Minute => 60
    case Hour => 3600
    case Day => 86400
  }

  function WindowStart(w: Window, t: int): int { t / Length(w) * Length(w) }

  /** Which counter: a scope's window from `start`, for one workflow prefix or, with none, for all workflows. */
  datatype Key = Key(scope: Scope, window: Window, start: int, prefix: string)

  datatype Counter = Counter(requests: nat, tokens: int, cost: real)

  type Counters = map<Key, Counter>

  datatype Limit = Limit(scope: Scope, window: Window, maxRequests: Option<int>, maxTokens: Option<int>,
                         maxCost: Option<real>, prefix: string, active: bool)

  /** The parts of a request a quota looks at. An absent or empty actor or attribution is `None`. */
  datatype Ctx = Ctx(requesterType: string, requesterId: string, actor: Option<string>, attribution: Option<string>,
                     workflow: string)

  datatype Reason = Requests | Tokens | Cost

  datatype Refusal = Refusal(limit: Limit, scope: Scope, reason: Reason, retryAfter: int)

  function ServiceId(ctx: Ctx): string {
    if ctx.requesterType == "service" then ctx.requesterId else ctx.requesterType + ":" + ctx.requesterId
  }

  function ScopesFor(ctx: Ctx): seq<Scope> {
    [Scope(Global, "*"), Scope(Service, ServiceId(ctx))]
    + (if ctx.actor.Some? then [Scope(Actor, ctx.actor.value)] else [])
    + (if ctx.attribution.Some? then [Scope(Attribution, ctx.attribution.value)] else [])
  }

  /** A quota on `*`, except the global one, applies to each principal of its kind separately. */
  predicate Covers(q: Limit, s: Scope) {
    q.scope.kind == s.kind && (q.scope.id == s.id || (q.scope.id == "*" && !s.kind.Global?))
  }

  function FindScope(q: Limit, scopes: seq<Scope>): (hit: Option<Scope>)
    ensures hit.Some? ==> hit.value in scopes && Covers(q, hit.value)
    ensures hit.None? ==> forall s :: s in scopes ==> !Covers(q, s)
  {
    if scopes == [] then None else if Covers(q, scopes[0]) then Some(scopes[0]) else FindScope(q, scopes[1..])
  }

  /** A quota that applies, with the scope it counts under. */
  datatype Charge = Charge(limit: Limit, scope: Scope)

  function CountedScope(q: Limit, hit: Scope): Scope {
    if q.scope.id == "*" && !q.scope.kind.Global? then hit else q.scope
  }

  predicate Concerns(q: Limit, ctx: Ctx) { q.active && (q.prefix == "" || q.prefix <= ctx.workflow) }

  function Applicable(limits: seq<Limit>, ctx: Ctx): (charges: seq<Charge>)
    ensures forall c :: c in charges ==>
              c.limit in limits && Concerns(c.limit, ctx) && c.scope in ScopesFor(ctx) && Covers(c.limit, c.scope)
    ensures forall q, s :: q in limits && Concerns(q, ctx) && s in ScopesFor(ctx) && Covers(q, s) ==>
              Charge(q, s) in charges
  {
    if limits == [] then [] else
    var q := limits[0];
    var hit := FindScope(q, ScopesFor(ctx));
    ScopesOneAKind(ctx);
    (if Concerns(q, ctx) && hit.Some? then [Charge(q, CountedScope(q, hit.value))] else [])
    + Applicable(limits[1..], ctx)
  }

  lemma ScopesOneAKind(ctx: Ctx)
    ensures forall a, b :: a in ScopesFor(ctx) && b in ScopesFor(ctx) && a.kind == b.kind ==> a == b
    ensures Scope(Global, "*") in ScopesFor(ctx)
  {
  }

  function ChargeKey(c: Charge, t: int): Key {
    Key(c.scope, c.limit.window, WindowStart(c.limit.window, t), c.limit.prefix)
  }

  function At(counters: Counters, k: Key): Counter { if k in counters then counters[k] else Counter(0, 0, 0.0) }

  /** Which limit of the quota the next request would pass, if any. */
  function Exceeded(q: Limit, c: Counter): Option<Reason> {
    if q.maxRequests.Some? && c.requests + 1 > q.maxRequests.value then Some(Requests)
    else if q.maxTokens.Some? && c.tokens >= q.maxTokens.value then Some(Tokens)
    else if q.maxCost.Some? && c.cost >= q.maxCost.value then Some(Cost)
    else None
  }

  function Check(counters: Counters, c: Charge, t: int): Option<Reason> {
    Exceeded(c.limit, At(counters, ChargeKey(c, t)))
  }

  function Wait(c: Charge, t: int): int { WindowStart(c.limit.window, t) + Length(c.limit.window) - t }

  /** Of the exceeded quotas, the first that keeps the request waiting longest. */
  function Worst(counters: Counters, charges: seq<Charge>, t: int): Option<Refusal> {
    if charges == [] then None else
    var before := Worst(counters, charges[..|charges| - 1], t);
    var c := charges[|charges| - 1];
    var reason := Check(counters, c, t);
    if reason.Some? && (before.None? || Wait(c, t) > before.value.retryAfter)
    then Some(Refusal(c.limit, c.scope, reason.value, Wait(c, t)))
    else before
  }

  function Append(keys: seq<Key>, k: Key): seq<Key> { if k in keys then keys else keys + [k] }

  /** One scope's counters in each window. */
  function OwnKeys(s: Scope, t: int): seq<Key> {
    [Key(s, Minute, WindowStart(Minute, t), ""),
     Key(s, Hour, WindowStart(Hour, t), ""),
     Key(s, Day, WindowStart(Day, t), "")]
  }

  /** Every scope and window of the request. */
  function PlainKeys(scopes: seq<Scope>, t: int): seq<Key> {
    if scopes == [] then [] else PlainKeys(scopes[..|scopes| - 1], t) + OwnKeys(scopes[|scopes| - 1], t)
  }

  /** The plain keys, then each applicable workflow-prefix quota's own counter. */
  function CountedKeys(ctx: Ctx, charges: seq<Charge>, t: int): seq<Key> {
    if charges == [] then PlainKeys(ScopesFor(ctx), t) else
    var c := charges[|charges| - 1];
    var before := CountedKeys(ctx, charges[..|charges| - 1], t);
    if c.limit.prefix == "" then before else Append(before, ChargeKey(c, t))
  }

  function Bumped(counters: Counters, k: Key, requests: nat, tokens: int, cost: real): Counters {
    var c := At(counters, k);
    counters[k := Counter(c.requests + requests, c.tokens + tokens, c.cost + cost)]
  }

  function BumpedAll(counters: Counters, keys: seq<Key>, requests: nat, tokens: int, cost: real): Counters {
    if keys == [] then counters
    else
      var before := BumpedAll(counters, keys[..|keys| - 1], requests, tokens, cost);
      Bumped(before, keys[|keys| - 1], requests, tokens, cost)
  }

  function Decide(counters: Counters, limits: seq<Limit>, ctx: Ctx, t: int): Result<seq<Key>, Refusal> {
    var charges := Applicable(limits, ctx);
    match Worst(counters, charges, t)
    case Some(refusal) => Err(refusal)
    case None => Ok(CountedKeys(ctx, charges, t))
  }

  function Reserved(counters: Counters, limits: seq<Limit>, ctx: Ctx, t: int): Counters {
    match Decide(counters, limits, ctx, t)
    case Ok(keys) => BumpedAll(counters, keys, 1, 0, 0.0)
    case Err(_) => counters
  }

  /** The quotas and the counters of the store. */
  class Quotas {
    var limits: seq<Limit>
    var counters: Counters

    constructor ()
      ensures limits == [] && counters == map[]
    {
      limits, counters := [], map[];
    }

    method BumpAll(keys: seq<Key>, requests: nat, tokens: int, cost: real)
      modifies this`counters
      ensures counters == BumpedAll(old(counters), keys, requests, tokens, cost)
    {
      for i := 0 to |keys|
        invariant counters == BumpedAll(old(counters), keys[..i], requests, tokens, cost)
      {
        assert keys[..i + 1][..i] == keys[..i];
        counters := Bumped(counters, keys[i], requests, tokens, cost);
      }
      assert keys[..|keys|] == keys;
    }

    /** Scan the quotas that apply for the exceeded one that keeps the request waiting longest. */
    method FindWorst(charges: seq<Charge>, t: int) returns (worst: Option<Refusal>)
      ensures worst == Worst(counters, charges, t)
    {
      worst := None;
      for i := 0 to |charges|
        invariant worst == Worst(counters, charges[..i], t)
      {
        assert charges[..i + 1][..i] == charges[..i];
        var c := charges[i];
        var reason := Check(counters, c, t);
        if reason.Some? {
          var retryAfter := WindowStart(c.limit.window, t) + Length(c.limit.window) - t;
          if worst.None? || retryAfter > worst.value.retryAfter {
            worst := Some(Refusal(c.limit, c.scope, reason.value, retryAfter));
          }
        }
      }
      assert charges[..|charges|] == charges;
    }

    method KeysFor(ctx: Ctx, charges: seq<Charge>, t: int) returns (keys: seq<Key>)
      ensures keys == CountedKeys(ctx, charges, t)
    {
      var scopes := ScopesFor(ctx);
      keys := [];
      for i := 0 to |scopes|
        invariant keys == PlainKeys(scopes[..i], t)
      {
        assert scopes[..i + 1][..i] == scopes[..i];
        keys := keys + OwnKeys(scopes[i], t);
      }
      assert scopes[..|scopes|] == scopes;
      for i := 0 to |charges|
        invariant keys == CountedKeys(ctx, charges[..i], t)
      {
        assert charges[..i + 1][..i] == charges[..i];
        if charges[i].limit.prefix != "" && ChargeKey(charges[i], t) !in keys {
          keys := keys + [ChargeKey(charges[i], t)];
        }
      }
      assert charges[..|charges|] == charges;
    }

    /** One transaction: check every applicable quota, then count the request everywhere or nowhere. */
    method Reserve(ctx: Ctx, t: int) returns (r: Result<seq<Key>, Refusal>)
      modifies this`counters
      ensures r == Decide(old(counters), limits, ctx, t)
      ensures counters == Reserved(old(counters), limits, ctx, t)
      ensures r.Err? <==> exists q :: q in limits && Blocks(old(counters), q, ctx, t)
      ensures r.Err? ==> Explains(r.error, old(counters), limits, ctx, t) && counters == old(counters)
      ensures r.Ok? ==> forall k :: k in r.value <==> CountedUnder(limits, ctx, t, k)
      ensures r.Ok? ==> Distinct(r.value) && AddedTo(old(counters), counters, r.value, 1, 0, 0.0)
    {
      RefusedExactly(counters, limits, ctx, t);
      hide Decide, Blocks, Explains, CountedUnder, AddedTo, Distinct, Worst, Applicable, CountedKeys, BumpedAll;
      DecideIs(counters, limits, ctx, t);
      var charges := Applicable(limits, ctx);
      var worst := FindWorst(charges, t);
      if worst.Some? { return Err(worst.value); }
      var keys := KeysFor(ctx, charges, t);
      ReservedKeys(counters, limits, ctx, t);
      BumpAll(keys, 1, 0, 0.0);
      r := Ok(keys);
    }

    /** The run's real tokens and cost, on the counters it was reserved under. */
    method Account(keys: seq<Key>, tokens: int, cost: real)
      modifies this`counters
      ensures counters == BumpedAll(old(counters), keys, 0, tokens, cost)
      ensures Distinct(keys) ==> AddedTo(old(counters), counters, keys, 0, tokens, cost)
    {
      if Distinct(keys) { BumpedIsAdded(counters, keys, 0, tokens, cost); }
      BumpAll(keys, 0, tokens, cost);
    }
  }

  // ----- a reservation, in terms of the request and the counters -----

  function Seconds(w: Window): nat {
    match w
    case Minute => 60
    case Hour => 60 * 60
    case Day => 24 * 60 * 60
  }

  /** The id a request has in a scope of this kind, if it has one. */
  function OwnId(kind: Kind, ctx: Ctx): Option<string> {
    match kind
    case Global => Some("*")
    case Service =>
      Some(if ctx.requesterType == "service" then ctx.requesterId else ctx.requesterType + ":" + ctx.requesterId)
    case Actor => ctx.actor
    case Attribution => ctx.attribution
  }

  /** Does a quota limit this request: active, for its workflow, and for its scope or for each scope of the kind? */
  predicate Applies(q: Limit, ctx: Ctx) {
    && q.active && (q.prefix == "" || q.prefix <= ctx.workflow)
    && OwnId(q.scope.kind, ctx).Some?
    && (q.scope.id == "*" || q.scope.id == OwnId(q.scope.kind, ctx).value)
  }

  /** The counter a quota that applies is held against at this second. */
  function CounterFor(counters: Counters, q: Limit, ctx: Ctx, t: int): Counter
    requires OwnId(q.scope.kind, ctx).Some?
  {
    var k := Key(Scope(q.scope.kind, OwnId(q.scope.kind, ctx).value), q.window, t - t % Seconds(q.window), q.prefix);
    if k in counters then counters[k] else Counter(0, 0, 0.0)
  }

  predicate OverRequests(q: Limit, c: Counter) { q.maxRequests.Some? && c.requests + 1 > q.maxRequests.value }

  predicate OverTokens(q: Limit, c: Counter) { q.maxTokens.Some? && c.tokens >= q.maxTokens.value }

  predicate OverCost(q: Limit, c: Counter) { q.maxCost.Some? && c.cost >= q.maxCost.value }

  predicate Over(q: Limit, c: Counter) { OverRequests(q, c) || OverTokens(q, c) || OverCost(q, c) }

  predicate Blocks(counters: Counters, q: Limit, ctx: Ctx, t: int) {
    Applies(q, ctx) && Over(q, CounterFor(counters, q, ctx, t))
  }

  /** A refusal names a quota that blocks the request, why, and how long until its window ends. */
  predicate Names(r: Refusal, counters: Counters, limits: seq<Limit>, ctx: Ctx, t: int) {
    && r.limit in limits && Blocks(counters, r.limit, ctx, t)
    && r.scope == Scope(r.limit.scope.kind, OwnId(r.limit.scope.kind, ctx).value)
    && r.retryAfter == Seconds(r.limit.window) - t % Seconds(r.limit.window)
    && var c := CounterFor(counters, r.limit, ctx, t);
       match r.reason
       case Requests => OverRequests(r.limit, c)
       case Tokens => OverTokens(r.limit, c) && !OverRequests(r.limit, c)
       case Cost => OverCost(r.limit, c) && !OverRequests(r.limit, c) && !OverTokens(r.limit, c)
  }

  /** The quota it names is one whose window ends last of all that block the request. */
  predicate Explains(r: Refusal, counters: Counters, limits: seq<Limit>, ctx: Ctx, t: int) {
    && Names(r, counters, limits, ctx, t)
    && (forall q :: q in limits && Blocks(counters, q, ctx, t) ==>
          Seconds(q.window) - t % Seconds(q.window) <= r.retryAfter)
  }

  lemma StartIs(w: Window, t: int)
    ensures Length(w) == Seconds(w) && WindowStart(w, t) == t - t % Seconds(w)
  {
    assert t == t / Length(w) * Length(w) + t % Length(w);
  }

  lemma ScopesAre(ctx: Ctx, s: Scope)
    ensures s in ScopesFor(ctx) <==> OwnId(s.kind, ctx) == Some(s.id)
  {
    var own := [Scope(Global, "*"), Scope(Service, ServiceId(ctx))];
    var actor := if ctx.actor.Some? then [Scope(Actor, ctx.actor.value)] else [];
    var project := if ctx.attribution.Some? then [Scope(Attribution, ctx.attribution.value)] else [];
    assert ScopesFor(ctx) == own + actor + project;
    assert s in own <==> s == own[0] || s == own[1];
  }

  /** A quota applies as a charge on the request's own scope of its kind, and on no other. */
  lemma ChargesAre(limits: seq<Limit>, ctx: Ctx, c: Charge)
    ensures c in Applicable(limits, ctx)
       <==> && c.limit in limits && Applies(c.limit, ctx)
            && c.scope == Scope(c.limit.scope.kind, OwnId(c.limit.scope.kind, ctx).value)
  {
    ScopesAre(ctx, c.scope);
    hide ScopesFor, Applicable;
  }

  lemma BlockedCharge(counters: Counters, c: Charge, ctx: Ctx, t: int)
    requires Applies(c.limit, ctx) && c.scope == Scope(c.limit.scope.kind, OwnId(c.limit.scope.kind, ctx).value)
    ensures At(counters, ChargeKey(c, t)) == CounterFor(counters, c.limit, ctx, t)
    ensures Check(counters, c, t).Some? <==> Blocks(counters, c.limit, ctx, t)
    ensures Check(counters, c, t) == Some(Requests) ==> OverRequests(c.limit, CounterFor(counters, c.limit, ctx, t))
    ensures Check(counters, c, t) == Some(Tokens) ==>
              var k := CounterFor(counters, c.limit, ctx, t); OverTokens(c.limit, k) && !OverRequests(c.limit, k)
    ensures Check(counters, c, t) == Some(Cost) ==>
              var k := CounterFor(counters, c.limit, ctx, t);
              OverCost(c.limit, k) && !OverRequests(c.limit, k) && !OverTokens(c.limit, k)
    ensures Wait(c, t) == Seconds(c.limit.window) - t % Seconds(c.limit.window)
  {
    StartIs(c.limit.window, t);
  }

  /** What a refusal says is of one of the charges. */
  lemma {:induction false} WorstIsACharge(counters: Counters, charges: seq<Charge>, t: int) returns (c: Charge)
    requires Worst(counters, charges, t).Some?
    ensures var r := Worst(counters, charges, t).value;
            && c in charges && Check(counters, c, t) == Some(r.reason)
            && r.limit == c.limit && r.scope == c.scope && r.retryAfter == Wait(c, t)
  {
    var front, last := charges[..|charges| - 1], charges[|charges| - 1];
    if Worst(counters, charges, t) == Worst(counters, front, t) && Worst(counters, front, t).Some? {
      c := WorstIsACharge(counters, front, t);
    } else {
      c := last;
    }
  }

  /**
   * A request is refused exactly when some quota that applies to it blocks it: one request more would pass its
   * requests, or its tokens or cost are already at their limit. The refusal explains itself.
   */
  lemma RefusedExactly(counters: Counters, limits: seq<Limit>, ctx: Ctx, t: int)
    ensures var r := Decide(counters, limits, ctx, t);
            && (r.Err? <==> exists q :: q in limits && Blocks(counters, q, ctx, t))
            && (r.Err? ==> Explains(r.error, counters, limits, ctx, t))
  {
    hide Decide, Blocks, Explains;
    forall q | q in limits && Blocks(counters, q, ctx, t) ensures Decide(counters, limits, ctx, t).Err? {
      BlockedIsRefused(counters, limits, ctx, t, q);
    }
    if Decide(counters, limits, ctx, t).Err? { var q := RefusalExplains(counters, limits, ctx, t); }
  }

  lemma BlockedIsRefused(counters: Counters, limits: seq<Limit>, ctx: Ctx, t: int, q: Limit)
    requires q in limits && Blocks(counters, q, ctx, t)
    ensures var r := Decide(counters, limits, ctx, t);
            r.Err? && Seconds(q.window) - t % Seconds(q.window) <= r.error.retryAfter
  {
    var charges := Applicable(limits, ctx);
    var c := Charge(q, Scope(q.scope.kind, OwnId(q.scope.kind, ctx).value));
    ChargesAre(limits, ctx, c);
    BlockedCharge(counters, c, ctx, t);
    hide Exceeded, Wait, Worst, Applicable, Applies, OwnId, Check, CounterFor, Over, Seconds;
    WorstIsLatest(counters, charges, t);
  }

  lemma RefusalNames(counters: Counters, limits: seq<Limit>, ctx: Ctx, t: int)
    requires Decide(counters, limits, ctx, t).Err?
    ensures Names(Decide(counters, limits, ctx, t).error, counters, limits, ctx, t)
  {
    var charges := Applicable(limits, ctx);
    hide Exceeded, Wait, Worst, Applicable, Applies, OwnId, Check, CounterFor, Seconds;
    hide OverRequests, OverTokens, OverCost;
    var c := WorstIsACharge(counters, charges, t);
    ChargesAre(limits, ctx, c);
    BlockedCharge(counters, c, ctx, t);
    hide Blocks;
  }

  lemma RefusalExplains(counters: Counters, limits: seq<Limit>, ctx: Ctx, t: int) returns (q: Limit)
    requires Decide(counters, limits, ctx, t).Err?
    ensures Explains(Decide(counters, limits, ctx, t).error, counters, limits, ctx, t)
    ensures q in limits && Blocks(counters, q, ctx, t)
  {
    RefusalNames(counters, limits, ctx, t);
    var r := Decide(counters, limits, ctx, t).error;
    q := r.limit;
    hide Blocks, Decide, Seconds;
    forall p | p in limits && Blocks(counters, p, ctx, t)
      ensures Seconds(p.window) - t % Seconds(p.window) <= r.retryAfter
    {
      BlockedIsRefused(counters, limits, ctx, t, p);
    }
  }

  /** The counters an admitted request is counted under: its own scopes' in each window, and its prefix quotas'. */
  predicate CountedUnder(limits: seq<Limit>, ctx: Ctx, t: int, k: Key) {
    && k.start == t - t % Seconds(k.window) && OwnId(k.scope.kind, ctx) == Some(k.scope.id)
    && (k.prefix == "" || exists q :: q in limits && CountsPrefix(q, ctx, k))
  }

  predicate CountsPrefix(q: Limit, ctx: Ctx, k: Key) {
    Applies(q, ctx) && q.prefix == k.prefix && q.window == k.window && q.scope.kind == k.scope.kind
  }

  lemma CountedExactly(limits: seq<Limit>, ctx: Ctx, t: int, k: Key)
    ensures k in CountedKeys(ctx, Applicable(limits, ctx), t) <==> CountedUnder(limits, ctx, t, k)
  {
    var charges := Applicable(limits, ctx);
    CountedKeysAre(ctx, charges, t, k);
    ScopesAre(ctx, k.scope);
    StartIs(k.window, t);
    hide Applicable, ScopesFor, CountedKeys, WindowStart, Applies, OwnId, Seconds;
    if k.prefix != "" {
      forall c | c in charges && ChargeKey(c, t) == k ensures CountsPrefix(c.limit, ctx, k) {
        ChargesAre(limits, ctx, c);
      }
      forall q | q in limits && CountsPrefix(q, ctx, k) && CountedUnder(limits, ctx, t, k)
        ensures exists c :: c in charges && ChargeKey(c, t) == k
      {
        var c := Charge(q, k.scope);
        ChargesAre(limits, ctx, c);
        assert ChargeKey(c, t) == k;
      }
      forall c | c in charges && ChargeKey(c, t) == k ensures CountedUnder(limits, ctx, t, k) {
        ChargesAre(limits, ctx, c);
        assert CountsPrefix(c.limit, ctx, k);
        StartIs(c.limit.window, t);
      }
    }
  }

  // ----- the retry time of a refusal is exact -----

  lemma {:induction false} WorstIsLatest(counters: Counters, charges: seq<Charge>, t: int)
    ensures Worst(counters, charges, t).None? <==> forall c :: c in charges ==> Check(counters, c, t).None?
    ensures Worst(counters, charges, t).Some? ==>
              var r := Worst(counters, charges, t).value;
              && (forall c :: c in charges && Check(counters, c, t).Some? ==> Wait(c, t) <= r.retryAfter)
              && (exists c :: c in charges && Check(counters, c, t).Some? && Wait(c, t) == r.retryAfter)
  {
    if charges != [] {
      var front, last := charges[..|charges| - 1], charges[|charges| - 1];
      WorstIsLatest(counters, front, t);
      assert forall c :: c in charges <==> c in front || c == last;
      assert last in charges;
    }
  }

  /** A window holds the seconds from its start to its end, and the next one starts after them. */
  lemma WindowFacts(w: Window, t: int, later: int)
    requires t <= later
    ensures WindowStart(w, t) <= t < WindowStart(w, t) + Length(w)
    ensures WindowStart(w, later) == WindowStart(w, t) <==> later < WindowStart(w, t) + Length(w)
    ensures WindowStart(w, later) != WindowStart(w, t) ==> WindowStart(w, later) > t
  {
    FloorFacts(t, later, Length(w));
  }

  lemma FloorFacts(t: int, later: int, n: nat)
    requires t <= later && n > 0
    ensures t / n * n <= t < t / n * n + n
    ensures later / n * n == t / n * n <==> later < t / n * n + n
    ensures later / n * n != t / n * n ==> later / n * n > t
  {
    var a, b := t / n, later / n;
    assert t == a * n + t % n && later == b * n + later % n;
    if b < a {
      MulMonotone(b + 1, a, n);
      assert false;
    } else if a < b {
      MulMonotone(a + 1, b, n);
    }
  }

  predicate Positive(q: Limit) {
    && (q.maxRequests.Some? ==> q.maxRequests.value >= 1)
    && (q.maxTokens.Some? ==> q.maxTokens.value >= 1)
    && (q.maxCost.Some? ==> q.maxCost.value > 0.0)
  }

  /** No counter is kept for a window that has not begun. */
  ghost predicate NoneAhead(counters: Counters, t: int) { forall k :: k in counters ==> k.start <= t }

  lemma ChargeAfter(counters: Counters, c: Charge, t: int, later: int)
    requires NoneAhead(counters, t) && t <= later && Positive(c.limit)
    ensures later < t + Wait(c, t) ==> Check(counters, c, later) == Check(counters, c, t)
    ensures later >= t + Wait(c, t) ==> Check(counters, c, later).None?
  {
    WindowFacts(c.limit.window, t, later);
  }

  /**
   * With positive limits, and nothing else happening meanwhile, a refused request stays refused at every second
   * before its retry time and is admitted at that second, whatever windows and quotas are involved.
   */
  lemma RetryAfterIsExact(counters: Counters, limits: seq<Limit>, ctx: Ctx, t: int, later: int)
    requires NoneAhead(counters, t) && (forall q :: q in limits ==> Positive(q))
    requires Decide(counters, limits, ctx, t).Err?
    ensures var wait := Decide(counters, limits, ctx, t).error.retryAfter;
            && wait >= 1
            && (t <= later < t + wait ==> Decide(counters, limits, ctx, later).Err?)
            && (later == t + wait ==> Decide(counters, limits, ctx, later).Ok?)
  {
    var charges := Applicable(limits, ctx);
    WorstIsLatest(counters, charges, t);
    WorstIsLatest(counters, charges, later);
    var wait := Decide(counters, limits, ctx, t).error.retryAfter;
    var worst :| worst in charges && Check(counters, worst, t).Some? && Wait(worst, t) == wait;
    WindowFacts(worst.limit.window, t, t);
    if t <= later < t + wait {
      ChargeAfter(counters, worst, t, later);
    }
    if later == t + wait {
      forall c | c in charges ensures Check(counters, c, later).None? {
        ChargeAfter(counters, c, t, later);
      }
    }
  }

  // ----- all or nothing -----

  /** These amounts were added on these counters, a missing one standing for nothing, and on no other. */
  ghost predicate AddedTo(before: Counters, after: Counters, keys: seq<Key>, requests: nat, tokens: int, cost: real) {
    && (forall k :: k in after <==> k in before || k in keys)
    && (forall k :: k in before && k !in keys ==> after[k] == before[k])
    && (forall k :: k in keys ==>
          var was := if k in before then before[k] else Counter(0, 0, 0.0);
          after[k] == Counter(was.requests + requests, was.tokens + tokens, was.cost + cost))
  }

  lemma BumpedIsAdded(counters: Counters, keys: seq<Key>, requests: nat, tokens: int, cost: real)
    requires Distinct(keys)
    ensures AddedTo(counters, BumpedAll(counters, keys, requests, tokens, cost), keys, requests, tokens, cost)
  {
    var after := BumpedAll(counters, keys, requests, tokens, cost);
    BumpedAllKeys(counters, keys, requests, tokens, cost);
    hide BumpedAll;
    forall k | k in after
      ensures k !in keys ==> after[k] == At(counters, k)
      ensures k in keys ==> var was := At(counters, k);
                            after[k] == Counter(was.requests + requests, was.tokens + tokens, was.cost + cost)
    {
      BumpedAllAdds(counters, keys, requests, tokens, cost, k);
    }
  }

  lemma DecideIs(counters: Counters, limits: seq<Limit>, ctx: Ctx, t: int)
    ensures var charges := Applicable(limits, ctx);
            var worst := Worst(counters, charges, t);
            && Decide(counters, limits, ctx, t) ==
               (if worst.Some? then Err(worst.value) else Ok(CountedKeys(ctx, charges, t)))
  {
    hide Worst, Applicable, CountedKeys;
  }

  lemma ReservedKeys(counters: Counters, limits: seq<Limit>, ctx: Ctx, t: int)
    ensures var keys := CountedKeys(ctx, Applicable(limits, ctx), t);
            && Distinct(keys) && (forall k :: k in keys <==> CountedUnder(limits, ctx, t, k))
            && AddedTo(counters, BumpedAll(counters, keys, 1, 0, 0.0), keys, 1, 0, 0.0)
  {
    var keys := CountedKeys(ctx, Applicable(limits, ctx), t);
    hide CountedKeys, Applicable, CountedUnder, AddedTo, BumpedAll, Distinct;
    forall k ensures k in keys <==> CountedUnder(limits, ctx, t, k) { CountedExactly(limits, ctx, t, k); }
    KeysDistinct(ctx, Applicable(limits, ctx), t);
    BumpedIsAdded(counters, keys, 1, 0, 0.0);
  }

  lemma KeysDistinct(ctx: Ctx, charges: seq<Charge>, t: int)
    ensures Distinct(CountedKeys(ctx, charges, t))
  {
    CountedKeysAre(ctx, charges, t, Key(Scope(Global, "*"), Minute, 0, ""));
  }

  ghost predicate Distinct(keys: seq<Key>) { forall i, j :: 0 <= i < j < |keys| ==> keys[i] != keys[j] }

  lemma OwnKeysAre(s: Scope, t: int, k: Key)
    ensures k in OwnKeys(s, t) <==> k.scope == s && k.start == WindowStart(k.window, t) && k.prefix == ""
  {
    var own := OwnKeys(s, t);
    assert own[0] in own && own[1] in own && own[2] in own;
    hide WindowStart;
    if k in own {
      var i :| 0 <= i < 3 && own[i] == k;
    } else {
      assert k != own[0] && k != own[1] && k != own[2];
      match k.window
      case Minute =>
      case Hour =>
      case Day =>
    }
  }

  lemma {:induction false} PlainKeysAre(scopes: seq<Scope>, t: int, k: Key)
    ensures k in PlainKeys(scopes, t) <==> k.scope in scopes && k.start == WindowStart(k.window, t) && k.prefix == ""
  {
    hide WindowStart, OwnKeys;
    if scopes != [] {
      var front, s := scopes[..|scopes| - 1], scopes[|scopes| - 1];
      PlainKeysAre(front, t, k);
      OwnKeysAre(s, t, k);
      assert k in PlainKeys(scopes, t) <==> k in PlainKeys(front, t) || k in OwnKeys(s, t);
      assert k.scope in scopes <==> k.scope in front || k.scope == s;
    }
  }

  lemma {:induction false} PlainKeysDistinct(scopes: seq<Scope>, t: int)
    requires forall i, j :: 0 <= i < j < |scopes| ==> scopes[i] != scopes[j]
    ensures Distinct(PlainKeys(scopes, t))
  {
    if scopes != [] {
      var front, s := scopes[..|scopes| - 1], scopes[|scopes| - 1];
      PlainKeysDistinct(front, t);
      var keys := PlainKeys(front, t);
      forall i | 0 <= i < |keys| ensures keys[i].scope != s {
        PlainKeysAre(front, t, keys[i]);
        assert keys[i] in keys;
      }
    }
  }

  lemma {:induction false} CountedKeysAre(ctx: Ctx, charges: seq<Charge>, t: int, k: Key)
    ensures Distinct(CountedKeys(ctx, charges, t))
    ensures k in CountedKeys(ctx, charges, t) <==>
              || (k.prefix == "" && k.scope in ScopesFor(ctx) && k.start == WindowStart(k.window, t))
              || (k.prefix != "" && exists c :: c in charges && ChargeKey(c, t) == k)
  {
    if charges == [] {
      PlainKeysAre(ScopesFor(ctx), t, k);
      PlainKeysDistinct(ScopesFor(ctx), t);
    } else {
      var front, c := charges[..|charges| - 1], charges[|charges| - 1];
      CountedKeysAre(ctx, front, t, k);
      assert forall x :: x in charges <==> x in front || x == c;
    }
  }

  lemma {:induction false} BumpedAllAdds(counters: Counters, keys: seq<Key>, requests: nat, tokens: int, cost: real,
                                         k: Key)
    requires Distinct(keys)
    ensures var c := At(counters, k);
            At(BumpedAll(counters, keys, requests, tokens, cost), k)
            == if k in keys then Counter(c.requests + requests, c.tokens + tokens, c.cost + cost) else c
    ensures BumpedAll(counters, keys, requests, tokens, cost).Keys == counters.Keys + set x | x in keys
  {
    if keys != [] {
      var front := keys[..|keys| - 1];
      BumpedAllAdds(counters, front, requests, tokens, cost, k);
      assert forall x :: x in keys <==> x in front || x == keys[|keys| - 1];
    }
  }

  /**
   * A reservation is all or nothing: a refused request leaves every counter as it was, an admitted one adds exactly
   * one request to each of its scopes in each window and to each applicable prefix quota's counter, and nothing else.
   */
  lemma AllOrNothing(counters: Counters, limits: seq<Limit>, ctx: Ctx, t: int, k: Key)
    ensures var after := Reserved(counters, limits, ctx, t);
            if Decide(counters, limits, ctx, t).Err? then after == counters
            else
              var counted := if k.prefix == "" then k.scope in ScopesFor(ctx) && k.start == WindowStart(k.window, t)
                             else exists c :: c in Applicable(limits, ctx) && ChargeKey(c, t) == k;
              var before := At(counters, k);
              At(after, k) == if counted then before.(requests := before.requests + 1) else before
  {
    var charges := Applicable(limits, ctx);
    CountedKeysAre(ctx, charges, t, k);
    if Decide(counters, limits, ctx, t).Ok? {
      BumpedAllAdds(counters, CountedKeys(ctx, charges, t), 1, 0, 0.0, k);
    }
  }

  // ----- the counters against the whole history -----

  datatype Admission = Admission(ctx: Ctx, at: int)

  datatype World = World(counters: Counters, limits: seq<Limit>, clock: int, log: seq<Admission>)

  datatype Event =
    | Tick(seconds: nat)
    | Request(ctx: Ctx)
    | Accounting(keys: seq<Key>, tokens: int, cost: real)
    | Configure(limits: seq<Limit>)

  const START := World(map[], [], 0, [])

  /** Accounting is on the counters a reservation made, each once. */
  ghost predicate Enabled(w: World, e: Event) {
    e.Accounting? ==> Distinct(e.keys) && forall k :: k in e.keys ==> k in w.counters
  }

  function Next(w: World, e: Event): World {
    match e
    case Tick(seconds) => w.(clock := w.clock + seconds)
    case Request(ctx) =>
      w.(counters := Reserved(w.counters, w.limits, ctx, w.clock),
         log := if Decide(w.counters, w.limits, ctx, w.clock).Ok? then w.log + [Admission(ctx, w.clock)] else w.log)
    case Accounting(keys, tokens, cost) => w.(counters := BumpedAll(w.counters, keys, 0, tokens, cost))
    case Configure(limits) => w.(limits := limits)
  }

  ghost predicate Runs(w: World, events: seq<Event>)
    decreases |events|
  {
    events == [] || (Enabled(w, events[0]) && Runs(Next(w, events[0]), events[1..]))
  }

  ghost function After(w: World, events: seq<Event>): World
    requires Runs(w, events)
    decreases |events|
  {
    if events == [] then w else After(Next(w, events[0]), events[1..])
  }

  predicate Counts(a: Admission, scope: Scope, window: Window, start: int) {
    scope in ScopesFor(a.ctx) && start == WindowStart(window, a.at)
  }

  /** How many admitted requests of the whole log fall in this scope and window. */
  function CountLog(log: seq<Admission>, scope: Scope, window: Window, start: int): nat {
    if log == [] then 0
    else
      CountLog(log[..|log| - 1], scope, window, start)
      + (if Counts(log[|log| - 1], scope, window, start) then 1 else 0)
  }

  lemma CountOne(log: seq<Admission>, a: Admission, scope: Scope, window: Window, start: int)
    ensures CountLog(log + [a], scope, window, start)
         == CountLog(log, scope, window, start) + (if Counts(a, scope, window, start) then 1 else 0)
  {
    assert (log + [a])[..|log|] == log;
  }

  ghost predicate Agrees(w: World) {
    && NoneAhead(w.counters, w.clock)
    && forall scope, window, start ::
         At(w.counters, Key(scope, window, start, "")).requests == CountLog(w.log, scope, window, start)
  }

  lemma {:induction false} BumpedAllKeys(counters: Counters, keys: seq<Key>, requests: nat, tokens: int, cost: real)
    ensures forall k :: k in BumpedAll(counters, keys, requests, tokens, cost) <==> k in counters || k in keys
    ensures requests == 0 ==>
              forall k :: At(BumpedAll(counters, keys, requests, tokens, cost), k).requests == At(counters, k).requests
  {
    if keys != [] {
      var front := keys[..|keys| - 1];
      BumpedAllKeys(counters, front, requests, tokens, cost);
      assert forall x :: x in keys <==> x in front || x == keys[|keys| - 1];
    }
  }

  lemma RequestAgrees(w: World, ctx: Ctx)
    requires Agrees(w)
    ensures Agrees(Next(w, Request(ctx)))
  {
    var w' := Next(w, Request(ctx));
    if Decide(w.counters, w.limits, ctx, w.clock).Ok? {
      var charges := Applicable(w.limits, ctx);
      var keys := CountedKeys(ctx, charges, w.clock);
      BumpedAllKeys(w.counters, keys, 1, 0, 0.0);
      forall k | k in keys ensures k.start <= w.clock {
        CountedKeysAre(ctx, charges, w.clock, k);
        WindowFacts(k.window, w.clock, w.clock);
      }
      forall scope, window, start
        ensures At(w'.counters, Key(scope, window, start, "")).requests == CountLog(w'.log, scope, window, start)
      {
        AllOrNothing(w.counters, w.limits, ctx, w.clock, Key(scope, window, start, ""));
        CountOne(w.log, Admission(ctx, w.clock), scope, window, start);
      }
    }
  }

  lemma NextAgrees(w: World, e: Event)
    requires Agrees(w) && Enabled(w, e)
    ensures Agrees(Next(w, e))
  {
    match e
    case Request(ctx) => RequestAgrees(w, ctx);
    case Accounting(keys, tokens, cost) => BumpedAllKeys(w.counters, keys, 0, tokens, cost);
    case _ =>
  }

  lemma {:induction false} RunAgrees(w: World, events: seq<Event>)
    requires Agrees(w) && Runs(w, events)
    ensures Agrees(After(w, events))
    decreases |events|
  {
    if events != [] {
      NextAgrees(w, events[0]);
      RunAgrees(Next(w, events[0]), events[1..]);
    }
  }

  /**
   * In every reachable state a counter without a workflow prefix equals the number of admitted requests of its scope
   * in its window over the whole log, so any such quota, even one added later, decides as counting the log would.
   */
  lemma CountersAreTheHistory(events: seq<Event>, q: Limit, scope: Scope, start: int)
    requires Runs(START, events) && q.prefix == ""
    ensures var w := After(START, events);
            var k := Key(scope, q.window, start, "");
            && NoneAhead(w.counters, w.clock)
            && At(w.counters, k).requests == CountLog(w.log, scope, q.window, start)
            && (Exceeded(q, At(w.counters, k)) == Some(Requests)
                <==> q.maxRequests.Some? && CountLog(w.log, scope, q.window, start) + 1 > q.maxRequests.value)
  {
    RunAgrees(START, events);
  }

  /** At every request of the run that falls in this window, the quota is active. */
  ghost predicate InForce(w: World, events: seq<Event>, q: Limit, start: int)
    requires Runs(w, events)
    decreases |events|
  {
    events == [] ||
    (&& (events[0].Request? && WindowStart(q.window, w.clock) == start ==> q in w.limits)
     && InForce(Next(w, events[0]), events[1..], q, start))
  }

  /** A request limit in force for a whole window is never passed in it, for any scope the quota covers. */
  lemma {:induction false} LimitIsNeverPassed(w: World, events: seq<Event>, q: Limit, scope: Scope, start: int)
    requires Agrees(w) && Runs(w, events) && InForce(w, events, q, start)
    requires q.active && q.prefix == "" && q.maxRequests.Some? && Covers(q, scope)
    requires CountLog(w.log, scope, q.window, start) <= q.maxRequests.value
    ensures CountLog(After(w, events).log, scope, q.window, start) <= q.maxRequests.value
    decreases |events|
  {
    if events != [] {
      NextAgrees(w, events[0]);
      if events[0].Request? { RequestWithinLimit(w, events[0].ctx, q, scope, start); }
      LimitIsNeverPassed(Next(w, events[0]), events[1..], q, scope, start);
    }
  }

  lemma RequestWithinLimit(w: World, ctx: Ctx, q: Limit, scope: Scope, start: int)
    requires Agrees(w) && q.active && q.prefix == "" && q.maxRequests.Some? && Covers(q, scope)
    requires WindowStart(q.window, w.clock) == start ==> q in w.limits
    requires CountLog(w.log, scope, q.window, start) <= q.maxRequests.value
    ensures CountLog(Next(w, Request(ctx)).log, scope, q.window, start) <= q.maxRequests.value
  {
    CountOne(w.log, Admission(ctx, w.clock), scope, q.window, start);
    var charges := Applicable(w.limits, ctx);
    WorstIsLatest(w.counters, charges, w.clock);
    if Decide(w.counters, w.limits, ctx, w.clock).Ok? && Counts(Admission(ctx, w.clock), scope, q.window, start) {
      assert Charge(q, scope) in charges;
      assert Check(w.counters, Charge(q, scope), w.clock).None?;
      assert At(w.counters, Key(scope, q.window, start, "")).requests == CountLog(w.log, scope, q.window, start);
    }
  }

  // ----- limits on tokens and cost -----

  /** The tokens accounted on a counter over a run. */
  function TokensAccounted(events: seq<Event>, k: Key): int {
    if events == [] then 0
    else
      (if events[0].Accounting? && k in events[0].keys then events[0].tokens else 0) + TokensAccounted(events[1..], k)
  }

  /** The cost accounted on a counter over a run. */
  function CostAccounted(events: seq<Event>, k: Key): real {
    if events == [] then 0.0
    else
      (if events[0].Accounting? && k in events[0].keys then events[0].cost else 0.0) + CostAccounted(events[1..], k)
  }

  /** A counter's tokens and cost are what was accounted on it, whatever was admitted or configured meanwhile. */
  lemma {:induction false} SpendIsTheHistory(w: World, events: seq<Event>, k: Key)
    requires Runs(w, events)
    ensures At(After(w, events).counters, k).tokens == At(w.counters, k).tokens + TokensAccounted(events, k)
    ensures At(After(w, events).counters, k).cost == At(w.counters, k).cost + CostAccounted(events, k)
    decreases |events|
  {
    if events != [] {
      SpendStep(w, events[0], k);
      hide Next, Enabled, At;
      SpendIsTheHistory(Next(w, events[0]), events[1..], k);
    }
  }

  lemma SpendStep(w: World, e: Event, k: Key)
    requires Enabled(w, e)
    ensures var mine := e.Accounting? && k in e.keys;
            && At(Next(w, e).counters, k).tokens == At(w.counters, k).tokens + (if mine then e.tokens else 0)
            && At(Next(w, e).counters, k).cost == At(w.counters, k).cost + (if mine then e.cost else 0.0)
  {
    match e
    case Request(ctx) =>
      var keys := CountedKeys(ctx, Applicable(w.limits, ctx), w.clock);
      KeysDistinct(ctx, Applicable(w.limits, ctx), w.clock);
      BumpedAllAdds(w.counters, keys, 1, 0, 0.0, k);
      hide CountedKeys, Applicable, BumpedAll, Worst;
    case Accounting(keys, tokens, cost) =>
      BumpedAllAdds(w.counters, keys, 0, tokens, cost, k);
      hide BumpedAll;
    case _ =>
  }

  /** Has what was accounted in this window reached the quota's tokens or cost? */
  ghost predicate SpentUp(w: World, q: Limit, scope: Scope, start: int) {
    var c := At(w.counters, Key(scope, q.window, start, ""));
    (q.maxTokens.Some? && c.tokens >= q.maxTokens.value) || (q.maxCost.Some? && c.cost >= q.maxCost.value)
  }

  predicate NothingTakenBack(events: seq<Event>) {
    forall i :: 0 <= i < |events| && events[i].Accounting? ==> events[i].tokens >= 0 && events[i].cost >= 0.0
  }

  /** Is this the scope a request of this kind has, and does the quota limit it? */
  predicate Limits(q: Limit, scope: Scope) {
    q.active && q.prefix == "" && q.scope.kind == scope.kind && (q.scope.id == scope.id || q.scope.id == "*")
  }

  /**
   * Once the tokens or the cost accounted to a scope in a window reach a limit that stays in force, no further
   * request of that scope is admitted in that window.
   */
  lemma {:induction false} SpentLimitBlocks(w: World, events: seq<Event>, q: Limit, scope: Scope, start: int)
    requires Runs(w, events) && InForce(w, events, q, start) && NothingTakenBack(events)
    requires Limits(q, scope) && SpentUp(w, q, scope, start)
    ensures SpentUp(After(w, events), q, scope, start)
    ensures CountLog(After(w, events).log, scope, q.window, start) == CountLog(w.log, scope, q.window, start)
    decreases |events|
  {
    if events != [] {
      SpendStep(w, events[0], Key(scope, q.window, start, ""));
      hide Next, Enabled, At;
      if events[0].Request? { SpentRequest(w, events[0].ctx, q, scope, start); }
      if !events[0].Request? { LogOnlyByRequests(w, events[0]); }
      StaysSpent(w, events[0], q, scope, start);
      SpentLimitBlocks(Next(w, events[0]), events[1..], q, scope, start);
    }
  }

  lemma LogOnlyByRequests(w: World, e: Event)
    requires Enabled(w, e) && !e.Request?
    ensures Next(w, e).log == w.log
  {
  }

  lemma StaysSpent(w: World, e: Event, q: Limit, scope: Scope, start: int)
    requires Enabled(w, e) && SpentUp(w, q, scope, start)
    requires e.Accounting? ==> e.tokens >= 0 && e.cost >= 0.0
    ensures SpentUp(Next(w, e), q, scope, start)
  {
    SpendStep(w, e, Key(scope, q.window, start, ""));
    hide Next, Enabled, At;
  }

  lemma SpentRequest(w: World, ctx: Ctx, q: Limit, scope: Scope, start: int)
    requires Limits(q, scope) && SpentUp(w, q, scope, start)
    requires WindowStart(q.window, w.clock) == start ==> q in w.limits
    ensures CountLog(Next(w, Request(ctx)).log, scope, q.window, start) == CountLog(w.log, scope, q.window, start)
  {
    CountOne(w.log, Admission(ctx, w.clock), scope, q.window, start);
    RefusedExactly(w.counters, w.limits, ctx, w.clock);
    ScopesAre(ctx, scope);
    StartIs(q.window, w.clock);
    hide Decide, CountLog, ScopesFor, WindowStart, Seconds;
    if Counts(Admission(ctx, w.clock), scope, q.window, start) {
      assert Blocks(w.counters, q, ctx, w.clock);
    }
  }
}
