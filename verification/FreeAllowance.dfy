/**
 * The bounded free allowance of one subject, provider, metric and period: the same counter held in a locked database
 * row, in the shared key-value store or in the process, and what its database mirror saves when a key is lost or an
 * answer never arrives.
 */
module FreeAllowance {
  import opened Common

  /** The free share of a claim: what is wanted, as far as the allowance lasts. */
  function Free(used: nat, wanted: nat, cap: int): nat { Min(wanted, Max(0, cap - used)) }

  /** What a claim got, and the counter's total after it. */
  datatype Claimed = Claimed(free: nat, used: nat)

  /** The database row: created when missing, then locked. */
  function RowClaim(row: Option<nat>, wanted: nat, cap: int): Claimed {
    var used := if row.Some? then row.value else 0;
    var free := Free(used, wanted, cap);
    Claimed(free, used + free)
  }

  /** The store's one atomic step: the counter is never below the mirror's total. */
  function StoreClaim(key: Option<nat>, floor: nat, wanted: nat, cap: int): Claimed {
    var used := Max(if key.Some? then key.value else 0, floor);
    var free := Free(used, wanted, cap);
    Claimed(free, used + free)
  }

  // ----- the in-process counters -----

  /** A counter and when it expires, 0 for never. */
  datatype Entry = Entry(used: nat, until: int)

  predicate Expired(e: Entry, now: int) { e.until != 0 && e.until <= now }

  function Alive(m: map<string, Entry>, now: int): map<string, Entry> { map k | k in m && !Expired(m[k], now) :: m[k] }

  function KeyOf(m: map<string, Entry>, key: string): Option<nat> { if key in m then Some(m[key].used) else None }

  class ProcessCounters {
    var m: map<string, Entry>

    constructor ()
      ensures m == map[]
    {
      m := map[];
    }

    method Claim(key: string, wanted: nat, cap: int, floor: nat, expireAt: int, now: int) returns (r: Claimed)
      modifies this
      ensures var live := key in old(m) && (old(m)[key].until == 0 || now < old(m)[key].until);
              var used := Max(if live then old(m)[key].used else 0, floor);
              && r.free == Min(wanted, Max(0, cap - used)) && r.used == used + r.free
              && key in m && m[key] == Entry(r.used, if live then old(m)[key].until else expireAt)
      ensures forall k :: k != key ==> (k in m <==> k in old(m) && (old(m)[k].until == 0 || now < old(m)[k].until))
      ensures forall k :: k != key && k in m ==> m[k] == old(m)[k]
      ensures var alive := Alive(old(m), now);
              && r == StoreClaim(KeyOf(alive, key), floor, wanted, cap)
              && m == alive[key := Entry(r.used, if key in alive then alive[key].until else expireAt)]
    {
      var todo := m.Keys;
      while todo != {}
        invariant todo <= m.Keys
        invariant m.Keys <= old(m).Keys && forall k :: k in m ==> m[k] == old(m)[k]
        invariant forall k :: k in old(m) && k !in m ==> Expired(old(m)[k], now)
        invariant forall k :: k in m && k !in todo ==> !Expired(m[k], now)
        decreases todo
      {
        var k :| k in todo;
        todo := todo - {k};
        if m[k].until != 0 && m[k].until <= now { m := m - {k}; }
      }
      assert m == Alive(old(m), now);
      var c := if key in m then m[key] else Entry(0, expireAt);
      if c.used < floor { c := c.(used := floor); }
      var free := Min(wanted, Max(0, cap - c.used));
      m := m[key := c.(used := c.used + free)];
      r := Claimed(free, c.used + free);
    }
  }

  // ----- one attempt's claim over its token kinds, on the database rows -----

  type Units = n: nat | n > 0 witness 1

  /** A rate card, with the start of its period that holds the moment of the claim. */
  datatype Card = Card(metric: string, period: int, allowance: int, unitSize: Units, unitPrice: real)

  /** One kind of token: its card, if it has one, how many tokens are claimed, and what kudos add to the allowance. */
  datatype Demand = Demand(card: Option<Card>, wanted: int, bonus: nat)

  datatype RowKey = RowKey(subject: string, provider: string, metric: string, period: int)

  type Rows = map<RowKey, nat>

  /** The free tokens of a kind, their list price, and the list price of the whole quantity. */
  datatype Share = Share(tokens: nat, usd: real, cost: real)

  function CapOf(d: Demand): int { (if d.card.Some? then d.card.value.allowance else 0) + d.bonus }

  predicate Claims(d: Demand) { CapOf(d) > 0 && d.wanted > 0 }

  /** A claim of a kind without a card fails: its period cannot be read. */
  predicate Fails(d: Demand) { Claims(d) && d.card.None? }

  function ListPriceOf(tokens: nat, unitSize: Units, unitPrice: real): real {
    tokens as real / unitSize as real * unitPrice
  }

  function ListPrice(d: Demand, tokens: nat): real {
    if d.card.Some? then ListPriceOf(tokens, d.card.value.unitSize, d.card.value.unitPrice) else 0.0
  }

  function RowIn(rows: Rows, k: RowKey): Option<nat> { if k in rows then Some(rows[k]) else None }

  function KeyFor(subject: string, provider: string, d: Demand): RowKey
    requires d.card.Some?
  {
    RowKey(subject, provider, d.card.value.metric, d.card.value.period)
  }

  function ClaimOne(rows: Rows, subject: string, provider: string, d: Demand): (Rows, Share)
    requires !Fails(d)
  {
    var cost := ListPrice(d, Max(0, d.wanted));
    if !Claims(d) then (rows, Share(0, 0.0, cost))
    else
      var k := KeyFor(subject, provider, d);
      var c := RowClaim(RowIn(rows, k), d.wanted, CapOf(d));
      (rows[k := c.used], Share(c.free, ListPrice(d, c.free), cost))
  }

  predicate NoneFails(demands: seq<Demand>) { forall i :: 0 <= i < |demands| ==> !Fails(demands[i]) }

  function ClaimAll(rows: Rows, subject: string, provider: string, demands: seq<Demand>): (Rows, seq<Share>)
    requires NoneFails(demands)
  {
    if demands == [] then (rows, [])
    else
      var (before, shares) := ClaimAll(rows, subject, provider, demands[..|demands| - 1]);
      var (after, share) := ClaimOne(before, subject, provider, demands[|demands| - 1]);
      (after, shares + [share])
  }

  function Tokens(shares: seq<Share>): nat {
    if shares == [] then 0 else Tokens(shares[..|shares| - 1]) + shares[|shares| - 1].tokens
  }

  function Usd(shares: seq<Share>): real {
    if shares == [] then 0.0 else Usd(shares[..|shares| - 1]) + shares[|shares| - 1].usd
  }

  lemma OneDemandMore(rows: Rows, subject: string, provider: string, demands: seq<Demand>, i: nat)
    requires i < |demands| && NoneFails(demands[..i + 1])
    ensures NoneFails(demands[..i]) && !Fails(demands[i])
    ensures var (before, shares) := ClaimAll(rows, subject, provider, demands[..i]);
            var (after, share) := ClaimOne(before, subject, provider, demands[i]);
            ClaimAll(rows, subject, provider, demands[..i + 1]) == (after, shares + [share])
  {
    assert forall j :: 0 <= j < i ==> demands[..i][j] == demands[..i + 1][j];
    assert demands[..i + 1][i] == demands[i];
    assert demands[..i + 1][..i] == demands[..i];
  }

  lemma NoDemands(rows: Rows, subject: string, provider: string, demands: seq<Demand>)
    ensures ClaimAll(rows, subject, provider, demands[..0]) == (rows, []) && Tokens([]) == 0 && Usd([]) == 0.0
  {
  }

  lemma OneShareMore(shares: seq<Share>, share: Share)
    ensures Tokens(shares + [share]) == Tokens(shares) + share.tokens
    ensures Usd(shares + [share]) == Usd(shares) + share.usd
  {
    assert (shares + [share])[..|shares|] == shares;
  }

  /** Of a kind no more is free than was claimed, and its list price is no more than that of the whole. */
  lemma ShareIsWithin(rows: Rows, subject: string, provider: string, d: Demand)
    requires !Fails(d) && (d.card.Some? ==> d.card.value.unitPrice >= 0.0)
    ensures var share := ClaimOne(rows, subject, provider, d).1;
            share.tokens <= Max(0, d.wanted) && 0.0 <= share.usd <= share.cost
  {
    var share := ClaimOne(rows, subject, provider, d).1;
    if d.card.Some? {
      PriceMonotone(0, share.tokens, d.card.value.unitSize, d.card.value.unitPrice);
      PriceMonotone(share.tokens, Max(0, d.wanted), d.card.value.unitSize, d.card.value.unitPrice);
    }
  }

  lemma PriceMonotone(few: nat, many: nat, unitSize: Units, unitPrice: real)
    requires few <= many && unitPrice >= 0.0
    ensures ListPriceOf(few, unitSize, unitPrice) <= ListPriceOf(many, unitSize, unitPrice)
  {
    var a, b, u := few as real, many as real, unitSize as real;
    assert a / u <= b / u;
  }

  // ----- what a claim takes, in terms of the rows -----

  function UsedOf(rows: Rows, k: RowKey): nat { if k in rows then rows[k] else 0 }

  /** The allowance of a kind: its card's and what kudos add. */
  function Allowance(d: Demand): int { (if d.card.Some? then d.card.value.allowance else 0) + d.bonus }

  /** Is anything of this kind taken from this row? */
  predicate TakesFrom(d: Demand, subject: string, provider: string, k: RowKey) {
    && d.card.Some? && d.wanted > 0 && Allowance(d) > 0
    && k == RowKey(subject, provider, d.card.value.metric, d.card.value.period)
  }

  /** The free tokens the first `n` kinds took from a row. */
  function Taken(subject: string, provider: string, demands: seq<Demand>, shares: seq<Share>, n: nat, k: RowKey): nat
    requires n <= |demands| && n <= |shares|
  {
    if n == 0 then 0
    else
      Taken(subject, provider, demands, shares, n - 1, k)
      + (if TakesFrom(demands[n - 1], subject, provider, k) then shares[n - 1].tokens else 0)
  }

  /** A kind's free tokens: what is wanted, as far as the allowance is not used up on its row. */
  predicate FreeShare(d: Demand, share: Share, used: nat) {
    && share.tokens == (if d.wanted > 0 && Allowance(d) > 0 then Min(d.wanted, Max(0, Allowance(d) - used)) else 0)
    && (d.card.Some? ==>
          var c := d.card.value;
          && share.usd * c.unitSize as real == share.tokens as real * c.unitPrice
          && share.cost * c.unitSize as real == Max(0, d.wanted) as real * c.unitPrice)
  }

  function RowFor(subject: string, provider: string, d: Demand): RowKey {
    if d.card.Some? then RowKey(subject, provider, d.card.value.metric, d.card.value.period)
    else RowKey(subject, provider, "", 0)
  }

  /** Each kind got its free share of what its row had left after the kinds before it. */
  predicate SharesAre(before: Rows, subject: string, provider: string, demands: seq<Demand>, shares: seq<Share>) {
    && |shares| == |demands|
    && (forall i :: 0 <= i < |demands| ==>
          FreeShare(demands[i], shares[i], UsedBy(before, subject, provider, demands, shares, i)))
  }

  /** What is used of a kind's row when its turn comes. */
  function UsedBy(before: Rows, subject: string, provider: string, demands: seq<Demand>, shares: seq<Share>,
                  i: nat): nat
    requires i < |demands| && i <= |shares|
  {
    var k := RowFor(subject, provider, demands[i]);
    UsedOf(before, k) + Taken(subject, provider, demands, shares, i, k)
  }

  /** Every row grew by exactly what was taken from it. */
  ghost predicate RowsGrew(before: Rows, after: Rows, subject: string, provider: string, demands: seq<Demand>,
                           shares: seq<Share>)
    requires |shares| == |demands|
  {
    forall k :: UsedOf(after, k) == UsedOf(before, k) + Taken(subject, provider, demands, shares, |demands|, k)
  }

  lemma OneClaimRow(rows: Rows, subject: string, provider: string, d: Demand, k: RowKey)
    requires !Fails(d)
    ensures var (after, share) := ClaimOne(rows, subject, provider, d);
            UsedOf(after, k) == UsedOf(rows, k) + (if TakesFrom(d, subject, provider, k) then share.tokens else 0)
  {
    hide ListPrice;
  }

  lemma OneClaimTokens(rows: Rows, subject: string, provider: string, d: Demand)
    requires !Fails(d)
    ensures var share := ClaimOne(rows, subject, provider, d).1;
            var used := UsedOf(rows, RowFor(subject, provider, d));
            share.tokens == if d.wanted > 0 && Allowance(d) > 0 then Min(d.wanted, Max(0, Allowance(d) - used)) else 0
  {
    hide ListPrice;
  }

  lemma OneClaimPrice(rows: Rows, subject: string, provider: string, d: Demand)
    requires !Fails(d) && d.card.Some?
    ensures var share, c := ClaimOne(rows, subject, provider, d).1, d.card.value;
            && share.usd == ListPriceOf(share.tokens, c.unitSize, c.unitPrice)
            && share.cost == ListPriceOf(Max(0, d.wanted), c.unitSize, c.unitPrice)
  {
    PriceIs(0, d.card.value.unitSize, d.card.value.unitPrice);
    hide ListPriceOf;
  }

  lemma OneClaim(rows: Rows, subject: string, provider: string, d: Demand)
    requires !Fails(d)
    ensures FreeShare(d, ClaimOne(rows, subject, provider, d).1, UsedOf(rows, RowFor(subject, provider, d)))
  {
    hide ListPriceOf, ClaimOne, RowFor, UsedOf, Allowance, Fails;
    OneClaimTokens(rows, subject, provider, d);
    if d.card.Some? {
      var c, share := d.card.value, ClaimOne(rows, subject, provider, d).1;
      OneClaimPrice(rows, subject, provider, d);
      hide Min, Max;
      PriceIs(share.tokens, c.unitSize, c.unitPrice);
      PriceIs(Max(0, d.wanted), c.unitSize, c.unitPrice);
    }
  }

  lemma PriceIs(tokens: nat, unitSize: Units, unitPrice: real)
    ensures ListPriceOf(tokens, unitSize, unitPrice) * unitSize as real == tokens as real * unitPrice
    ensures tokens == 0 ==> ListPriceOf(tokens, unitSize, unitPrice) == 0.0
  {
    var q, u := tokens as real / unitSize as real, unitSize as real;
    assert q * u == tokens as real;
    assert q * unitPrice * u == (q * u) * unitPrice;
  }

  lemma {:induction false} TakenStays(subject: string, provider: string, demands: seq<Demand>, shares: seq<Share>,
                                     d: Demand, share: Share, n: nat, k: RowKey)
    requires n <= |demands| == |shares|
    ensures Taken(subject, provider, demands + [d], shares + [share], n, k) ==
            Taken(subject, provider, demands, shares, n, k)
  {
    if n > 0 {
      TakenStays(subject, provider, demands, shares, d, share, n - 1, k);
      assert (demands + [d])[n - 1] == demands[n - 1] && (shares + [share])[n - 1] == shares[n - 1];
    }
  }

  lemma SharesStay(before: Rows, subject: string, provider: string, demands: seq<Demand>, shares: seq<Share>,
                   d: Demand, share: Share)
    requires SharesAre(before, subject, provider, demands, shares)
    requires FreeShare(d, share, UsedOf(before, RowFor(subject, provider, d))
                                 + Taken(subject, provider, demands, shares, |demands|, RowFor(subject, provider, d)))
    ensures SharesAre(before, subject, provider, demands + [d], shares + [share])
  {
    hide FreeShare, Taken, UsedOf, RowFor;
    var n, ds, ss := |demands|, demands + [d], shares + [share];
    forall i | 0 <= i <= n ensures FreeShare(ds[i], ss[i], UsedBy(before, subject, provider, ds, ss, i)) {
      TakenStays(subject, provider, demands, shares, d, share, i, RowFor(subject, provider, ds[i]));
      if i < n { assert FreeShare(demands[i], shares[i], UsedBy(before, subject, provider, demands, shares, i)); }
    }
  }

  lemma TakenLast(subject: string, provider: string, demands: seq<Demand>, shares: seq<Share>, d: Demand, share: Share,
                  k: RowKey)
    requires |shares| == |demands|
    ensures Taken(subject, provider, demands + [d], shares + [share], |demands| + 1, k) ==
            Taken(subject, provider, demands, shares, |demands|, k)
            + (if TakesFrom(d, subject, provider, k) then share.tokens else 0)
  {
    TakenStays(subject, provider, demands, shares, d, share, |demands|, k);
    hide TakesFrom;
  }

  lemma OneShareAdded(before: Rows, mid: Rows, subject: string, provider: string, demands: seq<Demand>,
                      shares: seq<Share>, d: Demand)
    requires !Fails(d) && SharesAre(before, subject, provider, demands, shares)
    requires RowsGrew(before, mid, subject, provider, demands, shares)
    ensures var (after, share) := ClaimOne(mid, subject, provider, d);
            && SharesAre(before, subject, provider, demands + [d], shares + [share])
            && RowsGrew(before, after, subject, provider, demands + [d], shares + [share])
  {
    hide FreeShare, ClaimOne, TakesFrom, Taken, UsedOf, RowFor;
    var (after, share) := ClaimOne(mid, subject, provider, d);
    OneClaim(mid, subject, provider, d);
    var ds, ss := demands + [d], shares + [share];
    assert |ds| == |ss| == |demands| + 1;
    forall k ensures UsedOf(after, k) == UsedOf(before, k) + Taken(subject, provider, ds, ss, |ds|, k) {
      OneClaimRow(mid, subject, provider, d, k);
      TakenLast(subject, provider, demands, shares, d, share, k);
    }
    SharesStay(before, subject, provider, demands, shares, d, share);
  }

  lemma {:induction false} ClaimAllIs(rows: Rows, subject: string, provider: string, demands: seq<Demand>)
    requires NoneFails(demands)
    ensures var (after, shares) := ClaimAll(rows, subject, provider, demands);
            && SharesAre(rows, subject, provider, demands, shares)
            && RowsGrew(rows, after, subject, provider, demands, shares)
  {
    hide ClaimOne, SharesAre, RowsGrew;
    if demands == [] {
      NothingTaken(rows, subject, provider);
    } else {
      var front, d := demands[..|demands| - 1], demands[|demands| - 1];
      ClaimAllIs(rows, subject, provider, front);
      var (mid, shares) := ClaimAll(rows, subject, provider, front);
      OneShareAdded(rows, mid, subject, provider, front, shares, d);
      LastOf([], demands);
    }
  }

  lemma NothingTaken(rows: Rows, subject: string, provider: string)
    ensures SharesAre(rows, subject, provider, [], []) && RowsGrew(rows, rows, subject, provider, [], [])
  {
  }

  // ----- claim after claim of one kind -----

  /** The rows and the free tokens of claims of one kind, one transaction after the other. */
  function ClaimsOf(rows: Rows, subject: string, provider: string, card: Card, bonus: nat, asks: seq<nat>): (Rows, nat)
    decreases |asks|
  {
    if asks == [] then (rows, 0)
    else
      var (after, shares) := ClaimAll(rows, subject, provider, [Demand(Some(card), asks[0], bonus)]);
      var (end, more) := ClaimsOf(after, subject, provider, card, bonus, asks[1..]);
      (end, Tokens(shares) + more)
  }

  /**
   * Whatever is claimed of one kind in one period, the tokens granted are what was asked as far as the allowance
   * was not used before, and the row ends with all of them added.
   */
  lemma {:induction false} ClaimsEndAtTheCap(rows: Rows, subject: string, provider: string, card: Card, bonus: nat,
                                             asks: seq<nat>)
    ensures var (end, granted) := ClaimsOf(rows, subject, provider, card, bonus, asks);
            var k := RowKey(subject, provider, card.metric, card.period);
            && granted == Min(Asked(asks), Max(0, card.allowance + bonus - UsedOf(rows, k)))
            && UsedOf(end, k) == UsedOf(rows, k) + granted
    decreases |asks|
  {
    if asks != [] {
      var d := Demand(Some(card), asks[0], bonus);
      var k := RowKey(subject, provider, card.metric, card.period);
      var (after, shares) := ClaimAll(rows, subject, provider, [d]);
      ClaimAllIs(rows, subject, provider, [d]);
      OneTaken(rows, after, subject, provider, d, shares, k);
      hide ClaimAll, SharesAre, RowsGrew, Taken, Tokens;
      ClaimsEndAtTheCap(after, subject, provider, card, bonus, asks[1..]);
    }
  }

  lemma OneTaken(rows: Rows, after: Rows, subject: string, provider: string, d: Demand, shares: seq<Share>, k: RowKey)
    requires SharesAre(rows, subject, provider, [d], shares) && RowsGrew(rows, after, subject, provider, [d], shares)
    requires d.card.Some? && d.wanted >= 0 && k == RowKey(subject, provider, d.card.value.metric, d.card.value.period)
    ensures Tokens(shares) == Min(d.wanted, Max(0, Allowance(d) - UsedOf(rows, k)))
    ensures UsedOf(after, k) == UsedOf(rows, k) + Tokens(shares)
  {
    assert shares == [] + [shares[0]];
    OneShareMore([], shares[0]);
    assert Tokens([]) == 0;
    assert Taken(subject, provider, [d], shares, 1, k) ==
           Taken(subject, provider, [d], shares, 0, k)
           + (if TakesFrom(d, subject, provider, k) then shares[0].tokens else 0);
    hide Tokens;
  }

  datatype Granted = Granted(byKind: seq<Share>, tokens: nat, usd: real)

  class AllowanceRows {
    var rows: Rows

    constructor ()
      ensures rows == map[]
    {
      rows := map[];
    }

    /** One transaction: the shares of each kind, in the one fixed order, and their totals; a failure undoes it all. */
    method Claim(subject: string, provider: string, demands: seq<Demand>) returns (r: Option<Granted>)
      modifies this
      ensures r.Some? <==> NoneFails(demands)
      ensures r.None? ==> rows == old(rows)
      ensures r.Some? ==> (rows, r.value.byKind) == ClaimAll(old(rows), subject, provider, demands)
      ensures r.Some? ==> r.value.tokens == Tokens(r.value.byKind) && r.value.usd == Usd(r.value.byKind)
      ensures r.Some? ==> SharesAre(old(rows), subject, provider, demands, r.value.byKind)
      ensures r.Some? ==> RowsGrew(old(rows), rows, subject, provider, demands, r.value.byKind)
    {
      hide ClaimAll, Tokens, Usd, ListPrice, SharesAre, RowsGrew;
      NoDemands(rows, subject, provider, demands);
      var begun := rows;
      var byKind: seq<Share>, tokens: nat, usd := [], 0, 0.0;
      for i := 0 to |demands|
        invariant NoneFails(demands[..i])
        invariant (rows, byKind) == ClaimAll(old(rows), subject, provider, demands[..i])
        invariant tokens == Tokens(byKind) && usd == Usd(byKind)
      {
        var d := demands[i];
        var share := Share(0, 0.0, ListPrice(d, Max(0, d.wanted)));
        ghost var before := rows;
        if CapOf(d) > 0 && d.wanted > 0 {
          if d.card.None? {
            rows := begun;
            return None;
          }
          var k := KeyFor(subject, provider, d);
          if k !in rows { rows := rows[k := 0]; }
          var free := Min(d.wanted, Max(0, CapOf(d) - rows[k]));
          if free > 0 { rows := rows[k := rows[k] + free]; }
          share := share.(tokens := free, usd := ListPrice(d, free));
          assert rows == before[k := RowClaim(RowIn(before, k), d.wanted, CapOf(d)).used];
        }
        assert (rows, share) == ClaimOne(before, subject, provider, d);
        assert NoneFails(demands[..i + 1]);
        OneDemandMore(old(rows), subject, provider, demands, i);
        OneShareMore(byKind, share);
        byKind := byKind + [share];
        tokens := tokens + share.tokens;
        usd := usd + share.usd;
      }
      assert demands[..|demands|] == demands;
      ClaimAllIs(old(rows), subject, provider, demands);
      return Some(Granted(byKind, tokens, usd));
    }
  }

  // ----- without faults the three counters grant the same -----

  /** The tokens a sequence of claims is granted on a locked row. */
  function RowGrants(row: Option<nat>, asks: seq<nat>, cap: int): nat
    decreases |asks|
  {
    if asks == [] then 0
    else
      var c := RowClaim(row, asks[0], cap);
      c.free + RowGrants(Some(c.used), asks[1..], cap)
  }

  /** The same on the store, whose total each claim leaves in the mirror for the next. */
  function StoreGrants(key: Option<nat>, mirror: nat, asks: seq<nat>, cap: int): nat
    decreases |asks|
  {
    if asks == [] then 0
    else
      var c := StoreClaim(key, mirror, asks[0], cap);
      c.free + StoreGrants(Some(c.used), Max(mirror, c.used), asks[1..], cap)
  }

  function Asked(asks: seq<nat>): nat
    decreases |asks|
  {
    if asks == [] then 0 else asks[0] + Asked(asks[1..])
  }

  lemma {:induction false} RowGrantsUpToCap(row: Option<nat>, asks: seq<nat>, cap: int)
    ensures RowGrants(row, asks, cap) == Min(Asked(asks), Max(0, cap - (if row.Some? then row.value else 0)))
    decreases |asks|
  {
    if asks != [] { RowGrantsUpToCap(Some(RowClaim(row, asks[0], cap).used), asks[1..], cap); }
  }

  lemma {:induction false} StoreGrantsAsTheRow(key: Option<nat>, mirror: nat, asks: seq<nat>, cap: int)
    requires key.Some? ==> mirror <= key.value
    ensures StoreGrants(key, mirror, asks, cap) == RowGrants(Some(if key.Some? then key.value else mirror), asks, cap)
    decreases |asks|
  {
    if asks != [] {
      var c := StoreClaim(key, mirror, asks[0], cap);
      StoreGrantsAsTheRow(Some(c.used), Max(mirror, c.used), asks[1..], cap);
    }
  }

  /** From a fresh period, every implementation grants the smaller of the cap and the total asked. */
  lemma FaultFreeGrants(asks: seq<nat>, cap: nat)
    ensures RowGrants(None, asks, cap) == Min(cap, Asked(asks))
    ensures StoreGrants(None, 0, asks, cap) == Min(cap, Asked(asks))
  {
    RowGrantsUpToCap(None, asks, cap);
    RowGrantsUpToCap(Some(0), asks, cap);
    StoreGrantsAsTheRow(None, 0, asks, cap);
  }

  // ----- concurrent claims, lost keys and lost answers -----

  /** A claim that read the mirror and has not reached the store. */
  datatype Reading = Reading(floor: nat, wanted: nat)

  /** A claim the store answered, not yet committed: it took the tokens from `lo` up to `hi`. */
  datatype Answered = Answered(lo: nat, hi: nat)

  /** The store's counter (0 when the key is gone), the mirror, the committed free tokens, and the claims under way. */
  datatype State = State(store: nat, mirror: nat, granted: nat, readings: seq<Reading>, answers: seq<Answered>)

  const FRESH := State(0, 0, 0, [], [])

  datatype Event =
    | Read(wanted: nat)
    | Reach(i: nat)
    | Commit(i: nat)
    | DropAnswer(i: nat)
    | DropReading(i: nat)
    | LateClaim(floor: nat, wanted: nat)
    | LoseKey

  function RemoveAt<T>(s: seq<T>, i: nat): seq<T>
    requires i < |s|
  {
    s[..i] + s[i + 1..]
  }

  /** A lost answer is a timeout or a rolled-back transaction; a late claim is one applied after its caller gave up. */
  predicate Enabled(lossInFlight: bool, st: State, e: Event) {
    match e
    case Reach(i) => i < |st.readings|
    case Commit(i) => i < |st.answers|
    case DropAnswer(i) => i < |st.answers|
    case DropReading(i) => i < |st.readings|
    case LateClaim(floor, _) => floor <= st.mirror
    case LoseKey => lossInFlight || (st.readings == [] && st.answers == [])
    case Read(_) => true
  }

  function Next(cap: nat, st: State, e: Event): State
    requires Enabled(true, st, e)
  {
    match e
    case Read(wanted) => st.(readings := st.readings + [Reading(st.mirror, wanted)])
    case Reach(i) =>
      var r := st.readings[i];
      var c := StoreClaim(Some(st.store), r.floor, r.wanted, cap);
      st.(store := c.used, readings := RemoveAt(st.readings, i),
          answers := st.answers + [Answered(c.used - c.free, c.used)])
    case Commit(i) =>
      var a := st.answers[i];
      st.(mirror := Max(st.mirror, a.hi), granted := st.granted + Max(0, a.hi - a.lo),
          answers := RemoveAt(st.answers, i))
    case DropAnswer(i) => st.(answers := RemoveAt(st.answers, i))
    case DropReading(i) => st.(readings := RemoveAt(st.readings, i))
    case LateClaim(floor, wanted) => st.(store := StoreClaim(Some(st.store), floor, wanted, cap).used)
    case LoseKey => st.(store := 0)
  }

  predicate Runs(lossInFlight: bool, cap: nat, st: State, events: seq<Event>)
    decreases |events|
  {
    events == [] ||
    (Enabled(lossInFlight, st, events[0]) && Runs(lossInFlight, cap, Next(cap, st, events[0]), events[1..]))
  }

  function After(lossInFlight: bool, cap: nat, st: State, events: seq<Event>): State
    requires Runs(lossInFlight, cap, st, events)
    decreases |events|
  {
    if events == [] then st else After(lossInFlight, cap, Next(cap, st, events[0]), events[1..])
  }

  /** The tokens of the answered claims that end at or below `m`. */
  function Below(answers: seq<Answered>, m: nat): int {
    if answers == [] then 0
    else
      var a := answers[|answers| - 1];
      Below(answers[..|answers| - 1], m) + (if a.hi <= m then a.hi - a.lo else 0)
  }

  ghost predicate Apart(answers: seq<Answered>) {
    && (forall i :: 0 <= i < |answers| ==> answers[i].lo <= answers[i].hi)
    && (forall i, j :: 0 <= i < j < |answers| ==> answers[i].hi <= answers[j].lo)
  }

  ghost predicate Safe(cap: nat, st: State) {
    && st.mirror <= cap && st.store <= cap
    && Apart(st.answers)
    && (forall i :: 0 <= i < |st.answers| ==>
          && st.answers[i].hi <= st.store
          && (st.answers[i].hi <= st.mirror || st.mirror <= st.answers[i].lo))
    && (forall i :: 0 <= i < |st.readings| ==> st.readings[i].floor <= st.mirror)
    && (st.store >= st.mirror ||
        (st.answers == [] && forall i :: 0 <= i < |st.readings| ==> st.readings[i].floor == st.mirror))
    && st.granted + Below(st.answers, st.mirror) <= st.mirror
  }

  lemma {:induction false} BelowRemoved(answers: seq<Answered>, i: nat, m: nat)
    requires i < |answers|
    ensures Below(RemoveAt(answers, i), m) ==
            Below(answers, m) - (if answers[i].hi <= m then answers[i].hi - answers[i].lo else 0)
    decreases |answers|
  {
    var last := |answers| - 1;
    if i == last {
      assert RemoveAt(answers, i) == answers[..last];
    } else {
      BelowRemoved(answers[..last], i, m);
      assert RemoveAt(answers, i)[..last - 1] == RemoveAt(answers[..last], i);
    }
  }

  /** Claims that took tokens apart from one another, all between `low` and `high`, took no more than lies between. */
  lemma {:induction false} TakenBetween(answers: seq<Answered>, low: nat, high: nat)
    requires Apart(answers) && low <= high
    requires forall i :: 0 <= i < |answers| ==> answers[i].hi <= low || low <= answers[i].lo
    ensures Below(answers, high) <= Below(answers, low) + (high - low)
    ensures 0 <= Below(answers, low) <= Below(answers, high)
    decreases |answers|
  {
    if answers != [] {
      var front, a := answers[..|answers| - 1], answers[|answers| - 1];
      if a.hi <= low || a.hi > high {
        TakenBetween(front, low, high);
      } else {
        TakenBetween(front, low, a.lo);
        BelowUnchanged(front, a.lo, high);
        TakenBetween(front, low, high);
      }
    }
  }

  lemma {:induction false} BelowUnchanged(answers: seq<Answered>, low: nat, high: nat)
    requires low <= high && forall i :: 0 <= i < |answers| ==> answers[i].hi <= low
    ensures Below(answers, low) == Below(answers, high)
    decreases |answers|
  {
    if answers != [] { BelowUnchanged(answers[..|answers| - 1], low, high); }
  }

  lemma RemovedApart(answers: seq<Answered>, i: nat)
    requires Apart(answers) && i < |answers|
    ensures Apart(RemoveAt(answers, i))
    ensures forall j :: 0 <= j < |answers| - 1 ==> RemoveAt(answers, i)[j] == answers[if j < i then j else j + 1]
  {
  }

  lemma CommitSafe(cap: nat, st: State, i: nat)
    requires Safe(cap, st) && i < |st.answers|
    ensures Safe(cap, Next(cap, st, Commit(i)))
  {
    var a := st.answers[i];
    BelowRemoved(st.answers, i, st.mirror);
    RemovedApart(st.answers, i);
    if a.hi > st.mirror {
      var rest := RemoveAt(st.answers, i);
      BelowRemoved(st.answers, i, a.hi);
      TakenBetween(st.answers, st.mirror, a.lo);
      AtTheEdge(st.answers, i);
    }
  }

  /** Up to the end of a claim there is what lies up to its start, and the claim itself. */
  lemma {:induction false} AtTheEdge(answers: seq<Answered>, i: nat)
    requires Apart(answers) && i < |answers|
    ensures Below(answers, answers[i].hi) <= Below(answers, answers[i].lo) + (answers[i].hi - answers[i].lo)
    decreases |answers|
  {
    forall j | 0 <= j < |answers| ensures answers[j].hi <= answers[i].lo || answers[i].lo <= answers[j].lo {
      if j < i { assert answers[j].hi <= answers[i].lo; } else if i < j { assert answers[i].hi <= answers[j].lo; }
    }
    TakenBetween(answers, answers[i].lo, answers[i].hi);
  }

  lemma ReachSafe(cap: nat, st: State, i: nat)
    requires Safe(cap, st) && i < |st.readings|
    ensures Safe(cap, Next(cap, st, Reach(i)))
  {
    var st' := Next(cap, st, Reach(i));
    assert st'.answers[..|st.answers|] == st.answers;
    assert forall j :: 0 <= j < |st'.readings| ==> st'.readings[j] == st.readings[if j < i then j else j + 1];
  }

  lemma DropAnswerSafe(cap: nat, st: State, i: nat)
    requires Safe(cap, st) && i < |st.answers|
    ensures Safe(cap, Next(cap, st, DropAnswer(i)))
  {
    BelowRemoved(st.answers, i, st.mirror);
    RemovedApart(st.answers, i);
    assert st.answers[i].hi >= st.answers[i].lo;
  }

  lemma DropReadingSafe(cap: nat, st: State, i: nat)
    requires Safe(cap, st) && i < |st.readings|
    ensures Safe(cap, Next(cap, st, DropReading(i)))
  {
    var rest := RemoveAt(st.readings, i);
    assert forall j :: 0 <= j < |rest| ==> rest[j] == st.readings[if j < i then j else j + 1];
  }

  lemma NextSafe(cap: nat, st: State, e: Event)
    requires Safe(cap, st) && Enabled(false, st, e)
    ensures Safe(cap, Next(cap, st, e))
  {
    hide Apart, Below;
    match e
    case Reach(i) => ReachSafe(cap, st, i);
    case Commit(i) => CommitSafe(cap, st, i);
    case DropAnswer(i) => DropAnswerSafe(cap, st, i);
    case DropReading(i) => DropReadingSafe(cap, st, i);
    case _ =>
  }

  lemma {:induction false} RunSafe(cap: nat, st: State, events: seq<Event>)
    requires Safe(cap, st) && Runs(false, cap, st, events)
    ensures Safe(cap, After(false, cap, st, events))
    decreases |events|
  {
    if events != [] {
      NextSafe(cap, st, events[0]);
      RunSafe(cap, Next(cap, st, events[0]), events[1..]);
    }
  }

  lemma {:induction false} BelowIsNotNegative(answers: seq<Answered>, m: nat)
    requires Apart(answers)
    ensures Below(answers, m) >= 0
    decreases |answers|
  {
    if answers != [] { BelowIsNotNegative(answers[..|answers| - 1], m); }
  }

  lemma Prepend(loss: bool, cap: nat, st: State, e: Event, rest: seq<Event>)
    requires Enabled(loss, st, e) && Runs(loss, cap, Next(cap, st, e), rest)
    ensures Runs(loss, cap, st, [e] + rest)
    ensures After(loss, cap, st, [e] + rest) == After(loss, cap, Next(cap, st, e), rest)
  {
    assert ([e] + rest)[0] == e && ([e] + rest)[1..] == rest;
  }

  /** The key is lost between one claim's answer and its commit; the next claim starts from the old mirror. */
  lemma LossInFlightGrantsTwice(cap: nat) returns (events: seq<Event>)
    requires cap >= 1
    ensures Runs(true, cap, FRESH, events) && After(true, cap, FRESH, events).granted == 2 * cap
  {
    var s1 := Next(cap, FRESH, Read(cap));
    var s2 := Next(cap, s1, Reach(0));
    assert s2 == State(cap, 0, 0, [], [Answered(0, cap)]);
    var s3 := Next(cap, s2, LoseKey);
    var s4 := Next(cap, s3, Read(cap));
    var s5 := Next(cap, s4, Reach(0));
    assert s5 == State(cap, 0, 0, [], [Answered(0, cap), Answered(0, cap)]);
    var s6 := Next(cap, s5, Commit(0));
    assert s6 == State(cap, cap, cap, [], [Answered(0, cap)]);
    var s7 := Next(cap, s6, Commit(0));
    Prepend(true, cap, s6, Commit(0), []);
    var r6 := [Commit(0)] + [];
    Prepend(true, cap, s5, Commit(0), r6);
    var r5 := [Commit(0)] + r6;
    Prepend(true, cap, s4, Reach(0), r5);
    var r4 := [Reach(0)] + r5;
    Prepend(true, cap, s3, Read(cap), r4);
    var r3 := [Read(cap)] + r4;
    Prepend(true, cap, s2, LoseKey, r3);
    var r2 := [LoseKey] + r3;
    Prepend(true, cap, s1, Reach(0), r2);
    var r1 := [Reach(0)] + r2;
    Prepend(true, cap, FRESH, Read(cap), r1);
    events := [Read(cap)] + r1;
  }

  /**
   * Through any interleaving of claims, timeouts, rollbacks and late claims, the free tokens granted never pass the
   * cap, in every run, exactly when the key is never lost while a claim is under way.
   */
  lemma GrantsNeverPassTheCap(lossInFlight: bool, cap: nat)
    requires cap >= 1
    ensures (forall events: seq<Event> :: Runs(lossInFlight, cap, FRESH, events) ==>
               After(lossInFlight, cap, FRESH, events).granted <= cap)
       <==> !lossInFlight
  {
    if lossInFlight {
      var events := LossInFlightGrantsTwice(cap);
    } else {
      forall events: seq<Event> | Runs(false, cap, FRESH, events)
        ensures After(false, cap, FRESH, events).granted <= cap
      {
        RunSafe(cap, FRESH, events);
        BelowIsNotNegative(After(false, cap, FRESH, events).answers, After(false, cap, FRESH, events).mirror);
      }
    }
  }
}
