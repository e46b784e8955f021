/**
 * The integer arithmetic of a Balance hold: the charge of a token count, the output a cap can buy, the charge a
 * settle reports, and the half-price card of a batch. Money is whole nano-USD throughout.
 */
module CreditMath {
  import opened Common

  const PER_MILLION: nat := 1_000_000

  /** A retail card: nano-USD per million tokens of each kind, and nano-USD per request. */
  datatype Card = Card(input: nat, cachedRead: nat, cacheWrite: nat, output: nat, perRequest: nat)

  /** The four token counts a settle carries. */
  datatype Usage = Usage(input: nat, cached: nat, cacheWrite: nat, output: nat)

  datatype Plan = Plan(maxTokens: nat, amount: nat)

  datatype Refusal = BelowMinimumCost | NoOutputToken

  /** The price of `tokens` at `rate`, rounded up: the least whole amount that covers the exact price. */
  function ChargeNano(tokens: int, rate: nat): (charge: nat)
    ensures Max(0, tokens) * rate <= charge * PER_MILLION < Max(0, tokens) * rate + PER_MILLION
  {
    var t := Max(0, tokens);
    if t == 0 || rate == 0 then 0
    else
      var num := t * rate;
      var div := num / PER_MILLION;
      if num % PER_MILLION == 0 then div else div + 1
  }

  function RetailCharge(card: Card, u: Usage): nat {
    card.perRequest
    + ChargeNano(u.input, card.input) + ChargeNano(u.cached, card.cachedRead)
    + ChargeNano(u.cacheWrite, card.cacheWrite) + ChargeNano(u.output, card.output)
  }

  /** Each kind is charged at its own rate: the exact price, and for rounding less than one nano-USD for each kind. */
  lemma RetailChargeBounds(card: Card, u: Usage)
    ensures var exact := u.input * card.input + u.cached * card.cachedRead
                         + u.cacheWrite * card.cacheWrite + u.output * card.output;
            exact <= (RetailCharge(card, u) - card.perRequest) * PER_MILLION < exact + 4 * PER_MILLION
    ensures u == Usage(0, 0, 0, 0) ==> RetailCharge(card, u) == card.perRequest
  {
    hide ChargeNano;
    var a, b := ChargeNano(u.input, card.input), ChargeNano(u.cached, card.cachedRead);
    var c, d := ChargeNano(u.cacheWrite, card.cacheWrite), ChargeNano(u.output, card.output);
    NoTokens(card.input);
    NoTokens(card.cachedRead);
    NoTokens(card.cacheWrite);
    NoTokens(card.output);
    assert (a + b + c + d) * PER_MILLION == a * PER_MILLION + b * PER_MILLION + c * PER_MILLION + d * PER_MILLION;
  }

  /** A provider's reported counts as a settle reports them: the cached parts are taken out of the prompt. */
  function UsageOf(whole: int, cached: int, cacheWrite: int, output: int): (u: Usage)
    ensures u.input + u.cached + u.cacheWrite == Max(Max(0, whole), u.cached + u.cacheWrite)
    ensures u.cached == Max(0, cached) && u.cacheWrite == Max(0, cacheWrite) && u.output == Max(0, output)
  {
    var c := Max(0, cached);
    var w := Max(0, cacheWrite);
    Usage(Max(0, Max(0, whole) - c - w), c, w, Max(0, output))
  }

  function RequestedTokens(maxTokens: int): (n: nat)
    ensures n >= 1
    ensures maxTokens >= 1 ==> n == maxTokens
    ensures maxTokens == 0 ==> n == 1024
  {
    Max(1, if maxTokens == 0 then 1024 else maxTokens)
  }

  /** What is held for the prompt: the price of the request and the least amount that covers the estimated input. */
  function BaseCharge(card: Card, inputTokens: int): (base: nat)
    ensures var input := Max(0, inputTokens) * card.input;
            input <= (base - card.perRequest) * PER_MILLION < input + PER_MILLION
  {
    card.perRequest + ChargeNano(inputTokens, card.input)
  }

  /** The output a request can afford under its cap, and the amount to hold for it. */
  function Affordable(card: Card, inputTokens: int, maxTokens: int, cap: Option<int>): Result<Plan, Refusal> {
    var base := BaseCharge(card, inputTokens);
    var requested := RequestedTokens(maxTokens);
    if cap.None? then
      Ok(Plan(requested, base + ChargeNano(requested, card.output)))
    else if cap.value < base then
      Err(BelowMinimumCost)
    else if card.output > 0 then
      var can := (cap.value - base) * PER_MILLION / card.output;
      if can < 1 then Err(NoOutputToken)
      else
        var tokens := if can < requested then can else requested;
        Ok(Plan(tokens, base + ChargeNano(tokens, card.output)))
    else
      Ok(Plan(requested, base + ChargeNano(requested, card.output)))
  }

  // ----- facts about one charge -----

  lemma ChargeFits(tokens: nat, rate: nat, room: nat)
    ensures ChargeNano(tokens, rate) <= room <==> tokens * rate <= room * PER_MILLION
  {
  }

  lemma ChargeMonotone(a: int, b: int, rate: nat)
    requires a <= b
    ensures ChargeNano(a, rate) <= ChargeNano(b, rate)
  {
    MulMonotone(Max(0, a), Max(0, b), rate);
  }

  lemma ChargeMonotoneRate(tokens: int, low: nat, high: nat)
    requires low <= high
    ensures ChargeNano(tokens, low) <= ChargeNano(tokens, high)
  {
    MulMonotone(low, high, Max(0, tokens));
    assert Max(0, tokens) * low <= Max(0, tokens) * high;
  }

  /** Charging two parts apart costs at most one nano-USD more than charging them together. */
  lemma ChargeSplit(a: nat, b: nat, rate: nat)
    ensures ChargeNano(a, rate) + ChargeNano(b, rate)
         <= ChargeNano(a + b, rate) + (if b > 0 then 1 else 0)
  {
    assert (a + b) * rate == a * rate + b * rate;
  }

  // ----- the affordable output is the brute-force search -----

  /** The largest count in 1..n whose charge on top of `base` fits `limit`; 0 when none does. */
  function LargestFitting(base: nat, rate: nat, n: nat, limit: int): nat {
    if n == 0 then 0
    else if base + ChargeNano(n, rate) <= limit then n
    else LargestFitting(base, rate, n - 1, limit)
  }

  lemma {:induction false} LargestFittingIs(base: nat, rate: nat, n: nat, limit: int, k: nat)
    requires k <= n
    requires k > 0 ==> base + ChargeNano(k, rate) <= limit
    requires forall j :: k < j <= n ==> base + ChargeNano(j, rate) > limit
    ensures LargestFitting(base, rate, n, limit) == k
  {
    if k < n {
      LargestFittingIs(base, rate, n - 1, limit, k);
    }
  }

  /** Under a cap, `Affordable` answers exactly what trying every token count from the top would. */
  lemma AffordableIsSearch(card: Card, inputTokens: int, maxTokens: int, limit: int)
    ensures var base := BaseCharge(card, inputTokens);
            var k := LargestFitting(base, card.output, RequestedTokens(maxTokens), limit);
            match Affordable(card, inputTokens, maxTokens, Some(limit))
            case Ok(plan) => k >= 1 && plan.maxTokens == k && plan.amount == base + ChargeNano(k, card.output) <= limit
            case Err(_) => k == 0
  {
    var base := BaseCharge(card, inputTokens);
    var n := RequestedTokens(maxTokens);
    if limit < base || card.output == 0 {
      LargestFittingIs(base, card.output, n, limit, if limit < base then 0 else n);
    } else {
      AffordableCount(base, card.output, n, limit, (limit - base) * PER_MILLION / card.output);
    }
  }

  /** The floor division finds the same count as the search. */
  lemma AffordableCount(base: nat, rate: nat, n: nat, limit: int, can: int)
    requires rate > 0 && limit >= base && can == (limit - base) * PER_MILLION / rate
    ensures can >= 0
    ensures LargestFitting(base, rate, n, limit) == (if can < n then can else n)
    ensures can >= 1 && n >= 1 ==> base + ChargeNano(if can < n then can else n, rate) <= limit
  {
    forall j: nat ensures base + ChargeNano(j, rate) <= limit <==> j <= can {
      ChargeFits(j, rate, limit - base);
      FloorBound(j, (limit - base) * PER_MILLION, rate);
    }
    LargestFittingIs(base, rate, n, limit, if can < n then can else n);
  }

  lemma FloorBound(j: nat, x: nat, rate: nat)
    requires rate > 0
    ensures j * rate <= x <==> j <= x / rate
  {
    var q := x / rate;
    assert x == q * rate + x % rate;
    if j <= q { MulMonotone(j, q, rate); } else { MulMonotone(q + 1, j, rate); }
  }

  /** The refusal is exact: it happens when, and only when, not even one output token fits the cap. */
  lemma RefusedExactlyWhenOneTokenDoesNotFit(card: Card, inputTokens: int, maxTokens: int, cap: Option<int>)
    ensures Affordable(card, inputTokens, maxTokens, cap).Err?
       <==> cap.Some? && BaseCharge(card, inputTokens) + ChargeNano(1, card.output) > cap.value
  {
    if cap.Some? {
      AffordableIsSearch(card, inputTokens, maxTokens, cap.value);
      var base := BaseCharge(card, inputTokens);
      var n := RequestedTokens(maxTokens);
      if base + ChargeNano(1, card.output) > cap.value {
        forall j | 0 < j <= n ensures base + ChargeNano(j, card.output) > cap.value {
          ChargeMonotone(1, j, card.output);
        }
        LargestFittingIs(base, card.output, n, cap.value, 0);
      } else {
        FittingIsFound(base, card.output, n, cap.value);
      }
    }
  }

  lemma {:induction false} FittingIsFound(base: nat, rate: nat, n: nat, limit: int)
    requires n >= 1 && base + ChargeNano(1, rate) <= limit
    ensures LargestFitting(base, rate, n, limit) >= 1
  {
    if n > 1 { FittingIsFound(base, rate, n - 1, limit); }
  }

  /** Without a refusal, a plan always buys a token, never more than asked, and stays within the cap. */
  lemma PlanWithinCap(card: Card, inputTokens: int, maxTokens: int, cap: Option<int>)
    requires Affordable(card, inputTokens, maxTokens, cap).Ok?
    ensures var plan := Affordable(card, inputTokens, maxTokens, cap).value;
            && 1 <= plan.maxTokens <= RequestedTokens(maxTokens)
            && plan.amount == BaseCharge(card, inputTokens) + ChargeNano(plan.maxTokens, card.output)
            && (cap.Some? ==> plan.amount <= cap.value)
            && (cap.None? ==> plan.maxTokens == RequestedTokens(maxTokens))
  {
    if cap.Some? { AffordableIsSearch(card, inputTokens, maxTokens, cap.value); }
  }

  // ----- the settled charge against the hold -----

  /**
   * A run that stayed within its estimate and its clamp settles for at most the hold plus one nano-USD for each
   * cached kind it used: the rounding of the split prompt is the only thing a hold does not cover.
   */
  lemma SettledWithinHold(card: Card, estimate: nat, maxTokens: int, cap: Option<int>,
                          whole: int, cached: int, cacheWrite: int, output: int)
    requires Affordable(card, estimate, maxTokens, cap).Ok?
    requires card.cachedRead <= card.input && card.cacheWrite <= card.input
    requires Max(0, whole) <= estimate && Max(0, cached) + Max(0, cacheWrite) <= estimate
    requires output <= Affordable(card, estimate, maxTokens, cap).value.maxTokens
    ensures RetailCharge(card, UsageOf(whole, cached, cacheWrite, output))
         <= Affordable(card, estimate, maxTokens, cap).value.amount
            + (if cached > 0 then 1 else 0) + (if cacheWrite > 0 then 1 else 0)
  {
    var plan := Affordable(card, estimate, maxTokens, cap).value;
    var u := UsageOf(whole, cached, cacheWrite, output);
    PlanWithinCap(card, estimate, maxTokens, cap);
    hide Affordable, ChargeNano;
    ChargeMonotone(u.output, plan.maxTokens, card.output);
    ChargeMonotoneRate(u.cached, card.cachedRead, card.input);
    ChargeMonotoneRate(u.cacheWrite, card.cacheWrite, card.input);
    ChargeSplit(u.input, u.cached, card.input);
    ChargeSplit(u.input + u.cached, u.cacheWrite, card.input);
    ChargeMonotone(u.input + u.cached + u.cacheWrite, estimate, card.input);
  }

  /** Both extra nano-USD can really be charged, so the bound above is the best one. */
  lemma SettledCanPassHoldByTwo()
    ensures Affordable(Card(1, 1, 1, 0, 0), 3, 1, None) == Ok(Plan(1, 1))
    ensures RetailCharge(Card(1, 1, 1, 0, 0), UsageOf(3, 1, 1, 1)) == 1 + 2
  {
    assert ChargeNano(3, 1) == 1 && ChargeNano(1, 1) == 1 && ChargeNano(1, 0) == 0;
  }

  // ----- which cards a hold always covers -----

  /** Is every run that stays within its estimate and its clamp settled for at most its hold? */
  ghost predicate HoldCovers(card: Card) {
    forall r: Request, whole: int, cached: int, cacheWrite: int, output: int ::
      Within(card, r, whole, cached, cacheWrite, output) ==>
        RetailCharge(card, UsageOf(whole, cached, cacheWrite, output)) <= PlanOf(card, r).amount
  }

  /** What a hold is made for. */
  datatype Request = Request(estimate: nat, maxTokens: int, cap: Option<int>)

  function PlanOf(card: Card, r: Request): Plan {
    var plan := Affordable(card, r.estimate, r.maxTokens, r.cap);
    if plan.Ok? then plan.value else Plan(0, 0)
  }

  predicate Within(card: Card, r: Request, whole: int, cached: int, cacheWrite: int, output: int) {
    && Affordable(card, r.estimate, r.maxTokens, r.cap).Ok?
    && Max(0, whole) <= r.estimate && Max(0, cached) + Max(0, cacheWrite) <= r.estimate
    && output <= PlanOf(card, r).maxTokens
  }

  /** The input rate in whole nano-USD per token, as a rate per million. */
  function WholeRate(rate: nat): nat { rate / PER_MILLION * PER_MILLION }

  /**
   * A hold covers every run within its estimate and clamp, whatever the usage, exactly when both cached rates are
   * at most the input rate rounded down to whole nano-USD per token.
   */
  lemma HoldCoversExactly(card: Card)
    ensures HoldCovers(card)
       <==> card.cachedRead <= WholeRate(card.input) && card.cacheWrite <= WholeRate(card.input)
  {
    if card.cachedRead <= WholeRate(card.input) && card.cacheWrite <= WholeRate(card.input) {
      forall r: Request, whole: int, cached: int, cacheWrite: int, output: int
        | Within(card, r, whole, cached, cacheWrite, output)
        ensures RetailCharge(card, UsageOf(whole, cached, cacheWrite, output)) <= PlanOf(card, r).amount
      {
        WholeSharesAreCovered(card, r, whole, cached, cacheWrite, output);
      }
    } else {
      var r := OneCachedTokenPasses(card);
      var cached := if card.cachedRead > WholeRate(card.input) then 1 else 0;
      assert Within(card, r, PER_MILLION, cached, 1 - cached, 1);
    }
  }

  lemma WholeSharesAreCovered(card: Card, r: Request, whole: int, cached: int, cacheWrite: int, output: int)
    requires Within(card, r, whole, cached, cacheWrite, output)
    requires card.cachedRead <= WholeRate(card.input) && card.cacheWrite <= WholeRate(card.input)
    ensures RetailCharge(card, UsageOf(whole, cached, cacheWrite, output)) <= PlanOf(card, r).amount
  {
    var u := UsageOf(whole, cached, cacheWrite, output);
    PlanWithinCap(card, r.estimate, r.maxTokens, r.cap);
    hide Affordable, ChargeNano;
    ChargeMonotone(u.output, PlanOf(card, r).maxTokens, card.output);
    WholeShare(u.input, u.cached, card.input, card.cachedRead);
    WholeShare(u.input + u.cached, u.cacheWrite, card.input, card.cacheWrite);
    ChargeMonotone(u.input + u.cached + u.cacheWrite, r.estimate, card.input);
  }

  /** A part taken out of the prompt at a rate of whole nano-USD per token, or less, costs nothing extra. */
  lemma WholeShare(a: nat, part: nat, rate: nat, partRate: nat)
    requires partRate <= WholeRate(rate)
    ensures ChargeNano(a, rate) + ChargeNano(part, partRate) <= ChargeNano(a + part, rate)
  {
    ChargeMonotoneRate(part, partRate, WholeRate(rate));
    WholeCharge(part, rate / PER_MILLION);
    WholeShareFits(a, part, rate, rate / PER_MILLION, ChargeNano(a, rate), ChargeNano(a + part, rate));
  }

  lemma WholeCharge(tokens: nat, whole: nat)
    ensures ChargeNano(tokens, whole * PER_MILLION) == tokens * whole
  {
    assert tokens * (whole * PER_MILLION) == (tokens * whole) * PER_MILLION;
  }

  lemma WholeShareFits(a: nat, part: nat, rate: nat, whole: nat, low: nat, high: nat)
    requires whole * PER_MILLION <= rate
    requires low * PER_MILLION < a * rate + PER_MILLION && (a + part) * rate <= high * PER_MILLION
    ensures low + part * whole <= high
  {
    assert (a + part) * rate == a * rate + part * rate;
    MulMonotone(whole * PER_MILLION, rate, part);
    assert (part * whole) * PER_MILLION == (whole * PER_MILLION) * part;
    assert (low + part * whole) * PER_MILLION == low * PER_MILLION + (part * whole) * PER_MILLION;
  }

  /** Of a million prompt tokens one is cached, at a rate that is too high: the charge passes the hold. */
  lemma OneCachedTokenPasses(card: Card) returns (r: Request)
    requires card.cachedRead > WholeRate(card.input) || card.cacheWrite > WholeRate(card.input)
    ensures var cached := if card.cachedRead > WholeRate(card.input) then 1 else 0;
            && Within(card, r, PER_MILLION, cached, 1 - cached, 1)
            && RetailCharge(card, UsageOf(PER_MILLION, cached, 1 - cached, 1)) > PlanOf(card, r).amount
  {
    r := Request(PER_MILLION, 1, None);
    var cached := if card.cachedRead > WholeRate(card.input) then 1 else 0;
    var rate := if cached == 1 then card.cachedRead else card.cacheWrite;
    assert UsageOf(PER_MILLION, cached, 1 - cached, 1) == Usage(PER_MILLION - 1, cached, 1 - cached, 1);
    AllButOne(card.input);
    OneToken(rate, card.input / PER_MILLION);
    NoTokens(card.cachedRead);
    NoTokens(card.cacheWrite);
    hide ChargeNano;
  }

  lemma NoTokens(rate: nat)
    ensures ChargeNano(0, rate) == 0
  {
  }

  lemma AllButOne(rate: nat)
    ensures ChargeNano(PER_MILLION, rate) == rate
    ensures ChargeNano(PER_MILLION - 1, rate) == rate - rate / PER_MILLION
  {
    assert (PER_MILLION - 1) * rate == rate * PER_MILLION - rate;
    var whole, part := rate / PER_MILLION, rate % PER_MILLION;
    assert rate == whole * PER_MILLION + part;
  }

  lemma OneToken(rate: nat, whole: nat)
    requires rate > whole * PER_MILLION
    ensures ChargeNano(1, rate) >= whole + 1
  {
  }

  // ----- the half-price card -----

  function HalfCard(card: Card): Card {
    Card(card.input / 2, card.cachedRead / 2, card.cacheWrite / 2, card.output / 2, card.perRequest / 2)
  }

  /** What is left of the exact halved price of `tokens` after whole nano-USD are taken out. */
  function HalfRemainder(tokens: nat, rate: nat): (rem: nat)
    ensures rem < PER_MILLION
  {
    tokens * (rate / 2) % PER_MILLION
  }

  /** The least whole number of millions that holds `x`. */
  function Millions(x: nat): (m: nat)
    ensures x <= m * PER_MILLION < x + PER_MILLION
  {
    (x + PER_MILLION - 1) / PER_MILLION
  }

  /**
   * What rounding adds to twice the halved charge of one kind, less what it adds to the full charge: both are read
   * off the remainder and off the half that an odd rate loses.
   */
  function HalfExcess(tokens: nat, rate: nat): int {
    var rem := HalfRemainder(tokens, rate);
    (if rem > 0 then 2 else 0) - Millions(2 * rem + tokens * (rate % 2))
  }

  /** One kind's charge at the halved rate, doubled, passes its full charge by exactly that. */
  lemma HalfExcessIsTheDifference(tokens: nat, rate: nat)
    ensures 2 * ChargeNano(tokens, rate / 2) - ChargeNano(tokens, rate) == HalfExcess(tokens, rate)
  {
    var half := rate / 2;
    var q := tokens * half / PER_MILLION;
    var rem := HalfRemainder(tokens, rate);
    assert tokens * half == q * PER_MILLION + rem;
    assert rate == 2 * half + rate % 2;
    assert tokens * rate == 2 * (tokens * half) + tokens * (rate % 2);
    ChargeIs(tokens, half, q, rem, if rem > 0 then q + 1 else q);
    var odd := tokens * (rate % 2);
    ChargeIs(tokens, rate, 2 * q, 2 * rem + odd, 2 * q + Millions(2 * rem + odd));
  }

  /** A charge is the whole millions of the price, and the least that holds the rest. */
  lemma ChargeIs(tokens: nat, rate: nat, q: nat, rest: nat, charge: nat)
    requires tokens * rate == q * PER_MILLION + rest
    requires q * PER_MILLION + rest <= charge * PER_MILLION < q * PER_MILLION + rest + PER_MILLION
    ensures ChargeNano(tokens, rate) == charge
  {
  }

  /**
   * A kind passes half its full price by at most one nano-USD (doubled), and does so exactly when rounding up
   * the half costs more than half of what rounding up the whole does: the remainder says when.
   */
  lemma HalfExcessExactly(tokens: nat, rate: nat)
    ensures HalfExcess(tokens, rate) <= 1
    ensures var rem := HalfRemainder(tokens, rate);
            HalfExcess(tokens, rate) == 1 <==> rem > 0 && 2 * rem + tokens * (rate % 2) <= PER_MILLION
  {
    var odd := tokens * (rate % 2);
    assert 0 <= odd;
  }

  /**
   * On the half-price card, twice the charge is at most the full-card charge plus one nano-USD per token kind.
   * "Never more than half" holds for a usage exactly when its remainders say so: what rounding adds to the four
   * kinds is at most the half nano-USD that an odd request fee loses.
   */
  lemma HalfCardBound(card: Card, u: Usage)
    ensures 2 * RetailCharge(HalfCard(card), u) <= RetailCharge(card, u) + 4
    ensures 2 * RetailCharge(HalfCard(card), u) <= RetailCharge(card, u)
       <==> HalfExcess(u.input, card.input) + HalfExcess(u.cached, card.cachedRead)
            + HalfExcess(u.cacheWrite, card.cacheWrite) + HalfExcess(u.output, card.output) <= card.perRequest % 2
  {
    KindExcess(u.input, card.input);
    KindExcess(u.cached, card.cachedRead);
    KindExcess(u.cacheWrite, card.cacheWrite);
    KindExcess(u.output, card.output);
    hide ChargeNano, HalfExcess;
  }

  lemma KindExcess(tokens: nat, rate: nat)
    ensures HalfExcess(tokens, rate) <= 1
    ensures 2 * ChargeNano(tokens, rate / 2) == ChargeNano(tokens, rate) + HalfExcess(tokens, rate)
  {
    HalfExcessIsTheDifference(tokens, rate);
    HalfExcessExactly(tokens, rate);
  }

  /** One token at two nano-USD per million is charged one nano-USD on both cards: more than half. */
  lemma HalfCardCanPassHalf()
    ensures var card, u := Card(2, 0, 0, 0, 0), Usage(1, 0, 0, 0);
            2 * RetailCharge(HalfCard(card), u) > RetailCharge(card, u)
  {
    assert ChargeNano(1, 1) == 1 && ChargeNano(1, 2) == 1;
    assert ChargeNano(0, 0) == 0;
  }

  ghost predicate NeverMoreThanHalf(card: Card) {
    forall u: Usage :: 2 * RetailCharge(HalfCard(card), u) <= RetailCharge(card, u)
  }

  /**
   * Is there a token count at which this rate's halved charge is more than half? For an even rate there is one
   * unless the half is a whole number of nano-USD per token; an odd rate also loses enough when the half is half a
   * nano-USD per token past a whole one, or just below the next.
   */
  predicate CanExceed(rate: nat) {
    var rem := rate / 2 % PER_MILLION;
    rem != 0 && (rate % 2 == 1 ==> rem != PER_MILLION / 2 && rem != PER_MILLION - 1)
  }

  function Exceeding(rate: nat): nat { if CanExceed(rate) then 1 else 0 }

  /**
   * A card is never charged at more than half, whatever the usage, exactly when no more of its four rates can exceed
   * their half than an odd request fee makes up for: none for an even fee, one for an odd one.
   */
  lemma NeverMoreThanHalfExactly(card: Card)
    ensures NeverMoreThanHalf(card)
       <==> Exceeding(card.input) + Exceeding(card.cachedRead) + Exceeding(card.cacheWrite) + Exceeding(card.output)
            <= card.perRequest % 2
  {
    hide CanExceed, HalfExcess, RetailCharge;
    if Exceeding(card.input) + Exceeding(card.cachedRead) + Exceeding(card.cacheWrite) + Exceeding(card.output)
       <= card.perRequest % 2 {
      forall u: Usage ensures 2 * RetailCharge(HalfCard(card), u) <= RetailCharge(card, u) {
        ExcessBound(u.input, card.input);
        ExcessBound(u.cached, card.cachedRead);
        ExcessBound(u.cacheWrite, card.cacheWrite);
        ExcessBound(u.output, card.output);
        HalfCardBound(card, u);
      }
    } else {
      var u := Usage(MostExcess(card.input), MostExcess(card.cachedRead),
                     MostExcess(card.cacheWrite), MostExcess(card.output));
      MostExcessIs(card.input);
      MostExcessIs(card.cachedRead);
      MostExcessIs(card.cacheWrite);
      MostExcessIs(card.output);
      HalfCardBound(card, u);
      assert !(2 * RetailCharge(HalfCard(card), u) <= RetailCharge(card, u));
    }
  }

  lemma RemainderOf(x: int, q: int, r: nat)
    requires x == q * PER_MILLION + r && r < PER_MILLION
    ensures x % PER_MILLION == r
  {
  }

  /** Each of `tokens` steps lowers the remainder by `gap`. */
  lemma ScaledRate(tokens: nat, whole: nat, gap: int)
    ensures tokens * (whole * PER_MILLION + (PER_MILLION - gap))
         == (tokens * whole + tokens - 1) * PER_MILLION + (PER_MILLION - tokens * gap)
  {
    assert tokens * (whole * PER_MILLION) == (tokens * whole) * PER_MILLION;
    assert tokens * (PER_MILLION - gap) == tokens * PER_MILLION - tokens * gap;
    var a, b := whole * PER_MILLION, PER_MILLION - gap;
    assert tokens * (a + b) == tokens * a + tokens * b;
  }

  /** The remainder of `tokens` at this rate is that of `tokens` times the remainder of one. */
  lemma RemainderScales(tokens: nat, rate: nat)
    ensures HalfRemainder(tokens, rate) == tokens * (rate / 2 % PER_MILLION) % PER_MILLION
  {
    var half := rate / 2;
    var whole, part := half / PER_MILLION, half % PER_MILLION;
    var low := tokens * part % PER_MILLION;
    assert half == whole * PER_MILLION + part;
    assert tokens * half == (tokens * whole) * PER_MILLION + tokens * part;
    assert tokens * part == (tokens * part / PER_MILLION) * PER_MILLION + low;
    assert tokens * half == (tokens * whole + tokens * part / PER_MILLION) * PER_MILLION + low;
    RemainderOf(tokens * half, tokens * whole + tokens * part / PER_MILLION, low);
  }

  /** Half a nano-USD per token leaves nothing or one half. */
  lemma HalvesRemain(tokens: nat)
    ensures tokens * (PER_MILLION / 2) % PER_MILLION in {0, PER_MILLION / 2}
  {
    var k := tokens / 2;
    assert tokens == 2 * k + tokens % 2;
    assert tokens * (PER_MILLION / 2) == k * PER_MILLION + (tokens % 2) * (PER_MILLION / 2);
    RemainderOf(tokens * (PER_MILLION / 2), k, (tokens % 2) * (PER_MILLION / 2));
  }

  /** Just below one nano-USD per token leaves a million less the tokens. */
  lemma NearlyOneRemains(tokens: nat)
    requires 1 <= tokens < PER_MILLION
    ensures tokens * (PER_MILLION - 1) % PER_MILLION == PER_MILLION - tokens
  {
    assert tokens * (PER_MILLION - 1) == (tokens - 1) * PER_MILLION + (PER_MILLION - tokens);
    RemainderOf(tokens * (PER_MILLION - 1), tokens - 1, PER_MILLION - tokens);
  }

  /** A rate that cannot exceed its half never does; any other exceeds it by at most one. */
  lemma ExcessBound(tokens: nat, rate: nat)
    ensures HalfExcess(tokens, rate) <= Exceeding(rate)
  {
    HalfExcessExactly(tokens, rate);
    if !CanExceed(rate) {
      RemainderScales(tokens, rate);
      var part := rate / 2 % PER_MILLION;
      if part == 0 {
        assert tokens * part == 0;
      } else if part == PER_MILLION / 2 {
        HalvesRemain(tokens);
      } else if 1 <= tokens < PER_MILLION {
        NearlyOneRemains(tokens);
      }
    }
  }

  /** A token count at which a rate exceeds its half, when there is one. */
  function MostExcess(rate: nat): (tokens: nat) {
    var part := rate / 2 % PER_MILLION;
    if !CanExceed(rate) then 0
    else if 2 * part <= PER_MILLION then 1
    else (PER_MILLION - 1) / (PER_MILLION - part)
  }

  lemma MostExcessIs(rate: nat)
    ensures HalfExcess(MostExcess(rate), rate) == Exceeding(rate)
  {
    var tokens := MostExcess(rate);
    var half := rate / 2;
    var whole, part := half / PER_MILLION, half % PER_MILLION;
    HalfExcessExactly(tokens, rate);
    if CanExceed(rate) && tokens != 1 {
      // The last step before zero leaves at most `gap`, which is less than half a million.
      var gap := PER_MILLION - part;
      StepsBelow(gap, tokens);
      ScaledRate(tokens, whole, gap);
      RemainderOf(tokens * half, tokens * whole + tokens - 1, PER_MILLION - tokens * gap);
      if rate % 2 == 1 { StepsLeaveRoom(gap, tokens); }
    }
  }

  lemma StepsBelow(gap: nat, steps: nat)
    requires 0 < gap && steps == (PER_MILLION - 1) / gap
    ensures 0 < PER_MILLION - steps * gap <= gap
  {
    assert PER_MILLION - 1 == steps * gap + (PER_MILLION - 1) % gap;
  }

  /** Twice the gap and the steps it takes fit in a million. */
  lemma StepsLeaveRoom(gap: nat, steps: nat)
    requires 2 <= gap && 2 * gap < PER_MILLION && steps == (PER_MILLION - 1) / gap
    ensures 2 * gap + steps <= PER_MILLION
  {
    StepsBelow(gap, steps);
    assert steps >= 2 by {
      if steps <= 1 {
        MulMonotone(steps, 1, gap);
        assert false;
      }
    }
    MulMonotone(0, gap - 2, steps - 2);
    assert (gap - 2) * (steps - 2) == steps * gap - 2 * gap - 2 * steps + 4;
  }
}
