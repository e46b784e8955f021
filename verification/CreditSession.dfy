/**
 * One request's Balance session: the hold it opens before the first managed attempt, the extensions it asks for
 * while an answer streams, and the settle or release that ends it.
 *
 * `Session` is the session as a value, with one function for each block the service runs without a pause.
 * `BalanceSession` is the session the service keeps, whose methods update its fields. Billing's answers are
 * parameters: it grants exactly what was asked, or refuses and grants nothing.
 */
module CreditSession {
  import opened Common
  import opened CreditMath

  /** What a session is begun with. */
  datatype Config = Config(inputTokens: nat, maxCost: Option<int>, half: bool)

  /** An offer about to be attempted: is it managed supply, is it paid for, its card, the output asked. */
  datatype Offer = Offer(managed: bool, paid: bool, retail: Option<Card>, maxTokens: int)

  /** Billing's answer. A refusal is `short` when it is the Balance, not Billing, that stops the extension. */
  datatype Answer = Granted | Refused(short: bool)

  datatype Outcome = NotBalance | Clamp(tokens: nat) | Skip | Fail

  /** What was asked of Billing, if anything. */
  datatype Call = NoCall | CreateHold(amount: nat) | Extend(add: int) | SendSettle | SendRelease

  datatype Session = Session(cfg: Config, live: bool, held: int, card: Option<Card>, streamed: nat,
                             settled: bool, released: bool, refused: bool, pending: Option<int>)

  const ZERO_CARD := Card(0, 0, 0, 0, 0)

  function Begin(cfg: Config): Session {
    Session(cfg, false, 0, None, 0, false, false, false, None)
  }

  /** The card a request is charged on: the retail card, for a batch with every rate halved and rounded down. */
  function ChargedCard(cfg: Config, retail: Option<Card>): (card: Option<Card>)
    ensures card.Some? <==> retail.Some?
    ensures !cfg.half ==> card == retail
    ensures cfg.half && retail.Some? ==>
              var c, r := card.value, retail.value;
              && 2 * c.input <= r.input <= 2 * c.input + 1 && 2 * c.cachedRead <= r.cachedRead <= 2 * c.cachedRead + 1
              && 2 * c.cacheWrite <= r.cacheWrite <= 2 * c.cacheWrite + 1
              && 2 * c.output <= r.output <= 2 * c.output + 1
              && 2 * c.perRequest <= r.perRequest <= 2 * c.perRequest + 1
  {
    if retail.Some? && cfg.half then Some(HalfCard(retail.value)) else retail
  }

  function Route(s: Session, offer: Option<Offer>, answer: Answer): (Session, Outcome, Call) {
    if s.settled || s.released || offer.None? then (s, NotBalance, NoCall) else
    var card := ChargedCard(s.cfg, offer.value.retail);
    if !offer.value.paid then
      (if s.live then s.(card := Some(if card.Some? then card.value else ZERO_CARD)) else s, NotBalance, NoCall)
    else if !offer.value.managed then (s, NotBalance, NoCall)
    else if card.None? then (s, Fail, NoCall)
    else
      var requested := RequestedTokens(offer.value.maxTokens);
      match Affordable(card.value, s.cfg.inputTokens, requested, s.cfg.maxCost)
      case Err(_) => (s, if s.live then Skip else Fail, NoCall)
      case Ok(plan) =>
        var s1 := s.(card := card);
        if !s.live then
          var s2 := s1.(held := plan.amount);
          if answer.Granted? then (s2.(live := true), Clamp(plan.maxTokens), CreateHold(plan.amount))
          else (s2, Fail, CreateHold(plan.amount))
        else if plan.amount > s.held then
          var add := plan.amount - s.held;
          if answer.Granted? then (s1.(held := plan.amount), Clamp(plan.maxTokens), Extend(add))
          else (s1, if answer.short then Skip else Fail, Extend(add))
        else (s1, Clamp(plan.maxTokens), NoCall)
  }

  /** The projected charge of what has streamed so far. */
  function Projected(s: Session): nat {
    if s.card.Some? then RetailCharge(s.card.value, Usage(0, 0, 0, (s.streamed + 3) / 4)) else 0
  }

  predicate NearHold(s: Session) {
    if s.held > 0 then Projected(s) * 5 >= s.held * 4 else Projected(s) > 0
  }

  function Step(s: Session): int {
    var step := if s.held > 0 then s.held else Projected(s);
    Max(1, step)
  }

  function MaybeExtend(s: Session): (Session, Call) {
    if !s.live || s.refused || s.settled || s.released || s.pending.Some? || !NearHold(s) then (s, NoCall)
    else if s.cfg.maxCost.Some? then
      var room := s.cfg.maxCost.value - s.held;
      if room <= 0 then (s.(refused := true), NoCall)
      else
        var step := Min(Step(s), room);
        (s.(held := s.held + step, pending := Some(step)), Extend(step))
    else (s.(held := s.held + Step(s), pending := Some(Step(s))), Extend(Step(s)))
  }

  /** One streamed delta of `chars` characters of text. */
  function Observe(s: Session, chars: nat): (Session, Call) {
    if !s.live || s.settled || s.released || s.refused || chars == 0 then (s, NoCall)
    else MaybeExtend(s.(streamed := s.streamed + chars))
  }

  /** Billing answers the pending extension. */
  function Answered(s: Session, answer: Answer): Session
    requires s.pending.Some?
  {
    if answer.Granted? then s.(pending := None)
    else s.(held := s.held - s.pending.value, refused := s.refused || answer.short, pending := None)
  }

  function Release(s: Session, answer: Answer): (Session, Call) {
    if !s.live || s.settled || s.released then (s, NoCall)
    else (s.(released := answer.Granted?), SendRelease)
  }

  /** The settle, once no extension is pending: a batch whose route cost too much is released instead. */
  function Settle(s: Session, costOk: bool, answer: Answer): (Session, Call) {
    if !s.live || s.settled || s.released then (s, NoCall)
    else if !costOk then Release(s, answer)
    else (s.(settled := answer.Granted?), SendSettle)
  }

  /** The session object the service keeps for one request. */
  class BalanceSession {
    const cfg: Config
    var live: bool
    var held: int
    var card: Option<Card>
    var streamed: nat
    var settled: bool
    var released: bool
    var refused: bool
    var pending: Option<int>

    function State(): Session
      reads this
    {
      Session(cfg, live, held, card, streamed, settled, released, refused, pending)
    }

    constructor (cfg: Config)
      ensures this.cfg == cfg && State() == Begin(cfg)
    {
      this.cfg := cfg;
      live, held, card, streamed := false, 0, None, 0;
      settled, released, refused, pending := false, false, false, None;
    }

    method OnRoute(offer: Option<Offer>, answer: Answer) returns (outcome: Outcome, call: Call)
      modifies this
      ensures (State(), outcome, call) == Route(old(State()), offer, answer)
    {
      outcome, call := NotBalance, NoCall;
      if settled || released || offer.None? { return; }
      var charged := ChargedCard(cfg, offer.value.retail);
      if !offer.value.paid {
        if live { card := Some(if charged.Some? then charged.value else ZERO_CARD); }
        return;
      }
      if !offer.value.managed { return; }
      if charged.None? { outcome := Fail; return; }
      var plan := Affordable(charged.value, cfg.inputTokens, RequestedTokens(offer.value.maxTokens), cfg.maxCost);
      if plan.Err? {
        outcome := if live then Skip else Fail;
        return;
      }
      card := charged;
      outcome := Clamp(plan.value.maxTokens);
      if !live {
        held := plan.value.amount;
        call := CreateHold(held);
        if answer.Granted? { live := true; } else { outcome := Fail; }
      } else if plan.value.amount > held {
        call := Extend(plan.value.amount - held);
        if answer.Granted? {
          held := plan.value.amount;
        } else {
          outcome := if answer.short then Skip else Fail;
        }
      }
    }

    method ExtendWhenNear() returns (call: Call)
      modifies this
      ensures (State(), call) == MaybeExtend(old(State()))
      ensures card.Some? && old(held) >= 0 ==>
                var charge := card.value.perRequest + ChargeNano((streamed + 3) / 4, card.value.output);
                && (call.Extend?
                    <==> && live && !settled && !released && !old(refused) && old(pending).None?
                         && (cfg.maxCost.Some? ==> old(held) < cfg.maxCost.value)
                         && (if old(held) > 0 then 5 * charge >= 4 * old(held) else charge > 0))
                && held == old(held) + (if call.Extend? then call.add else 0)
      ensures unchanged(`card) && unchanged(`live) && unchanged(`settled) && unchanged(`released)
    {
      hide ChargeNano, Projected, NearHold;
      if card.Some? && held >= 0 { ExtensionAsks(State(), card.value, (streamed + 3) / 4); }
      call := NoCall;
      if !live || refused || settled || released || pending.Some? { return; }
      if !NearHold(State()) { return; }
      var step := if held > 0 then held else Projected(State());
      if step <= 0 { step := 1; }
      if cfg.maxCost.Some? {
        var room := cfg.maxCost.value - held;
        if room <= 0 { refused := true; return; }
        if step > room { step := room; }
      }
      held := held + step;
      pending := Some(step);
      call := Extend(step);
    }

    method OnDelta(chars: nat) returns (call: Call)
      modifies this
      ensures (State(), call) == Observe(old(State()), chars)
      ensures old(card).Some? && old(held) >= 0 ==>
                var c, tokens := old(card).value, (old(streamed) + chars + 3) / 4;
                var charge := c.perRequest + ChargeNano(tokens, c.output);
                && (call.Extend?
                    <==> && live && !settled && !released && !old(refused) && old(pending).None? && chars > 0
                         && (cfg.maxCost.Some? ==> old(held) < cfg.maxCost.value)
                         && (if old(held) > 0 then 5 * charge >= 4 * old(held) else charge > 0))
                && held == old(held) + (if call.Extend? then call.add else 0)
      ensures unchanged(`card) && unchanged(`live) && unchanged(`settled) && unchanged(`released)
    {
      hide MaybeExtend, ChargeNano;
      if card.Some? && held >= 0 { DeltaAsks(State(), card.value, chars, (streamed + chars + 3) / 4); }
      call := NoCall;
      if !live || settled || released || refused || chars == 0 { return; }
      streamed := streamed + chars;
      call := ExtendWhenNear();
    }

    method OnAnswer(answer: Answer)
      requires pending.Some?
      modifies this
      ensures State() == Answered(old(State()), answer)
      ensures pending == None && held == (if answer.Granted? then old(held) else old(held) - old(pending).value)
      ensures refused <==> old(refused) || answer == Refused(true)
    {
      if answer.Refused? {
        held := held - pending.value;
        if answer.short { refused := true; }
      }
      pending := None;
    }

    method DoRelease(answer: Answer) returns (call: Call)
      modifies this
      ensures (State(), call) == Release(old(State()), answer)
    {
      call := NoCall;
      if !live || settled || released { return; }
      released := true;
      call := SendRelease;
      if answer.Refused? { released := false; }
    }

    method DoSettle(costOk: bool, answer: Answer) returns (call: Call)
      requires pending.None?
      modifies this
      ensures (State(), call) == Settle(old(State()), costOk, answer)
    {
      call := NoCall;
      if !live || settled || released { return; }
      if !costOk {
        call := DoRelease(answer);
        return;
      }
      settled := true;
      call := SendSettle;
      if answer.Refused? { settled := false; }
    }
  }

  // ----- the session beside Billing, over whole runs -----

  datatype Event =
    | Routed(offer: Option<Offer>, answer: Answer)
    | Delta(chars: nat)
    | ExtendAnswer(answer: Answer)
    | Settling(costOk: bool, answer: Answer)
    | Releasing(answer: Answer)

  /**
   * A session and the amount Billing granted it, with what its mid-stream extensions came to: how many doubled the
   * hold, started it from zero or brought it to the cap, the first hold and the largest projected charge.
   */
  datatype World = World(s: Session, granted: int, first: int, peak: nat, doubled: nat, started: nat, capped: nat)

  function Start(cfg: Config): World { World(Begin(cfg), 0, 0, 0, 0, 0, 0) }

  /** The driver's order: a route or a settle waits for the pending extension, and an answer needs a question. */
  predicate Enabled(w: World, e: Event) {
    match e
    case Routed(_, _) => w.s.pending.None?
    case Settling(_, _) => w.s.pending.None?
    case ExtendAnswer(_) => w.s.pending.Some?
    case _ => true
  }

  function Next(w: World, e: Event): World
    requires Enabled(w, e)
  {
    match e
    case Routed(offer, answer) =>
      var (s', _, call) := Route(w.s, offer, answer);
      if answer.Refused? || call.NoCall? then w.(s := s')
      else if call.CreateHold? then w.(s := s', granted := w.granted + call.amount, first := call.amount)
      else if call.Extend? then w.(s := s', granted := w.granted + call.add)
      else w.(s := s')
    case Delta(chars) =>
      var (s', call) := Observe(w.s, chars);
      w.(s := s', peak := if call.Extend? then Max(w.peak, Projected(s')) else w.peak)
    case ExtendAnswer(answer) =>
      var step := w.s.pending.value;
      var s' := Answered(w.s, answer);
      if answer.Refused? then w.(s := s')
      else
        var before := w.s.held - step;
        var w1 := w.(s := s', granted := w.granted + step);
        if step == before then w1.(doubled := w.doubled + 1)
        else if w.s.cfg.maxCost == Some(w.s.held) then w1.(capped := w.capped + 1)
        else w1.(started := w.started + 1)
    case Settling(costOk, answer) => w.(s := Settle(w.s, costOk, answer).0)
    case Releasing(answer) => w.(s := Release(w.s, answer).0)
  }

  /** What an event asks of Billing. */
  function CallOf(w: World, e: Event): Call {
    match e
    case Routed(offer, answer) => Route(w.s, offer, answer).2
    case Delta(chars) => Observe(w.s, chars).1
    case ExtendAnswer(_) => NoCall
    case Settling(costOk, answer) => Settle(w.s, costOk, answer).1
    case Releasing(answer) => Release(w.s, answer).1
  }

  /** Everything a run asks of Billing, in order. */
  function Calls(w: World, events: seq<Event>): seq<Call>
    requires Runs(w, events)
    decreases |events|
  {
    if events == [] then []
    else (if CallOf(w, events[0]).NoCall? then [] else [CallOf(w, events[0])]) + Calls(Next(w, events[0]), events[1..])
  }

  predicate Runs(w: World, events: seq<Event>)
    decreases |events|
  {
    events == [] || (Enabled(w, events[0]) && Runs(Next(w, events[0]), events[1..]))
  }

  function After(w: World, events: seq<Event>): World
    requires Runs(w, events)
    decreases |events|
  {
    if events == [] then w else After(Next(w, events[0]), events[1..])
  }

  function Outstanding(s: Session): int { if s.pending.Some? then s.pending.value else 0 }

  function Base(w: World): int { Max(1, w.first) }

  ghost predicate Accounted(w: World) {
    && (w.s.live ==> w.s.held == w.granted + Outstanding(w.s))
    && (w.s.live && w.s.cfg.maxCost.Some? ==> w.s.held <= w.s.cfg.maxCost.value)
    && (!w.s.live ==> w.granted == 0 && w.s.pending.None? && w.s.streamed == 0 && !w.s.settled && !w.s.released)
    && (w.s.pending.Some? ==> w.s.pending.value >= 1 && w.s.streamed > 0)
    && 0 <= w.first <= w.granted
  }

  ghost predicate FewExtensions(w: World) {
    && w.started <= 1 && (w.started == 1 ==> w.granted >= 1)
    && w.capped <= 1 && (w.capped == 1 ==> w.s.pending.None? && w.s.cfg.maxCost == Some(w.granted))
    && (!w.s.live ==> w.doubled == w.started == w.capped == 0)
    && (w.s.pending.Some? ==> 4 * w.granted <= 5 * w.peak)
    && (w.s.pending.Some? && w.s.pending.value != w.granted && w.s.cfg.maxCost != Some(w.s.held) ==> w.granted == 0)
    && (w.doubled > 0 ==> w.granted >= Pow2(w.doubled) * Base(w) && 4 * (Pow2(w.doubled - 1) * Base(w)) <= 5 * w.peak)
  }

  lemma NextAccounted(w: World, e: Event)
    requires Accounted(w) && Enabled(w, e)
    ensures Accounted(Next(w, e)) && Next(w, e).s.cfg == w.s.cfg
    ensures w.s.live ==> Next(w, e).s.live && Next(w, e).granted >= w.granted
  {
    match e
    case Routed(offer, answer) => RouteAccounted(w, offer, answer);
    case Delta(chars) => DeltaAccounted(w, chars);
    case _ =>
      hide Route, Observe, Projected;
  }

  lemma RouteAccounted(w: World, offer: Option<Offer>, answer: Answer)
    requires Accounted(w) && w.s.pending.None?
    ensures var w' := Next(w, Routed(offer, answer));
            Accounted(w') && w'.s.cfg == w.s.cfg && (w.s.live ==> w'.s.live && w'.granted >= w.granted)
  {
    RouteAmount(w.s, offer, answer);
    hide Affordable, RequestedTokens, ChargedCard;
  }

  lemma DeltaAccounted(w: World, chars: nat)
    requires Accounted(w)
    ensures var w' := Next(w, Delta(chars));
            Accounted(w') && w'.s.cfg == w.s.cfg && (w.s.live ==> w'.s.live && w'.granted >= w.granted)
  {
    hide RetailCharge;
  }

  /** A plan never asks for less than nothing or passes the cap. */
  lemma RouteAmount(s: Session, offer: Option<Offer>, answer: Answer)
    ensures var (s', _, call) := Route(s, offer, answer);
            && (call.CreateHold? ==> !s.live && s'.held == call.amount)
            && (call.CreateHold? && s.cfg.maxCost.Some? ==> call.amount <= s.cfg.maxCost.value)
            && (call.Extend? && s.cfg.maxCost.Some? ==> s.held + call.add <= s.cfg.maxCost.value)
            && (call.Extend? ==> s.live && call.add > 0)
  {
    if offer.Some? {
      var card := ChargedCard(s.cfg, offer.value.retail);
      if card.Some? {
        var n := RequestedTokens(offer.value.maxTokens);
        if Affordable(card.value, s.cfg.inputTokens, n, s.cfg.maxCost).Ok? {
          PlanWithinCap(card.value, s.cfg.inputTokens, n, s.cfg.maxCost);
        }
      }
    }
  }

  lemma NextFewExtensions(w: World, e: Event)
    requires Accounted(w) && FewExtensions(w) && Enabled(w, e)
    ensures FewExtensions(Next(w, e))
  {
    match e
    case Routed(offer, answer) => RouteAmount(w.s, offer, answer);
    case ExtendAnswer(answer) => if answer.Granted? { GrantedFewExtensions(w); }
    case Delta(chars) => DeltaFewExtensions(w, chars);
    case _ =>
  }

  lemma GrantedFewExtensions(w: World)
    requires Accounted(w) && FewExtensions(w) && w.s.pending.Some?
    ensures FewExtensions(Next(w, ExtendAnswer(Granted)))
  {
    if w.s.pending.value == w.granted { DoublingGrows(w.doubled, Base(w), w.granted); }
  }

  lemma DeltaFewExtensions(w: World, chars: nat)
    requires Accounted(w) && FewExtensions(w)
    ensures FewExtensions(Next(w, Delta(chars)))
  {
    hide Pow2, RetailCharge;
  }

  lemma DoublingGrows(doubled: nat, base: int, granted: int)
    requires base >= 1 && granted >= base && (doubled > 0 ==> granted >= Pow2(doubled) * base)
    ensures 2 * granted >= Pow2(doubled + 1) * base && granted >= Pow2(doubled) * base
  {
    assert Pow2(doubled + 1) * base == 2 * (Pow2(doubled) * base);
  }

  lemma {:induction false} RunKeeps(w: World, events: seq<Event>)
    requires Accounted(w) && FewExtensions(w) && Runs(w, events)
    ensures Accounted(After(w, events)) && FewExtensions(After(w, events))
    ensures After(w, events).s.cfg == w.s.cfg
    ensures w.s.live ==> After(w, events).s.live && After(w, events).granted >= w.granted
    decreases |events|
  {
    if events != [] {
      NextAccounted(w, events[0]);
      NextFewExtensions(w, events[0]);
      RunKeeps(Next(w, events[0]), events[1..]);
    }
  }

  /**
   * After any run, an open hold is tracked exactly: it is what Billing granted plus the extension still pending, and
   * it never passes the caller's cap.
   */
  lemma HoldIsTracked(cfg: Config, events: seq<Event>)
    requires Runs(Start(cfg), events)
    ensures var w := After(Start(cfg), events);
            w.s.live ==>
              && w.s.held == w.granted + Outstanding(w.s)
              && (cfg.maxCost.Some? ==> w.s.held <= cfg.maxCost.value)
    ensures var w := After(Start(cfg), events);
            !w.s.live ==> w.granted == 0 && w.s.pending.None? && !w.s.settled && !w.s.released
  {
    RunKeeps(Start(cfg), events);
  }

  /**
   * Mid-stream extensions are few: apart from at most one that started an empty hold and at most one that reached the
   * cap, each doubled the hold, so their number is logarithmic in the largest projected charge.
   */
  lemma ExtensionsAreLogarithmic(cfg: Config, events: seq<Event>)
    requires Runs(Start(cfg), events)
    ensures var w := After(Start(cfg), events);
            && w.started + w.capped <= 2
            && (w.doubled > 0 ==> 4 * (Pow2(w.doubled - 1) * Max(1, w.first)) <= 5 * w.peak)
  {
    RunKeeps(Start(cfg), events);
  }

  /** The session with these characters streamed, before anything is decided. */
  function Heard(s: Session, chars: nat): Session { s.(streamed := s.streamed + chars) }

  /**
   * An extension asked for while streaming doubles the hold, brings it exactly to the cap, or, from an empty hold,
   * takes it to the projected charge. The first two are all there is exactly when the hold is not empty, or the
   * projected charge reaches the cap.
   */
  lemma ExtensionShape(s: Session, chars: nat)
    requires s.held >= 0
    ensures var (s', call) := Observe(s, chars);
            call.Extend? ==>
              && s'.pending == Some(call.add) && s'.held == s.held + call.add && call.add > 0
              && (s'.held == 2 * s.held
                  || s.cfg.maxCost == Some(s'.held)
                  || (s.held == 0 && s'.held == Projected(s')))
              && ((s'.held == 2 * s.held || s.cfg.maxCost == Some(s'.held))
                  <==> (s.held > 0 || (s.cfg.maxCost.Some? && Projected(Heard(s, chars)) >= s.cfg.maxCost.value)))
  {
  }

  /** When an extension is asked for and for how much, in terms of the tokens that have streamed. */
  lemma ExtensionAsks(s: Session, card: Card, tokens: nat)
    requires s.card == Some(card) && s.held >= 0 && 4 * tokens - 4 < s.streamed <= 4 * tokens
    ensures var (s', call) := MaybeExtend(s);
            var charge := card.perRequest + ChargeNano(tokens, card.output);
            && (call.Extend?
                <==> && s.live && !s.settled && !s.released && !s.refused && s.pending.None?
                     && (s.cfg.maxCost.Some? ==> s.held < s.cfg.maxCost.value)
                     && (if s.held > 0 then 5 * charge >= 4 * s.held else charge > 0))
            && (call.Extend? ==>
                  var step := if s.held > 0 then s.held else charge;
                  && call.add == (if s.cfg.maxCost.Some? then Min(step, s.cfg.maxCost.value - s.held) else step)
                  && s'.held == s.held + call.add && s'.pending == Some(call.add))
            && (!call.Extend? ==> call.NoCall? && s'.held == s.held && s'.pending == s.pending)
  {
    assert (s.streamed + 3) / 4 == tokens;
    ChargeOfTokens(card, tokens);
    hide RetailCharge, ChargeNano;
  }

  /**
   * A streamed delta asks for an extension exactly when the session is open and was not refused one for a short
   * Balance, none is pending, the cap leaves room, and what has streamed comes to four fifths of the hold, or to
   * anything on an empty one. It asks for as much again as is held, or as has streamed on an empty hold, and for no
   * more than the room. `tokens` is a fourth of the streamed characters, rounded up.
   */
  lemma DeltaAsks(s: Session, card: Card, chars: nat, tokens: nat)
    requires s.card == Some(card) && s.held >= 0 && 4 * tokens - 4 < s.streamed + chars <= 4 * tokens
    ensures var (s', call) := Observe(s, chars);
            var charge := card.perRequest + ChargeNano(tokens, card.output);
            && (call.Extend?
                <==> && s.live && !s.settled && !s.released && !s.refused && s.pending.None? && chars > 0
                     && (s.cfg.maxCost.Some? ==> s.held < s.cfg.maxCost.value)
                     && (if s.held > 0 then 5 * charge >= 4 * s.held else charge > 0))
            && (call.Extend? ==>
                  var step := if s.held > 0 then s.held else charge;
                  && call.add == (if s.cfg.maxCost.Some? then Min(step, s.cfg.maxCost.value - s.held) else step)
                  && s'.held == s.held + call.add && s'.pending == Some(call.add))
            && (!call.Extend? ==> call.NoCall? && s'.held == s.held && s'.pending == s.pending)
  {
    ExtensionAsks(Heard(s, chars), card, tokens);
    hide MaybeExtend, ChargeNano;
  }

  lemma ChargeOfTokens(card: Card, tokens: nat)
    ensures RetailCharge(card, Usage(0, 0, 0, tokens)) == card.perRequest + ChargeNano(tokens, card.output)
  {
    NoTokens(card.input);
    NoTokens(card.cachedRead);
    NoTokens(card.cacheWrite);
    hide ChargeNano;
  }

  /** A session that was refused for a short Balance stays so: no delta ever asks for an extension again. */
  lemma {:induction false} ShortRefusalIsFinal(w: World, events: seq<Event>, chars: nat)
    requires Runs(w, events) && w.s.refused
    ensures After(w, events).s.refused && CallOf(After(w, events), Delta(chars)) == NoCall
    decreases |events|
  {
    if events != [] {
      RefusedStep(w, events[0]);
      hide Next, CallOf;
      ShortRefusalIsFinal(Next(w, events[0]), events[1..], chars);
    }
  }

  lemma RefusedStep(w: World, e: Event)
    requires Enabled(w, e) && w.s.refused
    ensures Next(w, e).s.refused
  {
    hide Affordable, RequestedTokens, Projected;
  }

  /**
   * An open session is settled when its cost is in order and released when it is not, and it ends exactly when
   * Billing takes that; nothing else of it changes, and an ended or unopened session sends nothing.
   */
  lemma EndIsSentOnce(s: Session, costOk: bool, answer: Answer)
    ensures var (s', call) := Settle(s, costOk, answer);
            var open := s.live && !s.settled && !s.released;
            && (call == SendSettle <==> open && costOk) && (call == SendRelease <==> open && !costOk)
            && (call == NoCall <==> !open)
            && (s'.settled <==> s.settled || (open && costOk && answer.Granted?))
            && (s'.released <==> s.released || (open && !costOk && answer.Granted?))
            && s' == s.(settled := s'.settled, released := s'.released)
    ensures var (s', call) := Release(s, answer);
            var open := s.live && !s.settled && !s.released;
            && (call == SendRelease <==> open) && (call == NoCall <==> !open)
            && (s'.released <==> s.released || (open && answer.Granted?)) && s' == s.(released := s'.released)
  {
  }

  /** The card an offer is charged on, when it is managed supply that is paid for from an open or new session. */
  predicate Charges(s: Session, offer: Option<Offer>) {
    !s.settled && !s.released && offer.Some? && offer.value.paid && offer.value.managed
  }

  /**
   * What a route decides. `n` is the largest output, up to what is asked, whose worst case fits the cap, and 0 when
   * none does; `worst` is that worst case. The attempt is let through, clamped to `n`, exactly when there is one and
   * Billing has granted its worst case or grants the rest of it now; the rest is all that is asked for. Without it
   * an open session skips the offer, when the Balance is too short or nothing fits, and any other fails.
   */
  lemma RouteDecides(s: Session, offer: Option<Offer>, card: Card, answer: Answer, n: nat, worst: int)
    requires Charges(s, offer) && ChargedCard(s.cfg, offer.value.retail) == Some(card)
    requires var base, asked := BaseCharge(card, s.cfg.inputTokens), RequestedTokens(offer.value.maxTokens);
             && n == (if s.cfg.maxCost.None? then asked
                      else LargestFitting(base, card.output, asked, s.cfg.maxCost.value))
             && worst == base + ChargeNano(n, card.output)
    ensures var (s', outcome, call) := Route(s, offer, answer);
            var covered := s.live && worst <= s.held;
            && (outcome.Clamp? <==> n > 0 && (covered || answer.Granted?))
            && (outcome.Clamp? ==> outcome.tokens == n && s'.live && s'.card == Some(card) && s'.held >= worst)
            && (outcome == Skip <==> s.live && (n == 0 || (!covered && answer == Refused(true))))
            && (call == NoCall <==> n == 0 || covered)
            && (!s.live && n > 0 ==> call == CreateHold(worst))
            && (s.live && n > 0 && !covered ==> call == Extend(worst - s.held))
            && (s.live ==> s'.held == if outcome.Clamp? then Max(s.held, worst) else s.held)
            && !outcome.NotBalance?
  {
    var asked := RequestedTokens(offer.value.maxTokens);
    assert RequestedTokens(asked) == asked;
    if s.cfg.maxCost.Some? {
      AffordableIsSearch(card, s.cfg.inputTokens, asked, s.cfg.maxCost.value);
    } else {
      PlanWithoutCap(card, s.cfg.inputTokens, asked);
    }
    hide Affordable, LargestFitting, ChargeNano, BaseCharge, RequestedTokens;
  }

  /** Any other route asks Billing for nothing and keeps the hold; only a prepaid offer leaves its card, or zero. */
  lemma OtherRoutesAskNothing(s: Session, offer: Option<Offer>, answer: Answer)
    requires !Charges(s, offer)
    ensures var (s', outcome, call) := Route(s, offer, answer);
            && outcome == NotBalance && call == NoCall && s' == s.(card := s'.card)
            && s'.card ==
               if s.live && !s.settled && !s.released && offer.Some? && !offer.value.paid then
                 if offer.value.retail.Some? then ChargedCard(s.cfg, offer.value.retail) else Some(ZERO_CARD)
               else s.card
  {
  }

  /** Managed supply without a card to charge is refused before anything is held. */
  lemma NoCardFails(s: Session, offer: Option<Offer>, answer: Answer)
    requires Charges(s, offer) && offer.value.retail.None?
    ensures Route(s, offer, answer) == (s, Fail, NoCall)
  {
  }

  const FREE_OFFER := Offer(true, true, Some(Card(0, 0, 0, 0, 0)), 5)
  const PREPAID_OFFER := Offer(true, false, Some(Card(0, 0, 0, 3_000_000, 0)), 5)

  function LiveWith(held: int, card: Card, streamed: nat, pending: Option<int>): Session {
    Session(Config(0, None, false), true, held, Some(card), streamed, false, false, false, pending)
  }

  lemma FreeOfferHoldsNothing()
    ensures Route(Begin(Config(0, None, false)), Some(FREE_OFFER), Granted)
         == (LiveWith(0, Card(0, 0, 0, 0, 0), 0, None), Clamp(5), CreateHold(0))
  {
    assert ChargeNano(0, 0) == 0 && ChargeNano(5, 0) == 0;
  }

  lemma PrepaidOfferBringsItsCard()
    ensures Route(LiveWith(0, Card(0, 0, 0, 0, 0), 0, None), Some(PREPAID_OFFER), Granted)
         == (LiveWith(0, Card(0, 0, 0, 3_000_000, 0), 0, None), NotBalance, NoCall)
  {
  }

  lemma FourCharactersCostThree()
    ensures Projected(LiveWith(0, Card(0, 0, 0, 3_000_000, 0), 4, None)) == 3
  {
    assert ChargeNano(0, 0) == 0 && ChargeNano(1, 3_000_000) == 3;
  }

  /**
   * The third case does happen: a free first offer holds nothing, a prepaid fallback then brings a card with a price,
   * and the first delta takes the hold from zero to the projected charge.
   */
  lemma EmptyHoldStartsFromTheCharge()
    ensures var s1 := Route(Begin(Config(0, None, false)), Some(FREE_OFFER), Granted).0;
            var s2 := Route(s1, Some(PREPAID_OFFER), Granted).0;
            s2.held == 0 && Observe(s2, 4) == (LiveWith(3, Card(0, 0, 0, 3_000_000, 0), 4, Some(3)), Extend(3))
  {
    FreeOfferHoldsNothing();
    PrepaidOfferBringsItsCard();
    FourCharactersCostThree();
    hide Route, Projected, Begin;
  }

  /** A settle is only sent for exactly what Billing granted. */
  lemma SettleMatchesGrant(w: World, costOk: bool, answer: Answer)
    requires Accounted(w) && Enabled(w, Settling(costOk, answer))
    ensures Settle(w.s, costOk, answer).1 != NoCall ==> w.s.held == w.granted
  {
  }

  predicate Finished(s: Session) { s.settled || s.released }

  /**
   * Once settled or released, nothing that follows asks Billing for anything or ends otherwise, even while an
   * extension is still to be answered; when none is, nothing of the session changes.
   */
  lemma {:induction false} NothingAfterTheEnd(w: World, events: seq<Event>)
    requires Runs(w, events) && Finished(w.s)
    ensures Calls(w, events) == [] && Finished(After(w, events).s)
    ensures w.s.pending.None? ==> After(w, events) == w
    decreases |events|
  {
    if events != [] {
      EndedStep(w, events[0]);
      hide CallOf, Next, Finished;
      NothingAfterTheEnd(Next(w, events[0]), events[1..]);
    }
  }

  lemma EndedStep(w: World, e: Event)
    requires Enabled(w, e) && Finished(w.s)
    ensures CallOf(w, e) == NoCall && Finished(Next(w, e).s)
    ensures w.s.pending.None? ==> Next(w, e) == w
  {
    hide Projected, NearHold, Affordable;
  }

  // ----- the hold covers the attempt it clamps -----

  /** When an attempt is let through with a clamp, Billing has granted its whole worst case. */
  lemma ClampIsCovered(w: World, offer: Offer, answer: Answer)
    requires Accounted(w) && w.s.pending.None?
    requires Route(w.s, Some(offer), answer).1.Clamp?
    ensures var w' := Next(w, Routed(Some(offer), answer));
            && w'.s.live && w'.s.card.Some? && w'.s.card == ChargedCard(w.s.cfg, offer.retail)
            && w'.granted >= BaseCharge(w'.s.card.value, w.s.cfg.inputTokens)
                             + ChargeNano(Route(w.s, Some(offer), answer).1.tokens, w'.s.card.value.output)
    ensures var card := ChargedCard(w.s.cfg, offer.retail);
            var r := Request(w.s.cfg.inputTokens, RequestedTokens(offer.maxTokens), w.s.cfg.maxCost);
            && card.Some? && Affordable(card.value, r.estimate, r.maxTokens, r.cap).Ok?
            && PlanOf(card.value, r).maxTokens == Route(w.s, Some(offer), answer).1.tokens
            && PlanOf(card.value, r).amount <= Next(w, Routed(Some(offer), answer)).granted
  {
    RouteAmount(w.s, Some(offer), answer);
    var card := ChargedCard(w.s.cfg, offer.retail).value;
    PlanWithinCap(card, w.s.cfg.inputTokens, RequestedTokens(offer.maxTokens), w.s.cfg.maxCost);
  }

  /** The offer is let through with a clamp. */
  predicate Clamps(w: World, e: Event) { e.Routed? && Route(w.s, e.offer, e.answer).1.Clamp? }

  /** The offer needs a bigger hold and Billing refuses it: the attempt is skipped, but its card is already kept. */
  predicate ExtensionRefused(w: World, e: Event) {
    e.Routed? && e.answer.Refused? && Route(w.s, e.offer, e.answer).2.Extend?
  }

  /** A prepaid offer is attempted, and brings its card. */
  predicate PrepaidFollows(w: World, e: Event) {
    e.Routed? && e.offer.Some? && !e.offer.value.paid && w.s.live && !Finished(w.s)
  }

  /** What may follow a clamped attempt before the settle. */
  datatype Driver = Driver(moreSteps: bool, refusedExtensions: bool, prepaidOffers: bool)

  predicate Permits(d: Driver, w: World, e: Event) {
    && (Clamps(w, e) ==> d.moreSteps)
    && (ExtensionRefused(w, e) ==> d.refusedExtensions)
    && (PrepaidFollows(w, e) ==> d.prepaidOffers)
  }

  predicate Follows(d: Driver, w: World, events: seq<Event>)
    requires Runs(w, events)
    decreases |events|
  {
    events == [] || (Permits(d, w, events[0]) && Follows(d, Next(w, events[0]), events[1..]))
  }

  /** The output all the clamped attempts of a run may produce, each within its own clamp. */
  function ClampedTokens(w: World, events: seq<Event>): nat
    requires Runs(w, events)
    decreases |events|
  {
    if events == [] then 0
    else ClampOf(w, events[0]) + ClampedTokens(Next(w, events[0]), events[1..])
  }

  function ClampOf(w: World, e: Event): nat {
    if Clamps(w, e) then Route(w.s, e.offer, e.answer).1.tokens else 0
  }

  lemma OtherRoutesKeepTheCard(s: Session, offer: Option<Offer>, answer: Answer)
    requires s.live
    ensures var (s', outcome, call) := Route(s, offer, answer);
            (!outcome.Clamp? && !(answer.Refused? && call.Extend?)
             && !(offer.Some? && !offer.value.paid && !Finished(s))) ==> s'.card == s.card
  {
    hide Affordable, RequestedTokens;
  }

  lemma CardKept(w: World, e: Event)
    requires Enabled(w, e) && w.s.live && Permits(Driver(false, false, false), w, e)
    ensures Next(w, e).s.card == w.s.card && Next(w, e).s.live
  {
    if e.Routed? {
      OtherRoutesKeepTheCard(w.s, e.offer, e.answer);
      RouteLive(w.s, e.offer, e.answer);
    }
    hide Route, NearHold, Step, Projected;
  }

  lemma RouteLive(s: Session, offer: Option<Offer>, answer: Answer)
    requires s.live
    ensures Route(s, offer, answer).0.live
  {
    hide Affordable, RequestedTokens;
  }

  lemma {:induction false} CardStays(w: World, events: seq<Event>)
    requires w.s.live && Runs(w, events) && Follows(Driver(false, false, false), w, events)
    ensures After(w, events).s.card == w.s.card && ClampedTokens(w, events) == 0
    decreases |events|
  {
    hide Next, Route, ExtensionRefused, PrepaidFollows;
    if events != [] {
      CardKept(w, events[0]);
      CardStays(Next(w, events[0]), events[1..]);
    }
  }

  /** A run with a clamped attempt in it: what led to it, the offer and Billing's answer, and what follows it. */
  datatype Journey = Journey(before: seq<Event>, offer: Offer, answer: Answer, rest: seq<Event>)

  /** The token counts the settle is for, as the attempts reported them together. */
  datatype Tokens = Tokens(whole: int, cached: int, cacheWrite: int, output: int)

  predicate Starts(cfg: Config, j: Journey) {
    && Runs(Start(cfg), j.before)
    && Enabled(After(Start(cfg), j.before), Routed(Some(j.offer), j.answer))
    && Clamps(After(Start(cfg), j.before), Routed(Some(j.offer), j.answer))
  }

  /** The world when the attempt has been let through. */
  function Clamped(cfg: Config, j: Journey): World
    requires Starts(cfg, j)
  {
    Next(After(Start(cfg), j.before), Routed(Some(j.offer), j.answer))
  }

  predicate IsJourney(d: Driver, cfg: Config, j: Journey) {
    Starts(cfg, j) && Runs(Clamped(cfg, j), j.rest) && Follows(d, Clamped(cfg, j), j.rest)
  }

  function End(d: Driver, cfg: Config, j: Journey): World
    requires IsJourney(d, cfg, j)
  {
    After(Clamped(cfg, j), j.rest)
  }

  /** The prompt stayed within its estimate, and the output within the clamps it was let through with. */
  predicate Kept(d: Driver, cfg: Config, j: Journey, t: Tokens)
    requires IsJourney(d, cfg, j)
  {
    && Max(0, t.whole) <= cfg.inputTokens && Max(0, t.cached) + Max(0, t.cacheWrite) <= cfg.inputTokens
    && t.output <= ClampOf(After(Start(cfg), j.before), Routed(Some(j.offer), j.answer))
                   + ClampedTokens(Clamped(cfg, j), j.rest)
  }

  /**
   * The settle charges at most two nano-USD more than was granted, and no more than was granted when the cached
   * rates are at most the input rate in whole nano-USD per token.
   */
  predicate PaidFor(end: World, t: Tokens) {
    && end.s.card.Some?
    && var card, charge := end.s.card.value, Charged(end, t);
       && (card.cachedRead <= card.input && card.cacheWrite <= card.input ==> charge <= end.granted + 2)
       && (card.cachedRead <= WholeRate(card.input) && card.cacheWrite <= WholeRate(card.input) ==>
             charge <= end.granted)
  }

  function Charged(end: World, t: Tokens): nat
    requires end.s.card.Some?
  {
    RetailCharge(end.s.card.value, UsageOf(t.whole, t.cached, t.cacheWrite, t.output))
  }

  const ONE_ATTEMPT := Driver(false, false, false)

  /**
   * From the last clamped attempt to its settle: whatever is streamed, answered, skipped as too dear or left to a
   * person's own key in between, a run that stays within its prompt estimate and its clamp is charged on the card
   * it was clamped on, within what was granted.
   */
  lemma ClampedRunIsPaidFor(cfg: Config, j: Journey, t: Tokens)
    requires IsJourney(ONE_ATTEMPT, cfg, j) && Kept(ONE_ATTEMPT, cfg, j, t)
    ensures PaidFor(End(ONE_ATTEMPT, cfg, j), t)
    ensures End(ONE_ATTEMPT, cfg, j).s.card == Clamped(cfg, j).s.card == ChargedCard(cfg, j.offer.retail)
  {
    RunKeeps(Start(cfg), j.before);
    var w := After(Start(cfg), j.before);
    var e := Routed(Some(j.offer), j.answer);
    var w' := Next(w, e);
    hide Route, Next, After, Runs, Follows, Affordable, RequestedTokens, ChargedCard, BaseCharge, RetailCharge, UsageOf;
    ClampIsCovered(w, j.offer, j.answer);
    NextAccounted(w, e);
    NextFewExtensions(w, e);
    RunKeeps(w', j.rest);
    CardStays(w', j.rest);
    ClampPays(w'.s.card.value, Request(cfg.inputTokens, RequestedTokens(j.offer.maxTokens), cfg.maxCost),
              t.whole, t.cached, t.cacheWrite, t.output, After(w', j.rest).granted);
  }

  // ----- three ways to be charged more than was granted -----

  const CHEAP := Card(0, 0, 0, 1_000_000, 0)
  const DEAR := Card(0, 0, 0, 10_000_000, 0)
  const PLAIN_CONFIG := Config(0, None, false)

  /** Ten tokens at one nano-USD each are held and granted. */
  function TenHeld(card: Card): World {
    World(Session(PLAIN_CONFIG, true, 10, Some(card), 0, false, false, false, None), 10, 10, 0, 0, 0, 0)
  }

  lemma Prices()
    ensures ChargeNano(0, 0) == 0 && ChargeNano(10, 0) == 0 && ChargeNano(0, 1_000_000) == 0
    ensures ChargeNano(10, 1_000_000) == 10 && ChargeNano(20, 1_000_000) == 20
    ensures ChargeNano(10, 10_000_000) == 100
  {
  }

  lemma PlanWithoutCap(card: Card, inputTokens: int, maxTokens: int)
    ensures var n := RequestedTokens(maxTokens);
            Affordable(card, inputTokens, maxTokens, None) ==
            Ok(Plan(n, BaseCharge(card, inputTokens) + ChargeNano(n, card.output)))
  {
    hide ChargeNano;
  }

  lemma PlanIs(card: Card, charge: nat)
    requires card == Card(0, 0, 0, card.output, 0) && charge == ChargeNano(10, card.output)
    ensures Affordable(card, 0, 10, None) == Ok(Plan(10, charge))
  {
    PlanWithoutCap(card, 0, 10);
    NoTokens(0);
    hide ChargeNano, Affordable;
  }

  lemma Plans()
    ensures Affordable(CHEAP, 0, 10, None) == Ok(Plan(10, 10)) && Affordable(DEAR, 0, 10, None) == Ok(Plan(10, 100))
  {
    hide Affordable, ChargeNano;
    Prices();
    PlanIs(CHEAP, 10);
    PlanIs(DEAR, 100);
  }

  lemma CheapOfferHoldsTen()
    ensures var e := Routed(Some(Offer(true, true, Some(CHEAP), 10)), Granted);
            && Route(Begin(PLAIN_CONFIG), e.offer, e.answer).1 == Clamp(10)
            && Next(Start(PLAIN_CONFIG), e) == TenHeld(CHEAP)
  {
    Plans();
    hide Affordable;
  }

  /** A dearer offer is skipped because Billing refuses its extension, and leaves its card behind. */
  lemma SkippedOfferLeavesItsCard()
    ensures var e := Routed(Some(Offer(true, true, Some(DEAR), 10)), Refused(true));
            && Route(TenHeld(CHEAP).s, e.offer, e.answer).1 == Skip && ExtensionRefused(TenHeld(CHEAP), e)
            && Next(TenHeld(CHEAP), e) == TenHeld(DEAR)
  {
    Plans();
    hide Affordable;
  }

  /** A prepaid offer brings its card. */
  lemma PrepaidOfferLeavesItsCard()
    ensures var e := Routed(Some(Offer(true, false, Some(DEAR), 10)), Granted);
            && Route(TenHeld(CHEAP).s, e.offer, e.answer).1 == NotBalance && Next(TenHeld(CHEAP), e) == TenHeld(DEAR)
  {
  }

  /** A second step on the same offer needs no bigger hold: what is held is enough for it alone. */
  lemma SecondStepHoldsNothingMore()
    ensures var e := Routed(Some(Offer(true, true, Some(CHEAP), 10)), Granted);
            && Route(TenHeld(CHEAP).s, e.offer, e.answer).1 == Clamp(10) && Next(TenHeld(CHEAP), e) == TenHeld(CHEAP)
  {
    Plans();
    hide Affordable;
  }

  lemma TenTokens(output: int)
    ensures output == 10 ==> !PaidFor(TenHeld(DEAR), Tokens(0, 0, 0, output))
    ensures output == 20 ==> !PaidFor(TenHeld(CHEAP), Tokens(0, 0, 0, output))
  {
    Prices();
    hide ChargeNano;
    assert UsageOf(0, 0, 0, output) == Usage(0, 0, 0, Max(0, output));
  }

  /** The journey of the cheap offer, granted, and one more route. */
  function ThenRouted(offer: Offer, answer: Answer): Journey {
    Journey([], Offer(true, true, Some(CHEAP), 10), Granted, [Routed(Some(offer), answer)])
  }

  lemma OneRouteMore(d: Driver, offer: Offer, answer: Answer, end: World, output: int)
    requires var e := Routed(Some(offer), answer);
             Permits(d, TenHeld(CHEAP), e) && Next(TenHeld(CHEAP), e) == end
             && output <= 10 + ClampOf(TenHeld(CHEAP), e)
    ensures var j := ThenRouted(offer, answer);
            && IsJourney(d, PLAIN_CONFIG, j) && End(d, PLAIN_CONFIG, j) == end
            && Kept(d, PLAIN_CONFIG, j, Tokens(0, 0, 0, output))
  {
    var j, e := ThenRouted(offer, answer), Routed(Some(offer), answer);
    CheapOfferHoldsTen();
    hide Next, Route;
    assert After(Start(PLAIN_CONFIG), []) == Start(PLAIN_CONFIG);
    assert Clamped(PLAIN_CONFIG, j) == TenHeld(CHEAP);
    assert j.rest[0] == e && j.rest[1..] == [];
    assert After(end, []) == end && ClampedTokens(end, []) == 0 && Runs(end, []) && Follows(d, end, []);
  }

  /**
   * The settle's card is the last one routed, not the one that answered: tokens of the cheap offer are charged at
   * ten times what was granted when a dearer offer is skipped after it.
   */
  lemma SkippedOfferIsCharged(d: Driver)
    requires d.refusedExtensions
    ensures var j := ThenRouted(Offer(true, true, Some(DEAR), 10), Refused(true));
            && IsJourney(d, PLAIN_CONFIG, j) && Kept(d, PLAIN_CONFIG, j, Tokens(0, 0, 0, 10))
            && !PaidFor(End(d, PLAIN_CONFIG, j), Tokens(0, 0, 0, 10))
  {
    var offer := Offer(true, true, Some(DEAR), 10);
    SkippedOfferLeavesItsCard();
    hide Next, Route, PaidFor;
    OneRouteMore(d, offer, Refused(true), TenHeld(DEAR), 10);
    TenTokens(10);
  }

  lemma PrepaidOfferIsCharged(d: Driver)
    requires d.prepaidOffers
    ensures var j := ThenRouted(Offer(true, false, Some(DEAR), 10), Granted);
            && IsJourney(d, PLAIN_CONFIG, j) && Kept(d, PLAIN_CONFIG, j, Tokens(0, 0, 0, 10))
            && !PaidFor(End(d, PLAIN_CONFIG, j), Tokens(0, 0, 0, 10))
  {
    var offer := Offer(true, false, Some(DEAR), 10);
    PrepaidOfferLeavesItsCard();
    hide Next, Route, PaidFor;
    OneRouteMore(d, offer, Granted, TenHeld(DEAR), 10);
    TenTokens(10);
  }

  /** Two steps of one run are held for one and charged for both. */
  lemma TwoStepsAreCharged(d: Driver)
    requires d.moreSteps
    ensures var j := ThenRouted(Offer(true, true, Some(CHEAP), 10), Granted);
            && IsJourney(d, PLAIN_CONFIG, j) && Kept(d, PLAIN_CONFIG, j, Tokens(0, 0, 0, 20))
            && !PaidFor(End(d, PLAIN_CONFIG, j), Tokens(0, 0, 0, 20))
  {
    var offer := Offer(true, true, Some(CHEAP), 10);
    SecondStepHoldsNothingMore();
    hide Next, Route, PaidFor;
    OneRouteMore(d, offer, Granted, TenHeld(CHEAP), 20);
    TenTokens(20);
  }

  /** Under this driver, is every run that keeps to its estimate and clamps charged within what was granted? */
  ghost predicate AlwaysPaidFor(d: Driver) {
    forall cfg: Config, j: Journey, t: Tokens ::
      IsJourney(d, cfg, j) && Kept(d, cfg, j, t) ==> PaidFor(End(d, cfg, j), t)
  }

  /**
   * Every run is charged within what Billing granted exactly when, after the attempt that was let through, no other
   * is let through whose tokens are charged too, none is skipped on a refused extension, and none is prepaid.
   */
  lemma PaidForExactly(d: Driver)
    ensures AlwaysPaidFor(d) <==> !d.moreSteps && !d.refusedExtensions && !d.prepaidOffers
  {
    hide IsJourney, Kept, PaidFor, End;
    if d.refusedExtensions {
      SkippedOfferIsCharged(d);
    } else if d.prepaidOffers {
      PrepaidOfferIsCharged(d);
    } else if d.moreSteps {
      TwoStepsAreCharged(d);
    } else {
      assert d == ONE_ATTEMPT;
      forall cfg: Config, j: Journey, t: Tokens | IsJourney(d, cfg, j) && Kept(d, cfg, j, t)
        ensures PaidFor(End(d, cfg, j), t)
      {
        ClampedRunIsPaidFor(cfg, j, t);
      }
    }
  }

  lemma ClampPays(card: Card, r: Request, whole: int, cached: int, cacheWrite: int, output: int, granted: int)
    requires Within(card, r, whole, cached, cacheWrite, output) && granted >= PlanOf(card, r).amount
    ensures card.cachedRead <= card.input && card.cacheWrite <= card.input ==>
              RetailCharge(card, UsageOf(whole, cached, cacheWrite, output)) <= granted + 2
    ensures card.cachedRead <= WholeRate(card.input) && card.cacheWrite <= WholeRate(card.input) ==>
              RetailCharge(card, UsageOf(whole, cached, cacheWrite, output)) <= granted
  {
    hide RetailCharge, UsageOf, Affordable;
    if card.cachedRead <= card.input && card.cacheWrite <= card.input {
      SettledWithinHold(card, r.estimate, r.maxTokens, r.cap, whole, cached, cacheWrite, output);
    }
    if card.cachedRead <= WholeRate(card.input) && card.cacheWrite <= WholeRate(card.input) {
      WholeSharesAreCovered(card, r, whole, cached, cacheWrite, output);
    }
  }
}
