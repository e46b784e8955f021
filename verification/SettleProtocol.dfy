/**
 * Many requests' sessions, the durable settle queue and Billing together: who sends what under which key, through
 * lost answers, queue retries and crashes of the service.
 */
module SettleProtocol {
  import opened Common
  import CM = CreditMath
  import CS = CreditSession

  type Request = string

  function HoldKey(r: Request): string { "ai-hold:" + r }

  function SettleKey(r: Request): string { "ai-settle:" + r }

  lemma SettleKeyInjective(a: Request, b: Request)
    requires SettleKey(a) == SettleKey(b)
    ensures a == b
  {
    assert SettleKey(a)[10..] == a && SettleKey(b)[10..] == b;
  }

  // ----- Billing -----

  /** How a call to Billing goes: through, unreachable, done with its answer lost, or refused as invalid (422). */
  datatype Mood = Up | Down | AnswerLost | Invalid

  datatype Reply = Taken | Decided | Unavailable

  /** Billing settles once per key and hold; a replayed key answers as before. `ledger` is what it applied, in order. */
  datatype Billing = Billing(settledBy: map<string, string>, closed: set<string>, ledger: seq<string>)

  function Heard(mood: Mood, reply: Reply): Reply { if mood.AnswerLost? then Unavailable else reply }

  function BillSettle(b: Billing, hold: string, key: string, mood: Mood): (Billing, Reply) {
    if mood.Down? then (b, Unavailable)
    else if key in b.settledBy then (b, Heard(mood, Taken))
    else if mood.Invalid? || hold in b.closed then (b, Heard(mood, Decided))
    else (Billing(b.settledBy[key := hold], b.closed + {hold}, b.ledger + [key]), Heard(mood, Taken))
  }

  function BillRelease(b: Billing, hold: string, mood: Mood): (Billing, Reply) {
    if mood.Down? then (b, Unavailable)
    else if mood.Invalid? || hold in b.closed then (b, Heard(mood, Decided))
    else (b.(closed := b.closed + {hold}), Heard(mood, Taken))
  }

  // ----- the service -----

  /** A run of the service. Several may be alive under one request id, which is the caller's to choose. */
  type Run = nat

  /** A run's request id and session, whether an attempt was logged `ok`, and whether it has a batch's cost check. */
  datatype Live = Live(request: Request, s: CS.Session, okLogged: bool, checked: bool)

  /** The driver settles a run that produced anything, and releases only one that produced nothing. */
  predicate Produced(l: Live) { l.s.streamed > 0 || l.okLogged }

  datatype QueueStatus = Queued | Sent | Review

  /** A queued settle: its request, and the hold and key of the body it keeps. */
  datatype Row = Row(request: Request, hold: string, key: string, status: QueueStatus)

  datatype Message =
    | SettleSent(request: Request, hold: string, key: string)
    | ReleaseSent(request: Request, hold: string)

  datatype World = World(billing: Billing, queue: map<string, Row>, sessions: map<Run, Live>, begun: set<Request>,
                         messages: seq<Message>)

  const START := World(Billing(map[], {}, []), map[], map[], {}, [])

  /** Which driver is considered: one whose sessions may have a cost check, one that may begin a request id again. */
  datatype Policy = Policy(costChecks: bool, reusedIds: bool)

  datatype Event =
    | Begin(n: Run, r: Request, cfg: CS.Config, checked: bool)
    | Play(n: Run, e: CS.Event)
    | LogOk(n: Run)
    | Settle(n: Run, costOk: bool, mood: Mood, stored: bool)
    | Release(n: Run, mood: Mood)
    | End(n: Run)
    | Retry(id: string, mood: Mood)
    | Crash

  predicate Enabled(p: Policy, w: World, e: Event) {
    match e
    case Begin(n, r, cfg, checked) => n !in w.sessions && (p.reusedIds || r !in w.begun) && (checked ==> p.costChecks)
    case Play(n, e) =>
      n in w.sessions &&
      (match e
       case Routed(_, _) => w.sessions[n].s.pending.None?
       case Delta(_) => true
       case ExtendAnswer(_) => w.sessions[n].s.pending.Some?
       case _ => false)
    case LogOk(n) => n in w.sessions
    case Settle(n, costOk, _, _) =>
      n in w.sessions && Produced(w.sessions[n]) && w.sessions[n].s.pending.None? && (!costOk ==> w.sessions[n].checked)
    case Release(n, _) => n in w.sessions && !Produced(w.sessions[n])
    case End(n) => n in w.sessions
    case Retry(id, _) => id in w.queue && w.queue[id].status == Queued
    case Crash => true
  }

  function Played(s: CS.Session, e: CS.Event): CS.Session {
    match e
    case Routed(offer, answer) => CS.Route(s, offer, answer).0
    case Delta(chars) => CS.Observe(s, chars).0
    case ExtendAnswer(answer) => if s.pending.Some? then CS.Answered(s, answer) else s
    case _ => s
  }

  function AnswerOf(reply: Reply): CS.Answer { if reply.Taken? then CS.Granted else CS.Refused(false) }

  /** The queue keeps the first body of a key: a later failed settle of the same request changes nothing. */
  function Enqueued(queue: map<string, Row>, r: Request, reply: Reply): map<string, Row> {
    var key := SettleKey(r);
    if key in queue then queue else queue[key := Row(r, HoldKey(r), key, if reply.Decided? then Review else Queued)]
  }

  function WithSession(w: World, n: Run, s: CS.Session): World
    requires n in w.sessions
  {
    w.(sessions := w.sessions[n := w.sessions[n].(s := s)])
  }

  function AfterRelease(w: World, n: Run, mood: Mood): World
    requires n in w.sessions
  {
    var l := w.sessions[n];
    var (billing, reply) := BillRelease(w.billing, HoldKey(l.request), mood);
    var (s, call) := CS.Release(l.s, AnswerOf(reply));
    if call.NoCall? then w
    else WithSession(w, n, s).(billing := billing,
                               messages := w.messages + [ReleaseSent(l.request, HoldKey(l.request))])
  }

  function AfterSettle(w: World, n: Run, costOk: bool, mood: Mood, stored: bool): World
    requires n in w.sessions
  {
    if !costOk then AfterRelease(w, n, mood) else
    var l := w.sessions[n];
    var r := l.request;
    var (billing, reply) := BillSettle(w.billing, HoldKey(r), SettleKey(r), mood);
    var (s, call) := CS.Settle(l.s, true, AnswerOf(reply));
    if call.NoCall? then w
    else WithSession(w, n, s).(billing := billing,
                               queue := if reply.Taken? || !stored then w.queue else Enqueued(w.queue, r, reply),
                               messages := w.messages + [SettleSent(r, HoldKey(r), SettleKey(r))])
  }

  function AfterRetry(w: World, id: string, mood: Mood): World
    requires id in w.queue
  {
    var row := w.queue[id];
    var (billing, reply) := BillSettle(w.billing, row.hold, row.key, mood);
    w.(billing := billing,
       queue := w.queue[id := row.(status := if reply.Taken? then Sent else if reply.Decided? then Review else Queued)],
       messages := w.messages + [SettleSent(row.request, row.hold, row.key)])
  }

  function Next(p: Policy, w: World, e: Event): World
    requires Enabled(p, w, e)
  {
    match e
    case Begin(n, r, cfg, checked) =>
      w.(sessions := w.sessions[n := Live(r, CS.Begin(cfg), false, checked)], begun := w.begun + {r})
    case Play(n, e) => WithSession(w, n, Played(w.sessions[n].s, e))
    case LogOk(n) => w.(sessions := w.sessions[n := w.sessions[n].(okLogged := true)])
    case Settle(n, costOk, mood, stored) => AfterSettle(w, n, costOk, mood, stored)
    case Release(n, mood) => AfterRelease(w, n, mood)
    case End(n) => w.(sessions := w.sessions - {n})
    case Retry(id, mood) => AfterRetry(w, id, mood)
    case Crash => w.(sessions := map[])
  }

  predicate Runs(p: Policy, w: World, events: seq<Event>)
    decreases |events|
  {
    events == [] || (Enabled(p, w, events[0]) && Runs(p, Next(p, w, events[0]), events[1..]))
  }

  function After(p: Policy, w: World, events: seq<Event>): World
    requires Runs(p, w, events)
    decreases |events|
  {
    if events == [] then w else After(p, Next(p, w, events[0]), events[1..])
  }

  // ----- at most one settlement per request -----

  ghost predicate MessagesKeyed(messages: seq<Message>, begun: set<Request>) {
    forall i :: 0 <= i < |messages| && messages[i].SettleSent? ==>
      && messages[i].key == SettleKey(messages[i].request) && messages[i].hold == HoldKey(messages[i].request)
      && messages[i].request in begun
  }

  ghost predicate QueueKeyed(queue: map<string, Row>, begun: set<Request>) {
    forall id :: id in queue ==>
      && id == queue[id].key == SettleKey(queue[id].request) && queue[id].hold == HoldKey(queue[id].request)
      && queue[id].request in begun
  }

  ghost predicate LedgerKeyed(billing: Billing, begun: set<Request>) {
    && (forall i, j :: 0 <= i < j < |billing.ledger| ==> billing.ledger[i] != billing.ledger[j])
    && (forall key :: key in billing.ledger ==>
          && key in billing.settledBy
          && exists r :: r in begun && key == SettleKey(r) && billing.settledBy[key] == HoldKey(r))
  }

  ghost predicate Keyed(w: World) {
    && MessagesKeyed(w.messages, w.begun) && QueueKeyed(w.queue, w.begun) && LedgerKeyed(w.billing, w.begun)
    && forall n :: n in w.sessions ==> w.sessions[n].request in w.begun
  }

  lemma BillKeyed(b: Billing, begun: set<Request>, r: Request, mood: Mood)
    requires LedgerKeyed(b, begun) && r in begun
    ensures LedgerKeyed(BillSettle(b, HoldKey(r), SettleKey(r), mood).0, begun)
  {
    var billing := BillSettle(b, HoldKey(r), SettleKey(r), mood).0;
    if billing != b {
      assert SettleKey(r) !in b.ledger;
      forall key | key in billing.ledger
        ensures exists q :: q in begun && key == SettleKey(q) && billing.settledBy[key] == HoldKey(q)
      {
        if key == SettleKey(r) { assert billing.settledBy[key] == HoldKey(r); } else { assert key in b.ledger; }
      }
    }
  }

  lemma ReleaseKeepsLedger(b: Billing, begun: set<Request>, hold: string, mood: Mood)
    requires LedgerKeyed(b, begun)
    ensures LedgerKeyed(BillRelease(b, hold, mood).0, begun)
  {
    var after := BillRelease(b, hold, mood).0;
    assert after.ledger == b.ledger && after.settledBy == b.settledBy;
  }

  lemma NextKeyed(p: Policy, w: World, e: Event)
    requires Keyed(w) && Enabled(p, w, e)
    ensures Keyed(Next(p, w, e)) && w.begun <= Next(p, w, e).begun
  {
    match e
    case Settle(n, costOk, mood, stored) => SettleKeyed(w, n, costOk, mood, stored);
    case Retry(id, mood) => RetryKeyed(w, id, mood);
    case Release(n, mood) => ReleaseKeyed(w, n, mood);
    case Begin(n, r, cfg, checked) => BegunGrows(w, w.begun + {r});
    case _ =>
      hide MessagesKeyed, QueueKeyed, LedgerKeyed, Played;
  }

  lemma SettleKeyed(w: World, n: Run, costOk: bool, mood: Mood, stored: bool)
    requires Keyed(w) && n in w.sessions
    ensures Keyed(AfterSettle(w, n, costOk, mood, stored)) && AfterSettle(w, n, costOk, mood, stored).begun == w.begun
  {
    if costOk {
      var r := w.sessions[n].request;
      BillKeyed(w.billing, w.begun, r, mood);
      EnqueuedKeyed(w.queue, w.begun, r, BillSettle(w.billing, HoldKey(r), SettleKey(r), mood).1);
      hide BillSettle, LedgerKeyed, QueueKeyed, CS.Settle, Enqueued, HoldKey, SettleKey;
    } else {
      ReleaseKeyed(w, n, mood);
    }
  }

  lemma EnqueuedKeyed(queue: map<string, Row>, begun: set<Request>, r: Request, reply: Reply)
    requires QueueKeyed(queue, begun) && r in begun
    ensures QueueKeyed(Enqueued(queue, r, reply), begun)
  {
  }

  lemma ReleaseKeyed(w: World, n: Run, mood: Mood)
    requires Keyed(w) && n in w.sessions
    ensures Keyed(AfterRelease(w, n, mood)) && AfterRelease(w, n, mood).begun == w.begun
  {
    ReleaseKeepsLedger(w.billing, w.begun, HoldKey(w.sessions[n].request), mood);
    hide BillRelease, LedgerKeyed, QueueKeyed, CS.Release, HoldKey, SettleKey;
  }

  lemma RetryKeyed(w: World, id: string, mood: Mood)
    requires Keyed(w) && id in w.queue
    ensures Keyed(AfterRetry(w, id, mood)) && AfterRetry(w, id, mood).begun == w.begun
  {
    var row := w.queue[id];
    BillKeyed(w.billing, w.begun, row.request, mood);
    hide BillSettle, LedgerKeyed, HoldKey, SettleKey;
  }

  lemma BegunGrows(w: World, begun: set<Request>)
    requires Keyed(w) && w.begun <= begun
    ensures MessagesKeyed(w.messages, begun) && QueueKeyed(w.queue, begun) && LedgerKeyed(w.billing, begun)
  {
    forall key | key in w.billing.ledger
      ensures exists r :: r in begun && key == SettleKey(r) && w.billing.settledBy[key] == HoldKey(r)
    {
      var r :| r in w.begun && key == SettleKey(r) && w.billing.settledBy[key] == HoldKey(r);
      assert r in begun;
    }
  }

  lemma {:induction false} RunKeyed(p: Policy, w: World, events: seq<Event>)
    requires Keyed(w) && Runs(p, w, events)
    ensures Keyed(After(p, w, events))
    decreases |events|
  {
    if events != [] {
      NextKeyed(p, w, events[0]);
      RunKeyed(p, Next(p, w, events[0]), events[1..]);
    }
  }

  /**
   * Whatever the driver, the failures and the retries, and however many runs are alive under one request id: Billing
   * applies at most one settlement per request, every applied settlement is on the request's own hold, and every
   * settle ever sent carries the key of its request.
   */
  lemma AtMostOneSettlement(p: Policy, events: seq<Event>)
    requires Runs(p, START, events)
    ensures var w := After(p, START, events);
            && (forall i, j, r | 0 <= i < |w.billing.ledger| && 0 <= j < |w.billing.ledger| ::
                 w.billing.ledger[i] == SettleKey(r) && w.billing.ledger[j] == SettleKey(r) ==> i == j)
            && (forall r :: SettleKey(r) in w.billing.ledger ==>
                 SettleKey(r) in w.billing.settledBy && w.billing.settledBy[SettleKey(r)] == HoldKey(r))
            && (forall i :: 0 <= i < |w.messages| && w.messages[i].SettleSent? ==>
                 w.messages[i].key == SettleKey(w.messages[i].request))
  {
    RunKeyed(p, START, events);
    var w := After(p, START, events);
    forall r | SettleKey(r) in w.billing.ledger ensures w.billing.settledBy[SettleKey(r)] == HoldKey(r) {
      var q :| q in w.begun && SettleKey(r) == SettleKey(q) && w.billing.settledBy[SettleKey(r)] == HoldKey(q);
      SettleKeyInjective(q, r);
    }
  }

  // ----- a settle that failed is delivered -----

  /**
   * A settle that meets an outage is kept in the queue under its request's key, and the first retry that reaches
   * Billing settles the hold if it is still open, also after the service has crashed: applied once, and the row
   * marked sent.
   */
  lemma FailedSettleIsDelivered(p: Policy, w: World, n: Run)
    requires Keyed(w) && Enabled(p, w, Settle(n, true, Down, true))
    requires w.sessions[n].s.live && !CS.Finished(w.sessions[n].s)
    requires SettleKey(w.sessions[n].request) !in w.queue && HoldKey(w.sessions[n].request) !in w.billing.closed
    requires SettleKey(w.sessions[n].request) !in w.billing.settledBy
    ensures var r := w.sessions[n].request;
            var w1 := Next(p, w, Settle(n, true, Down, true));
            var w2 := Next(p, w1, Crash);
            && w1.billing == w2.billing == w.billing && SettleKey(r) in w1.queue && w2.queue == w1.queue
            && w1.queue[SettleKey(r)] == Row(r, HoldKey(r), SettleKey(r), Queued)
            && !CS.Finished(w1.sessions[n].s) && (forall m :: m !in w2.sessions)
            && var w3 := Next(p, w2, Retry(SettleKey(r), Up));
               && w3.billing.ledger == w.billing.ledger + [SettleKey(r)]
               && SettleKey(r) in w3.billing.settledBy && w3.billing.settledBy[SettleKey(r)] == HoldKey(r)
               && w3.queue[SettleKey(r)].status == Sent
  {
    hide HoldKey, SettleKey;
  }

  /**
   * A session that is open sends one settle under its request's key, and ends exactly when it hears that Billing has
   * applied it. When it hears anything else, and the queue has room, the settle is kept under its key if none is:
   * for review when it was refused, to be retried otherwise.
   */
  lemma SettleIsAnswered(p: Policy, w: World, n: Run, mood: Mood, stored: bool)
    requires Enabled(p, w, Settle(n, true, mood, stored))
    requires w.sessions[n].s.live && !CS.Finished(w.sessions[n].s)
    ensures var w1 := Next(p, w, Settle(n, true, mood, stored));
            var l := w.sessions[n];
            var id, hold := SettleKey(l.request), HoldKey(l.request);
            var settled := id in w.billing.settledBy;
            var refused := !settled && (mood.Invalid? || hold in w.billing.closed);
            var heard := !mood.Down? && !mood.AnswerLost?;
            && w1.sessions == w.sessions[n := l.(s := l.s.(settled := heard && !refused))]
            && w1.billing == (if mood.Down? || settled || refused then w.billing
                              else Billing(w.billing.settledBy[id := hold], w.billing.closed + {hold},
                                           w.billing.ledger + [id]))
            && w1.queue == (if (heard && !refused) || !stored || id in w.queue then w.queue
                            else w.queue[id := Row(l.request, hold, id, if heard then Review else Queued)])
            && w1.messages == w.messages + [SettleSent(l.request, hold, id)]
  {
    hide HoldKey, SettleKey, Produced;
  }

  /** An open session sends one release of its hold, which closes it, and ends exactly when it hears so. */
  lemma ReleaseIsAnswered(p: Policy, w: World, n: Run, mood: Mood)
    requires Enabled(p, w, Release(n, mood)) && w.sessions[n].s.live && !CS.Finished(w.sessions[n].s)
    ensures var w1 := Next(p, w, Release(n, mood));
            var l := w.sessions[n];
            var hold := HoldKey(l.request);
            var refused := mood.Invalid? || hold in w.billing.closed;
            && w1.sessions == w.sessions[n := l.(s := l.s.(released := mood.Up? && !refused))]
            && w1.billing.closed == w.billing.closed + (if mood.Down? || refused then {} else {hold})
            && w1.billing.ledger == w.billing.ledger && w1.queue == w.queue
            && w1.messages == w.messages + [ReleaseSent(l.request, hold)]
  {
    hide HoldKey, SettleKey, Produced;
  }

  /** A request whose hold is closed without its settle. */
  predicate ClosedUnsettled(b: Billing, r: Request) { HoldKey(r) in b.closed && SettleKey(r) !in b.settledBy }

  lemma BillKeepsClosed(b: Billing, q: Request, mood: Mood, r: Request)
    requires ClosedUnsettled(b, r)
    ensures ClosedUnsettled(BillSettle(b, HoldKey(q), SettleKey(q), mood).0, r)
  {
    if SettleKey(q) == SettleKey(r) { SettleKeyInjective(q, r); }
    hide HoldKey, SettleKey;
  }

  lemma NextKeepsClosed(p: Policy, w: World, e: Event, r: Request)
    requires ClosedUnsettled(w.billing, r) && Keyed(w) && Enabled(p, w, e)
    ensures ClosedUnsettled(Next(p, w, e).billing, r)
  {
    match e
    case Settle(n, _, mood, _) =>
      BillKeepsClosed(w.billing, w.sessions[n].request, mood, r);
      hide BillSettle, HoldKey, SettleKey, CS.Settle, CS.Release, Keyed;
    case Retry(id, mood) =>
      BillKeepsClosed(w.billing, w.queue[id].request, mood, r);
      hide BillSettle, HoldKey, SettleKey, MessagesKeyed, LedgerKeyed;
    case Release(_, _) => hide CS.Release, Keyed;
    case _ => hide Played, Keyed;
  }

  /** A hold that was released is never charged: whatever follows, its request's settle is not applied. */
  lemma {:induction false} ReleasedIsNeverCharged(p: Policy, w: World, events: seq<Event>, r: Request)
    requires ClosedUnsettled(w.billing, r) && Keyed(w) && Runs(p, w, events)
    ensures ClosedUnsettled(After(p, w, events).billing, r) && SettleKey(r) !in After(p, w, events).billing.ledger
    decreases |events|
  {
    hide Next, ClosedUnsettled, HoldKey, SettleKey;
    if events == [] {
      UnsettledIsNotApplied(w, r);
    } else {
      NextKeepsClosed(p, w, events[0], r);
      NextKeyed(p, w, events[0]);
      hide Keyed;
      ReleasedIsNeverCharged(p, Next(p, w, events[0]), events[1..], r);
    }
  }

  lemma UnsettledIsNotApplied(w: World, r: Request)
    requires ClosedUnsettled(w.billing, r) && Keyed(w)
    ensures SettleKey(r) !in w.billing.ledger
  {
    hide HoldKey, SettleKey, MessagesKeyed, QueueKeyed;
  }

  /** A settle Billing decides against is kept for a person, and is never retried. */
  lemma DecidedSettleIsReviewed(p: Policy, w: World, n: Run)
    requires Enabled(p, w, Settle(n, true, Invalid, true)) && w.sessions[n].s.live && !CS.Finished(w.sessions[n].s)
    requires SettleKey(w.sessions[n].request) !in w.queue
    requires SettleKey(w.sessions[n].request) !in w.billing.settledBy
    ensures var id := SettleKey(w.sessions[n].request);
            var w1 := Next(p, w, Settle(n, true, Invalid, true));
            id in w1.queue && w1.queue[id].status == Review && forall mood :: !Enabled(p, w1, Retry(id, mood))
  {
    hide HoldKey, SettleKey;
  }

  /**
   * A retry whose answer is not heard leaves the row to be retried; one Billing has applied, or applies now, marks it
   * sent; one Billing refuses leaves it to a person. Billing applies it unless it has, is away, or refuses.
   */
  lemma RetryIsAnswered(p: Policy, w: World, id: string, mood: Mood)
    requires Keyed(w) && Enabled(p, w, Retry(id, mood))
    ensures var w1 := Next(p, w, Retry(id, mood));
            var settled := id in w.billing.settledBy;
            var refused := !settled && (mood.Invalid? || w.queue[id].hold in w.billing.closed);
            && w1.queue == w.queue[id := w1.queue[id]]
            && w1.queue[id] == Row(w.queue[id].request, w.queue[id].hold, w.queue[id].key,
                                   if mood.Down? || mood.AnswerLost? then Queued else if refused then Review else Sent)
            && w1.billing.ledger == w.billing.ledger + (if mood.Down? || settled || refused then [] else [id])
  {
    hide HoldKey, SettleKey, MessagesKeyed, LedgerKeyed;
    NothingAdded(w.billing.ledger);
  }

  /** What the queue counts as sent is settled, and what is settled was applied. */
  ghost predicate SentAreSettled(w: World) {
    && (forall id :: id in w.queue && w.queue[id].status.Sent? ==> id in w.billing.settledBy)
    && (forall key :: key in w.billing.settledBy ==> key in w.billing.ledger)
  }

  lemma BillSettles(b: Billing, hold: string, key: string, mood: Mood)
    requires forall k :: k in b.settledBy ==> k in b.ledger
    ensures var (after, reply) := BillSettle(b, hold, key, mood);
            && (forall k :: k in after.settledBy ==> k in after.ledger) && b.settledBy.Keys <= after.settledBy.Keys
            && (reply.Taken? ==> key in after.settledBy)
  {
    assert forall k :: k in b.ledger + [key] <==> k in b.ledger || k == key;
  }

  lemma SettleKeepsSent(w: World, n: Run, costOk: bool, mood: Mood, stored: bool)
    requires SentAreSettled(w) && n in w.sessions
    ensures SentAreSettled(AfterSettle(w, n, costOk, mood, stored))
  {
    var r := w.sessions[n].request;
    BillSettles(w.billing, HoldKey(r), SettleKey(r), mood);
    hide BillSettle, HoldKey, SettleKey, CS.Settle, CS.Release;
  }

  lemma RetryKeepsSent(w: World, id: string, mood: Mood)
    requires SentAreSettled(w) && Keyed(w) && id in w.queue
    ensures SentAreSettled(AfterRetry(w, id, mood))
  {
    BillSettles(w.billing, w.queue[id].hold, w.queue[id].key, mood);
    hide BillSettle, HoldKey, SettleKey, MessagesKeyed, LedgerKeyed;
  }

  lemma NextKeepsSent(p: Policy, w: World, e: Event)
    requires SentAreSettled(w) && Keyed(w) && Enabled(p, w, e)
    ensures SentAreSettled(Next(p, w, e))
  {
    match e
    case Settle(n, costOk, mood, stored) => SettleKeepsSent(w, n, costOk, mood, stored);
    case Retry(id, mood) => RetryKeepsSent(w, id, mood);
    case Release(n, mood) => hide CS.Release, Keyed;
    case _ => hide Played, Keyed;
  }

  lemma {:induction false} RunKeepsSent(p: Policy, w: World, events: seq<Event>)
    requires SentAreSettled(w) && Keyed(w) && Runs(p, w, events)
    ensures SentAreSettled(After(p, w, events))
    decreases |events|
  {
    hide Keyed, SentAreSettled, Next;
    if events != [] {
      NextKeyed(p, w, events[0]);
      NextKeepsSent(p, w, events[0]);
      RunKeepsSent(p, Next(p, w, events[0]), events[1..]);
    }
  }

  /** Through every run, a settle the queue counts as sent was applied by Billing, on the hold of its request. */
  lemma SentWasApplied(p: Policy, events: seq<Event>, id: string)
    requires Runs(p, START, events)
    requires var queue := After(p, START, events).queue; id in queue && queue[id].status == Sent
    ensures var w := After(p, START, events);
            var r := w.queue[id].request;
            && id == SettleKey(r) && id in w.billing.ledger
            && id in w.billing.settledBy && w.billing.settledBy[id] == HoldKey(r)
  {
    RunKeyed(p, START, events);
    RunKeepsSent(p, START, events);
    AtMostOneSettlement(p, events);
  }

  // ----- a hold that was sent a settle is never released -----

  ghost predicate WasSettled(messages: seq<Message>, r: Request) {
    exists i :: 0 <= i < |messages| && messages[i].SettleSent? && messages[i].request == r
  }

  ghost predicate NeverReleasedAfterSettle(messages: seq<Message>) {
    forall i, j :: 0 <= i < j < |messages| && messages[i].SettleSent? && messages[j].ReleaseSent? ==>
      messages[i].hold != messages[j].hold
  }

  lemma HoldKeyInjective(a: Request, b: Request)
    requires HoldKey(a) == HoldKey(b)
    ensures a == b
  {
    assert HoldKey(a)[8..] == a && HoldKey(b)[8..] == b;
  }

  /** What the sessions and the queue must keep when the messages are given. */
  ghost predicate SessionsAgree(sessions: map<Run, Live>, messages: seq<Message>) {
    && (forall n :: n in sessions ==> !sessions[n].checked)
    && (forall n, m :: n in sessions && m in sessions && sessions[n].request == sessions[m].request ==> n == m)
    && (forall n :: n in sessions && WasSettled(messages, sessions[n].request) ==> Produced(sessions[n]))
  }

  ghost predicate QueueAgrees(queue: map<string, Row>, messages: seq<Message>) {
    forall id :: id in queue ==> WasSettled(messages, queue[id].request)
  }

  ghost predicate Ordered(w: World) {
    && Keyed(w) && NeverReleasedAfterSettle(w.messages)
    && SessionsAgree(w.sessions, w.messages) && QueueAgrees(w.queue, w.messages)
  }

  lemma SendSettle(messages: seq<Message>, r: Request)
    ensures WasSettled(messages + [SettleSent(r, HoldKey(r), SettleKey(r))], r)
    ensures var more := messages + [SettleSent(r, HoldKey(r), SettleKey(r))];
            && (forall q :: q != r ==> (WasSettled(more, q) <==> WasSettled(messages, q)))
            && (NeverReleasedAfterSettle(messages) ==> NeverReleasedAfterSettle(more))
  {
    var more := messages + [SettleSent(r, HoldKey(r), SettleKey(r))];
    assert more[|messages|].request == r;
    forall q | WasSettled(messages, q) ensures WasSettled(more, q) {
      var i :| 0 <= i < |messages| && messages[i].SettleSent? && messages[i].request == q;
      assert more[i].request == q;
    }
  }

  lemma SendRelease(w: World, r: Request)
    requires Ordered(w) && !WasSettled(w.messages, r)
    ensures var more := w.messages + [ReleaseSent(r, HoldKey(r))];
            NeverReleasedAfterSettle(more) && (forall q :: WasSettled(more, q) <==> WasSettled(w.messages, q))
  {
    var more := w.messages + [ReleaseSent(r, HoldKey(r))];
    forall i | 0 <= i < |w.messages| && w.messages[i].SettleSent? ensures w.messages[i].hold != HoldKey(r) {
      if w.messages[i].hold == HoldKey(r) { HoldKeyInjective(w.messages[i].request, r); }
    }
    forall q | WasSettled(w.messages, q) ensures WasSettled(more, q) {
      var i :| 0 <= i < |w.messages| && w.messages[i].SettleSent? && w.messages[i].request == q;
      assert more[i].request == q;
    }
  }

  const PLAIN := Policy(false, false)

  lemma NextOrdered(w: World, e: Event)
    requires Ordered(w) && Enabled(PLAIN, w, e)
    ensures Ordered(Next(PLAIN, w, e))
  {
    hide Ordered, Keyed, AfterSettle, AfterRelease, AfterRetry;
    match e
    case Settle(n, costOk, mood, stored) => SettleOrdered(w, n, costOk, mood, stored);
    case Retry(id, mood) => RetryOrdered(w, id, mood);
    case Release(n, mood) => ReleaseOrdered(w, n, mood);
    case _ => QuietOrdered(w, e);
  }

  /** The steps that send nothing. */
  lemma QuietOrdered(w: World, e: Event)
    requires Ordered(w) && Enabled(PLAIN, w, e) && (e.Begin? || e.Play? || e.LogOk? || e.End? || e.Crash?)
    ensures Ordered(Next(PLAIN, w, e))
  {
    NextKeyed(PLAIN, w, e);
    if e.Begin? {
      NewIsUnsettled(w, e.r);
      BeginAgrees(w.sessions, w.messages, e.n, Live(e.r, CS.Begin(e.cfg), false, e.checked));
    } else if e.Play? {
      PlayKeepsProduced(w.sessions[e.n].s, e.e);
      ChangeAgrees(w.sessions, w.messages, e.n, w.sessions[e.n].(s := Played(w.sessions[e.n].s, e.e)));
    } else if e.LogOk? {
      ChangeAgrees(w.sessions, w.messages, e.n, w.sessions[e.n].(okLogged := true));
    } else {
      FewerAgree(w.sessions, Next(PLAIN, w, e).sessions, w.messages);
    }
    hide Keyed, SessionsAgree, NeverReleasedAfterSettle, QueueAgrees, Played;
  }

  lemma BeginAgrees(sessions: map<Run, Live>, messages: seq<Message>, n: Run, l: Live)
    requires SessionsAgree(sessions, messages) && n !in sessions && !l.checked && !WasSettled(messages, l.request)
    requires forall m :: m in sessions ==> sessions[m].request != l.request
    ensures SessionsAgree(sessions[n := l], messages)
  {
    hide WasSettled, Produced;
  }

  lemma ChangeAgrees(sessions: map<Run, Live>, messages: seq<Message>, n: Run, l: Live)
    requires SessionsAgree(sessions, messages) && n in sessions && !l.checked && l.request == sessions[n].request
    requires Produced(sessions[n]) ==> Produced(l)
    ensures SessionsAgree(sessions[n := l], messages)
  {
    hide WasSettled, Produced;
  }

  lemma FewerAgree(sessions: map<Run, Live>, left: map<Run, Live>, messages: seq<Message>)
    requires SessionsAgree(sessions, messages)
    requires forall n :: n in left ==> n in sessions && left[n] == sessions[n]
    ensures SessionsAgree(left, messages)
  {
    hide WasSettled, Produced;
  }

  lemma NewIsUnsettled(w: World, r: Request)
    requires Keyed(w) && r !in w.begun
    ensures !WasSettled(w.messages, r)
  {
  }

  lemma PlayKeepsProduced(s: CS.Session, e: CS.Event)
    ensures Played(s, e).streamed >= s.streamed
  {
  }

  lemma ReleaseOrdered(w: World, n: Run, mood: Mood)
    requires Ordered(w) && Enabled(PLAIN, w, Release(n, mood))
    ensures Ordered(AfterRelease(w, n, mood))
  {
    NextKeyed(PLAIN, w, Release(n, mood));
    var w' := AfterRelease(w, n, mood);
    ReleaseIs(w, n, mood);
    if w' != w {
      assert !WasSettled(w.messages, w.sessions[n].request);
      SendRelease(w, w.sessions[n].request);
      hide Keyed, NeverReleasedAfterSettle, WasSettled, AfterRelease;
    }
  }

  lemma ReleaseIs(w: World, n: Run, mood: Mood)
    requires n in w.sessions
    ensures var w' := AfterRelease(w, n, mood);
            var r := w.sessions[n].request;
            w' != w ==>
              && w'.queue == w.queue && w'.messages == w.messages + [ReleaseSent(r, HoldKey(r))]
              && w'.sessions.Keys == w.sessions.Keys
              && (forall q :: q in w.sessions ==> SameProduce(w.sessions[q], w'.sessions[q]))
  {
  }

  predicate SameProduce(a: Live, b: Live) {
    a.request == b.request && a.checked == b.checked && Produced(a) == Produced(b)
  }

  lemma SettleIs(w: World, n: Run, mood: Mood, stored: bool)
    requires n in w.sessions
    ensures var w' := AfterSettle(w, n, true, mood, stored);
            var r := w.sessions[n].request;
            w' != w ==>
              && w'.messages == w.messages + [SettleSent(r, HoldKey(r), SettleKey(r))]
              && w'.sessions.Keys == w.sessions.Keys
              && (forall q :: q in w.sessions ==> SameProduce(w.sessions[q], w'.sessions[q]))
              && (forall id :: id in w'.queue ==>
                    (id in w.queue && w'.queue[id] == w.queue[id]) || w'.queue[id].request == r)
  {
  }

  lemma SettleOrdered(w: World, n: Run, costOk: bool, mood: Mood, stored: bool)
    requires Ordered(w) && Enabled(PLAIN, w, Settle(n, costOk, mood, stored))
    ensures Ordered(AfterSettle(w, n, costOk, mood, stored))
  {
    NextKeyed(PLAIN, w, Settle(n, costOk, mood, stored));
    assert costOk;
    var w' := AfterSettle(w, n, costOk, mood, stored);
    SettleIs(w, n, mood, stored);
    if w' != w {
      SendSettle(w.messages, w.sessions[n].request);
      hide Keyed, NeverReleasedAfterSettle, WasSettled, AfterSettle;
    }
  }

  lemma RetryOrdered(w: World, id: string, mood: Mood)
    requires Ordered(w) && Enabled(PLAIN, w, Retry(id, mood))
    ensures Ordered(AfterRetry(w, id, mood))
  {
    NextKeyed(PLAIN, w, Retry(id, mood));
    RetryIs(w, id, mood);
    SendSettle(w.messages, w.queue[id].request);
    hide Keyed, NeverReleasedAfterSettle, WasSettled, AfterRetry;
  }

  lemma RetryIs(w: World, id: string, mood: Mood)
    requires id in w.queue && Keyed(w)
    ensures var w' := AfterRetry(w, id, mood);
            var r := w.queue[id].request;
            && w'.messages == w.messages + [SettleSent(r, HoldKey(r), SettleKey(r))] && w'.sessions == w.sessions
            && w'.queue.Keys == w.queue.Keys && forall x :: x in w.queue ==> w'.queue[x].request == w.queue[x].request
  {
  }

  lemma {:induction false} RunOrdered(w: World, events: seq<Event>)
    requires Ordered(w) && Runs(PLAIN, w, events)
    ensures Ordered(After(PLAIN, w, events))
    decreases |events|
  {
    if events != [] {
      NextOrdered(w, events[0]);
      RunOrdered(Next(PLAIN, w, events[0]), events[1..]);
    }
  }

  lemma Prepend(p: Policy, w: World, e: Event, rest: seq<Event>)
    requires Enabled(p, w, e) && Runs(p, Next(p, w, e), rest)
    ensures Runs(p, w, [e] + rest) && After(p, w, [e] + rest) == After(p, Next(p, w, e), rest)
  {
    assert ([e] + rest)[0] == e && ([e] + rest)[1..] == rest;
  }

  const CONFIG := CS.Config(0, None, false)
  const OPENING := CS.Routed(Some(CS.FREE_OFFER), CS.Granted)

  /** The world with a run begun under request `""` and its hold open. */
  function Opened(w: World, checked: bool): World {
    w.(sessions := w.sessions[0 := Live("", CS.LiveWith(0, CM.Card(0, 0, 0, 0, 0), 0, None), false, checked)],
       begun := w.begun + {""})
  }

  function Opening(checked: bool, rest: seq<Event>): seq<Event> {
    [Begin(0, "", CONFIG, checked)] + ([Play(0, OPENING)] + rest)
  }

  lemma OpeningPlayed()
    ensures Played(CS.Begin(CONFIG), OPENING) == CS.LiveWith(0, CM.Card(0, 0, 0, 0, 0), 0, None)
    ensures CS.Begin(CONFIG).pending.None?
  {
    CS.FreeOfferHoldsNothing();
  }

  lemma OpeningSteps(p: Policy, w: World, checked: bool)
    requires 0 !in w.sessions && (p.reusedIds || "" !in w.begun) && (checked ==> p.costChecks)
    ensures var e1, e2 := Begin(0, "", CONFIG, checked), Play(0, OPENING);
            Enabled(p, w, e1) && Enabled(p, Next(p, w, e1), e2) && Next(p, Next(p, w, e1), e2) == Opened(w, checked)
  {
    hide Played, CS.Route, CS.Begin;
    OpeningPlayed();
    var w1 := Next(p, w, Begin(0, "", CONFIG, checked));
    assert w1.sessions[0] == Live("", CS.Begin(CONFIG), false, checked);
    assert w1.sessions[0 := Opened(w, checked).sessions[0]] == Opened(w, checked).sessions;
  }

  lemma OpeningOpens(p: Policy, w: World, checked: bool, rest: seq<Event>)
    requires 0 !in w.sessions && (p.reusedIds || "" !in w.begun) && (checked ==> p.costChecks)
    requires Runs(p, Opened(w, checked), rest)
    ensures Runs(p, w, Opening(checked, rest))
    ensures After(p, w, Opening(checked, rest)) == After(p, Opened(w, checked), rest)
  {
    OpeningSteps(p, w, checked);
    hide Enabled, Next, Opened, Runs, After;
    Prepend(p, Next(p, w, Begin(0, "", CONFIG, checked)), Play(0, OPENING), rest);
    Prepend(p, w, Begin(0, "", CONFIG, checked), [Play(0, OPENING)] + rest);
  }

  lemma TwoMessages(w: World)
    requires w.messages == [SettleSent("", HoldKey(""), SettleKey("")), ReleaseSent("", HoldKey(""))]
    ensures !NeverReleasedAfterSettle(w.messages)
  {
    assert w.messages[0].SettleSent? && w.messages[1].ReleaseSent? && w.messages[0].hold == w.messages[1].hold;
  }

  /** A batch's settle meets an outage; the second settle of the same run finds the route too dear and releases. */
  lemma CostCheckReleasesAfterSettle(p: Policy) returns (events: seq<Event>)
    requires p.costChecks
    ensures Runs(p, START, events) && !NeverReleasedAfterSettle(After(p, START, events).messages)
  {
    var w2 := Opened(START, true);
    var e3, e4, e5 := LogOk(0), Settle(0, true, Down, false), Settle(0, false, Up, false);
    var w3 := Next(p, w2, e3);
    var w4 := Next(p, w3, e4);
    assert w4.messages == [SettleSent("", HoldKey(""), SettleKey(""))];
    var w5 := Next(p, w4, e5);
    TwoMessages(w5);
    Prepend(p, w4, e5, []);
    Prepend(p, w3, e4, [e5] + []);
    Prepend(p, w2, e3, [e4] + ([e5] + []));
    events := Opening(true, [e3] + ([e4] + ([e5] + [])));
    OpeningOpens(p, START, true, [e3] + ([e4] + ([e5] + [])));
  }

  /** Settled and ended, with nothing else ever begun. */
  function SettledOnce(): World {
    World(Billing(map[SettleKey("") := HoldKey("")], {HoldKey("")}, [SettleKey("")]), map[], map[], {""},
          [SettleSent("", HoldKey(""), SettleKey(""))])
  }

  lemma SettlesOnce(p: Policy, rest: seq<Event>) returns (events: seq<Event>)
    requires Runs(p, SettledOnce(), rest)
    ensures Runs(p, START, events) && After(p, START, events) == After(p, SettledOnce(), rest)
  {
    var w2 := Opened(START, false);
    var e3, e4, e5 := LogOk(0), Settle(0, true, Up, false), End(0);
    var w3 := Next(p, w2, e3);
    var w4 := Next(p, w3, e4);
    assert w4.messages == [SettleSent("", HoldKey(""), SettleKey(""))];
    assert w4.billing == SettledOnce().billing;
    assert Next(p, w4, e5) == SettledOnce() by { assert w4.sessions - {0} == map[]; }
    Prepend(p, w4, e5, rest);
    Prepend(p, w3, e4, [e5] + rest);
    Prepend(p, w2, e3, [e4] + ([e5] + rest));
    events := Opening(false, [e3] + ([e4] + ([e5] + rest)));
    OpeningOpens(p, START, false, [e3] + ([e4] + ([e5] + rest)));
  }

  /** A settled request's id is begun again and opens the same hold; the second run produces nothing and releases it. */
  lemma ReusedIdReleasesAfterSettle(p: Policy) returns (events: seq<Event>)
    requires p.reusedIds
    ensures Runs(p, START, events) && !NeverReleasedAfterSettle(After(p, START, events).messages)
  {
    var w7 := Opened(SettledOnce(), false);
    var e8 := Release(0, Up);
    TwoMessages(Next(p, w7, e8));
    Prepend(p, w7, e8, []);
    OpeningOpens(p, SettledOnce(), false, [e8] + []);
    events := SettlesOnce(p, Opening(false, [e8] + []));
  }

  /**
   * A hold that was ever sent a settle is never afterwards sent a release, in every run of a driver, exactly when
   * the driver has no cost check and never begins a request id twice.
   */
  lemma ReleaseNeverFollowsSettle(p: Policy)
    ensures (forall events: seq<Event> :: Runs(p, START, events) ==>
               NeverReleasedAfterSettle(After(p, START, events).messages))
       <==> !p.costChecks && !p.reusedIds
  {
    if p.costChecks {
      var events := CostCheckReleasesAfterSettle(p);
    } else if p.reusedIds {
      var events := ReusedIdReleasesAfterSettle(p);
    } else {
      forall events: seq<Event> | Runs(p, START, events)
        ensures NeverReleasedAfterSettle(After(p, START, events).messages)
      {
        RunOrdered(START, events);
      }
    }
  }
}
