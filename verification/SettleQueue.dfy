/**
 * The durable queue of settles Billing could not take: one row per settle key, retried in order with backoff until
 * Billing takes it or decides against it.
 */
module SettleQueue {
  import opened Common

  datatype Status = Queued | Sent | Review

  /** A row's id is a number here: its place in the text order of ids, which breaks ties between equal times. */
  type Key = int

  datatype Row = Row(hold: string, status: Status, tries: nat, nextAt: int)

  type Rows = map<Key, Row>

  datatype Settings = Settings(base: nat, ceiling: nat, limit: nat)

  function Configure(retryMs: int, maxRetryMs: int, batch: int): (s: Settings)
    ensures 1000 <= s.base <= s.ceiling && 1 <= s.limit <= 100
    ensures retryMs >= 1000 ==> s.base == retryMs
    ensures retryMs == 0 ==> s.base == 5000
    ensures maxRetryMs >= s.base ==> s.ceiling == maxRetryMs
    ensures maxRetryMs == 0 ==> s.ceiling == Max(s.base, 300_000)
    ensures 1 <= batch <= 100 ==> s.limit == batch
  {
    var base := Max(1000, if retryMs == 0 then 5000 else retryMs);
    Settings(base, Max(base, if maxRetryMs == 0 then 300_000 else maxRetryMs), Max(1, Min(100, batch)))
  }

  predicate Sound(s: Settings) { 1000 <= s.base <= s.ceiling && 1 <= s.limit <= 100 }

  function Delay(s: Settings, tries: nat): nat { Min(s.ceiling, s.base * Pow2(Min(tries, 10))) }

  /** The backoff is positive, never shrinks as tries go up, and never passes the ceiling. */
  lemma DelayBounds(s: Settings, fewer: nat, more: nat)
    requires Sound(s) && fewer <= more
    ensures 0 < Delay(s, fewer) <= Delay(s, more) <= s.ceiling
  {
    Pow2Grows(Min(fewer, 10), Min(more, 10));
    MulMonotone(Pow2(Min(fewer, 10)), Pow2(Min(more, 10)), s.base);
    MulMonotone(1, Pow2(Min(fewer, 10)), s.base);
  }

  /** Each try doubles the wait, up to the tenth and up to the ceiling. */
  lemma DelayDoubles(s: Settings, tries: nat)
    requires Sound(s)
    ensures Delay(s, 0) == s.base
    ensures Delay(s, tries + 1) == if tries < 10 then Min(s.ceiling, 2 * Delay(s, tries)) else Delay(s, tries)
  {
    if tries < 10 { assert s.base * Pow2(tries + 1) == 2 * (s.base * Pow2(tries)); }
  }

  // ----- the due rows -----

  predicate Earlier(rows: Rows, a: Key, b: Key)
    requires a in rows && b in rows
  {
    rows[a].nextAt < rows[b].nextAt || (rows[a].nextAt == rows[b].nextAt && a < b)
  }

  predicate IsFirst(rows: Rows, keys: set<Key>, k: Key)
    requires keys <= rows.Keys
  {
    k in keys && forall j :: j in keys && j != k ==> Earlier(rows, k, j)
  }

  lemma {:induction false} FirstExists(rows: Rows, keys: set<Key>)
    requires keys <= rows.Keys && keys != {}
    ensures exists k :: IsFirst(rows, keys, k)
    decreases |keys|
  {
    if forall k :: k !in keys { assert false; }
    var any :| any in keys;
    var rest := keys - {any};
    if rest == {} {
      assert keys == {any};
      assert IsFirst(rows, keys, any);
    } else {
      FirstExists(rows, rest);
      var k :| IsFirst(rows, rest, k);
      var first := if Earlier(rows, k, any) then k else any;
      forall j | j in keys && j != first ensures Earlier(rows, first, j) {
        assert j in rest || j == any;
        assert j in rest && j != k ==> Earlier(rows, k, j);
      }
      assert IsFirst(rows, keys, first);
    }
  }

  /** The first `limit` of these rows by time, then by id. */
  function Ordered(rows: Rows, keys: set<Key>, limit: nat): (batch: seq<Key>)
    requires keys <= rows.Keys
    ensures |batch| == Min(limit, |keys|)
    ensures forall i :: 0 <= i < |batch| ==> batch[i] in keys
    ensures forall i, j :: 0 <= i < j < |batch| ==> batch[i] != batch[j] && Earlier(rows, batch[i], batch[j])
    ensures forall k, i :: k in keys && k !in batch && 0 <= i < |batch| ==> Earlier(rows, batch[i], k)
    decreases limit
  {
    if keys == {} || limit == 0 then [] else
    FirstExists(rows, keys);
    var k :| IsFirst(rows, keys, k);
    [k] + Ordered(rows, keys - {k}, limit - 1)
  }

  function Eligible(rows: Rows, now: int, force: bool): set<Key> {
    set k | k in rows && rows[k].status == Queued && (force || rows[k].nextAt <= now)
  }

  function Due(s: Settings, rows: Rows, now: int, force: bool): seq<Key> {
    Ordered(rows, Eligible(rows, now, force), s.limit)
  }

  /** The due rows before this one: queued, due or forced, and earlier by time and then id. */
  function DueBefore(rows: Rows, now: int, force: bool, k: Key): set<Key>
    requires k in rows
  {
    set j | j in rows && rows[j].status == Queued && (force || rows[j].nextAt <= now)
            && (rows[j].nextAt < rows[k].nextAt || (rows[j].nextAt == rows[k].nextAt && j < k))
  }

  /** A row is taken exactly when it is queued, due or forced, and fewer than a batch of such rows come before it. */
  lemma DueExactly(s: Settings, rows: Rows, now: int, force: bool, k: Key)
    ensures k in Due(s, rows, now, force)
       <==> && k in rows && rows[k].status == Queued && (force || rows[k].nextAt <= now)
            && |DueBefore(rows, now, force, k)| < s.limit
  {
    var keys := Eligible(rows, now, force);
    var batch := Ordered(rows, keys, s.limit);
    DistinctCardinality(batch);
    var taken := set j | j in batch;
    if k in keys {
      var before := DueBefore(rows, now, force, k);
      assert before == set j | j in keys && Earlier(rows, j, k);
      hide Ordered, Eligible;
      if k in batch {
        forall j | j in before ensures j in taken - {k} {
          var i :| 0 <= i < |batch| && batch[i] == k;
          assert j !in batch ==> Earlier(rows, batch[i], j);
        }
        SubsetCardinality(before, taken - {k});
      } else {
        if |batch| == |keys| { AllTaken(batch, keys); }
        assert taken <= before;
        SubsetCardinality(taken, before);
      }
    }
  }

  lemma {:induction false} DistinctCardinality(batch: seq<Key>)
    requires forall i, j :: 0 <= i < j < |batch| ==> batch[i] != batch[j]
    ensures |set k | k in batch| == |batch|
  {
    if batch != [] {
      DistinctCardinality(batch[1..]);
      assert (set k | k in batch) == {batch[0]} + set k | k in batch[1..];
    }
  }

  /** As many distinct members as the set has are all of them. */
  lemma AllTaken(batch: seq<Key>, keys: set<Key>)
    requires forall i :: 0 <= i < |batch| ==> batch[i] in keys
    requires forall i, j :: 0 <= i < j < |batch| ==> batch[i] != batch[j]
    requires |batch| == |keys|
    ensures forall k :: k in keys ==> k in batch
  {
    DistinctCardinality(batch);
    var taken := set k | k in batch;
    SubsetCardinality(taken, keys);
  }

  // ----- what happens to a row -----

  /** Billing's answer to one send: taken, decided against (409 or 422), anything else; or the store itself failed. */
  datatype Reply = Taken | Decided | Failed | StoreFailed

  function Attempted(s: Settings, rows: Rows, k: Key, reply: Reply, now: int): (after: Rows)
    requires k in rows
    ensures after.Keys == rows.Keys
  {
    var row := rows[k];
    match reply
    case Taken => rows[k := row.(status := Sent)]
    case Decided => rows[k := row.(status := Review, tries := row.tries + 1)]
    case Failed => rows[k := row.(status := Queued, tries := row.tries + 1, nextAt := now + Delay(s, row.tries + 1))]
    case StoreFailed => rows
  }

  function Enqueued(s: Settings, rows: Rows, k: Key, hold: string, decided: bool, now: int): Rows {
    if k in rows then rows
    else rows[k := Row(hold, if decided then Review else Queued, if decided then 1 else 0, now + s.base)]
  }

  /** The whole pass: each row in turn, until the rows end or the store fails. */
  function Pass(s: Settings, rows: Rows, batch: seq<Key>, replies: seq<Reply>, clocks: seq<int>): Rows
    requires |replies| >= |batch| && |clocks| >= |batch|
    requires forall i :: 0 <= i < |batch| ==> batch[i] in rows
    decreases |batch|
  {
    if batch == [] || replies[0].StoreFailed? then rows
    else Pass(s, Attempted(s, rows, batch[0], replies[0], clocks[0]), batch[1..], replies[1..], clocks[1..])
  }

  lemma PassStops(s: Settings, rows: Rows, batch: seq<Key>, replies: seq<Reply>, clocks: seq<int>)
    requires |replies| >= |batch| && |clocks| >= |batch|
    requires forall i :: 0 <= i < |batch| ==> batch[i] in rows
    requires batch == [] || replies[0].StoreFailed?
    ensures Pass(s, rows, batch, replies, clocks) == rows
  {
  }

  /** The rest of a pass from row `i` on. */
  function PassFrom(s: Settings, rows: Rows, batch: seq<Key>, replies: seq<Reply>, clocks: seq<int>, i: nat): Rows
    requires |replies| >= |batch| && |clocks| >= |batch| && i <= |batch|
    requires forall j :: 0 <= j < |batch| ==> batch[j] in rows
  {
    Pass(s, rows, batch[i..], replies[i..], clocks[i..])
  }

  lemma PassStarts(s: Settings, rows: Rows, batch: seq<Key>, replies: seq<Reply>, clocks: seq<int>)
    requires |replies| >= |batch| && |clocks| >= |batch|
    requires forall j :: 0 <= j < |batch| ==> batch[j] in rows
    ensures PassFrom(s, rows, batch, replies, clocks, 0) == Pass(s, rows, batch, replies, clocks)
  {
    hide Pass;
    assert batch[0..] == batch && replies[0..] == replies && clocks[0..] == clocks;
  }

  lemma DueAreRows(s: Settings, rows: Rows, now: int, force: bool)
    ensures |Due(s, rows, now, force)| <= s.limit
    ensures forall j :: 0 <= j < |Due(s, rows, now, force)| ==> Due(s, rows, now, force)[j] in rows
    ensures var batch := Due(s, rows, now, force); forall i, j :: 0 <= i < j < |batch| ==> batch[i] != batch[j]
  {
    hide Ordered;
    assert Eligible(rows, now, force) <= rows.Keys;
  }

  lemma PassStep(s: Settings, rows: Rows, batch: seq<Key>, replies: seq<Reply>, clocks: seq<int>, i: nat)
    requires |replies| >= |batch| && |clocks| >= |batch| && i < |batch|
    requires forall j :: 0 <= j < |batch| ==> batch[j] in rows
    ensures PassFrom(s, rows, batch, replies, clocks, i) ==
            if replies[i].StoreFailed? then rows
            else PassFrom(s, Attempted(s, rows, batch[i], replies[i], clocks[i]), batch, replies, clocks, i + 1)
  {
    hide Attempted;
    Tail(batch, i);
    Tail(replies, i);
    Tail(clocks, i);
  }

  lemma PassEnds(s: Settings, rows: Rows, batch: seq<Key>, replies: seq<Reply>, clocks: seq<int>)
    requires |replies| >= |batch| && |clocks| >= |batch|
    requires forall j :: 0 <= j < |batch| ==> batch[j] in rows
    ensures PassFrom(s, rows, batch, replies, clocks, |batch|) == rows
  {
    PassStops(s, rows, batch[|batch|..], replies[|batch|..], clocks[|batch|..]);
  }

  lemma Tail<T>(s: seq<T>, i: nat)
    requires i < |s|
    ensures s[i..][0] == s[i] && s[i..][1..] == s[i + 1..]
  {
  }

  /** How many rows of a batch of `n` a pass attempts: all, or those before the reply at which the store fails. */
  function Met(replies: seq<Reply>, n: nat): (m: nat)
    requires n <= |replies|
    ensures m <= n && (m < n ==> replies[m].StoreFailed?) && forall i :: 0 <= i < m ==> !replies[i].StoreFailed?
  {
    if n == 0 then 0
    else
      var m := Met(replies, n - 1);
      if m < n - 1 || replies[n - 1].StoreFailed? then m else n
  }

  /** How many of the first `n` replies are this one. */
  function Count(replies: seq<Reply>, n: nat, reply: Reply): nat
    requires n <= |replies|
  {
    |set i | 0 <= i < n && replies[i] == reply|
  }

  lemma CountStep(replies: seq<Reply>, n: nat, reply: Reply)
    requires n < |replies|
    ensures Count(replies, n + 1, reply) == Count(replies, n, reply) + (if replies[n] == reply then 1 else 0)
  {
    var a, b := set i | 0 <= i < n && replies[i] == reply, set i | 0 <= i < n + 1 && replies[i] == reply;
    assert n !in a;
    if replies[n] == reply {
      forall i ensures i in b <==> i in a || i == n {}
      assert b == a + {n};
    } else {
      forall i ensures i in b <==> i in a {}
      assert b == a;
    }
  }

  /** Each count is of the replies of its kind among the first `n`. */
  predicate Counted(replies: seq<Reply>, n: nat, sent: nat, review: nat, retry: nat)
    requires n <= |replies|
  {
    sent == Count(replies, n, Taken) && review == Count(replies, n, Decided) && retry == Count(replies, n, Failed)
  }

  lemma NothingCounted(replies: seq<Reply>)
    ensures Counted(replies, 0, 0, 0, 0) && Met(replies, 0) == 0
  {
  }

  lemma OneReplyMore(replies: seq<Reply>, i: nat, sent: nat, review: nat, retry: nat)
    requires i < |replies| && Counted(replies, i, sent, review, retry) && Met(replies, i) == i
    ensures !replies[i].StoreFailed? ==> Met(replies, i + 1) == i + 1
    ensures replies[i].Taken? ==> Counted(replies, i + 1, sent + 1, review, retry)
    ensures replies[i].Decided? ==> Counted(replies, i + 1, sent, review + 1, retry)
    ensures replies[i].Failed? ==> Counted(replies, i + 1, sent, review, retry + 1)
  {
    CountStep(replies, i, Taken);
    CountStep(replies, i, Decided);
    CountStep(replies, i, Failed);
    hide Count;
  }

  /** What one send leaves of a row: taken, it is final; decided against, a person's; failed, it waits for its turn. */
  predicate Became(s: Settings, before: Row, reply: Reply, now: int, after: Row) {
    && after.hold == before.hold
    && (reply.Taken? ==> after.status == Sent && after.tries == before.tries && after.nextAt == before.nextAt)
    && (reply.Decided? ==> after.status == Review && after.tries == before.tries + 1 && after.nextAt == before.nextAt)
    && (reply.Failed? ==>
          && after.status == Queued && after.tries == before.tries + 1
          && after.nextAt == now + Min(s.ceiling, s.base * Pow2(Min(before.tries + 1, 10))))
  }

  /** Every row that was sent became what its reply makes of it, and every other row is as it was. */
  predicate SentOnly(s: Settings, before: Rows, batch: seq<Key>, replies: seq<Reply>, clocks: seq<int>, n: nat,
                     after: Rows)
    requires n <= |batch| && n <= |replies| && n <= |clocks|
  {
    && after.Keys == before.Keys
    && (forall i :: 0 <= i < n ==>
          batch[i] in before && Became(s, before[batch[i]], replies[i], clocks[i], after[batch[i]]))
    && (forall k :: k in before && k !in batch[..n] ==> after[k] == before[k])
  }

  lemma OneRowMore(s: Settings, before: Rows, batch: seq<Key>, replies: seq<Reply>, clocks: seq<int>, n: nat,
                   rows: Rows)
    requires n < |batch| && n < |replies| && n < |clocks| && batch[n] in before
    requires forall i, j :: 0 <= i < j < |batch| ==> batch[i] != batch[j]
    requires SentOnly(s, before, batch, replies, clocks, n, rows) && !replies[n].StoreFailed?
    ensures SentOnly(s, before, batch, replies, clocks, n + 1, Attempted(s, rows, batch[n], replies[n], clocks[n]))
  {
    var k := batch[n];
    assert k !in batch[..n];
    AttemptedIs(s, rows, k, replies[n], clocks[n]);
    assert batch[..n + 1] == batch[..n] + [k];
    hide Attempted, Became;
  }

  lemma NothingSent(s: Settings, rows: Rows, batch: seq<Key>, replies: seq<Reply>, clocks: seq<int>)
    ensures SentOnly(s, rows, batch, replies, clocks, 0, rows)
  {
  }

  lemma AttemptedIs(s: Settings, rows: Rows, k: Key, reply: Reply, now: int)
    requires k in rows && !reply.StoreFailed?
    ensures var after := Attempted(s, rows, k, reply, now);
            && after.Keys == rows.Keys && Became(s, rows[k], reply, now, after[k])
            && forall j :: j in rows && j != k ==> after[j] == rows[j]
  {
  }

  lemma {:induction false} MetStays(replies: seq<Reply>, i: nat, n: nat)
    requires i < n <= |replies| && Met(replies, i) == i && replies[i].StoreFailed?
    ensures Met(replies, n) == i
  {
    if i + 1 < n { MetStays(replies, i, n - 1); }
  }

  datatype Summary = Skipped | Summary(sent: nat, review: nat, retry: nat, stopped: bool)

  /** The worker's object: the rows it keeps and the flag that lets one pass run at a time. */
  class CreditSettlements {
    const settings: Settings
    var rows: Rows
    var running: bool

    constructor (retryMs: int, maxRetryMs: int, batch: int)
      ensures settings == Configure(retryMs, maxRetryMs, batch) && Sound(settings)
      ensures rows == map[] && !running
    {
      settings := Configure(retryMs, maxRetryMs, batch);
      rows, running := map[], false;
    }

    method Enqueue(k: Key, hold: string, decided: bool, now: int)
      modifies this`rows
      ensures rows == Enqueued(settings, old(rows), k, hold, decided, now)
      ensures k in rows && forall j :: j in old(rows) ==> j in rows && rows[j] == old(rows)[j]
      ensures forall j :: j in rows ==> j == k || j in old(rows)
      ensures k !in old(rows) ==>
                && rows[k].hold == hold && rows[k].nextAt == now + settings.base
                && (if decided then rows[k].status == Review && rows[k].tries == 1
                    else rows[k].status == Queued && rows[k].tries == 0)
    {
      if k !in rows {
        rows := rows[k := Row(hold, if decided then Review else Queued, if decided then 1 else 0, now + settings.base)];
      }
    }

    /** One pass over the due rows; `drill` is a provider drill, `replies` and `clocks` are what each send met. */
    method RunOnce(now: int, force: bool, drill: bool, replies: seq<Reply>, clocks: seq<int>) returns (out: Summary)
      requires |replies| >= settings.limit && |clocks| >= settings.limit
      modifies this
      ensures running == old(running)
      ensures out.Skipped? <==> old(running) || drill
      ensures out.Skipped? ==> rows == old(rows)
      ensures !out.Skipped? ==> rows == Pass(settings, old(rows), Due(settings, old(rows), now, force), replies, clocks)
      ensures !out.Skipped? && !out.stopped ==>
                out.sent + out.review + out.retry == |Due(settings, old(rows), now, force)|
      ensures !out.Skipped? ==>
                var due := |Due(settings, old(rows), now, force)|;
                var met := Met(replies, due);
                (out.stopped <==> met < due) && Counted(replies, met, out.sent, out.review, out.retry)
      ensures !out.Skipped? ==>
                var batch := Due(settings, old(rows), now, force);
                SentOnly(settings, old(rows), batch, replies, clocks, Met(replies, |batch|), rows)
    {
      hide *;
      if running { return Skipped; }
      running := true;
      if drill {
        running := false;
        return Skipped;
      }
      var batch := Due(settings, rows, now, force);
      var sent, review, retry, stopped := 0, 0, 0, false;
      var i := 0;
      DueAreRows(settings, rows, now, force);
      ghost var total := Pass(settings, rows, batch, replies, clocks);
      PassStarts(settings, rows, batch, replies, clocks);
      NothingCounted(replies);
      NothingSent(settings, rows, batch, replies, clocks);
      while i < |batch| && !stopped
        invariant 0 <= i <= |batch|
        invariant forall j :: 0 <= j < |batch| ==> batch[j] in rows && batch[j] in old(rows)
        invariant !stopped ==> sent + review + retry == i
        invariant if stopped then i < |batch| && Met(replies, |batch|) == i else Met(replies, i) == i
        invariant Counted(replies, i, sent, review, retry)
        invariant SentOnly(settings, old(rows), batch, replies, clocks, i, rows)
        invariant total == if stopped then rows else PassFrom(settings, rows, batch, replies, clocks, i)
        decreases |batch| - i, !stopped
      {
        PassStep(settings, rows, batch, replies, clocks, i);
        if replies[i].StoreFailed? { MetStays(replies, i, |batch|); }
        OneReplyMore(replies, i, sent, review, retry);
        match replies[i] {
          case Taken => sent := sent + 1;
          case Decided => review := review + 1;
          case Failed => retry := retry + 1;
          case StoreFailed => stopped := true;
        }
        if !stopped {
          OneRowMore(settings, old(rows), batch, replies, clocks, i, rows);
          rows := Attempted(settings, rows, batch[i], replies[i], clocks[i]);
          i := i + 1;
        }
      }
      if !stopped { PassEnds(settings, rows, batch, replies, clocks); }
      running := false;
      out := Summary(sent, review, retry, stopped);
    }
  }

  // ----- one worker over time, with new rows arriving at any moment -----

  datatype State = State(rows: Rows, clock: int, left: seq<Key>, running: bool)

  datatype Event =
    | Wait(ms: nat)
    | Arrive(k: Key, hold: string, decided: bool)
    | BeginPass(force: bool)
    | Attempt(reply: Reply)
    | EndPass
    | Crash

  predicate Enabled(st: State, e: Event) {
    match e
    case BeginPass(_) => !st.running
    case Attempt(_) => st.running && st.left != [] && st.left[0] in st.rows
    case EndPass => st.running && st.left == []
    case _ => true
  }

  function Next(s: Settings, st: State, e: Event): State
    requires Enabled(st, e)
  {
    match e
    case Wait(ms) => st.(clock := st.clock + ms)
    case Arrive(k, hold, decided) => st.(rows := Enqueued(s, st.rows, k, hold, decided, st.clock))
    case BeginPass(force) => st.(left := Due(s, st.rows, st.clock, force), running := true)
    case Attempt(reply) =>
      st.(rows := Attempted(s, st.rows, st.left[0], reply, st.clock),
          left := if reply.StoreFailed? then [] else st.left[1..])
    case EndPass => st.(running := false)
    case Crash => st.(running := false, left := [])
  }

  predicate Runs(s: Settings, st: State, events: seq<Event>)
    decreases |events|
  {
    events == [] || (Enabled(st, events[0]) && Runs(s, Next(s, st, events[0]), events[1..]))
  }

  function After(s: Settings, st: State, events: seq<Event>): State
    requires Runs(s, st, events)
    decreases |events|
  {
    if events == [] then st else After(s, Next(s, st, events[0]), events[1..])
  }

  // ----- a pass is a run of these events -----

  predicate Forward(clock: int, clocks: seq<int>)
    decreases |clocks|
  {
    clocks == [] || (clock <= clocks[0] && Forward(clocks[0], clocks[1..]))
  }

  /** What a pass does from its first row on: wait until the row's turn, attempt it, and stop if the store fails. */
  function PassEvents(clock: int, left: seq<Key>, replies: seq<Reply>, clocks: seq<int>): seq<Event>
    requires |replies| >= |left| && |clocks| >= |left| && Forward(clock, clocks)
    decreases |left|
  {
    if left == [] then []
    else
      [Wait(clocks[0] - clock), Attempt(replies[0])]
      + (if replies[0].StoreFailed? then [] else PassEvents(clocks[0], left[1..], replies[1..], clocks[1..]))
  }

  /** The loop over the due rows is a run of attempts, so what holds of every run holds of every pass. */
  lemma {:induction false} PassIsARun(s: Settings, st: State, replies: seq<Reply>, clocks: seq<int>)
    requires st.running && |replies| >= |st.left| && |clocks| >= |st.left| && Forward(st.clock, clocks)
    requires forall i :: 0 <= i < |st.left| ==> st.left[i] in st.rows
    ensures var events := PassEvents(st.clock, st.left, replies, clocks);
            && Runs(s, st, events)
            && After(s, st, events).rows == Pass(s, st.rows, st.left, replies, clocks)
            && After(s, st, events).left == [] && After(s, st, events).running
    decreases |st.left|
  {
    if st.left != [] {
      var wait, attempt := Wait(clocks[0] - st.clock), Attempt(replies[0]);
      var st1 := Next(s, st, wait);
      var st2 := Next(s, st1, attempt);
      if replies[0].StoreFailed? {
        StoppedPass(s, st2, wait, attempt);
        Prepend(s, st1, attempt, []);
        Prepend(s, st, wait, [attempt] + []);
      } else {
        var rest := PassEvents(clocks[0], st.left[1..], replies[1..], clocks[1..]);
        PassIsARun(s, st2, replies[1..], clocks[1..]);
        Prepend(s, st1, attempt, rest);
        Prepend(s, st, wait, [attempt] + rest);
        assert [wait, attempt] + rest == [wait] + ([attempt] + rest);
      }
    }
  }

  lemma StoppedPass(s: Settings, st: State, wait: Event, attempt: Event)
    ensures Runs(s, st, []) && After(s, st, []) == st && [wait, attempt] + [] == [wait] + ([attempt] + [])
  {
  }

  lemma Prepend(s: Settings, st: State, e: Event, rest: seq<Event>)
    requires Enabled(st, e) && Runs(s, Next(s, st, e), rest)
    ensures Runs(s, st, [e] + rest) && After(s, st, [e] + rest) == After(s, Next(s, st, e), rest)
  {
    assert ([e] + rest)[0] == e && ([e] + rest)[1..] == rest;
  }

  /** What is left of a pass are distinct queued rows; nothing is left outside a pass. */
  ghost predicate Valid(st: State) {
    && (!st.running ==> st.left == [])
    && (forall i :: 0 <= i < |st.left| ==> st.left[i] in st.rows && st.rows[st.left[i]].status == Queued)
    && (forall i, j :: 0 <= i < j < |st.left| ==> st.left[i] != st.left[j])
  }

  lemma NextValid(s: Settings, st: State, e: Event)
    requires Valid(st) && Enabled(st, e)
    ensures Valid(Next(s, st, e))
    ensures forall k :: k in st.rows ==> k in Next(s, st, e).rows
    ensures forall k :: k in st.rows && st.rows[k].status != Queued ==> Next(s, st, e).rows[k] == st.rows[k]
  {
    var st' := Next(s, st, e);
    match e {
      case BeginPass(force) =>
        forall i | 0 <= i < |st'.left| ensures st'.left[i] in Eligible(st.rows, st.clock, force) {}
      case Attempt(reply) =>
        forall i | 0 <= i < |st'.left| ensures st'.left[i] == st.left[i + 1] && st'.left[i] != st.left[0] {}
      case _ =>
    }
  }

  /** With one worker a settled row is never touched again: `sent` and `review` are final, through crashes too. */
  lemma {:induction false} FinalRowsStay(s: Settings, st: State, events: seq<Event>, k: Key)
    requires Valid(st) && Runs(s, st, events)
    requires k in st.rows && st.rows[k].status != Queued
    ensures k in After(s, st, events).rows && After(s, st, events).rows[k] == st.rows[k]
    decreases |events|
  {
    if events != [] {
      NextValid(s, st, events[0]);
      FinalRowsStay(s, Next(s, st, events[0]), events[1..], k);
    }
  }

  // ----- several workers on one table -----

  /** What is one worker's own: the rows left of its pass, and its flag. */
  datatype Worker = Worker(left: seq<Key>, running: bool)

  datatype Team = Team(rows: Rows, clock: int, workers: seq<Worker>)

  /** A step of one worker of the team. */
  datatype Turn = Turn(who: nat, e: Event)

  function Idle(n: nat): Team { Team(map[], 0, seq(n, i => Worker([], false))) }

  function Seen(team: Team, who: nat): State
    requires who < |team.workers|
  {
    State(team.rows, team.clock, team.workers[who].left, team.workers[who].running)
  }

  predicate Allowed(team: Team, turn: Turn) {
    turn.who < |team.workers| && Enabled(Seen(team, turn.who), turn.e)
  }

  function Took(s: Settings, team: Team, turn: Turn): Team
    requires Allowed(team, turn)
  {
    var st := Next(s, Seen(team, turn.who), turn.e);
    Team(st.rows, st.clock, team.workers[turn.who := Worker(st.left, st.running)])
  }

  predicate TeamRuns(s: Settings, team: Team, turns: seq<Turn>)
    decreases |turns|
  {
    turns == [] || (Allowed(team, turns[0]) && TeamRuns(s, Took(s, team, turns[0]), turns[1..]))
  }

  function TeamAfter(s: Settings, team: Team, turns: seq<Turn>): Team
    requires TeamRuns(s, team, turns)
    decreases |turns|
  {
    if turns == [] then team else TeamAfter(s, Took(s, team, turns[0]), turns[1..])
  }

  predicate Final(rows: Rows, k: Key) { k in rows && rows[k].status != Queued }

  /** From this state on, whatever the turns, no sent or reviewed row changes. */
  ghost predicate FinalRowsLast(s: Settings, team: Team) {
    forall turns: seq<Turn>, k: Key :: TeamRuns(s, team, turns) && Final(team.rows, k) ==>
      k in TeamAfter(s, team, turns).rows && TeamAfter(s, team, turns).rows[k] == team.rows[k]
  }

  /** In every run of a team of this size, sent and reviewed rows never change again. */
  ghost predicate AlwaysFinal(s: Settings, n: nat) {
    forall before: seq<Turn> :: TeamRuns(s, Idle(n), before) ==> FinalRowsLast(s, TeamAfter(s, Idle(n), before))
  }

  lemma {:induction false} AloneStaysValid(s: Settings, team: Team, turns: seq<Turn>)
    requires |team.workers| == 1 && Valid(Seen(team, 0)) && TeamRuns(s, team, turns)
    ensures var end := TeamAfter(s, team, turns); |end.workers| == 1 && Valid(Seen(end, 0))
    ensures forall k :: Final(team.rows, k) ==>
              k in TeamAfter(s, team, turns).rows && TeamAfter(s, team, turns).rows[k] == team.rows[k]
    decreases |turns|
  {
    hide Valid, Next, Enabled;
    if turns != [] {
      NextValid(s, Seen(team, 0), turns[0].e);
      AloneStaysValid(s, Took(s, team, turns[0]), turns[1..]);
    }
  }

  /** Two workers take the same due row: one settles it, the other, whose send failed, queues it again. */
  lemma TwoWorkersReviveASentRow(s: Settings, n: nat) returns (before: seq<Turn>, after: seq<Turn>)
    requires Sound(s) && n >= 2
    ensures TeamRuns(s, Idle(n), before) && TeamRuns(s, TeamAfter(s, Idle(n), before), after)
    ensures var team := TeamAfter(s, Idle(n), before);
            && 0 in team.rows && team.rows[0].status == Sent
            && 0 in TeamAfter(s, team, after).rows && TeamAfter(s, team, after).rows[0].status == Queued
  {
    var t1 := Took(s, Idle(n), Turn(0, Arrive(0, "", false)));
    OneRowIsDue(s, t1.rows, t1.clock);
    hide Due, Ordered, Eligible, Delay;
    var t2 := Took(s, t1, Turn(0, BeginPass(true)));
    var t3 := Took(s, t2, Turn(1, BeginPass(true)));
    assert t3.workers[0] == Worker([0], true) && t3.workers[1] == Worker([0], true);
    var t4 := Took(s, t3, Turn(0, Attempt(Taken)));
    assert t4.workers[1] == Worker([0], true);
    var e1, e2, e3, e4, e5 := Turn(0, Arrive(0, "", false)), Turn(0, BeginPass(true)), Turn(1, BeginPass(true)),
                              Turn(0, Attempt(Taken)), Turn(1, Attempt(Failed));
    hide Allowed, Took;
    after := [e5] + [];
    TurnFirst(s, t4, e5, []);
    TurnFirst(s, t3, e4, []);
    TurnFirst(s, t2, e3, [e4] + []);
    TurnFirst(s, t1, e2, [e3] + ([e4] + []));
    TurnFirst(s, Idle(n), e1, [e2] + ([e3] + ([e4] + [])));
    before := [e1] + ([e2] + ([e3] + ([e4] + [])));
  }

  lemma OneRowIsDue(s: Settings, rows: Rows, now: int)
    requires Sound(s) && rows.Keys == {0} && rows[0].status == Queued
    ensures Due(s, rows, now, true) == [0]
  {
    var keys := Eligible(rows, now, true);
    assert keys == {0};
    var batch := Ordered(rows, keys, s.limit);
    assert |batch| == 1 && batch[0] in keys;
  }

  lemma TurnFirst(s: Settings, team: Team, turn: Turn, rest: seq<Turn>)
    requires Allowed(team, turn) && TeamRuns(s, Took(s, team, turn), rest)
    ensures TeamRuns(s, team, [turn] + rest)
    ensures TeamAfter(s, team, [turn] + rest) == TeamAfter(s, Took(s, team, turn), rest)
  {
    assert ([turn] + rest)[0] == turn && ([turn] + rest)[1..] == rest;
  }

  /** `sent` and `review` are final in every run, through arrivals, failures and crashes, exactly with one worker. */
  lemma FinalExactlyWithOneWorker(s: Settings, n: nat)
    requires Sound(s)
    ensures AlwaysFinal(s, n) <==> n <= 1
  {
    if n >= 2 {
      var before, after := TwoWorkersReviveASentRow(s, n);
      assert !FinalRowsLast(s, TeamAfter(s, Idle(n), before)) by {
        assert Final(TeamAfter(s, Idle(n), before).rows, 0);
      }
    } else {
      forall before: seq<Turn> | TeamRuns(s, Idle(n), before) ensures FinalRowsLast(s, TeamAfter(s, Idle(n), before)) {
        AtMostOneIsFinal(s, n, before);
      }
    }
  }

  lemma AtMostOneIsFinal(s: Settings, n: nat, before: seq<Turn>)
    requires n <= 1 && TeamRuns(s, Idle(n), before)
    ensures FinalRowsLast(s, TeamAfter(s, Idle(n), before))
  {
    if n == 0 {
      assert before == [];
    } else {
      AloneStaysValid(s, Idle(n), before);
      var team := TeamAfter(s, Idle(n), before);
      hide Valid, TeamAfter, TeamRuns;
      forall turns: seq<Turn>, k: Key | TeamRuns(s, team, turns) && Final(team.rows, k)
        ensures k in TeamAfter(s, team, turns).rows && TeamAfter(s, team, turns).rows[k] == team.rows[k]
      {
        AloneStaysValid(s, team, turns);
      }
    }
  }

  // ----- no due row starves -----

  ghost predicate IsDue(st: State, r: Key) {
    r in st.rows && st.rows[r].status == Queued && st.rows[r].nextAt <= st.clock
  }

  ghost function Ahead(st: State, r: Key): set<Key>
    requires r in st.rows
  {
    set k | k in st.rows && st.rows[k].status == Queued && Earlier(st.rows, k, r)
  }

  ghost function LeftSet(st: State): set<Key> { set k | k in st.left }

  /** A step that leaves `r` alone and does not cut a pass short. */
  ghost predicate Passes(st: State, e: Event, r: Key) {
    && !e.Crash?
    && (e.Attempt? ==> !e.reply.StoreFailed? && (st.left != [] ==> st.left[0] != r))
  }

  ghost predicate Waiting(s: Settings, st: State, r: Key) {
    Sound(s) && Valid(st) && IsDue(st, r) && r !in st.left && LeftSet(st) <= Ahead(st, r)
  }

  /** The rows ahead of a due row that the current pass will not reach; a pass that misses it takes a batch of them. */
  ghost function Behind(st: State, r: Key): nat
    requires r in st.rows
  {
    |Ahead(st, r) - LeftSet(st)|
  }

  /**
   * No step adds a row ahead of a due row, or changes that row, unless it attempts it: a pass, an arrival, an
   * attempt of another row, a failure of the store and a crash all leave it where it was or nearer the front.
   */
  lemma AheadNeverGrows(s: Settings, st: State, e: Event, r: Key)
    requires Sound(s) && Valid(st) && IsDue(st, r) && Enabled(st, e)
    requires e.Attempt? ==> st.left[0] != r
    ensures var st' := Next(s, st, e);
            r in st'.rows && st'.rows[r] == st.rows[r] && IsDue(st', r) && Ahead(st', r) <= Ahead(st, r)
  {
    if e.Attempt? {
      var k := st.left[0];
      DelayBounds(s, st.rows[k].tries + 1, st.rows[k].tries + 1);
    }
  }

  /** A pass that misses a due row lowers the rows it still has ahead by a whole batch; no other step raises them. */
  lemma NextAhead(s: Settings, st: State, e: Event, r: Key)
    requires Waiting(s, st, r) && Enabled(st, e) && Passes(st, e, r)
    requires e.BeginPass? ==> r !in Next(s, st, e).left
    ensures Waiting(s, Next(s, st, e), r) && Next(s, st, e).rows[r] == st.rows[r]
    ensures Ahead(Next(s, st, e), r) <= Ahead(st, r)
    ensures Behind(Next(s, st, e), r) + (if e.BeginPass? then s.limit else 0) <= Behind(st, r)
  {
    NextValid(s, st, e);
    match e
    case BeginPass(force) => PassTakesABatch(s, st, force, r);
    case Attempt(reply) => AttemptLeavesAhead(s, st, reply, r);
    case Arrive(k, hold, decided) => ArrivalIsNotAhead(s, st, k, hold, decided, r);
    case Wait(_) => assert Ahead(Next(s, st, e), r) == Ahead(st, r);
    case EndPass => assert Ahead(Next(s, st, e), r) == Ahead(st, r);
    case Crash =>
  }

  /** An attempted row is settled or waits past the due row, and is no longer ahead. */
  lemma AttemptLeavesAhead(s: Settings, st: State, reply: Reply, r: Key)
    requires Waiting(s, st, r) && Enabled(st, Attempt(reply)) && Passes(st, Attempt(reply), r)
    ensures var st' := Next(s, st, Attempt(reply));
            && st'.rows[r] == st.rows[r] && r !in st'.left && LeftSet(st') <= Ahead(st', r)
            && Ahead(st', r) <= Ahead(st, r) && Behind(st', r) <= Behind(st, r)
  {
    var st' := Next(s, st, Attempt(reply));
    var k := st.left[0];
    DelayBounds(s, st.rows[k].tries + 1, st.rows[k].tries + 1);
    assert Ahead(st', r) == Ahead(st, r) - {k};
    assert LeftSet(st) == LeftSet(st') + {k} by { assert st.left == [k] + st.left[1..]; }
    forall j | j in st'.left ensures j != k {
      var i :| 0 <= i < |st'.left| && st'.left[i] == j;
      assert st.left[i + 1] == j;
    }
    assert Ahead(st', r) - LeftSet(st') == Ahead(st, r) - LeftSet(st);
  }

  /** A row that arrives while another is due waits past it. */
  lemma ArrivalIsNotAhead(s: Settings, st: State, k: Key, hold: string, decided: bool, r: Key)
    requires Waiting(s, st, r)
    ensures var st' := Next(s, st, Arrive(k, hold, decided));
            && st'.rows[r] == st.rows[r] && Ahead(st', r) == Ahead(st, r) && Behind(st', r) == Behind(st, r)
            && LeftSet(st') == LeftSet(st)
  {
  }

  /** A pass that misses a due row is full, and every row in it was ahead. */
  lemma PassTakesABatch(s: Settings, st: State, force: bool, r: Key)
    requires Waiting(s, st, r) && !st.running && r !in Due(s, st.rows, st.clock, force)
    ensures var st' := Next(s, st, BeginPass(force));
            && LeftSet(st') <= Ahead(st', r) && |LeftSet(st')| == s.limit
            && Ahead(st', r) == Ahead(st, r) && Behind(st', r) + s.limit == Behind(st, r)
  {
    var st' := Next(s, st, BeginPass(force));
    var batch := Due(s, st.rows, st.clock, force);
    WaitingIsThere(s, st, r);
    MissingPassIsAhead(s, st, force, r);
    BegunPass(s, st, force, r);
    hide *;
    DistinctCardinality(batch);
    TakenOut(Ahead(st, r), LeftSet(st'));
    BehindIs(st, r);
    BehindIs(st', r);
  }

  lemma BegunPass(s: Settings, st: State, force: bool, r: Key)
    requires Valid(st) && !st.running && r in st.rows
    ensures var st' := Next(s, st, BeginPass(force));
            && LeftSet(st) == {} && LeftSet(st') == (set k | k in Due(s, st.rows, st.clock, force))
            && r in st'.rows && Ahead(st', r) == Ahead(st, r)
  {
  }

  lemma BehindIs(st: State, r: Key)
    requires r in st.rows
    ensures Behind(st, r) == |Ahead(st, r) - LeftSet(st)|
    ensures LeftSet(st) == {} ==> Behind(st, r) == |Ahead(st, r)|
  {
    assert Ahead(st, r) - {} == Ahead(st, r);
  }

  lemma TakenOut(all: set<Key>, taken: set<Key>)
    requires taken <= all
    ensures |all - taken| + |taken| == |all|
  {
    assert all == (all - taken) + taken;
  }

  lemma MissingPassIsAhead(s: Settings, st: State, force: bool, r: Key)
    requires Sound(s) && IsDue(st, r) && r !in Due(s, st.rows, st.clock, force)
    ensures var batch := Due(s, st.rows, st.clock, force);
            |batch| == s.limit && forall k :: k in batch ==> k in Ahead(st, r)
    ensures forall i, j :: 0 <= i < j < s.limit ==>
              Due(s, st.rows, st.clock, force)[i] != Due(s, st.rows, st.clock, force)[j]
  {
    var keys := Eligible(st.rows, st.clock, force);
    var batch := Ordered(st.rows, keys, s.limit);
    assert r in keys;
    if |batch| < s.limit { AllTaken(batch, keys); }
    hide Ordered, IsFirst;
    forall k | k in batch ensures k in Ahead(st, r) {
      var i :| 0 <= i < |batch| && batch[i] == k;
      assert Earlier(st.rows, batch[i], r);
    }
  }

  function PassesBegun(events: seq<Event>): nat {
    if events == [] then 0 else (if events[0].BeginPass? then 1 else 0) + PassesBegun(events[1..])
  }

  /** Along this run no pass picks or attempts `r`, and every pass that begins goes on. */
  ghost predicate Misses(s: Settings, st: State, events: seq<Event>, r: Key)
    requires Runs(s, st, events)
    decreases |events|
  {
    events == [] ||
    (&& Passes(st, events[0], r)
     && (events[0].BeginPass? ==> r !in Next(s, st, events[0]).left)
     && Misses(s, Next(s, st, events[0]), events[1..], r))
  }

  /**
   * No due settle starves: whatever arrives meanwhile, the rows ahead of a due row never grow, and the passes that
   * miss it are at most the rows ahead of it divided by the batch, so the next one attempts it.
   */
  lemma {:induction false} NoDueRowStarves(s: Settings, st: State, events: seq<Event>, r: Key)
    requires Waiting(s, st, r) && Runs(s, st, events) && Misses(s, st, events, r)
    ensures r in After(s, st, events).rows && After(s, st, events).rows[r] == st.rows[r]
    ensures Ahead(After(s, st, events), r) <= Ahead(st, r)
    ensures PassesBegun(events) * s.limit <= Behind(st, r) <= |Ahead(st, r)|
    decreases |events|
  {
    hide Ahead, Behind, LeftSet, Waiting, Passes, Next, Enabled;
    BehindIsAhead(s, st, r);
    if events != [] {
      var st' := Next(s, st, events[0]);
      NextAhead(s, st, events[0], r);
      NoDueRowStarves(s, st', events[1..], r);
      WaitingIsThere(s, st', r);
      OneMorePass(PassesBegun(events[1..]), s.limit, Behind(st', r), Behind(st, r), events[0].BeginPass?);
    }
  }

  lemma WaitingIsThere(s: Settings, st: State, r: Key)
    requires Waiting(s, st, r)
    ensures r in st.rows && Sound(s) && Valid(st) && IsDue(st, r)
  {
  }

  lemma BehindIsAhead(s: Settings, st: State, r: Key)
    requires Waiting(s, st, r)
    ensures r in st.rows && Behind(st, r) <= |Ahead(st, r)|
  {
    SubsetCardinality(Ahead(st, r) - LeftSet(st), Ahead(st, r));
  }

  lemma OneMorePass(passes: nat, limit: nat, after: nat, before: nat, begun: bool)
    requires passes * limit <= after && after + (if begun then limit else 0) <= before
    ensures (passes + (if begun then 1 else 0)) * limit <= before
  {
    assert (passes + 1) * limit == passes * limit + limit;
  }
}
