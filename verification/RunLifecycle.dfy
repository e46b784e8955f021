/**
 * Run rows and their events: every status change is one guarded update, and the event of a new status is written to
 * the outbox in the same transaction. The events below are those transactions, in whatever order execution,
 * cancelling and restart recovery interleave them.
 */
module RunLifecycle {
  import opened Common

  type Id = string

  datatype Status = Queued | Running | Succeeded | Failed | Cancelled | Cached

  predicate Terminal(s: Status) { s.Succeeded? || s.Failed? || s.Cancelled? || s.Cached? }

  /** The statuses that have an event. */
  predicate Announced(s: Status) { s.Queued? || s.Cached? || s.Succeeded? || s.Failed? }

  datatype Entry = Entry(id: Id, status: Status)

  datatype Store = Store(publishing: bool, rows: map<Id, Status>, outbox: seq<Entry>)

  predicate Open(s: Store, id: Id) { id in s.rows && (s.rows[id].Queued? || s.rows[id].Running?) }

  function Emit(s: Store, id: Id): Store
    requires id in s.rows
  {
    if s.publishing && Announced(s.rows[id]) then s.(outbox := s.outbox + [Entry(id, s.rows[id])]) else s
  }

  function EmitAll(s: Store, ids: seq<Id>): (r: Store)
    requires forall id :: id in ids ==> id in s.rows
    ensures r.rows == s.rows && r.publishing == s.publishing
  {
    if ids == [] then s else Emit(EmitAll(s, ids[..|ids| - 1]), ids[|ids| - 1])
  }

  /** The status this transaction would set, when its guard lets it. */
  datatype Transaction =
    | Insert(id: Id)
    | InsertCached(id: Id)
    | MarkRunning(id: Id)
    | Succeed(id: Id)
    | Break(id: Id, cancelled: bool)
    | Cancel(id: Id)
    | Recover(order: seq<Id>)

  /** An insert is of a new id; recovery visits each open row once, in the order the database lists them. */
  predicate Enabled(s: Store, t: Transaction) {
    match t
    case Insert(id) => id !in s.rows
    case InsertCached(id) => id !in s.rows
    case Recover(order) =>
      && (forall i, j :: 0 <= i < j < |order| ==> order[i] != order[j])
      && (forall id :: id in order ==> id in s.rows)
      && (forall id :: id in s.rows ==> (id in order <==> Open(s, id)))
    case _ => true
  }

  function Recovered(s: Store): Store {
    s.(rows := map id | id in s.rows :: if Open(s, id) then Failed else s.rows[id])
  }

  function Applied(s: Store, t: Transaction): Store
    requires Enabled(s, t)
  {
    match t
    case Insert(id) => Emit(s.(rows := s.rows[id := Queued]), id)
    case InsertCached(id) => Emit(s.(rows := s.rows[id := Cached]), id)
    case MarkRunning(id) => if id in s.rows && s.rows[id].Queued? then s.(rows := s.rows[id := Running]) else s
    case Succeed(id) => if id in s.rows && s.rows[id].Running? then Emit(s.(rows := s.rows[id := Succeeded]), id) else s
    case Break(id, cancelled) =>
      if Open(s, id) then Emit(s.(rows := s.rows[id := if cancelled then Cancelled else Failed]), id) else s
    case Cancel(id) => if Open(s, id) then s.(rows := s.rows[id := Cancelled]) else s
    case Recover(order) => EmitAll(Recovered(s), order)
  }

  /** The runs table and the outbox it writes to. */
  class RunStore {
    const publishing: bool
    var rows: map<Id, Status>
    var outbox: seq<Entry>

    function Now(): Store
      reads this
    {
      Store(publishing, rows, outbox)
    }

    constructor (publishing: bool)
      ensures Now() == Store(publishing, map[], [])
    {
      this.publishing := publishing;
      rows, outbox := map[], [];
    }

    method RunChanged(id: Id)
      requires id in rows
      modifies this`outbox
      ensures Now() == Emit(old(Now()), id)
      ensures outbox == old(outbox) + if publishing && rows[id] != Running && rows[id] != Cancelled
                                      then [Entry(id, rows[id])] else []
    {
      if publishing && (rows[id].Queued? || rows[id].Cached? || rows[id].Succeeded? || rows[id].Failed?) {
        outbox := outbox + [Entry(id, rows[id])];
      }
    }

    method Create(id: Id, cacheHit: bool)
      requires id !in rows
      modifies this
      ensures Now() == Applied(old(Now()), if cacheHit then InsertCached(id) else Insert(id))
      ensures rows == old(rows)[id := if cacheHit then Cached else Queued]
      ensures outbox == old(outbox) + if publishing then [Entry(id, if cacheHit then Cached else Queued)] else []
    {
      rows := rows[id := if cacheHit then Cached else Queued];
      RunChanged(id);
    }

    /** Execution takes a row it read as queued; the update alone decides. */
    method Execute(id: Id)
      modifies this
      ensures Now() == Applied(old(Now()), MarkRunning(id))
      ensures rows == if id in old(rows) && old(rows)[id] == Queued then old(rows)[id := Running] else old(rows)
      ensures outbox == old(outbox)
    {
      if id in rows && rows[id] == Queued { rows := rows[id := Running]; }
    }

    method Finish(id: Id) returns (changed: bool)
      modifies this
      ensures Now() == Applied(old(Now()), Succeed(id))
      ensures changed <==> id in old(rows) && old(rows)[id] == Running
      ensures rows == if changed then old(rows)[id := Succeeded] else old(rows)
      ensures outbox == old(outbox) + if changed && publishing then [Entry(id, Succeeded)] else []
    {
      changed := id in rows && rows[id] == Running;
      if changed {
        rows := rows[id := Succeeded];
        RunChanged(id);
      }
    }

    method Fail(id: Id, cancelled: bool)
      modifies this
      ensures Now() == Applied(old(Now()), Break(id, cancelled))
      ensures var open := id in old(rows) && (old(rows)[id] == Queued || old(rows)[id] == Running);
              && rows == (if open then old(rows)[id := if cancelled then Cancelled else Failed] else old(rows))
              && outbox == old(outbox) + if open && !cancelled && publishing then [Entry(id, Failed)] else []
    {
      if id in rows && (rows[id] == Queued || rows[id] == Running) {
        rows := rows[id := if cancelled then Cancelled else Failed];
        RunChanged(id);
      }
    }

    method CancelRun(id: Id)
      modifies this
      ensures Now() == Applied(old(Now()), Cancel(id))
      ensures var open := id in old(rows) && (old(rows)[id] == Queued || old(rows)[id] == Running);
              rows == (if open then old(rows)[id := Cancelled] else old(rows)) && outbox == old(outbox)
    {
      if id in rows && (rows[id] == Queued || rows[id] == Running) { rows := rows[id := Cancelled]; }
    }

    method RecoverInterrupted(open: seq<Id>)
      requires Enabled(Now(), Recover(open))
      modifies this
      ensures Now() == Applied(old(Now()), Recover(open))
      ensures rows.Keys == old(rows).Keys
      ensures forall id :: id in rows ==>
                rows[id] == if old(rows)[id] == Queued || old(rows)[id] == Running then Failed else old(rows)[id]
      ensures outbox == old(outbox) +
                        if publishing then seq(|open|, i requires 0 <= i < |open| => Entry(open[i], Failed)) else []
    {
      rows := map id | id in rows :: if rows[id] == Queued || rows[id] == Running then Failed else rows[id];
      assert Now() == Recovered(old(Now()));
      for i := 0 to |open|
        invariant rows == Recovered(old(Now())).rows
        invariant Now() == EmitAll(Recovered(old(Now())), open[..i])
      {
        assert open[..i + 1][..i] == open[..i];
        RunChanged(open[i]);
      }
      assert open[..|open|] == open;
      hide Recovered, EmitAll, Emit;
      RecoveredIs(old(Now()), open);
    }
  }

  // ----- every interleaving -----

  /** The store and the status changes that really happened, in order. */
  datatype World = World(store: Store, history: seq<Entry>)

  function Start(publishing: bool): World { World(Store(publishing, map[], []), []) }

  function Entries(ids: seq<Id>, status: Status): (r: seq<Entry>)
    ensures |r| == |ids| && forall i :: 0 <= i < |ids| ==> r[i] == Entry(ids[i], status)
  {
    seq(|ids|, i requires 0 <= i < |ids| => Entry(ids[i], status))
  }

  function Changes(s: Store, t: Transaction): seq<Entry>
    requires Enabled(s, t)
  {
    match t
    case Insert(id) => [Entry(id, Queued)]
    case InsertCached(id) => [Entry(id, Cached)]
    case Recover(order) => Entries(order, Failed)
    case _ =>
      if t.id in s.rows && Applied(s, t).rows[t.id] != s.rows[t.id] then [Entry(t.id, Applied(s, t).rows[t.id])]
      else []
  }

  function Next(w: World, t: Transaction): World
    requires Enabled(w.store, t)
  {
    World(Applied(w.store, t), w.history + Changes(w.store, t))
  }

  predicate Runs(w: World, ts: seq<Transaction>)
    decreases |ts|
  {
    ts == [] || (Enabled(w.store, ts[0]) && Runs(Next(w, ts[0]), ts[1..]))
  }

  function After(w: World, ts: seq<Transaction>): World
    requires Runs(w, ts)
    decreases |ts|
  {
    if ts == [] then w else After(Next(w, ts[0]), ts[1..])
  }

  /** The statuses one run went through, from a log of all of them. */
  function Of(log: seq<Entry>, id: Id): seq<Status> {
    if log == [] then []
    else
      var last := log[|log| - 1];
      Of(log[..|log| - 1], id) + (if last.id == id then [last.status] else [])
  }

  /** What of a run's history is announced. */
  function Projection(history: seq<Status>): seq<Status> {
    if history == [] then []
    else
      var last := history[|history| - 1];
      Projection(history[..|history| - 1]) + (if Announced(last) then [last] else [])
  }

  lemma OfOne(log: seq<Entry>, e: Entry, id: Id)
    ensures Of(log + [e], id) == Of(log, id) + (if e.id == id then [e.status] else [])
  {
    assert (log + [e])[..|log|] == log;
  }

  lemma {:induction false} OfConcat(a: seq<Entry>, b: seq<Entry>, id: Id)
    ensures Of(a + b, id) == Of(a, id) + Of(b, id)
  {
    if b == [] {
      NothingAdded(a);
      NothingAdded(Of(a, id));
    } else {
      var front, e := b[..|b| - 1], b[|b| - 1];
      LastOf(a, b);
      OfConcat(a, front, id);
      OfOne(a + front, e, id);
      OfOne(front, e, id);
      hide *;
      Associates(Of(a, id), Of(front, id), if e.id == id then [e.status] else []);
    }
  }

  lemma {:induction false} OfEntries(ids: seq<Id>, status: Status, id: Id)
    requires forall i, j :: 0 <= i < j < |ids| ==> ids[i] != ids[j]
    ensures Of(Entries(ids, status), id) == if id in ids then [status] else []
  {
    if ids != [] {
      var front := ids[..|ids| - 1];
      OfEntries(front, status, id);
      assert Entries(ids, status)[..|ids| - 1] == Entries(front, status);
      assert id in ids <==> id in front || id == ids[|ids| - 1];
    }
  }

  /** Emitting for distinct rows of one announced status adds that status to each of them. */
  lemma {:induction false} EmitAllAdds(s: Store, ids: seq<Id>, status: Status)
    requires s.publishing && Announced(status)
    requires forall id :: id in ids ==> id in s.rows && s.rows[id] == status
    ensures EmitAll(s, ids).outbox == s.outbox + Entries(ids, status)
  {
    if ids != [] {
      var front := ids[..|ids| - 1];
      EmitAllAdds(s, front, status);
      assert Entries(ids, status) == Entries(front, status) + [Entry(ids[|ids| - 1], status)];
    }
  }

  /** Recovery fails the open rows and no other, and announces each of them once, in the order they were listed. */
  lemma RecoveredIs(s: Store, order: seq<Id>)
    requires Enabled(s, Recover(order))
    ensures var r := Applied(s, Recover(order));
            && r.rows.Keys == s.rows.Keys
            && (forall id :: id in r.rows ==>
                  r.rows[id] == if s.rows[id] == Queued || s.rows[id] == Running then Failed else s.rows[id])
            && r.outbox == s.outbox + if s.publishing then Entries(order, Failed) else []
  {
    var r := Recovered(s);
    if s.publishing {
      EmitAllAdds(r, order, Failed);
    } else {
      QuietEmitAll(r, order);
      NothingAdded(s.outbox);
    }
    hide EmitAll;
  }

  /** The histories a run can have, with the status it ends in. */
  predicate Legal(h: seq<Status>) {
    || h == [] || h == [Cached] || h == [Queued] || h == [Queued, Running]
    || (|h| == 2 && h[0] == Queued && (h[1] == Failed || h[1] == Cancelled))
    || (|h| == 3 && h[0] == Queued && h[1] == Running && (h[2] == Succeeded || h[2] == Failed || h[2] == Cancelled))
  }

  /** A row, its history and its events tell the same story. */
  ghost predicate Story(publishing: bool, row: Option<Status>, h: seq<Status>, events: seq<Status>) {
    && Legal(h)
    && row == (if h == [] then None else Some(h[|h| - 1]))
    && events == if publishing then Projection(h) else []
  }

  function RowOf(s: Store, id: Id): Option<Status> { if id in s.rows then Some(s.rows[id]) else None }

  ghost predicate Traced(w: World, id: Id) {
    Story(w.store.publishing, RowOf(w.store, id), Of(w.history, id), Of(w.store.outbox, id))
  }

  lemma ProjectionOne(h: seq<Status>, s: Status)
    ensures Projection(h + [s]) == Projection(h) + (if Announced(s) then [s] else [])
  {
    assert (h + [s])[..|h|] == h;
  }

  /** The status changes a guard lets through. */
  predicate Allowed(row: Option<Status>, s: Status) {
    match s
    case Queued => row.None?
    case Cached => row.None?
    case Running => row == Some(Queued)
    case Succeeded => row == Some(Running)
    case _ => row == Some(Queued) || row == Some(Running)
  }

  lemma StoryGoesOn(publishing: bool, row: Option<Status>, h: seq<Status>, events: seq<Status>, s: Status)
    requires Story(publishing, row, h, events) && Allowed(row, s)
    ensures Story(publishing, Some(s), h + [s], events + (if publishing && Announced(s) then [s] else []))
  {
    ProjectionOne(h, s);
    assert events + [] == events;
    hide Projection;
  }

  lemma OneRowStore(s: Store, t: Transaction)
    requires Enabled(s, t) && !t.Recover?
    ensures Changes(s, t) == [] ==> Applied(s, t) == s
    ensures |Changes(s, t)| <= 1
    ensures Changes(s, t) != [] ==>
              var e := Changes(s, t)[0];
              && e.id == t.id && Allowed(RowOf(s, t.id), e.status)
              && Applied(s, t) == Store(s.publishing, s.rows[t.id := e.status],
                                        s.outbox + (if s.publishing && Announced(e.status) then [e] else []))
  {
    assert s.outbox + [] == s.outbox;
  }

  function Extended(w: World, e: Entry): World {
    World(Store(w.store.publishing, w.store.rows[e.id := e.status],
                w.store.outbox + (if w.store.publishing && Announced(e.status) then [e] else [])),
          w.history + [e])
  }

  lemma ExtendedTraced(w: World, e: Entry, id: Id)
    requires Traced(w, id) && Allowed(RowOf(w.store, e.id), e.status)
    ensures Traced(Extended(w, e), id)
  {
    OfOne(w.history, e, id);
    OfOne(w.store.outbox, e, id);
    hide Of, Story, Announced, Allowed;
    assert w.store.outbox + [] == w.store.outbox;
    var h, events := Of(w.history, id), Of(w.store.outbox, id);
    assert h + [] == h && events + [] == events;
    if e.id == id { StoryGoesOn(w.store.publishing, RowOf(w.store, id), h, events, e.status); }
  }

  /** One transaction changes one run's row, history and events together, and no other run's. */
  lemma OneRowTraced(w: World, t: Transaction, id: Id)
    requires Traced(w, id) && Enabled(w.store, t) && !t.Recover?
    ensures Traced(Next(w, t), id)
  {
    OneRowStore(w.store, t);
    hide Applied, Changes, Traced, RowOf, Allowed;
    var changes := Changes(w.store, t);
    if changes == [] {
      assert w.history + [] == w.history;
    } else {
      assert changes == [changes[0]];
      ExtendedTraced(w, changes[0], id);
    }
  }

  lemma RecoveredLogs(w: World, order: seq<Id>, id: Id)
    requires Enabled(w.store, Recover(order))
    ensures var w' := Next(w, Recover(order));
            var more := if id in order then [Failed] else [];
            && w'.store.publishing == w.store.publishing && w'.store.rows == Recovered(w.store).rows
            && Of(w'.history, id) == Of(w.history, id) + more
            && Of(w'.store.outbox, id) == Of(w.store.outbox, id) + (if w.store.publishing then more else [])
  {
    var s := Recovered(w.store);
    OfConcat(w.history, Entries(order, Failed), id);
    OfEntries(order, Failed, id);
    if w.store.publishing {
      EmitAllAdds(s, order, Failed);
      OfConcat(w.store.outbox, Entries(order, Failed), id);
    } else {
      QuietEmitAll(s, order);
      assert Of(w.store.outbox, id) + [] == Of(w.store.outbox, id);
    }
  }

  lemma RecoverTraced(w: World, order: seq<Id>, id: Id)
    requires Traced(w, id) && Enabled(w.store, Recover(order))
    ensures Traced(Next(w, Recover(order)), id)
  {
    var h, events := Of(w.history, id), Of(w.store.outbox, id);
    RecoveredLogs(w, order, id);
    RecoveredRow(w.store, order, id);
    hide Of, Story, Next, Recovered, Allowed, RowOf;
    NothingAdded(h);
    NothingAdded(events);
    if id in order { StoryGoesOn(w.store.publishing, RowOf(w.store, id), h, events, Failed); }
    RowOfRows(Next(w, Recover(order)).store, Recovered(w.store), id);
  }

  lemma RecoveredRow(s: Store, order: seq<Id>, id: Id)
    requires Enabled(s, Recover(order))
    ensures RowOf(Recovered(s), id) == if id in order then Some(Failed) else RowOf(s, id)
    ensures id in order ==> Allowed(RowOf(s, id), Failed)
  {
  }

  lemma RowOfRows(a: Store, b: Store, id: Id)
    requires a.rows == b.rows
    ensures RowOf(a, id) == RowOf(b, id)
  {
  }

  lemma {:induction false} QuietEmitAll(s: Store, ids: seq<Id>)
    requires !s.publishing && forall id :: id in ids ==> id in s.rows
    ensures EmitAll(s, ids) == s
  {
    if ids != [] { QuietEmitAll(s, ids[..|ids| - 1]); }
  }

  lemma {:induction false} RunTraced(w: World, ts: seq<Transaction>)
    requires forall x :: Traced(w, x)
    requires Runs(w, ts)
    ensures forall x :: Traced(After(w, ts), x)
    ensures After(w, ts).store.publishing == w.store.publishing
    ensures forall x :: x in w.store.rows && Terminal(w.store.rows[x]) ==>
              x in After(w, ts).store.rows && After(w, ts).store.rows[x] == w.store.rows[x]
    decreases |ts|
  {
    if ts != [] {
      var w1 := Next(w, ts[0]);
      forall x ensures Traced(w1, x) {
        if ts[0].Recover? { RecoverTraced(w, ts[0].order, x); } else { OneRowTraced(w, ts[0], x); }
      }
      TerminalStays(w.store, ts[0]);
      RunTraced(w1, ts[1..]);
    }
  }

  lemma TerminalStays(s: Store, t: Transaction)
    requires Enabled(s, t)
    ensures Applied(s, t).publishing == s.publishing
    ensures forall x :: x in s.rows && Terminal(s.rows[x]) ==>
              x in Applied(s, t).rows && Applied(s, t).rows[x] == s.rows[x]
  {
  }

  /** In any interleaving, a run that reached a terminal status keeps it through everything that follows. */
  lemma TerminalIsFinal(publishing: bool, before: seq<Transaction>, after: seq<Transaction>, id: Id)
    requires Runs(Start(publishing), before) && Runs(After(Start(publishing), before), after)
    requires var s := After(Start(publishing), before).store; id in s.rows && Terminal(s.rows[id])
    ensures var w := After(Start(publishing), before);
            var s := After(w, after).store;
            id in s.rows && s.rows[id] == w.store.rows[id]
  {
    RunTraced(Start(publishing), before);
    RunTraced(After(Start(publishing), before), after);
  }

  /**
   * In any interleaving, a run's events are exactly the announced part of its history: `cached` alone for a cache
   * hit, otherwise `queued`, then at most one of `succeeded` and `failed`, and nothing for a cancel.
   */
  lemma EventsAreTheProjection(ts: seq<Transaction>, id: Id)
    requires Runs(Start(true), ts)
    ensures var w := After(Start(true), ts);
            var events := Of(w.store.outbox, id);
            && Legal(Of(w.history, id))
            && events == Projection(Of(w.history, id))
            && (events == [] || events == [Cached] || events == [Queued]
                || events == [Queued, Succeeded] || events == [Queued, Failed])
            && (id in w.store.rows ==>
                  && events != []
                  && (w.store.rows[id] == Cancelled ==> events == [Queued])
                  && (w.store.rows[id] == Cached <==> events == [Cached])
                  && (w.store.rows[id] == Succeeded <==> events == [Queued, Succeeded])
                  && (w.store.rows[id] == Failed <==> events == [Queued, Failed]))
  {
    RunTraced(Start(true), ts);
    var w := After(Start(true), ts);
    assert Traced(w, id);
    if id in w.store.rows { LegalProjection(Of(w.history, id)); }
  }

  lemma ProjectionNone()
    ensures Projection([]) == []
  {
  }

  lemma ShortProjections(last: Status)
    ensures Projection([last]) == if Announced(last) then [last] else []
    ensures Projection([Queued, last]) == [Queued] + if Announced(last) then [last] else []
    ensures Projection([Queued, Running, last]) == [Queued] + if Announced(last) then [last] else []
  {
    hide Projection;
    ProjectionNone();
    ProjectionOne([], last);
    ProjectionOne([], Queued);
    ProjectionOne([Queued], last);
    ProjectionOne([Queued], Running);
    ProjectionOne([Queued, Running], last);
    NothingAdded([last]);
    NothingAdded([Queued]);
    assert [Queued] + [last] == [Queued, last];
    assert [Queued] + [Running] == [Queued, Running];
    assert [Queued, Running] + [last] == [Queued, Running, last];
  }

  lemma LegalProjection(h: seq<Status>)
    requires Legal(h) && h != []
    ensures var last := h[|h| - 1];
            Projection(h) ==
            if last.Succeeded? || last.Failed? then [Queued, last] else if last.Cached? then [Cached] else [Queued]
  {
    hide Projection;
    var last := h[|h| - 1];
    ShortProjections(last);
    assert h == [last] || h == [Queued, last] || h == [Queued, Running, last];
  }
}
