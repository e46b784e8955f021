/**
 * The run queue: at most `maxConcurrent` runs hold a slot, the others wait, and a freed slot goes to the earliest
 * arrival among the highest priority. Each operation here is one of the service's blocks that run without a pause.
 */
module Scheduler {
  type Id = string

  /** An accepted run's handle: the priority its person bought, and whether its gate was released. */
  datatype Handle = Handle(priority: int, released: bool)

  datatype State = State(max: nat, queue: seq<Id>, inflight: map<Id, Handle>, active: nat)

  // ----- choosing the next run -----

  predicate Better(inflight: map<Id, Handle>, a: Id, b: Id) {
    a in inflight && (b !in inflight || inflight[a].priority > inflight[b].priority)
  }

  /** The first of the best: nothing in the queue is better, and everything before it is worse. */
  ghost predicate IsBest(queue: seq<Id>, inflight: map<Id, Handle>, at: nat) {
    && at < |queue|
    && (forall j :: 0 <= j < |queue| ==> !Better(inflight, queue[j], queue[at]))
    && (forall j :: 0 <= j < at ==> Better(inflight, queue[at], queue[j]))
  }

  /** The scan from index `i` on, with `at` the best so far. */
  function BestFrom(queue: seq<Id>, inflight: map<Id, Handle>, i: nat, at: nat): (best: nat)
    requires at < i <= |queue| && IsBest(queue[..i], inflight, at)
    ensures IsBest(queue, inflight, best)
    decreases |queue| - i
  {
    if i == |queue| then
      assert queue[..i] == queue;
      at
    else
      var next := if Better(inflight, queue[i], queue[at]) then i else at;
      assert IsBest(queue[..i + 1], inflight, next) by {
        assert forall j :: 0 <= j < i ==> queue[..i + 1][j] == queue[..i][j];
      }
      BestFrom(queue, inflight, i + 1, next)
  }

  function BestIndex(queue: seq<Id>, inflight: map<Id, Handle>): (at: nat)
    requires queue != []
    ensures IsBest(queue, inflight, at)
  {
    BestFrom(queue, inflight, 1, 0)
  }

  lemma BestUnique(queue: seq<Id>, inflight: map<Id, Handle>, a: nat, b: nat)
    requires IsBest(queue, inflight, a) && IsBest(queue, inflight, b)
    ensures a == b
  {
    var _, _ := Better(inflight, queue[b], queue[a]), Better(inflight, queue[a], queue[b]);
  }

  function Without(queue: seq<Id>, at: nat): seq<Id>
    requires at < |queue|
  {
    queue[..at] + queue[at + 1..]
  }

  /** Fill the free slots. Answers the new state and the runs started, in order. */
  function Pump(s: State): (r: (State, seq<Id>))
    decreases |s.queue|
  {
    if s.active < s.max && s.queue != [] then
      var at := BestIndex(s.queue, s.inflight);
      var id := s.queue[at];
      var (s2, started) := Pump(Popped(s, at));
      (s2, if id in s.inflight then [id] + started else started)
    else (s, [])
  }

  /** The state after the best waiting run was taken out, and given a slot when it still has a handle. */
  function Popped(s: State, at: nat): State
    requires at < |s.queue|
  {
    var id := s.queue[at];
    var s1 := s.(queue := Without(s.queue, at));
    if id !in s.inflight then s1
    else s1.(active := s.active + 1, inflight := s.inflight[id := s.inflight[id].(released := true)])
  }

  lemma PumpUnfolds(s: State)
    requires s.active < s.max && s.queue != []
    ensures var at := BestIndex(s.queue, s.inflight);
            var rest := Pump(Popped(s, at));
            Pump(s) == (rest.0, (if s.queue[at] in s.inflight then [s.queue[at]] else []) + rest.1)
  {
    var at := BestIndex(s.queue, s.inflight);
    assert [] + Pump(Popped(s, at)).1 == Pump(Popped(s, at)).1;
  }

  lemma PoppedIs(s: State, at: nat)
    requires at < |s.queue|
    ensures var id := s.queue[at];
            var rest := s.queue[..at] + s.queue[at + 1..];
            Popped(s, at) ==
            if id in s.inflight then
              State(s.max, rest, s.inflight[id := s.inflight[id].(released := true)], s.active + 1)
            else State(s.max, rest, s.inflight, s.active)
  {
  }

  lemma PumpStops(s: State)
    requires s.active >= s.max || s.queue == []
    ensures Pump(s) == (s, [])
  {
  }

  function Enqueued(s: State, id: Id, priority: int): State {
    s.(inflight := s.inflight[id := Handle(priority, false)], queue := s.queue + [id])
  }

  function Finished(s: State): State
    requires s.active > 0
  {
    s.(active := s.active - 1)
  }

  function IndexOf(queue: seq<Id>, id: Id): (at: nat)
    ensures at <= |queue|
    ensures at < |queue| ==> queue[at] == id
    ensures forall j :: 0 <= j < at ==> queue[j] != id
  {
    if queue == [] || queue[0] == id then 0 else 1 + IndexOf(queue[1..], id)
  }

  /** A cancel that saw the run's handle takes a waiting run out of the queue and lets it go. */
  function Cancelled(s: State, id: Id, sawHandle: bool): State {
    var at := IndexOf(s.queue, id);
    if !sawHandle || at == |s.queue| then s
    else s.(queue := Without(s.queue, at),
            inflight := if id in s.inflight then s.inflight[id := s.inflight[id].(released := true)] else s.inflight)
  }

  class RunScheduler {
    const max: nat
    var queue: seq<Id>
    var inflight: map<Id, Handle>
    var active: nat

    function Now(): State
      reads this
    {
      State(max, queue, inflight, active)
    }

    constructor (maxConcurrent: nat)
      ensures Now() == State(maxConcurrent, [], map[], 0)
    {
      max := maxConcurrent;
      queue, inflight, active := [], map[], 0;
    }

    /** The scan for the run to start next. */
    method BestAt() returns (at: nat)
      requires queue != []
      ensures at == BestIndex(queue, inflight)
    {
      at := 0;
      for i := 1 to |queue|
        invariant at < i && IsBest(queue[..i], inflight, at)
      {
        assert queue[..i + 1] == queue[..i] + [queue[i]];
        if queue[i] in inflight {
          if queue[at] !in inflight || inflight[queue[i]].priority > inflight[queue[at]].priority { at := i; }
        }
      }
      assert queue[..|queue|] == queue;
      BestUnique(queue, inflight, at, BestIndex(queue, inflight));
    }

    method DoPump() returns (started: seq<Id>)
      modifies this
      ensures (Now(), started) == Pump(old(Now()))
      ensures active == old(active) + |started| && (queue == [] || active >= max)
    {
      hide Pump, BestIndex, Popped, Without;
      PumpConserves(Now());
      started := [];
      ghost var total := Pump(Now());
      assert [] + total.1 == total.1;
      while active < max && queue != []
        invariant total.0 == Pump(Now()).0 && total.1 == started + Pump(Now()).1
        decreases |queue|
      {
        var at := BestAt();
        var id := queue[at];
        PumpUnfolds(Now());
        ghost var popped := Popped(Now(), at);
        PoppedIs(Now(), at);
        queue := queue[..at] + queue[at + 1..];
        if id in inflight {
          active := active + 1;
          inflight := inflight[id := inflight[id].(released := true)];
          assert started + ([id] + Pump(popped).1) == (started + [id]) + Pump(popped).1;
          started := started + [id];
        } else {
          assert [] + Pump(popped).1 == Pump(popped).1;
        }
        assert Now() == popped;
      }
      PumpStops(Now());
      assert started + [] == started;
    }

    method Enqueue(id: Id, priority: int) returns (started: seq<Id>)
      modifies this
      ensures (Now(), started) == Pump(Enqueued(old(Now()), id, priority))
    {
      inflight := inflight[id := Handle(priority, false)];
      queue := queue + [id];
      started := DoPump();
    }

    /** A started run's promise has settled: its slot is free. */
    method Finish() returns (started: seq<Id>)
      requires active > 0
      modifies this
      ensures (Now(), started) == Pump(Finished(old(Now())))
    {
      active := active - 1;
      started := DoPump();
    }

    /** The run's execution has ended and forgets its handle. */
    method Forget(id: Id)
      modifies this
      ensures Now() == old(Now()).(inflight := old(Now()).inflight - {id})
    {
      inflight := inflight - {id};
    }

    method Cancel(id: Id, sawHandle: bool)
      modifies this
      ensures Now() == Cancelled(old(Now()), id, sawHandle)
    {
      if sawHandle {
        var at := IndexOf(queue, id);
        if at < |queue| {
          queue := queue[..at] + queue[at + 1..];
          if id in inflight { inflight := inflight[id := inflight[id].(released := true)]; }
        }
      }
    }
  }

  // ----- every run of the scheduler -----

  /** The scheduler and what became of every run it was given, with each run's arrival number and priority. */
  datatype World = World(s: State, running: set<Id>, done: set<Id>, dropped: set<Id>,
                         arrival: map<Id, nat>, priority: map<Id, int>)

  function Start(max: nat): World { World(State(max, [], map[], 0), {}, {}, {}, map[], map[]) }

  datatype Event = Arrive(id: Id, priority: int) | Settle(id: Id) | Forget(id: Id) | Cancel(id: Id, sawHandle: bool)

  predicate Enabled(w: World, e: Event) {
    match e
    case Arrive(id, _) => id !in w.arrival
    case Settle(id) => id in w.running
    case Forget(id) => id in w.s.inflight && w.s.inflight[id].released
    case Cancel(id, _) => true
  }

  /** The best waiting run takes a slot. */
  function StartOne(w: World): World
    requires w.s.queue != []
  {
    var at := BestIndex(w.s.queue, w.s.inflight);
    var id := w.s.queue[at];
    w.(s := Popped(w.s, at), running := if id in w.s.inflight then w.running + {id} else w.running)
  }

  function Pumped(w: World): World
    decreases |w.s.queue|
  {
    if w.s.active < w.s.max && w.s.queue != [] then Pumped(StartOne(w)) else w
  }

  /** The pump of the world is the scheduler's pump, and what it starts, each run once, is what comes to run. */
  lemma {:induction false} PumpedIsPump(w: World)
    ensures Pumped(w).s == Pump(w.s).0
    ensures Pumped(w).running == w.running + set id | id in Pump(w.s).1
    decreases |w.s.queue|
  {
    hide BestIndex;
    if w.s.active < w.s.max && w.s.queue != [] {
      PumpUnfolds(w.s);
      PumpedIsPump(StartOne(w));
    }
  }

  /**
   * A pump takes a slot for each run that it starts and lets that run go, and ends when nothing waits or no slot is
   * free; what waited waits still or was started, except runs that no longer have a handle.
   */
  lemma {:induction false} PumpConserves(s: State)
    ensures var (after, started) := Pump(s);
            && after.max == s.max && after.active == s.active + |started|
            && (after.queue == [] || after.active >= after.max)
            && after.inflight.Keys == s.inflight.Keys
            && (forall id :: id in started ==> id in s.inflight && after.inflight[id].released)
            && (forall id :: id in s.inflight && id !in started ==> after.inflight[id] == s.inflight[id])
            && (forall id :: id in s.inflight ==>
                  multiset(s.queue)[id] == multiset(after.queue)[id] + multiset(started)[id])
    decreases |s.queue|
  {
    hide BestIndex;
    if s.active < s.max && s.queue != [] {
      var at := BestIndex(s.queue, s.inflight);
      PumpUnfolds(s);
      PumpConserves(Popped(s, at));
      TakenOut(s.queue, at);
      PoppedIs(s, at);
      hide Popped, Without;
    }
  }

  lemma TakenOut(queue: seq<Id>, at: nat)
    requires at < |queue|
    ensures multiset(queue) == multiset(Without(queue, at)) + multiset{queue[at]}
  {
    assert queue == queue[..at] + [queue[at]] + queue[at + 1..];
  }

  function Arrived(w: World, id: Id, p: int): World {
    w.(s := Enqueued(w.s, id, p), arrival := w.arrival[id := |w.arrival|], priority := w.priority[id := p])
  }

  function Settled(w: World, id: Id): World {
    w.(s := if w.s.active > 0 then Finished(w.s) else w.s,
       running := w.running - {id}, done := w.done + {id})
  }

  function Dropped(w: World, id: Id, saw: bool): World {
    w.(s := Cancelled(w.s, id, saw),
       dropped := if saw && IndexOf(w.s.queue, id) < |w.s.queue| then w.dropped + {id} else w.dropped)
  }

  function Next(w: World, e: Event): World
    requires Enabled(w, e)
  {
    match e
    case Arrive(id, p) => Pumped(Arrived(w, id, p))
    case Settle(id) => Pumped(Settled(w, id))
    case Forget(id) => w.(s := w.s.(inflight := w.s.inflight - {id}))
    case Cancel(id, saw) => Dropped(w, id, saw)
  }

  predicate Runs(w: World, events: seq<Event>)
    decreases |events|
  {
    events == [] || (Enabled(w, events[0]) && Runs(Next(w, events[0]), events[1..]))
  }

  function After(w: World, events: seq<Event>): World
    requires Runs(w, events)
    decreases |events|
  {
    if events == [] then w else After(Next(w, events[0]), events[1..])
  }

  predicate WasStarted(w: World, id: Id) { id in w.running || id in w.done }

  ghost predicate Slots(w: World) { w.s.active == |w.running| <= w.s.max }

  ghost predicate Distinct(queue: seq<Id>) { forall i, j :: 0 <= i < j < |queue| ==> queue[i] != queue[j] }

  ghost predicate Gated(w: World) {
    && Distinct(w.s.queue)
    && (forall id :: id in w.s.queue ==> id in w.s.inflight && !w.s.inflight[id].released)
    && (forall id :: id in w.s.inflight && id !in w.s.queue ==> w.s.inflight[id].released)
  }

  /** Every accepted run is waiting, running, finished or cancelled while waiting, and only one of these. */
  ghost predicate Partitioned(w: World) {
    && (forall id :: id in w.arrival <==> id in w.s.queue || id in w.running || id in w.done || id in w.dropped)
    && (forall id :: id in w.s.queue ==> id !in w.running && id !in w.done && id !in w.dropped)
    && (forall id :: id in w.running ==> id !in w.done && id !in w.dropped)
    && (forall id :: id in w.done ==> id !in w.dropped)
    && (forall id :: id in w.s.inflight ==> id in w.arrival)
  }

  function ArrivalOf(arrival: map<Id, nat>, id: Id): nat { if id in arrival then arrival[id] else 0 }

  function PriorityOf(priority: map<Id, int>, id: Id): int { if id in priority then priority[id] else 0 }

  ghost predicate InArrivalOrder(queue: seq<Id>, arrival: map<Id, nat>) {
    forall i, j :: 0 <= i < j < |queue| ==> ArrivalOf(arrival, queue[i]) < ArrivalOf(arrival, queue[j])
  }

  /** No waiting run was passed by a later arrival of no higher priority. */
  ghost predicate NonePassed(queue: seq<Id>, started: set<Id>, arrival: map<Id, nat>, priority: map<Id, int>) {
    forall a, b :: a in queue && b in started && ArrivalOf(arrival, a) < ArrivalOf(arrival, b) ==>
      PriorityOf(priority, a) < PriorityOf(priority, b)
  }

  ghost predicate Priced(w: World) {
    forall id :: id in w.s.queue && id in w.s.inflight ==> w.s.inflight[id].priority == PriorityOf(w.priority, id)
  }

  ghost predicate Fair(w: World) {
    && (forall id :: id in w.arrival ==> w.arrival[id] < |w.arrival|)
    && InArrivalOrder(w.s.queue, w.arrival)
    && Priced(w)
    && NonePassed(w.s.queue, w.running + w.done, w.arrival, w.priority)
  }

  ghost predicate Busy(w: World) { w.s.queue != [] ==> w.s.active == w.s.max }

  ghost predicate Sound(w: World) { Slots(w) && Gated(w) && Partitioned(w) && Fair(w) }

  lemma WithoutKeeps(queue: seq<Id>, at: nat)
    requires at < |queue| && Distinct(queue)
    ensures Distinct(Without(queue, at))
    ensures forall id :: id in Without(queue, at) <==> id in queue && id != queue[at]
    ensures |Without(queue, at)| == |queue| - 1
    ensures forall i :: 0 <= i < |queue| - 1 ==> Without(queue, at)[i] == queue[if i < at then i else i + 1]
  {
    var rest := Without(queue, at);
    forall id | id in queue && id != queue[at] ensures id in rest {
      var i :| 0 <= i < |queue| && queue[i] == id;
      assert rest[if i < at then i else i - 1] == id;
    }
  }

  lemma StartOneKeeps(w: World)
    requires Sound(w) && w.s.active < w.s.max && w.s.queue != []
    ensures Sound(StartOne(w))
  {
    var at := BestIndex(w.s.queue, w.s.inflight);
    WithoutKeeps(w.s.queue, at);
    assert w.s.queue[at] in w.s.queue;
    StartOneFair(w, at);
  }

  lemma RemovalKeepsOrder(queue: seq<Id>, at: nat, arrival: map<Id, nat>)
    requires at < |queue| && Distinct(queue) && InArrivalOrder(queue, arrival)
    ensures InArrivalOrder(Without(queue, at), arrival)
  {
    WithoutKeeps(queue, at);
  }

  lemma BestPassesNone(w: World, at: nat, a: Id)
    requires Sound(w) && w.s.queue != [] && at == BestIndex(w.s.queue, w.s.inflight)
    requires a in w.s.queue && ArrivalOf(w.arrival, a) < ArrivalOf(w.arrival, w.s.queue[at])
    ensures PriorityOf(w.priority, a) < PriorityOf(w.priority, w.s.queue[at])
  {
    var i :| 0 <= i < |w.s.queue| && w.s.queue[i] == a;
    var _ := Better(w.s.inflight, w.s.queue[at], w.s.queue[i]);
    assert w.s.queue[at] in w.s.queue;
  }

  lemma StartPassesNone(w: World, at: nat)
    requires Sound(w) && w.s.queue != [] && at == BestIndex(w.s.queue, w.s.inflight)
    requires forall id :: id in Without(w.s.queue, at) ==> id in w.s.queue
    ensures w.s.queue[at] in w.s.inflight
    ensures NonePassed(Without(w.s.queue, at), StartOne(w).running + w.done, w.arrival, w.priority)
  {
    assert w.s.queue[at] in w.s.queue;
    forall a | a in w.s.queue && ArrivalOf(w.arrival, a) < ArrivalOf(w.arrival, w.s.queue[at])
      ensures PriorityOf(w.priority, a) < PriorityOf(w.priority, w.s.queue[at])
    {
      BestPassesNone(w, at, a);
    }
  }

  lemma StartPriced(w: World, at: nat)
    requires Sound(w) && w.s.queue != [] && at == BestIndex(w.s.queue, w.s.inflight)
    requires forall id :: id in Without(w.s.queue, at) ==> id in w.s.queue
    ensures Priced(StartOne(w))
  {
  }

  lemma StartOneFair(w: World, at: nat)
    requires Sound(w) && w.s.queue != [] && at == BestIndex(w.s.queue, w.s.inflight)
    requires forall id :: id in StartOne(w).s.queue ==> id in w.s.queue && id != w.s.queue[at]
    ensures Fair(StartOne(w))
  {
    RemovalKeepsOrder(w.s.queue, at, w.arrival);
    StartPassesNone(w, at);
    StartPriced(w, at);
    hide BestIndex, Pump, NonePassed, InArrivalOrder, Priced;
  }

  lemma {:induction false} PumpKeeps(w: World)
    requires Sound(w)
    ensures Sound(Pumped(w)) && Busy(Pumped(w)) && Pumped(w).s.max == w.s.max
    decreases |w.s.queue|
  {
    if w.s.active < w.s.max && w.s.queue != [] {
      StartOneKeeps(w);
      PumpKeeps(StartOne(w));
    }
  }

  lemma ArriveKeeps(w: World, id: Id, p: int)
    requires Sound(w) && id !in w.arrival
    ensures Sound(Arrived(w, id, p))
  {
    hide Fair, Gated, Partitioned;
    ArriveGated(w, id, p);
    ArrivePartitioned(w, id, p);
    assert |Arrived(w, id, p).arrival| == |w.arrival| + 1;
    ArriveFair(w, id, p);
  }

  lemma ArriveGated(w: World, id: Id, p: int)
    requires Gated(w) && Partitioned(w) && id !in w.arrival
    ensures Gated(Arrived(w, id, p))
  {
    var w' := Arrived(w, id, p);
    assert id !in w.s.queue;
    assert forall i :: 0 <= i < |w.s.queue| ==> w'.s.queue[i] == w.s.queue[i] && w.s.queue[i] in w.s.queue;
    hide Partitioned;
  }

  lemma ArrivePartitioned(w: World, id: Id, p: int)
    requires Partitioned(w) && id !in w.arrival
    ensures Partitioned(Arrived(w, id, p))
    ensures forall x :: x in Arrived(w, id, p).s.queue <==> x in w.s.queue || x == id
  {
    assert forall x :: x in Arrived(w, id, p).s.queue <==> x in w.s.queue || x == id;
  }

  lemma ArrivalOrderGrows(queue: seq<Id>, arrival: map<Id, nat>, id: Id, n: nat)
    requires InArrivalOrder(queue, arrival) && id !in queue
    requires forall x :: x in queue ==> x in arrival && arrival[x] < n
    ensures InArrivalOrder(queue + [id], arrival[id := n])
  {
    forall i, j | 0 <= i < j < |queue + [id]|
      ensures ArrivalOf(arrival[id := n], (queue + [id])[i]) < ArrivalOf(arrival[id := n], (queue + [id])[j])
    {
      assert queue[i] in queue;
      if j < |queue| { assert queue[j] in queue; }
    }
  }

  lemma ArrivalPassesNone(queue: seq<Id>, started: set<Id>, arrival: map<Id, nat>, priority: map<Id, int>,
                          id: Id, n: nat, p: int)
    requires NonePassed(queue, started, arrival, priority)
    requires id !in queue && id !in started
    requires forall x :: x in queue || x in started ==> x in arrival && arrival[x] < n
    ensures NonePassed(queue + [id], started, arrival[id := n], priority[id := p])
  {
    forall a, b | a in queue + [id] && b in started && ArrivalOf(arrival[id := n], a) < ArrivalOf(arrival[id := n], b)
      ensures PriorityOf(priority[id := p], a) < PriorityOf(priority[id := p], b)
    {
      assert a in queue;
    }
  }

  lemma ArriveFair(w: World, id: Id, p: int)
    requires Sound(w) && id !in w.arrival && |Arrived(w, id, p).arrival| == |w.arrival| + 1
    requires forall x :: x in w.s.queue + [id] <==> x in w.s.queue || x == id
    ensures Fair(Arrived(w, id, p))
  {
    assert forall x :: x in w.s.queue || x in w.running + w.done ==> x in w.arrival && x != id;
    ArrivalOrderGrows(w.s.queue, w.arrival, id, |w.arrival|);
    ArrivalPassesNone(w.s.queue, w.running + w.done, w.arrival, w.priority, id, |w.arrival|, p);
    hide InArrivalOrder, NonePassed;
  }

  lemma CancelKeeps(w: World, id: Id, saw: bool)
    requires Sound(w) && Busy(w)
    ensures Sound(Dropped(w, id, saw)) && Busy(Dropped(w, id, saw)) && Dropped(w, id, saw).s.max == w.s.max
  {
    hide Fair, Gated, Partitioned, Without;
    var at := IndexOf(w.s.queue, id);
    if saw && at < |w.s.queue| {
      CancelFair(w, id, at);
      CancelGated(w, id, at);
      CancelPartitioned(w, id, at);
    } else {
      hide IndexOf;
    }
  }

  lemma CancelPartitioned(w: World, id: Id, at: nat)
    requires Gated(w) && Partitioned(w) && at == IndexOf(w.s.queue, id) && at < |w.s.queue|
    ensures Partitioned(Dropped(w, id, true))
  {
    WithoutKeeps(w.s.queue, at);
    assert w.s.queue[at] in w.s.queue;
    var w' := Dropped(w, id, true);
    assert forall x :: x in w'.s.queue <==> x in w.s.queue && x != id;
    assert forall x :: x in w'.s.inflight <==> x in w.s.inflight;
    hide Without, IndexOf, Dropped, Gated, Distinct;
  }

  lemma CancelFair(w: World, id: Id, at: nat)
    requires Sound(w) && at == IndexOf(w.s.queue, id) && at < |w.s.queue|
    ensures Fair(Dropped(w, id, true))
  {
    RemovalKeepsOrder(w.s.queue, at, w.arrival);
    WithoutKeeps(w.s.queue, at);
    hide InArrivalOrder, Without, IndexOf;
  }

  lemma CancelGated(w: World, id: Id, at: nat)
    requires Gated(w) && at == IndexOf(w.s.queue, id) && at < |w.s.queue|
    ensures Gated(Dropped(w, id, true))
  {
    WithoutKeeps(w.s.queue, at);
    hide Without, IndexOf;
  }

  lemma SettleKeeps(w: World, id: Id)
    requires Sound(w) && id in w.running
    ensures Sound(Settled(w, id))
  {
    hide Fair, Gated, Partitioned;
    assert |w.running - {id}| == |w.running| - 1;
    SettlePartitioned(w, id);
    SettleFair(w, id);
    SettleGated(w, id);
  }

  lemma SettlePartitioned(w: World, id: Id)
    requires Partitioned(w) && id in w.running
    ensures Partitioned(Settled(w, id))
  {
  }

  lemma SettleFair(w: World, id: Id)
    requires Fair(w) && id in w.running
    ensures Fair(Settled(w, id))
  {
    assert Settled(w, id).running + Settled(w, id).done == w.running + w.done;
    hide NonePassed, InArrivalOrder;
  }

  lemma SettleGated(w: World, id: Id)
    requires Gated(w)
    ensures Gated(Settled(w, id))
  {
  }

  lemma ForgetKeeps(w: World, id: Id)
    requires Sound(w) && Busy(w) && Enabled(w, Forget(id))
    ensures Sound(Next(w, Forget(id))) && Busy(Next(w, Forget(id)))
  {
    hide NonePassed, InArrivalOrder, Distinct, Pumped;
  }

  lemma NextKeeps(w: World, e: Event)
    requires Sound(w) && Busy(w) && Enabled(w, e)
    ensures Sound(Next(w, e)) && Busy(Next(w, e)) && Next(w, e).s.max == w.s.max
  {
    hide Sound, Busy, Pumped;
    match e
    case Arrive(id, p) =>
      ArriveKeeps(w, id, p);
      PumpKeeps(Arrived(w, id, p));
    case Settle(id) =>
      SettleKeeps(w, id);
      PumpKeeps(Settled(w, id));
    case Forget(id) => ForgetKeeps(w, id);
    case Cancel(id, saw) => CancelKeeps(w, id, saw);
  }

  lemma {:induction false} RunKeeps(w: World, events: seq<Event>)
    requires Sound(w) && Busy(w) && Runs(w, events)
    ensures Sound(After(w, events)) && Busy(After(w, events)) && After(w, events).s.max == w.s.max
    decreases |events|
  {
    if events != [] {
      NextKeeps(w, events[0]);
      RunKeeps(Next(w, events[0]), events[1..]);
    }
  }

  /**
   * In every reachable state `active` counts exactly the runs started and not finished and never passes the limit;
   * while any run waits every slot is taken; waiting runs are distinct and still gated; and every run ever accepted
   * is waiting, running, finished or cancelled while waiting, and only one of these.
   */
  lemma SlotsAndQueue(max: nat, events: seq<Event>)
    requires Runs(Start(max), events)
    ensures var w := After(Start(max), events);
            && w.s.active == |w.running| <= max
            && (w.s.queue != [] ==> w.s.active == max)
            && Gated(w) && Partitioned(w)
  {
    RunKeeps(Start(max), events);
  }

  /** The run about to start has the highest priority of all that wait, and is the earliest among its equals. */
  ghost predicate TakesFirst(w: World)
    requires w.s.queue != []
  {
    var id := w.s.queue[BestIndex(w.s.queue, w.s.inflight)];
    forall other :: other in w.s.queue && other != id ==>
      || PriorityOf(w.priority, id) > PriorityOf(w.priority, other)
      || (PriorityOf(w.priority, id) == PriorityOf(w.priority, other)
          && ArrivalOf(w.arrival, id) < ArrivalOf(w.arrival, other))
  }

  /** The same for every start of a pump, one after the other. */
  ghost predicate EveryStartTakesFirst(w: World)
    decreases |w.s.queue|
  {
    w.s.active < w.s.max && w.s.queue != [] ==> TakesFirst(w) && EveryStartTakesFirst(StartOne(w))
  }

  lemma BestTakesFirst(w: World)
    requires Sound(w) && w.s.queue != []
    ensures TakesFirst(w)
  {
    var at := BestIndex(w.s.queue, w.s.inflight);
    var id := w.s.queue[at];
    assert id in w.s.queue;
    forall other | other in w.s.queue && other != id
      ensures PriorityOf(w.priority, id) > PriorityOf(w.priority, other)
              || (PriorityOf(w.priority, id) == PriorityOf(w.priority, other)
                  && ArrivalOf(w.arrival, id) < ArrivalOf(w.arrival, other))
    {
      var j :| 0 <= j < |w.s.queue| && w.s.queue[j] == other;
      var _, _ := Better(w.s.inflight, w.s.queue[j], w.s.queue[at]), Better(w.s.inflight, w.s.queue[at], w.s.queue[j]);
      hide BestIndex, NonePassed;
    }
  }

  lemma {:induction false} PumpTakesFirst(w: World)
    requires Sound(w)
    ensures EveryStartTakesFirst(w)
    decreases |w.s.queue|
  {
    hide Sound, TakesFirst;
    if w.s.active < w.s.max && w.s.queue != [] {
      BestTakesFirst(w);
      StartOneKeeps(w);
      PumpTakesFirst(StartOne(w));
    }
  }

  /**
   * Every start there ever is, whether an arrival or a freed slot makes it, takes the run of the highest priority
   * waiting at that moment, and among equals the one that arrived first.
   */
  lemma StartsFollowTheOrder(max: nat, events: seq<Event>, e: Event)
    requires Runs(Start(max), events) && Enabled(After(Start(max), events), e)
    ensures var w := After(Start(max), events);
            && (e.Arrive? ==> Next(w, e) == Pumped(Arrived(w, e.id, e.priority))
                              && EveryStartTakesFirst(Arrived(w, e.id, e.priority)))
            && (e.Settle? ==> Next(w, e) == Pumped(Settled(w, e.id)) && EveryStartTakesFirst(Settled(w, e.id)))
            && (e.Forget? || e.Cancel? ==> Next(w, e).running == w.running)
  {
    var w := After(Start(max), events);
    RunKeeps(Start(max), events);
    hide Sound, EveryStartTakesFirst, Pumped;
    if e.Arrive? {
      SoundArrives(w, e);
      ArriveKeeps(w, e.id, e.priority);
      PumpTakesFirst(Arrived(w, e.id, e.priority));
    }
    if e.Settle? {
      SettleKeeps(w, e.id);
      PumpTakesFirst(Settled(w, e.id));
    }
  }

  lemma SoundArrives(w: World, e: Event)
    requires Enabled(w, e) && e.Arrive?
    ensures e.id !in w.arrival
  {
  }

  /** No waiting run is ever passed by a later arrival, unless that one has a higher priority. */
  lemma NoOvertaking(max: nat, events: seq<Event>, waiting: Id, ahead: Id)
    requires Runs(Start(max), events)
    requires waiting in After(Start(max), events).s.queue && WasStarted(After(Start(max), events), ahead)
    ensures var w := After(Start(max), events);
            && waiting in w.arrival && ahead in w.arrival
            && (w.arrival[waiting] < w.arrival[ahead] ==>
                  PriorityOf(w.priority, ahead) > PriorityOf(w.priority, waiting))
  {
    RunKeeps(Start(max), events);
  }

  /** Cancelling never takes or frees a slot; a waiting run it takes out is the only change to the queue. */
  lemma CancelLeavesSlots(max: nat, events: seq<Event>, id: Id, saw: bool)
    requires Runs(Start(max), events)
    ensures var w := After(Start(max), events);
            var w' := Next(w, Cancel(id, saw));
            && w'.s.active == w.s.active && w'.running == w.running
            && (forall x :: x in w'.s.queue <==> x in w.s.queue && !(saw && x == id))
            && (saw && id in w.s.queue ==> id in w'.dropped && id in w'.s.inflight && w'.s.inflight[id].released)
  {
    RunKeeps(Start(max), events);
    var queue := After(Start(max), events).s.queue;
    var at := IndexOf(queue, id);
    if saw && at < |queue| { WithoutKeeps(queue, at); }
  }
}
