/**
 * The cache of compiled schemas: least recently used first out, bounded by entry count and by bytes, with a second
 * holder (the compiler) that has to let go of what the cache drops. A key is identified with the schema's canonical
 * text, so distinct texts have distinct keys.
 */
module SchemaCache {
  import opened Common

  /** A schema object: its identity, and its canonical text. */
  datatype Schema = Schema(object: nat, text: string)

  datatype Entry<V> = Entry(key: string, fn: V, schema: Schema, bytes: nat)

  datatype Limits = Limits(maxEntries: nat, maxBytes: nat)

  /** What the text of a schema determines: a fresh compile, which may fail, and the size in bytes. */
  datatype Compiler<V> = Compiler(build: string -> Option<V>, size: string -> nat)

  // ----- the kept entries -----

  function Bytes<V>(es: seq<Entry<V>>): nat { if es == [] then 0 else es[0].bytes + Bytes(es[1..]) }

  predicate Fits<V>(es: seq<Entry<V>>, limits: Limits) { |es| <= limits.maxEntries && Bytes(es) <= limits.maxBytes }

  predicate Distinct<V>(es: seq<Entry<V>>) { forall i, j :: 0 <= i < j < |es| ==> es[i].key != es[j].key }

  /** What remains when the oldest entries go until both limits hold. */
  function Trimmed<V>(es: seq<Entry<V>>, limits: Limits): (r: seq<Entry<V>>)
    ensures |r| <= |es| && r == es[|es| - |r|..]
    ensures Fits(r, limits)
  {
    if es == [] || Fits(es, limits) then es else Trimmed(es[1..], limits)
  }

  /** Index of a key, or the length when it is not kept. */
  function Find<V>(es: seq<Entry<V>>, key: string): (i: nat)
    ensures i <= |es|
    ensures i < |es| ==> es[i].key == key
    ensures forall j :: 0 <= j < i ==> es[j].key != key
  {
    if es == [] || es[0].key == key then 0 else 1 + Find(es[1..], key)
  }

  function Without<V>(es: seq<Entry<V>>, i: nat): seq<Entry<V>>
    requires i < |es|
  {
    es[..i] + es[i + 1..]
  }

  lemma {:induction false} BytesConcat<V>(a: seq<Entry<V>>, b: seq<Entry<V>>)
    ensures Bytes(a + b) == Bytes(a) + Bytes(b)
  {
    if a == [] {
      assert a + b == b;
    } else {
      BytesConcat(a[1..], b);
      assert (a + b)[1..] == a[1..] + b;
    }
  }

  lemma BytesWithout<V>(es: seq<Entry<V>>, i: nat)
    requires i < |es|
    ensures Bytes(Without(es, i)) == Bytes(es) - es[i].bytes
  {
    BytesConcat(es[..i], es[i + 1..]);
    BytesConcat(es[..i], es[i..]);
    assert es[..i] + es[i..] == es;
  }

  /** The cut is no earlier than needed: every longer suffix breaks a limit, and no other suffix is like that. */
  lemma {:induction false} TrimmedIsLongest<V>(es: seq<Entry<V>>, limits: Limits, k: nat)
    requires k <= |es|
    ensures Fits(es[k..], limits) <==> |es| - k <= |Trimmed(es, limits)|
  {
    if es != [] && !Fits(es, limits) {
      if k > 0 {
        TrimmedIsLongest(es[1..], limits, k - 1);
        assert es[1..][k - 1..] == es[k..];
      } else {
        assert es[0..] == es;
      }
    } else {
      BytesConcat(es[..k], es[k..]);
      assert es[..k] + es[k..] == es;
    }
  }

  // ----- the steps on values -----

  /** The entries after a schema was asked for. */
  function Asked<V>(es: seq<Entry<V>>, limits: Limits, c: Compiler<V>, s: Schema): seq<Entry<V>> {
    var i := Find(es, s.text);
    if i < |es| then Without(es, i) + [es[i]]
    else if c.build(s.text).None? || c.size(s.text) > limits.maxBytes then es
    else Trimmed(es + [NewEntry(c, s)], limits)
  }

  /** A bound is changed only by a finite number of at least one, rounded down. */
  function Bound(current: nat, asked: Option<real>): (b: nat)
    ensures asked.Some? && asked.value >= 1.0 ==> b as real <= asked.value < b as real + 1.0
    ensures asked.None? || asked.value < 1.0 ==> b == current
  {
    if asked.Some? && asked.value >= 1.0 then asked.value.Floor else current
  }

  function NewEntry<V>(c: Compiler<V>, s: Schema): Entry<V>
    requires c.build(s.text).Some?
  {
    Entry(s.text, c.build(s.text).value, s, c.size(s.text))
  }

  function Held<V(==)>(es: seq<Entry<V>>): set<Schema> { set e | e in es :: e.schema }

  /** Every entry is what its key's text determines. */
  predicate Genuine<V(==)>(es: seq<Entry<V>>, c: Compiler<V>) {
    forall e :: e in es ==>
      e.schema.text == e.key && c.build(e.key) == Some(e.fn) && e.bytes == c.size(e.key)
  }

  lemma WithoutAt<V>(es: seq<Entry<V>>, i: nat, j: nat)
    requires i < |es| && j < |es| - 1
    ensures |Without(es, i)| == |es| - 1 && Without(es, i)[j] == es[if j < i then j else j + 1]
  {
  }

  lemma WithoutDistinct<V>(es: seq<Entry<V>>, i: nat)
    requires i < |es| && Distinct(es)
    ensures Distinct(Without(es, i))
    ensures forall e :: e in Without(es, i) ==> e in es && e.key != es[i].key
  {
    var r := Without(es, i);
    forall j | 0 <= j < |r| ensures r[j] == es[if j < i then j else j + 1] { WithoutAt(es, i, j); }
    hide Without;
  }

  lemma WithoutHasRest<V>(es: seq<Entry<V>>, i: nat, e: Entry<V>)
    requires i < |es| && e in es && e != es[i]
    ensures e in Without(es, i)
  {
    var j :| 0 <= j < |es| && es[j] == e;
    WithoutAt(es, i, if j < i then j else j - 1);
  }

  predicate SameMembers<V(==)>(a: seq<Entry<V>>, b: seq<Entry<V>>) {
    (forall e :: e in a ==> e in b) && (forall e :: e in b ==> e in a)
  }

  lemma MovedToEnd<V>(es: seq<Entry<V>>, i: nat)
    requires i < |es| && Distinct(es)
    ensures var r := Without(es, i) + [es[i]]; SameMembers(r, es) && Distinct(r) && Bytes(r) == Bytes(es) && |r| == |es|
  {
    BytesWithout(es, i);
    BytesConcat(Without(es, i), [es[i]]);
    assert Bytes([es[i]]) == es[i].bytes + Bytes([es[i]][1..]);
    WithoutDistinct(es, i);
    forall e | e in es && e != es[i] ensures e in Without(es, i) { WithoutHasRest(es, i, e); }
    if |es| > 1 { WithoutAt(es, i, 0); }
    hide Without, Bytes;
  }

  lemma TrimmedKeeps<V>(es: seq<Entry<V>>, limits: Limits, c: Compiler<V>)
    requires Distinct(es) && Genuine(es, c)
    ensures Distinct(Trimmed(es, limits)) && Genuine(Trimmed(es, limits), c)
  {
    hide Bytes, Fits;
  }

  lemma AppendHeld<V>(es: seq<Entry<V>>, e: Entry<V>)
    ensures Held(es + [e]) == Held(es) + {e.schema} && Bytes(es + [e]) == Bytes(es) + e.bytes
  {
    BytesConcat(es, [e]);
    assert Bytes([e]) == e.bytes + Bytes([e][1..]);
    hide Bytes;
    forall o ensures o in Held(es + [e]) <==> o in Held(es) || o == e.schema {
      if o == e.schema { assert e in es + [e]; }
    }
  }

  lemma AppendDistinct<V>(es: seq<Entry<V>>, e: Entry<V>)
    requires Distinct(es) && Find(es, e.key) == |es|
    ensures Distinct(es + [e])
  {
    assert forall j :: 0 <= j < |es| ==> es[j].key != e.key;
    hide Find;
  }

  lemma AppendGenuine<V>(es: seq<Entry<V>>, c: Compiler<V>, e: Entry<V>)
    requires Genuine(es, c) && Genuine([e], c)
    ensures Genuine(es + [e], c)
  {
  }

  lemma NewIsGenuine<V>(c: Compiler<V>, s: Schema)
    requires c.build(s.text).Some?
    ensures Genuine([NewEntry(c, s)], c)
  {
  }

  lemma AppendKeeps<V>(es: seq<Entry<V>>, c: Compiler<V>, s: Schema)
    requires Distinct(es) && Genuine(es, c) && Find(es, s.text) == |es| && c.build(s.text).Some?
    ensures var all := es + [NewEntry(c, s)];
            Distinct(all) && Genuine(all, c) && Held(all) == Held(es) + {s} && Bytes(all) == Bytes(es) + c.size(s.text)
  {
    hide Bytes, Held, Find, Distinct, Genuine;
    AppendHeld(es, NewEntry(c, s));
    AppendDistinct(es, NewEntry(c, s));
    NewIsGenuine(c, s);
    AppendGenuine(es, c, NewEntry(c, s));
  }

  lemma MovedKeeps<V>(es: seq<Entry<V>>, limits: Limits, c: Compiler<V>, i: nat)
    requires i < |es| && Distinct(es) && Genuine(es, c) && Fits(es, limits)
    ensures var r := Without(es, i) + [es[i]];
            Distinct(r) && Genuine(r, c) && Fits(r, limits) && Held(r) == Held(es) && Bytes(r) == Bytes(es)
  {
    hide Bytes, Distinct, Without;
    MovedToEnd(es, i);
  }

  lemma NewKeeps<V>(es: seq<Entry<V>>, limits: Limits, c: Compiler<V>, s: Schema)
    requires Distinct(es) && Genuine(es, c) && Find(es, s.text) == |es| && c.build(s.text).Some?
    ensures var r := Trimmed(es + [NewEntry(c, s)], limits); Fits(r, limits) && Distinct(r) && Genuine(r, c)
  {
    hide *;
    AppendKeeps(es, c, s);
    TrimmedKeeps(es + [NewEntry(c, s)], limits, c);
  }

  /** What each step keeps: limits, distinct keys, genuine entries. */
  lemma AskedKeeps<V>(es: seq<Entry<V>>, limits: Limits, c: Compiler<V>, s: Schema)
    requires Fits(es, limits) && Distinct(es) && Genuine(es, c)
    ensures var r := Asked(es, limits, c, s); Fits(r, limits) && Distinct(r) && Genuine(r, c)
  {
    hide Bytes, Distinct, Without, Genuine, Fits, NewEntry, Trimmed, Find;
    var i := Find(es, s.text);
    if i < |es| {
      MovedKeeps(es, limits, c, i);
    } else if c.build(s.text).Some? && c.size(s.text) <= limits.maxBytes {
      NewKeeps(es, limits, c, s);
    }
  }

  /** A newly compiled schema that fits is kept, and is the last to go. */
  lemma NewIsKept<V>(es: seq<Entry<V>>, limits: Limits, c: Compiler<V>, s: Schema)
    requires Find(es, s.text) == |es| && c.build(s.text).Some?
    requires c.size(s.text) <= limits.maxBytes && limits.maxEntries >= 1
    ensures var r := Asked(es, limits, c, s);
            r != [] && r[|r| - 1] == NewEntry(c, s)
  {
    var n := NewEntry(c, s);
    var all := es + [n];
    assert all[|es|..] == [n];
    assert Bytes([n]) == n.bytes + Bytes([n][1..]);
    TrimmedIsLongest(all, limits, |es|);
  }

  /** The kept entry of a key is moved to the end, and the others keep their order. */
  predicate MovedLast<V(==)>(es: seq<Entry<V>>, key: string, after: seq<Entry<V>>) {
    exists i :: 0 <= i < |es| && es[i].key == key && after == es[..i] + es[i + 1..] + [es[i]]
  }

  /** The new entry comes last, behind as many of the latest of the others as the limits allow. */
  predicate AddedLast<V(==)>(es: seq<Entry<V>>, limits: Limits, e: Entry<V>, after: seq<Entry<V>>) {
    && 1 <= |after| <= |es| + 1
    && var k := |es| + 1 - |after|;
       after == es[k..] + [e] && Fits(after, limits) && (k > 0 ==> !Fits(es[k - 1..] + [e], limits))
  }

  predicate IsKept<V>(es: seq<Entry<V>>, key: string) { exists i :: 0 <= i < |es| && es[i].key == key }

  lemma TailOf<V>(es: seq<Entry<V>>, e: Entry<V>, k: nat)
    requires k <= |es|
    ensures (es + [e])[k..] == es[k..] + [e]
  {
  }

  lemma OneFits<V>(e: Entry<V>, limits: Limits)
    requires e.bytes <= limits.maxBytes && limits.maxEntries >= 1
    ensures Fits([e], limits)
  {
    assert Bytes([e]) == e.bytes + Bytes([e][1..]);
  }

  lemma AddedLastIs<V>(es: seq<Entry<V>>, limits: Limits, e: Entry<V>, after: seq<Entry<V>>, k: nat)
    requires k <= |es| && after == (es + [e])[k..] && Fits(after, limits)
    requires k > 0 ==> !Fits((es + [e])[k - 1..], limits)
    ensures AddedLast(es, limits, e, after)
  {
    hide Fits, Bytes;
    TailOf(es, e, k);
    if k > 0 { TailOf(es, e, k - 1); }
  }

  lemma NewIsAddedLast<V>(es: seq<Entry<V>>, limits: Limits, e: Entry<V>)
    requires e.bytes <= limits.maxBytes && limits.maxEntries >= 1
    ensures AddedLast(es, limits, e, Trimmed(es + [e], limits))
  {
    hide *;
    var all := es + [e];
    var k := |all| - |Trimmed(all, limits)|;
    OneFits(e, limits);
    TailOf(es, e, |es|);
    NothingAdded([e]);
    TrimmedIsLongest(all, limits, |es|);
    if k > 0 { TrimmedIsLongest(all, limits, k - 1); }
    AddedLastIs(es, limits, e, Trimmed(all, limits), k);
  }

  lemma AskedIs<V>(es: seq<Entry<V>>, limits: Limits, c: Compiler<V>, s: Schema)
    requires limits.maxEntries >= 1
    ensures var fn, after := c.build(s.text), Asked(es, limits, c, s);
            && (IsKept(es, s.text) ==> MovedLast(es, s.text, after))
            && (!IsKept(es, s.text) && (fn.None? || c.size(s.text) > limits.maxBytes) ==> after == es)
            && (!IsKept(es, s.text) && fn.Some? && c.size(s.text) <= limits.maxBytes ==>
                  AddedLast(es, limits, Entry(s.text, fn.value, s, c.size(s.text)), after))
  {
    var i := Find(es, s.text);
    hide Find, Trimmed, Bytes, AddedLast, Fits;
    if i == |es| && c.build(s.text).Some? && c.size(s.text) <= limits.maxBytes {
      NewIsAddedLast(es, limits, NewEntry(c, s));
    }
  }

  // ----- runs, against the order of use -----

  datatype Event = Ask(s: Schema) | Configure(maxEntries: Option<real>, maxBytes: Option<real>)

  /** The cache, and the keys ever kept in the order of their last use, as if nothing were ever dropped. */
  datatype State<V> = State(kept: seq<Entry<V>>, limits: Limits, recency: seq<string>)

  function Keys<V>(es: seq<Entry<V>>): seq<string> { seq(|es|, i requires 0 <= i < |es| => es[i].key) }

  function Dropped(order: seq<string>, key: string): (r: seq<string>)
    ensures forall k :: k in r <==> k in order && k != key
  {
    if order == [] then []
    else if order[0] == key then Dropped(order[1..], key)
    else [order[0]] + Dropped(order[1..], key)
  }

  function Used(order: seq<string>, key: string): seq<string> { Dropped(order, key) + [key] }

  function Next<V>(st: State<V>, c: Compiler<V>, e: Event): State<V> {
    match e
    case Ask(s) =>
      var used := Find(st.kept, s.text) < |st.kept| || (c.build(s.text).Some? && c.size(s.text) <= st.limits.maxBytes);
      State(Asked(st.kept, st.limits, c, s), st.limits, if used then Used(st.recency, s.text) else st.recency)
    case Configure(n, b) =>
      var limits := Limits(Bound(st.limits.maxEntries, n), Bound(st.limits.maxBytes, b));
      State(Trimmed(st.kept, limits), limits, st.recency)
  }

  function Run<V>(st: State<V>, c: Compiler<V>, events: seq<Event>): State<V> {
    if events == [] then st else Next(Run(st, c, events[..|events| - 1]), c, events[|events| - 1])
  }

  /** The cache at start: empty, with bounds of at least one. */
  predicate Fresh<V>(st: State<V>) {
    st.kept == [] && st.recency == [] && st.limits.maxEntries >= 1 && st.limits.maxBytes >= 1
  }

  predicate DistinctKeys(order: seq<string>) { forall i, j :: 0 <= i < j < |order| ==> order[i] != order[j] }

  predicate Suffix(a: seq<string>, b: seq<string>) { |a| <= |b| && a == b[|b| - |a|..] }

  predicate Sound<V(==)>(st: State<V>, c: Compiler<V>) {
    && st.limits.maxEntries >= 1 && st.limits.maxBytes >= 1
    && Fits(st.kept, st.limits) && Genuine(st.kept, c)
    && DistinctKeys(st.recency) && Suffix(Keys(st.kept), st.recency)
  }

  lemma NoneDropped(key: string)
    ensures Dropped([], key) == []
  {
  }

  lemma DroppedHead(first: string, rest: seq<string>, key: string)
    ensures Dropped([first] + rest, key) == (if first == key then [] else [first]) + Dropped(rest, key)
  {
    assert ([first] + rest)[1..] == rest;
  }

  lemma {:induction false} DroppedConcat(a: seq<string>, b: seq<string>, key: string)
    ensures Dropped(a + b, key) == Dropped(a, key) + Dropped(b, key)
  {
    hide Dropped;
    if a == [] {
      NoneDropped(key);
      NothingAdded(b);
      NothingAdded(Dropped(b, key));
    } else {
      HeadOf(a, b);
      DroppedConcat(a[1..], b, key);
      DroppedHead(a[0], a[1..], key);
      DroppedHead(a[0], a[1..] + b, key);
      Associates(if a[0] == key then [] else [a[0]], Dropped(a[1..], key), Dropped(b, key));
    }
  }

  lemma {:induction false} DroppedAbsent(a: seq<string>, key: string)
    requires key !in a
    ensures Dropped(a, key) == a
  {
    if a != [] {
      DroppedAbsent(a[1..], key);
      assert a == [a[0]] + a[1..];
    }
  }

  lemma {:induction false} DroppedDistinct(a: seq<string>, key: string)
    requires DistinctKeys(a)
    ensures DistinctKeys(Dropped(a, key))
  {
    if a != [] {
      DroppedDistinct(a[1..], key);
      assert forall j :: 0 <= j < |a[1..]| ==> a[1..][j] == a[j + 1];
      assert a[0] !in a[1..];
    }
  }

  lemma UsedDistinct(order: seq<string>, key: string)
    requires DistinctKeys(order)
    ensures DistinctKeys(Used(order, key))
  {
    DroppedDistinct(order, key);
    assert key !in Dropped(order, key);
  }

  lemma {:induction false} DroppedSplit(p: seq<string>, key: string, q: seq<string>)
    requires key !in p && key !in q
    ensures Dropped(p + [key] + q, key) == p + q
  {
    if p == [] {
      DroppedAbsent(q, key);
      assert p + [key] + q == [key] + q && ([key] + q)[1..] == q && p + q == q;
    } else {
      DroppedSplit(p[1..], key, q);
      assert (p + [key] + q)[1..] == p[1..] + [key] + q;
      assert p + q == [p[0]] + (p[1..] + q);
    }
  }

  /** Using a key that is in the suffix moves it to the end of both. */
  lemma UsedInSuffix(order: seq<string>, a: seq<string>, i: nat)
    requires DistinctKeys(order) && Suffix(a, order) && i < |a|
    ensures Suffix(a[..i] + a[i + 1..] + [a[i]], Used(order, a[i]))
  {
    hide Dropped;
    var m, key := |order| - |a|, a[i];
    var p, q := order[..m + i], order[m + i + 1..];
    assert key == order[m + i];
    assert order == p + [key] + q;
    DroppedSplit(p, key, q);
    assert p == order[..m] + a[..i] && q == a[i + 1..];
    assert Used(order, key) == order[..m] + (a[..i] + a[i + 1..] + [key]);
  }

  /** Using a key that is not in the suffix puts it behind the suffix. */
  lemma UsedOutsideSuffix(order: seq<string>, a: seq<string>, key: string)
    requires Suffix(a, order) && key !in a
    ensures Suffix(a + [key], Used(order, key))
  {
    var front := order[..|order| - |a|];
    assert order == front + a;
    DroppedConcat(front, a, key);
    DroppedAbsent(a, key);
    assert Used(order, key) == Dropped(front, key) + (a + [key]);
  }

  lemma SuffixOfSuffix(a: seq<string>, b: seq<string>, c: seq<string>)
    requires Suffix(a, b) && Suffix(b, c)
    ensures Suffix(a, c)
  {
  }

  lemma TrimmedKeys<V>(es: seq<Entry<V>>, limits: Limits)
    ensures Suffix(Keys(Trimmed(es, limits)), Keys(es))
  {
  }

  lemma DistinctFromRecency<V>(es: seq<Entry<V>>, order: seq<string>)
    requires DistinctKeys(order) && Suffix(Keys(es), order)
    ensures Distinct(es)
  {
    var m := |order| - |es|;
    assert forall i :: 0 <= i < |es| ==> es[i].key == Keys(es)[i] == order[m + i];
  }

  lemma HitKeepsSuffix<V>(es: seq<Entry<V>>, order: seq<string>, i: nat)
    requires DistinctKeys(order) && Suffix(Keys(es), order) && i < |es|
    ensures Suffix(Keys(Without(es, i) + [es[i]]), Used(order, es[i].key))
  {
    hide Used, Suffix, DistinctKeys;
    var keys := Keys(es);
    UsedInSuffix(order, keys, i);
    assert Keys(Without(es, i) + [es[i]]) == keys[..i] + keys[i + 1..] + [keys[i]];
  }

  lemma NewKeepsSuffix<V>(es: seq<Entry<V>>, order: seq<string>, e: Entry<V>, limits: Limits)
    requires Suffix(Keys(es), order) && Find(es, e.key) == |es|
    ensures Suffix(Keys(Trimmed(es + [e], limits)), Used(order, e.key))
  {
    var all := es + [e];
    TrimmedKeys(all, limits);
    hide Used, Suffix, Trimmed;
    UsedOutsideSuffix(order, Keys(es), e.key);
    assert Keys(all) == Keys(es) + [e.key];
    SuffixOfSuffix(Keys(Trimmed(all, limits)), Keys(all), Used(order, e.key));
  }

  lemma AskKeepsSound<V>(st: State<V>, c: Compiler<V>, s: Schema)
    requires Sound(st, c)
    ensures Sound(Next(st, c, Ask(s)), c)
  {
    hide Fits, Genuine, Trimmed, Used, Distinct, DistinctKeys, Suffix, Keys, Without;
    DistinctFromRecency(st.kept, st.recency);
    AskedKeeps(st.kept, st.limits, c, s);
    UsedDistinct(st.recency, s.text);
    var i := Find(st.kept, s.text);
    if i < |st.kept| {
      HitKeepsSuffix(st.kept, st.recency, i);
    } else if c.build(s.text).Some? && c.size(s.text) <= st.limits.maxBytes {
      NewKeepsSuffix(st.kept, st.recency, NewEntry(c, s), st.limits);
    }
  }

  lemma ConfigureKeepsSound<V>(st: State<V>, c: Compiler<V>, n: Option<real>, b: Option<real>)
    requires Sound(st, c)
    ensures Sound(Next(st, c, Configure(n, b)), c)
  {
    hide Fits, Genuine, Trimmed, Distinct, DistinctKeys, Suffix, Keys;
    var limits := Limits(Bound(st.limits.maxEntries, n), Bound(st.limits.maxBytes, b));
    DistinctFromRecency(st.kept, st.recency);
    TrimmedKeeps(st.kept, limits, c);
    TrimmedKeys(st.kept, limits);
    SuffixOfSuffix(Keys(Trimmed(st.kept, limits)), Keys(st.kept), st.recency);
  }

  lemma FreshIsSound<V>(st: State<V>, c: Compiler<V>)
    requires Fresh(st)
    ensures Sound(st, c)
  {
    assert Keys(st.kept) == [];
  }

  lemma SoundIsDistinct<V>(st: State<V>, c: Compiler<V>)
    requires Sound(st, c)
    ensures Distinct(st.kept)
  {
    DistinctFromRecency(st.kept, st.recency);
  }

  /**
   * After any run: both limits hold, every entry is a fresh compile of its own schema, and the kept keys are the
   * latest used of all keys ever kept.
   */
  lemma {:induction false} RunIsSound<V>(st: State<V>, c: Compiler<V>, events: seq<Event>)
    requires Fresh(st)
    ensures Sound(Run(st, c, events), c)
    ensures Distinct(Run(st, c, events).kept)
  {
    hide Sound, Next, Fits, Genuine, DistinctKeys, Suffix, Keys, Distinct;
    if events == [] {
      FreshIsSound(st, c);
    } else {
      var before := events[..|events| - 1];
      RunIsSound(st, c, before);
      var mid := Run(st, c, before);
      match events[|events| - 1]
      case Ask(s) => AskKeepsSound(mid, c, s);
      case Configure(n, b) => ConfigureKeepsSound(mid, c, n, b);
    }
    SoundIsDistinct(Run(st, c, events), c);
  }

  // ----- the cache as it is updated in place -----

  class Cache<V(==)> {
    const c: Compiler<V>
    var compiled: seq<Entry<V>>
    var limits: Limits
    var bytesHeld: int
    /** The schema objects the compiler itself holds. */
    var compilerHolds: set<Schema>

    /** What holds between calls. */
    ghost predicate Valid()
      reads this
    {
      && Consistent()
      && limits.maxEntries >= 1 && limits.maxBytes >= 1
      && Fits(compiled, limits)
    }

    /** What holds also while entries are being dropped. */
    ghost predicate Consistent()
      reads this
    {
      && Distinct(compiled) && Genuine(compiled, c)
      && bytesHeld == Bytes(compiled)
      && compilerHolds == Held(compiled)
    }

    constructor (c: Compiler<V>)
      ensures Valid() && this.c == c && compiled == [] && limits == Limits(500, 8 * 1024 * 1024)
    {
      this.c := c;
      compiled := [];
      limits := Limits(500, 8 * 1024 * 1024);
      bytesHeld := 0;
      compilerHolds := {};
    }

    method Forget(key: string)
      requires Consistent()
      modifies this
      ensures Consistent() && limits == old(limits)
      ensures var i := Find(old(compiled), key);
              compiled == if i < |old(compiled)| then Without(old(compiled), i) else old(compiled)
    {
      var i := Find(compiled, key);
      if i == |compiled| { return; }
      var e := compiled[i];
      ForgetKeeps(compiled, c, i);
      compiled := Without(compiled, i);
      bytesHeld := bytesHeld - e.bytes;
      compilerHolds := compilerHolds - {e.schema};
    }

    method Trim()
      requires Consistent()
      modifies this
      ensures Consistent() && limits == old(limits)
      ensures compiled == Trimmed(old(compiled), limits)
    {
      while compiled != []
        invariant Consistent() && limits == old(limits)
        invariant Trimmed(compiled, limits) == Trimmed(old(compiled), limits)
        decreases |compiled|
      {
        if |compiled| <= limits.maxEntries && bytesHeld <= limits.maxBytes { break; }
        ghost var was := compiled;
        Forget(compiled[0].key);
        assert compiled == was[1..];
      }
    }

    method SetLimits(maxEntries: Option<real>, maxBytes: Option<real>)
      requires Valid()
      modifies this
      ensures Valid()
      ensures limits == Limits(Bound(old(limits).maxEntries, maxEntries), Bound(old(limits).maxBytes, maxBytes))
      ensures compiled == Trimmed(old(compiled), limits)
    {
      if maxEntries.Some? && maxEntries.value >= 1.0 {
        limits := limits.(maxEntries := maxEntries.value.Floor);
      }
      if maxBytes.Some? && maxBytes.value >= 1.0 {
        limits := limits.(maxBytes := maxBytes.value.Floor);
      }
      Trim();
    }

    /** Whatever the cache holds, the answer is a fresh compile of the given schema, and fails when that does. */
    method Compile(s: Schema) returns (fn: Option<V>)
      requires Valid()
      modifies this
      ensures Valid() && limits == old(limits)
      ensures fn == c.build(s.text)
      ensures compiled == Asked(old(compiled), limits, c, s)
      ensures IsKept(old(compiled), s.text) ==> MovedLast(old(compiled), s.text, compiled)
      ensures !IsKept(old(compiled), s.text) && (fn.None? || c.size(s.text) > limits.maxBytes) ==>
                compiled == old(compiled)
      ensures !IsKept(old(compiled), s.text) && fn.Some? && c.size(s.text) <= limits.maxBytes ==>
                AddedLast(old(compiled), limits, Entry(s.text, fn.value, s, c.size(s.text)), compiled)
    {
      hide Bytes, Distinct, Without, Held, Fits, Trimmed, IsKept, MovedLast, AddedLast, Genuine, Asked, NewEntry, Find;
      AskedIs(compiled, limits, c, s);
      AskedCases(compiled, limits, c, s);
      var i := Find(compiled, s.text);
      if i < |compiled| {
        var hit := compiled[i];
        MovedKeeps(compiled, limits, c, i);
        compiled := Without(compiled, i) + [hit];
        return Some(hit.fn);
      }
      fn := c.build(s.text);
      ObjectNotHeld(compiled, c, s);
      compilerHolds := compilerHolds + {s};
      if fn.None? {
        compilerHolds := compilerHolds - {s};
        return;
      }
      var bytes := c.size(s.text);
      if bytes > limits.maxBytes {
        compilerHolds := compilerHolds - {s};
        return;
      }
      var e := Entry(s.text, fn.value, s, bytes);
      AppendKeeps(compiled, c, s);
      compiled := compiled + [e];
      bytesHeld := bytesHeld + bytes;
      Trim();
    }
  }

  lemma AskedCases<V>(es: seq<Entry<V>>, limits: Limits, c: Compiler<V>, s: Schema)
    requires Genuine(es, c)
    ensures var i, fn, after := Find(es, s.text), c.build(s.text), Asked(es, limits, c, s);
            && (i < |es| ==> after == Without(es, i) + [es[i]] && fn == Some(es[i].fn))
            && (i == |es| && (fn.None? || c.size(s.text) > limits.maxBytes) ==> after == es)
            && (i == |es| && fn.Some? && c.size(s.text) <= limits.maxBytes ==>
                  && NewEntry(c, s) == Entry(s.text, fn.value, s, c.size(s.text))
                  && after == Trimmed(es + [NewEntry(c, s)], limits))
  {
    hide Without, Trimmed, Bytes;
    var i := Find(es, s.text);
    assert i < |es| ==> es[i] in es;
  }

  lemma ObjectNotHeld<V>(es: seq<Entry<V>>, c: Compiler<V>, s: Schema)
    requires Genuine(es, c) && Find(es, s.text) == |es|
    ensures s !in Held(es)
  {
  }

  lemma ForgetKeeps<V>(es: seq<Entry<V>>, c: Compiler<V>, i: nat)
    requires Distinct(es) && Genuine(es, c) && i < |es|
    ensures var r := Without(es, i);
            Distinct(r) && Genuine(r, c) && Bytes(r) == Bytes(es) - es[i].bytes && Held(r) == Held(es) - {es[i].schema}
  {
    hide Without, Bytes;
    BytesWithout(es, i);
    WithoutDistinct(es, i);
    var r := Without(es, i);
    forall e | e in es && e != es[i] ensures e in r { WithoutHasRest(es, i, e); }
    hide Distinct;
    forall o ensures o in Held(r) <==> o in Held(es) && o != es[i].schema {
      if o in Held(r) {
        var e :| e in r && e.schema == o;
        assert e in es;
      }
      if o in Held(es) && o != es[i].schema {
        var e :| e in es && e.schema == o;
        assert e in r;
      }
    }
  }
}
