/** The proof-of-work check: how many leading zero bits a digest has, and the single use of a challenge. */
module PowCheck {
  import opened Common
  import opened Text

  // ----- leading zero bits -----

  lemma ByteBound(b: int, p: int, v: int)
    requires 0 <= b < 256 && 0 <= v < p
    ensures 0 <= b * p + v < 256 * p
  {
    MulMonotone(b + 1, 256, p);
    assert (b + 1) * p == b * p + p;
  }

  lemma EightMore(n: nat)
    ensures Pow2(n + 8) == 256 * Pow2(n)
  {
    Pow2Adds(8, n);
    assert Pow2(8) == 256;
  }

  /** The digest as a big-endian number. */
  function Value(s: seq<bv8>): (v: nat)
    ensures v < Pow2(8 * |s|)
  {
    if s == [] then 0
    else
      var p, rest := Pow2(8 * (|s| - 1)), Value(s[1..]);
      EightMore(8 * (|s| - 1));
      ByteBound(s[0] as int, p, rest);
      s[0] as int * p + rest
  }

  /** The first byte is the highest: a byte more at the end moves the others up by eight bits. */
  lemma {:induction false} ValueOfLonger(s: seq<bv8>, last: bv8)
    ensures Value(s + [last]) == 256 * Value(s) + last as int
  {
    if s == [] {
      assert [last][1..] == [];
      assert Pow2(0) == 1;
    } else {
      ValueOfLonger(s[1..], last);
      assert (s + [last])[1..] == s[1..] + [last];
      EightMore(8 * (|s| - 1));
      hide Value, Pow2;
      MovedUp(s[0] as int, Pow2(8 * (|s| - 1)), Value(s[1..]));
    }
  }

  lemma MovedUp(b: int, p: int, rest: int)
    ensures b * (256 * p) + 256 * rest == 256 * (b * p + rest)
  {
  }

  lemma Doubled(b: int, m: nat)
    ensures b * Pow2(m + 1) == (2 * b) * Pow2(m)
  {
    assert Pow2(m + 1) == 2 * Pow2(m);
    assert b * (2 * Pow2(m)) == (2 * b) * Pow2(m);
  }

  /** Zero bits before the first one bit of a byte that is not zero. */
  function ByteZeros(b: int): (m: nat)
    requires 0 < b < 256
    ensures m < 8 && 128 <= b * Pow2(m) < 256
    decreases 256 - b
  {
    if b >= 128 then
      assert b * Pow2(0) == b;
      0
    else
      var m := ByteZeros(2 * b);
      Doubled(b, m);
      SmallShift(b, m + 1);
      m + 1
  }

  lemma SmallShift(b: int, m: nat)
    requires b >= 1 && b * Pow2(m) < 256
    ensures m < 8
  {
    if m >= 8 {
      Pow2Grows(8, m);
      assert Pow2(8) == 256;
      MulMonotone(1, b, Pow2(m));
    }
  }

  /** Leading zero bits of a digest. */
  function LeadingZeros(s: seq<bv8>): (n: nat)
    ensures n <= 8 * |s|
  {
    if s == [] then 0 else if s[0] == 0 then 8 + LeadingZeros(s[1..]) else ByteZeros(s[0] as int)
  }

  lemma {:induction false} ZerosFrameValue(s: seq<bv8>)
    ensures Value(s) < Pow2(8 * |s| - LeadingZeros(s))
    ensures LeadingZeros(s) < 8 * |s| ==> Pow2(8 * |s| - LeadingZeros(s) - 1) <= Value(s)
    ensures LeadingZeros(s) == 8 * |s| ==> Value(s) == 0
  {
    if s == [] {
    } else {
      var b, n, rest := s[0] as int, 8 * (|s| - 1), s[1..];
      ValueStep(s, b, n, rest);
      hide Value, Pow2;
      if s[0] == 0 {
        ZerosFrameValue(rest);
      } else {
        ByteFrames(b, ByteZeros(b), Pow2(n), Value(rest), n);
      }
    }
  }

  lemma ValueStep(s: seq<bv8>, b: int, n: nat, rest: seq<bv8>)
    requires s != [] && b == s[0] as int && n == 8 * (|s| - 1) && rest == s[1..]
    ensures Value(s) == b * Pow2(n) + Value(rest)
    ensures s[0] == 0 ==> Value(s) == Value(rest)
  {
  }

  lemma ByteFrames(b: int, m: nat, p: int, v: int, n: nat)
    requires 0 < b < 256 && m < 8 && 128 <= b * Pow2(m) < 256 && p == Pow2(n) && 0 <= v < p
    ensures Pow2(n + 8 - m - 1) <= b * p + v < Pow2(n + 8 - m)
  {
    Pow2Adds(7 - m, n);
    Pow2Adds(8 - m, n);
    Pow2Adds(7 - m, m);
    Pow2Adds(8 - m, m);
    assert Pow2(7) == 128 && Pow2(8) == 256;
    var lo, hi, q := Pow2(7 - m), Pow2(8 - m), Pow2(m);
    assert lo * q == 128 && hi * q == 256;
    hide *;
    MulReflectsAtMost(lo, b, q);
    MulReflectsLess(b, hi, q);
    MulMonotone(lo, b, p);
    MulMonotone(b + 1, hi, p);
    assert (b + 1) * p == b * p + p;
  }

  /** The digest, as a number, fits in the bits that are left after k. */
  predicate HasWork(s: seq<bv8>, k: nat)
    requires k <= 8 * |s|
  {
    Value(s) < Pow2(8 * |s| - k)
  }

  /** At least k leading zero bits means below two to the number of bits that are left. */
  lemma ZerosDecideWork(s: seq<bv8>, k: nat)
    requires k <= 8 * |s|
    ensures LeadingZeros(s) >= k <==> HasWork(s, k)
  {
    ZerosFrameValue(s);
    var t, n := 8 * |s|, LeadingZeros(s);
    hide Value, LeadingZeros;
    if n >= k { Pow2Grows(t - n, t - k); } else { Pow2Grows(t - k, t - n - 1); }
  }

  lemma HighBit(b: bv8)
    ensures b & 0x80 == 0 <==> (b as int) < 128
    ensures (b as int) < 128 ==> ((b << 1) & 0xff) as int == 2 * (b as int)
  {
  }

  lemma {:induction false} ZerosAfter(s: seq<bv8>, i: nat)
    requires i <= |s| && forall j :: 0 <= j < i ==> s[j] == 0
    ensures LeadingZeros(s) == 8 * i + LeadingZeros(s[i..])
  {
    if i == 0 {
      assert s[0..] == s;
    } else {
      ZerosAfter(s[1..], i - 1);
      assert s[1..][i - 1..] == s[i..];
    }
  }

  /** The leading zero bits of one byte. */
  function BitsLeft(b: bv8): nat { if b == 0 then 8 else ByteZeros(b as int) }

  lemma ZerosUpTo(s: seq<bv8>, i: nat)
    requires i <= |s| && forall j :: 0 <= j < i ==> s[j] == 0
    ensures i == |s| ==> LeadingZeros(s) == 8 * i
    ensures i < |s| && s[i] != 0 ==> LeadingZeros(s) == 8 * i + BitsLeft(s[i])
  {
    ZerosAfter(s, i);
    if i < |s| { assert s[i..][0] == s[i]; }
  }

  lemma ByteZerosStep(b: int)
    requires 0 < b < 256
    ensures b < 128 ==> ByteZeros(b) == 1 + ByteZeros(2 * b)
    ensures b >= 128 ==> ByteZeros(b) == 0
  {
  }

  /** Shifting out a zero bit leaves one zero bit less. */
  lemma NextBit(b: bv8)
    requires b != 0
    ensures b & 0x80 != 0 ==> BitsLeft(b) == 0
    ensures b & 0x80 == 0 ==> (b << 1) & 0xff != 0 && BitsLeft(b) == 1 + BitsLeft((b << 1) & 0xff)
  {
    HighBit(b);
    hide ByteZeros;
    ByteZerosStep(b as int);
  }

  /** Does this count say of every difficulty whether the digest meets it? */
  ghost predicate DecidesWork(n: nat, s: seq<bv8>) {
    forall k :: 0 <= k <= 8 * |s| ==> (n >= k <==> HasWork(s, k))
  }

  lemma ZerosDecideEach(s: seq<bv8>)
    ensures DecidesWork(LeadingZeros(s), s)
  {
    forall k | 0 <= k <= 8 * |s| ensures LeadingZeros(s) >= k <==> HasWork(s, k) { ZerosDecideWork(s, k); }
  }

  /** The count, byte by byte and then bit by bit. */
  method ZeroBits(buffer: array<bv8>) returns (n: nat)
    ensures n == LeadingZeros(buffer[..])
    ensures DecidesWork(n, buffer[..])
  {
    ghost var s := buffer[..];
    ghost var zeros := LeadingZeros(s);
    hide *;
    ZerosDecideEach(s);
    n := 0;
    var i := 0;
    while i < buffer.Length
      invariant 0 <= i <= buffer.Length && n == 8 * i
      invariant forall j :: 0 <= j < i ==> s[j] == 0
    {
      if buffer[i] == 0 {
        n := n + 8;
        i := i + 1;
        continue;
      }
      var b := buffer[i];
      ZerosUpTo(s, i);
      while b & 0x80 == 0
        invariant b != 0 && n + BitsLeft(b) == zeros
        decreases zeros - n
      {
        NextBit(b);
        n := n + 1;
        b := (b << 1) & 0xff;
      }
      NextBit(b);
      return;
    }
    ZerosUpTo(s, i);
  }

  // ----- challenges -----

  /** A challenge that was issued. The table's key, its hash, is identified with the challenge. */
  datatype Row = Row(expires: int, used: bool, device: Option<string>)

  type Rows = map<string, Row>

  const DAY: int := 86_400_000

  function Lifetime(ttl: int): int { Max(30_000, Min(3_600_000, ttl)) }

  /** The difficulty a client is told. */
  function IssuedBits(bits: int): int { Max(1, Min(28, if bits == 0 then 18 else bits)) }

  /** The difficulty a solution is held to. */
  function NeededBits(bits: int): int { Max(1, if bits == 0 then 18 else bits) }

  /**
   * Solving to the difficulty that was told is enough exactly for settings up to 28, because only the issue is capped
   * there. The configuration keeps within 8 and 28.
   */
  lemma ToldDifficultyIsEnough(bits: int)
    ensures (forall zeros: nat :: zeros >= IssuedBits(bits) ==> Enough(zeros, bits)) <==> bits <= 28
  {
    if bits > 28 {
      assert !Enough(28, bits);
    }
  }

  predicate Enough(zeros: nat, bits: int) { zeros >= NeededBits(bits) }

  predicate IsHex(s: string) {
    forall i :: 0 <= i < |s| ==> '0' <= s[i] <= '9' || 'a' <= s[i] <= 'f' || 'A' <= s[i] <= 'F'
  }

  datatype Solution = Solution(challenge: string, nonce: string)

  /** A token is a challenge, a colon and a nonce; anything else is not looked up. */
  function ParseToken(token: string): Option<Solution> { ParseRaw(Trim(token)) }

  function ParseRaw(raw: string): Option<Solution> {
    var at := IndexOf(raw, ':');
    if at == 0 || at == |raw| then None
    else
      var challenge, nonce := raw[..at], raw[at + 1..];
      if 16 <= |challenge| <= 128 && IsHex(challenge) && 1 <= |nonce| <= 20 && AllDigits(nonce) then
        Some(Solution(challenge, nonce))
      else None
  }

  /** After trimming, the token is a challenge of 16 to 128 hexadecimal digits, a colon and 1 to 20 digits. */
  predicate TokenText(token: string, left: string, s: Solution, right: string) {
    && AllSpaces(left) && AllSpaces(right) && token == left + (s.challenge + ":" + s.nonce) + right
    && 16 <= |s.challenge| <= 128 && IsHex(s.challenge) && 1 <= |s.nonce| <= 20 && AllDigits(s.nonce)
  }

  ghost predicate Writes(token: string, s: Solution) {
    exists left: string, right: string :: TokenText(token, left, s, right)
  }

  /** A token is parsed exactly when it writes a solution, and to the one it writes. */
  lemma TokenPattern(token: string, s: Solution)
    ensures ParseToken(token) == Some(s) <==> Writes(token, s)
  {
    if ParseToken(token) == Some(s) { ParsedIsWritten(token, s); }
    if Writes(token, s) {
      var left: string, right: string :| TokenText(token, left, s, right);
      WrittenParses(token, left, s, right);
    }
  }

  lemma ParsedIsWritten(token: string, s: Solution)
    requires ParseToken(token) == Some(s)
    ensures Writes(token, s)
  {
    hide Trim, IsHex, AllDigits;
    var raw := Trim(token);
    var left, right := TrimLeaves(token);
    var at := IndexOf(raw, ':');
    assert raw == raw[..at] + ":" + raw[at + 1..];
    assert TokenText(token, left, s, right);
  }

  lemma WrittenParses(token: string, left: string, s: Solution, right: string)
    requires TokenText(token, left, s, right)
    ensures ParseToken(token) == Some(s)
  {
    EndsArePlain(s.challenge, s.nonce);
    hide IsHex, AllDigits, AllSpaces, Trim, IsSpace, ParseRaw;
    TrimAround(left, s.challenge + ":" + s.nonce, right);
    RawParses(s);
  }

  lemma RawParses(s: Solution)
    requires 16 <= |s.challenge| <= 128 && IsHex(s.challenge) && 1 <= |s.nonce| <= 20 && AllDigits(s.nonce)
    ensures ParseRaw(s.challenge + ":" + s.nonce) == Some(s)
  {
    EndsArePlain(s.challenge, s.nonce);
    hide IsHex, AllDigits, IndexOf, IsSpace;
    ColonBetween(s.challenge, s.nonce);
  }

  lemma ColonBetween(c: string, n: string)
    requires ':' !in c
    ensures var raw := c + ":" + n; IndexOf(raw, ':') == |c| && raw[..|c|] == c && raw[|c| + 1..] == n
  {
    IndexAfter(c, ':', n);
    hide IndexOf;
    assert c + ":" + n == c + [':'] + n;
  }

  lemma EndsArePlain(c: string, n: string)
    requires c != "" && n != "" && IsHex(c) && AllDigits(n)
    ensures ':' !in c && !IsSpace((c + ":" + n)[0]) && !IsSpace((c + ":" + n)[|c + ":" + n| - 1])
  {
  }

  function Issued(rows: Rows, challenge: string, now: int, ttl: int, device: Option<string>): Rows {
    Cleaned(rows[challenge := Row(now + Lifetime(ttl), false, device)], now)
  }

  /** Rows that expired over a day ago are deleted. */
  function Cleaned(rows: Rows, now: int): Rows {
    map c | c in rows && rows[c].expires >= now - DAY :: rows[c]
  }

  /** The difficulty and the lifetime of a setting: the setting itself where it is in range, its bound elsewhere. */
  lemma SettingsAre(bits: int, ttl: int)
    ensures 1 <= bits <= 28 ==> IssuedBits(bits) == NeededBits(bits) == bits
    ensures bits == 0 ==> IssuedBits(bits) == NeededBits(bits) == 18
    ensures bits < 0 ==> IssuedBits(bits) == NeededBits(bits) == 1
    ensures bits > 28 ==> IssuedBits(bits) == 28 && NeededBits(bits) == bits
    ensures 30_000 <= ttl <= 3_600_000 ==> Lifetime(ttl) == ttl
    ensures ttl < 30_000 ==> Lifetime(ttl) == 30_000
    ensures ttl > 3_600_000 ==> Lifetime(ttl) == 3_600_000
  {
  }

  /** The challenge may still be taken. */
  predicate Open(rows: Rows, challenge: string, now: int) {
    challenge in rows && !rows[challenge].used && rows[challenge].expires > now
  }

  /** The digest has as many leading zero bits as the setting asks, 18 where there is none. */
  predicate MeetsSetting(rules: Rules, s: Solution) {
    var zeros := LeadingZeros(rules.digest(s.challenge, s.nonce));
    zeros >= 1 && if rules.bits == 0 then zeros >= 18 else zeros >= rules.bits
  }

  /** The token writes a solution of an open challenge. */
  ghost predicate Right(rows: Rows, rules: Rules, token: string, now: int, s: Solution) {
    Writes(token, s) && Open(rows, s.challenge, now) && MeetsSetting(rules, s)
  }

  /** What a call has seen when it goes on to take the challenge. */
  datatype Pending = Pending(challenge: string, now: int, expires: int,
                             rowDevice: Option<string>, device: Option<string>)

  datatype Rules = Rules(digest: (string, string) -> seq<bv8>, bits: int)

  /** The first half of a verification: the row as it is read, and the work. */
  function Begin(rows: Rows, rules: Rules, token: string, device: Option<string>, now: int): Option<Pending> {
    var t := ParseToken(token);
    if t.None? then None
    else
      var c := t.value.challenge;
      if c !in rows || rows[c].used || rows[c].expires <= now then None
      else if !Enough(LeadingZeros(rules.digest(c, t.value.nonce)), rules.bits) then None
      else Some(Pending(c, now, rows[c].expires, rows[c].device, device))
  }

  /** The guarded update that marks a challenge used: does it change a row? */
  predicate Takes(rows: Rows, p: Pending) {
    p.challenge in rows && !rows[p.challenge].used && rows[p.challenge].expires > p.now
  }

  function Taken(rows: Rows, p: Pending): Rows {
    if Takes(rows, p) then rows[p.challenge := rows[p.challenge].(used := true)] else rows
  }

  predicate DeviceAgrees(p: Pending) { p.rowDevice.Some? && p.device.Some? ==> p.rowDevice == p.device }

  // ----- calls that interleave -----

  /** One atomic step: an issue, the first or the second half of a verification, or the deletion of old rows. */
  datatype Event =
    | Issue(challenge: string, now: int, ttl: int, device: Option<string>)
    | Start(call: nat, token: string, device: Option<string>, now: int)
    | Finish(call: nat)
    | Clean(now: int)

  /** Whatever the calls have done: their answers, and which challenge a true answer was for. */
  datatype State = State(rows: Rows, known: set<string>, pending: map<nat, Pending>, refused: set<nat>,
                         accepted: map<nat, Pending>)

  const START := State(map[], {}, map[], {}, map[])

  /** A challenge is 128 random bits: none is issued twice. A call starts once and finishes once. */
  predicate Enabled(st: State, e: Event) {
    match e
    case Issue(c, _, _, _) => c !in st.known
    case Start(call, _, _, _) => call !in st.pending && call !in st.refused && call !in st.accepted
    case Finish(call) => call in st.pending
    case Clean(_) => true
  }

  function Next(st: State, rules: Rules, e: Event): State {
    match e
    case Issue(c, now, ttl, device) => st.(rows := Issued(st.rows, c, now, ttl, device), known := st.known + {c})
    case Start(call, token, device, now) =>
      var p := Begin(st.rows, rules, token, device, now);
      if p.None? then st.(refused := st.refused + {call}) else st.(pending := st.pending[call := p.value])
    case Finish(call) =>
      if call !in st.pending then st
      else
        var p := st.pending[call];
        var rest := st.(rows := Taken(st.rows, p), pending := st.pending - {call});
        if Takes(st.rows, p) && DeviceAgrees(p) then rest.(accepted := st.accepted[call := p])
        else rest.(refused := st.refused + {call})
    case Clean(now) => st.(rows := Cleaned(st.rows, now))
  }

  function Run(rules: Rules, events: seq<Event>): State {
    if events == [] then START else Next(Run(rules, events[..|events| - 1]), rules, events[|events| - 1])
  }

  predicate Possible(rules: Rules, events: seq<Event>) {
    forall i :: 0 <= i < |events| ==> Enabled(Run(rules, events[..i]), events[i])
  }

  /** Was this call's solution worth the work, for a challenge that had not expired at the call's own time? */
  ghost predicate Worked(rules: Rules, p: Pending) {
    p.now < p.expires && exists nonce: string :: AllDigits(nonce) && Solves(rules, p.challenge, nonce)
  }

  predicate Solves(rules: Rules, challenge: string, nonce: string) {
    Enough(LeadingZeros(rules.digest(challenge, nonce)), rules.bits)
  }

  /** An accepted challenge is known and its row, while it is there, is used; two accepted calls have two challenges. */
  ghost predicate Safe(st: State, rules: Rules) {
    && (forall c :: c in st.rows ==> c in st.known)
    && (forall a :: a in st.accepted ==> Spent(st, st.accepted[a].challenge))
    && (forall a, b :: a in st.accepted && b in st.accepted && a != b ==>
          st.accepted[a].challenge != st.accepted[b].challenge)
    && (forall a :: a in st.pending ==> st.pending[a].challenge in st.known && Worked(rules, st.pending[a]))
    && (forall a :: a in st.accepted ==> Worked(rules, st.accepted[a]) && DeviceAgrees(st.accepted[a]))
  }

  predicate Spent(st: State, c: string) { c in st.known && (c in st.rows ==> st.rows[c].used) }

  lemma BeginWorked(rows: Rows, rules: Rules, token: string, device: Option<string>, now: int)
    requires Begin(rows, rules, token, device, now).Some?
    ensures var p := Begin(rows, rules, token, device, now).value; p.challenge in rows && Worked(rules, p)
  {
    hide Trim, IndexOf, LeadingZeros, Enough;
    var t := ParseToken(token).value;
    assert AllDigits(t.nonce) && Solves(rules, t.challenge, t.nonce);
  }

  /** A call goes on to take a challenge exactly when its token writes a solution of one that is open. */
  lemma BeginIs(rows: Rows, rules: Rules, token: string, device: Option<string>, now: int)
    ensures Begin(rows, rules, token, device, now).Some? <==> exists s :: Right(rows, rules, token, now, s)
    ensures forall s :: Right(rows, rules, token, now, s) ==>
              Begin(rows, rules, token, device, now)
              == Some(Pending(s.challenge, now, rows[s.challenge].expires, rows[s.challenge].device, device))
  {
    hide ParseToken, LeadingZeros, Writes;
    forall s ensures ParseToken(token) == Some(s) <==> Writes(token, s) { TokenPattern(token, s); }
    if Begin(rows, rules, token, device, now).Some? {
      assert Right(rows, rules, token, now, ParseToken(token).value);
    }
  }

  /** A call that no other interrupts is accepted exactly for such a solution, unless it is for another device. */
  lemma UninterruptedCall(st: State, rules: Rules, call: nat, token: string, device: Option<string>, now: int)
    requires Enabled(st, Start(call, token, device, now))
    ensures var after := Next(Next(st, rules, Start(call, token, device, now)), rules, Finish(call));
            && call !in after.pending
            && (call in after.accepted <==> exists s ::
                  && Right(st.rows, rules, token, now, s)
                  && var bound := st.rows[s.challenge].device;
                     bound.None? || device.None? || bound == device)
  {
    BeginIs(st.rows, rules, token, device, now);
    hide Begin, Right;
    var p := Begin(st.rows, rules, token, device, now);
    if p.Some? {
      var s :| Right(st.rows, rules, token, now, s);
      assert Open(st.rows, s.challenge, now) by { RightIsOpen(st.rows, rules, token, now, s); }
    }
  }

  lemma RightIsOpen(rows: Rows, rules: Rules, token: string, now: int, s: Solution)
    requires Right(rows, rules, token, now, s)
    ensures Open(rows, s.challenge, now)
  {
  }

  lemma IssueIsSafe(st: State, rules: Rules, e: Event)
    requires Safe(st, rules) && Enabled(st, e) && (e.Issue? || e.Clean?)
    ensures Safe(Next(st, rules, e), rules)
  {
    hide Worked, DeviceAgrees;
  }

  lemma PendingIsSafe(st: State, rules: Rules, call: nat, p: Pending)
    requires Safe(st, rules) && p.challenge in st.rows && Worked(rules, p)
    ensures Safe(st.(pending := st.pending[call := p]), rules)
  {
    hide Worked, DeviceAgrees;
  }

  lemma StartIsSafe(st: State, rules: Rules, e: Event)
    requires Safe(st, rules) && e.Start?
    ensures Safe(Next(st, rules, e), rules)
  {
    var p := Begin(st.rows, rules, e.token, e.device, e.now);
    if p.Some? {
      BeginWorked(st.rows, rules, e.token, e.device, e.now);
      PendingIsSafe(st, rules, e.call, p.value);
      hide Worked, DeviceAgrees, Begin, Safe;
    } else {
      hide Worked, DeviceAgrees, Begin;
    }
  }

  lemma FinishIsSafe(st: State, rules: Rules, e: Event)
    requires Safe(st, rules) && Enabled(st, e) && e.Finish?
    ensures Safe(Next(st, rules, e), rules)
  {
    hide Worked, DeviceAgrees;
  }

  /**
   * However the calls interleave, at most one call per challenge answers true, for work that was done and not for
   * another device; and a challenge that was accepted stays spent.
   */
  lemma {:induction false} OneUsePerChallenge(rules: Rules, events: seq<Event>)
    requires Possible(rules, events)
    ensures Safe(Run(rules, events), rules)
  {
    hide Safe, Next, Enabled;
    if events == [] {
      StartIsEmpty(rules);
    } else {
      var before, e := events[..|events| - 1], events[|events| - 1];
      forall i | 0 <= i < |before| ensures Enabled(Run(rules, before[..i]), before[i]) {
        assert before[..i] == events[..i];
      }
      OneUsePerChallenge(rules, before);
      var st := Run(rules, before);
      assert Enabled(st, e);
      match e
      case Issue(_, _, _, _) => IssueIsSafe(st, rules, e);
      case Clean(_) => IssueIsSafe(st, rules, e);
      case Start(_, _, _, _) => StartIsSafe(st, rules, e);
      case Finish(_) => FinishIsSafe(st, rules, e);
    }
  }

  lemma StartIsEmpty(rules: Rules)
    ensures Safe(START, rules)
  {
  }

  // ----- the table, as it is updated in place -----

  class Challenges {
    const rules: Rules
    const ttl: int
    var rows: Rows

    constructor (rules: Rules, ttl: int)
      ensures this.rules == rules && this.ttl == ttl && rows == map[]
    {
      this.rules, this.ttl, rows := rules, ttl, map[];
    }

    method IssueChallenge(challenge: string, device: Option<string>, now: int) returns (bits: int, expires: int)
      modifies this
      ensures rows == Issued(old(rows), challenge, now, ttl, device)
      ensures challenge in rows && rows[challenge] == Row(expires, false, device)
      ensures forall c :: c != challenge ==>
                (c in rows <==> c in old(rows) && old(rows)[c].expires >= now - 86_400_000)
      ensures forall c :: c != challenge && c in rows ==> rows[c] == old(rows)[c]
      ensures expires == now + (if ttl < 30_000 then 30_000 else if ttl > 3_600_000 then 3_600_000 else ttl)
      ensures bits == IssuedBits(rules.bits)
    {
      expires := now + Lifetime(ttl);
      rows := rows[challenge := Row(expires, false, device)];
      rows := Cleaned(rows, now);
      bits := IssuedBits(rules.bits);
    }

    /** The update that takes a challenge: changes its row at most once. */
    method Take(p: Pending) returns (changed: bool)
      modifies this
      ensures changed == Takes(old(rows), p) && rows == Taken(old(rows), p)
      ensures changed <==> Open(old(rows), p.challenge, p.now)
      ensures rows == if changed then old(rows)[p.challenge := old(rows)[p.challenge].(used := true)] else old(rows)
    {
      changed := p.challenge in rows && !rows[p.challenge].used && rows[p.challenge].expires > p.now;
      if changed { rows := rows[p.challenge := rows[p.challenge].(used := true)]; }
    }

    /** A verification that no other call interrupts. */
    method Verify(token: string, device: Option<string>, now: int) returns (ok: bool)
      modifies this
      ensures var p := Begin(old(rows), rules, token, device, now);
              && (ok <==> p.Some? && DeviceAgrees(p.value))
              && rows == (if p.Some? then Taken(old(rows), p.value) else old(rows))
      ensures ok <==> exists s ::
                && Right(old(rows), rules, token, now, s)
                && var bound := old(rows)[s.challenge].device; bound.None? || device.None? || bound == device
      ensures forall s :: Right(old(rows), rules, token, now, s) ==>
                rows == old(rows)[s.challenge := old(rows)[s.challenge].(used := true)]
      ensures (forall s :: !Right(old(rows), rules, token, now, s)) ==> rows == old(rows)
      ensures ok ==> !Begin(rows, rules, token, device, now).Some?
    {
      BeginIs(rows, rules, token, device, now);
      hide ParseToken, LeadingZeros, Enough, Right;
      var t := ParseToken(token);
      if t.None? { return false; }
      var c := t.value.challenge;
      if c !in rows || rows[c].used { return false; }
      if rows[c].expires <= now { return false; }
      if !Enough(LeadingZeros(rules.digest(c, t.value.nonce)), rules.bits) { return false; }
      var p := Pending(c, now, rows[c].expires, rows[c].device, device);
      var changed := Take(p);
      if !changed { return false; }
      if p.rowDevice.Some? && device.Some? && p.rowDevice != device { return false; }
      return true;
    }
  }
}
