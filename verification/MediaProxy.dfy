/**
 * The media proxy: one token's parts, numbered once per URL as its playlists are rewritten, and the requests that are
 * answered from them.
 */
module MediaProxy {
  import opened Common
  import opened Text
  import opened Playlist

  /** An absolute URL, never empty. */
  type Url = s: string | |s| > 0 witness "u"

  datatype Verdict = Rejected | Public | Internal

  /** What the proxy asks of URL parsing, of the fetcher's rules, and of the address it listens on. */
  datatype Env = Env(
    resolve: (string, string) -> Option<Url>,   // a base and a reference, or not a URL
    segment: Url -> string,                     // the last segment of the path
    judge: Url -> Verdict,
    port: nat
  )

  datatype Failure = BadUrl | Refused | TooLarge

  // ----- local URLs and requests -----

  predicate NameChar(c: char) {
    'A' <= c <= 'Z' || 'a' <= c <= 'z' || '0' <= c <= '9' || c == '.' || c == '_' || c == '-'
  }

  predicate IsName(s: string) { forall i :: 0 <= i < |s| ==> NameChar(s[i]) }

  predicate IsToken(s: string) { |s| == 32 && forall i :: 0 <= i < |s| ==> '0' <= s[i] <= '9' || 'a' <= s[i] <= 'f' }

  function Replaced(s: string): (r: string)
    ensures |r| == |s| && IsName(r)
    ensures forall i :: 0 <= i < |s| ==> r[i] == if NameChar(s[i]) then s[i] else '_'
  {
    if s == "" then "" else [if NameChar(s[0]) then s[0] else '_'] + Replaced(s[1..])
  }

  /** The file name a part is given: the last segment of its path, cut to 80 characters, with only safe ones. */
  function SafeName(segment: string): (r: string)
    ensures IsName(r) && 1 <= |r| <= 80
  {
    var name := Replaced(if segment == "" then "part" else segment);
    if |name| <= 80 then name else name[..80]
  }

  lemma SafeNameIs(segment: string)
    ensures var name := if segment == "" then "part" else segment;
            var r := SafeName(segment);
            |r| == Min(80, |name|) && forall i :: 0 <= i < |r| ==> r[i] == if NameChar(name[i]) then name[i] else '_'
  {
    hide NameChar;
  }

  /** A name keeps all of itself, its extension too, exactly when it is clean and no longer than 80 characters. */
  lemma NameIsKeptExactly(segment: string)
    ensures SafeName(segment) == segment <==> 1 <= |segment| <= 80 && IsName(segment)
  {
    SafeNameIs(segment);
    hide SafeName, NameChar;
  }

  /** A longer name loses its end, so also its extension. */
  lemma LongNameLosesItsExtension(stem: string, extension: string)
    requires |stem| >= 80
    ensures SafeName(stem + "." + extension) == SafeName(stem)
  {
    var s := stem + "." + extension;
    SafeNameIs(s);
    SafeNameIs(stem);
    hide SafeName, NameChar;
    var a, b := SafeName(s), SafeName(stem);
    assert |a| == |b| == 80;
    assert forall i :: 0 <= i < 80 ==> s[i] == stem[i] && a[i] == b[i];
    assert a == b;
  }

  function Origin(port: nat): string { "http://127.0.0.1:" + Decimal(port) }

  function PartPath(token: string, n: nat, name: string): string { "/m/" + token + "/" + Decimal(n) + "/" + name }

  datatype Request = Request(token: string, part: Option<nat>)

  /** The part number at the end of a request's path: one to six digits, then nothing or a name. */
  function ParsePart(t: string): Option<nat> {
    var digits := t[..IndexOf(t, '/')];
    var tail := t[|digits|..];
    if 1 <= |digits| <= 6 && AllDigits(digits) && (tail == "" || IsName(tail[1..])) then Some(DigitsValue(digits))
    else None
  }

  /** A request's path against the pattern the server answers. */
  function ParseRequest(path: string): Option<Request> {
    if |path| < 35 || path[..3] != "/m/" || !IsToken(path[3..35]) then None
    else if |path| == 35 then Some(Request(path[3..35], None))
    else if path[35] != '/' then None
    else
      var part := ParsePart(path[36..]);
      if part.None? then None else Some(Request(path[3..35], part))
  }

  /** A path is a request for part n exactly when it is the token, digits for n and, possibly, a name. */
  lemma PartPattern(t: string, n: nat)
    ensures ParsePart(t) == Some(n) <==>
            exists digits: string, tail: string :: PartText(t, n, digits, tail)
  {
    if ParsePart(t) == Some(n) {
      var digits := t[..IndexOf(t, '/')];
      assert PartText(t, n, digits, t[|digits|..]);
    }
    if exists digits: string, tail: string :: PartText(t, n, digits, tail) {
      var digits: string, tail: string :| PartText(t, n, digits, tail);
      PartTextParses(t, n, digits, tail);
    }
  }

  predicate PartText(t: string, n: nat, digits: string, tail: string) {
    && t == digits + tail
    && 1 <= |digits| <= 6 && AllDigits(digits) && DigitsValue(digits) == n
    && (tail == "" || (tail[0] == '/' && IsName(tail[1..])))
  }

  lemma PartTextParses(t: string, n: nat, digits: string, tail: string)
    requires PartText(t, n, digits, tail)
    ensures ParsePart(t) == Some(n)
  {
    if tail == "" {
      assert t == digits;
      IndexAbsent(digits, '/');
    } else {
      IndexAfter(digits, '/', tail[1..]);
      assert t == digits + ['/'] + tail[1..];
    }
    hide IndexOf, DigitsValue;
    assert t[..|digits|] == digits && t[|digits|..] == tail;
  }

  /** A printed path is a request for the token and number it was printed from. */
  lemma PrintedPathIsRequest(token: string, n: nat, name: string)
    requires IsToken(token) && n < 1_000_000 && IsName(name)
    ensures ParseRequest(PartPath(token, n, name)) == Some(Request(token, Some(n)))
  {
    DecimalValue(n);
    assert Pow10(6) == 1_000_000;
    DecimalLength(n, 6);
    hide Decimal, ParsePart, DigitsValue, Pow10;
    var path, t := PartPath(token, n, name), Decimal(n) + "/" + name;
    assert path == "/m/" + token + ("/" + t);
    assert path[..3] == "/m/" && path[3..35] == token && path[36..] == t;
    assert path[35] == '/';
    assert t == Decimal(n) + ("/" + name) && ("/" + name)[1..] == name;
    PartTextParses(t, n, Decimal(n), "/" + name);
  }

  /** A path is answered exactly when it is the token's, alone or followed by the number of a part. */
  lemma RequestPattern(path: string, r: Request)
    ensures ParseRequest(path) == Some(r) <==> IsToken(r.token) && RequestText(path, r)
  {
    hide ParsePart, IsToken;
    if ParseRequest(path) == Some(r) {
      assert path[..35] == "/m/" + r.token;
      if r.part.None? {
        assert path == path[..35];
      } else {
        assert path == path[..35] + "/" + path[36..];
      }
    }
    if IsToken(r.token) && RequestText(path, r) { TextIsRequest(path, r); }
  }

  /** The path of a token, and after it nothing, or the number of a part as `PartPattern` has it. */
  ghost predicate RequestText(path: string, r: Request) {
    if r.part.None? then path == "/m/" + r.token
    else exists t: string :: path == "/m/" + r.token + "/" + t && ParsePart(t) == r.part
  }

  lemma TextIsRequest(path: string, r: Request)
    requires IsToken(r.token) && RequestText(path, r)
    ensures ParseRequest(path) == Some(r)
  {
    assert |r.token| == 32;
    hide ParsePart, IsToken;
    if r.part.None? {
      assert path[..3] == "/m/" && path[3..35] == r.token;
    } else {
      var t: string :| path == "/m/" + r.token + "/" + t && ParsePart(t) == r.part;
      assert path[..3] == "/m/" && path[3..35] == r.token && path[35] == '/' && path[36..] == t;
    }
  }

  // ----- numbering -----

  predicate DistinctParts(parts: seq<Url>) { forall i, j :: 0 <= i < j < |parts| ==> parts[i] != parts[j] }

  function Position(parts: seq<Url>, url: Url): (n: nat)
    requires url in parts
    ensures n < |parts| && parts[n] == url
  {
    if parts[0] == url then 0 else 1 + Position(parts[1..], url)
  }

  /** May a playlist from here name this URL? */
  predicate Allowed(env: Env, url: Url, fromInternal: bool) {
    match env.judge(url)
    case Rejected => false
    case Public => true
    case Internal => fromInternal
  }

  /** The parts after a step, and why it failed if it did. */
  datatype Outcome = Outcome(parts: seq<Url>, failure: Option<Failure>)

  function AddUrl(env: Env, parts: seq<Url>, url: Url, fromInternal: bool): Outcome {
    if !Allowed(env, url, fromInternal) then Outcome(parts, Some(Refused))
    else if url in parts then Outcome(parts, None)
    else if |parts| >= MAX_PARTS then Outcome(parts, Some(TooLarge))
    else Outcome(parts + [url], None)
  }

  function AddUri(env: Env, base: string, fromInternal: bool, parts: seq<Url>, u: string): Outcome {
    match env.resolve(base, u)
    case None => Outcome(parts, Some(BadUrl))
    case Some(url) => AddUrl(env, parts, url, fromInternal)
  }

  /** What numbering one URI does, by what it resolves to, how that is judged and whether it has a number. */
  lemma UriIsAdded(env: Env, base: string, fromInternal: bool, parts: seq<Url>, u: string)
    ensures var o, r := AddUri(env, base, fromInternal, parts, u), env.resolve(base, u);
            var refused := r.Some? && env.judge(r.value) != Public && (env.judge(r.value) == Rejected || !fromInternal);
            var is_new := r.Some? && !refused && r.value !in parts;
            && (o.failure == Some(BadUrl) <==> r.None?)
            && (o.failure == Some(Refused) <==> refused)
            && (o.failure == Some(TooLarge) <==> is_new && |parts| >= 200_000)
            && o.parts == if is_new && |parts| < 200_000 then parts + [r.value] else parts
  {
  }

  /** One URI after the other; the first failure ends it, and what was numbered stays. */
  function AddUris(env: Env, base: string, fromInternal: bool, parts: seq<Url>, us: seq<string>): Outcome {
    if us == [] then Outcome(parts, None)
    else
      var o := AddUris(env, base, fromInternal, parts, us[..|us| - 1]);
      if o.failure.Some? then o else AddUri(env, base, fromInternal, o.parts, us[|us| - 1])
  }

  /** Every one of these URIs resolves to a numbered URL. */
  predicate Covered(env: Env, base: string, parts: seq<Url>, us: seq<string>) {
    forall u :: u in us ==> env.resolve(base, u).Some? && env.resolve(base, u).value in parts
  }

  predicate Sound(parts: seq<Url>) { DistinctParts(parts) && |parts| <= MAX_PARTS }

  lemma {:induction false} AddingIsStable(env: Env, base: string, fromInternal: bool, parts: seq<Url>, us: seq<string>)
    requires Sound(parts)
    ensures var o := AddUris(env, base, fromInternal, parts, us);
            parts <= o.parts && Sound(o.parts) && (o.failure.None? ==> Covered(env, base, o.parts, us))
  {
    if us != [] {
      var front, last := us[..|us| - 1], us[|us| - 1];
      AddingIsStable(env, base, fromInternal, parts, front);
      assert us == front + [last];
    }
  }

  predicate MayBeNamed(env: Env, base: string, fromInternal: bool, u: string) {
    var r := env.resolve(base, u);
    r.Some? && (env.judge(r.value) == Public || (env.judge(r.value) == Internal && fromInternal))
  }

  /** The URLs that these URIs name. */
  ghost function Named(env: Env, base: string, us: seq<string>): set<Url> {
    set u | u in us && env.resolve(base, u).Some? :: env.resolve(base, u).value
  }

  ghost function Members(parts: seq<Url>): set<Url> { set p | p in parts }

  lemma NamedOneMore(env: Env, base: string, us: seq<string>, u: string)
    ensures var r := env.resolve(base, u);
            Named(env, base, us + [u]) == Named(env, base, us) + (if r.Some? then {r.value} else {})
  {
    assert forall x :: x in us + [u] <==> x in us || x == u;
    var r, all := env.resolve(base, u), us + [u];
    if r.Some? { assert u in all && r.value in Named(env, base, all); }
    forall p | p in Named(env, base, us) ensures p in Named(env, base, all) {
      var x :| x in us && env.resolve(base, x).Some? && p == env.resolve(base, x).value;
      assert x in all;
    }
  }

  lemma MembersOneMore(parts: seq<Url>, p: Url)
    ensures Members(parts + [p]) == Members(parts) + {p}
  {
    assert forall x :: x in parts + [p] <==> x in parts || x == p;
  }

  /** As many members as parts, since no URL has two numbers. */
  lemma {:induction false} MembersAreCounted(parts: seq<Url>)
    requires DistinctParts(parts)
    ensures |Members(parts)| == |parts|
  {
    if parts != [] {
      var front, last := parts[..|parts| - 1], parts[|parts| - 1];
      MembersAreCounted(front);
      MembersOneMore(front, last);
      LastOf([], parts);
      assert last !in front;
    }
  }

  /** All of these URIs may be named, and together with those that have a number they are not too many. */
  ghost predicate AllNumbered(env: Env, base: string, fromInternal: bool, numbered: set<Url>, us: seq<string>) {
    && (forall u :: u in us ==> MayBeNamed(env, base, fromInternal, u))
    && |numbered + Named(env, base, us)| <= 200_000
  }

  /**
   * A playlist is rewritten exactly when each of its URIs may be named from where it comes and the URLs that it names
   * make, with those that have a number, at most 200 000. The parts are then those URLs.
   */
  lemma {:induction false} AllAreNumberedExactly(env: Env, base: string, fromInternal: bool, parts: seq<Url>,
                                                 us: seq<string>)
    requires Sound(parts)
    ensures var o := AddUris(env, base, fromInternal, parts, us);
            && (o.failure.None? <==> AllNumbered(env, base, fromInternal, Members(parts), us))
            && (o.failure.None? ==> Members(o.parts) == Members(parts) + Named(env, base, us))
  {
    hide MayBeNamed, AddUri, Members, Named;
    if us == [] {
      MembersAreCounted(parts);
      NoneNamed(env, base);
    } else {
      var front, last := us[..|us| - 1], us[|us| - 1];
      LastOf([], us);
      AllAreNumberedExactly(env, base, fromInternal, parts, front);
      AddingIsStable(env, base, fromInternal, parts, front);
      hide AllNumbered, Sound;
      NumberedOneMore(env, base, fromInternal, Members(parts), AddUris(env, base, fromInternal, parts, front),
                      front, last);
    }
  }

  lemma NumberedOneMore(env: Env, base: string, fromInternal: bool, numbered: set<Url>, o: Outcome,
                        us: seq<string>, u: string)
    requires o.failure.None? <==> AllNumbered(env, base, fromInternal, numbered, us)
    requires o.failure.None? ==> Sound(o.parts) && Members(o.parts) == numbered + Named(env, base, us)
    ensures var next := if o.failure.Some? then o else AddUri(env, base, fromInternal, o.parts, u);
            && (next.failure.None? <==> AllNumbered(env, base, fromInternal, numbered, us + [u]))
            && (next.failure.None? ==> Members(next.parts) == numbered + Named(env, base, us + [u]))
  {
    NamedOneMore(env, base, us, u);
    AllButLast(us, u, x => MayBeNamed(env, base, fromInternal, x));
    hide AddUri, MayBeNamed, Named, Sound, Members;
    var r := env.resolve(base, u);
    UnionGrows(numbered, Named(env, base, us), if r.Some? then {r.value} else {});
    if o.failure.None? { LastIsNumbered(env, base, fromInternal, o.parts, u); }
  }

  lemma UnionGrows<T>(a: set<T>, b: set<T>, c: set<T>)
    ensures (a + b) + c == a + (b + c) && |a + b| <= |a + (b + c)|
  {
    SubsetCardinality(a + b, a + (b + c));
  }

  lemma AllButLast(us: seq<string>, u: string, p: string -> bool)
    ensures (forall x :: x in us + [u] ==> p(x)) <==> (forall x :: x in us ==> p(x)) && p(u)
  {
    assert u in us + [u] && forall x :: x in us ==> x in us + [u];
  }

  lemma NoneNamed(env: Env, base: string)
    ensures Named(env, base, []) == {}
  {
  }

  lemma LastIsNumbered(env: Env, base: string, fromInternal: bool, parts: seq<Url>, u: string)
    requires Sound(parts)
    ensures var o, r := AddUri(env, base, fromInternal, parts, u), env.resolve(base, u);
            var named := Members(parts) + (if r.Some? then {r.value} else {});
            && (o.failure.None? <==> MayBeNamed(env, base, fromInternal, u) && |named| <= 200_000)
            && (o.failure.None? ==> Members(o.parts) == named)
  {
    MembersAreCounted(parts);
    var r := env.resolve(base, u);
    if r.Some? {
      MembersOneMore(parts, r.value);
      assert r.value in parts <==> r.value in Members(parts);
      assert r.value in parts ==> Members(parts) + {r.value} == Members(parts);
    }
  }

  /** A playlist from a public host adds only public URLs; none that is rejected is ever added. */
  lemma {:induction false} PublicNamesPublic(env: Env, base: string, fromInternal: bool, parts: seq<Url>,
                                             us: seq<string>)
    ensures var after := AddUris(env, base, fromInternal, parts, us).parts;
            forall p :: p in after && p !in parts ==>
              env.judge(p) == Public || (fromInternal && env.judge(p) == Internal)
  {
    if us != [] {
      PublicNamesPublic(env, base, fromInternal, parts, us[..|us| - 1]);
    }
  }

  /** A failed URI fails the list, whatever comes after it. */
  lemma {:induction false} FailureStays(env: Env, base: string, fromInternal: bool, parts: seq<Url>,
                                       a: seq<string>, b: seq<string>)
    requires AddUris(env, base, fromInternal, parts, a).failure.Some?
    ensures AddUris(env, base, fromInternal, parts, a + b) == AddUris(env, base, fromInternal, parts, a)
  {
    if b == [] {
      assert a + b == a;
    } else {
      FailureStays(env, base, fromInternal, parts, a, b[..|b| - 1]);
      assert (a + b)[..|a + b| - 1] == a + b[..|b| - 1];
    }
  }

  lemma {:induction false} PositionIsStable(parts: seq<Url>, more: seq<Url>, url: Url)
    requires parts <= more && url in parts
    ensures Position(more, url) == Position(parts, url)
  {
    if parts[0] != url {
      assert more[1..][..|parts| - 1] == parts[1..];
      PositionIsStable(parts[1..], more[1..], url);
    }
  }

  lemma PositionOf(parts: seq<Url>, n: nat)
    requires DistinctParts(parts) && n < |parts|
    ensures Position(parts, parts[n]) == n
  {
  }

  lemma {:induction false} AddingInTwo(env: Env, base: string, fromInternal: bool, parts: seq<Url>,
                                      a: seq<string>, b: seq<string>)
    requires AddUris(env, base, fromInternal, parts, a).failure.None?
    ensures AddUris(env, base, fromInternal, parts, a + b) ==
            AddUris(env, base, fromInternal, AddUris(env, base, fromInternal, parts, a).parts, b)
  {
    if b == [] {
      assert a + b == a;
    } else {
      AddingInTwo(env, base, fromInternal, parts, a, b[..|b| - 1]);
      assert (a + b)[..|a + b| - 1] == a + b[..|b| - 1];
    }
  }

  // ----- rewriting and answering -----

  function LocalUrl(env: Env, token: string, n: nat, url: Url): string {
    Origin(env.port) + PartPath(token, n, SafeName(env.segment(url)))
  }

  /** What a URI of a playlist from this base is replaced by. */
  function Local(env: Env, token: string, base: string, parts: seq<Url>, u: string): string {
    var r := env.resolve(base, u);
    if r.Some? && r.value in parts then LocalUrl(env, token, Position(parts, r.value), r.value) else ""
  }

  function ToLocal(env: Env, token: string, base: string, parts: seq<Url>): string -> string {
    u => Local(env, token, base, parts, u)
  }

  /** The URL a request is answered from: the token's own, or one of its parts. */
  function Target(token: string, own: Url, parts: seq<Url>, path: string): Option<Url> {
    match ParseRequest(path)
    case None => None
    case Some(r) =>
      if r.token != token then None
      else if r.part.None? then Some(own)
      else if r.part.value < |parts| then Some(parts[r.part.value]) else None
  }

  /** A request is answered from the token's own URL or from the part it names, and from nothing else. */
  lemma AnswersExactly(token: string, own: Url, parts: seq<Url>, path: string, url: Url)
    requires IsToken(token)
    ensures Target(token, own, parts, path) == Some(url) <==>
            || (path == "/m/" + token && url == own)
            || exists n: nat, t: string ::
                 path == "/m/" + token + "/" + t && ParsePart(t) == Some(n) && n < |parts| && parts[n] == url
  {
    hide ParseRequest, ParsePart, IsToken;
    RequestPattern(path, Request(token, None));
    forall n: nat ensures ParseRequest(path) == Some(Request(token, Some(n))) <==>
                          RequestText(path, Request(token, Some(n))) {
      RequestPattern(path, Request(token, Some(n)));
    }
  }

  /** What the server answers a local URL from. */
  function ToTarget(env: Env, token: string, own: Url, parts: seq<Url>): string -> string {
    l => (
      var origin := Origin(env.port);
      if origin <= l then
        var t := Target(token, own, parts, l[|origin|..]);
        if t.Some? then t.value else ""
      else "")
  }

  function ToAbsolute(env: Env, base: string): string -> string {
    u => if env.resolve(base, u).Some? then env.resolve(base, u).value else ""
  }

  lemma LocalIsPlain(env: Env, token: string, n: nat, url: Url)
    requires IsToken(token)
    ensures Plain(LocalUrl(env, token, n, url))
  {
    var name := SafeName(env.segment(url));
    NameIsSafe(name);
    TokenIsSafe(token);
    OriginIsSafe(env.port);
    DigitsAreSafe(Decimal(n));
    assert Safe("/m/") && Safe("/");
    hide Safe, SafeName, Decimal, Origin;
    SafeConcat("/m/", token);
    SafeConcat("/m/" + token, "/");
    SafeConcat("/m/" + token + "/", Decimal(n));
    SafeConcat("/m/" + token + "/" + Decimal(n), "/");
    SafeConcat("/m/" + token + "/" + Decimal(n) + "/", name);
    SafeConcat(Origin(env.port), PartPath(token, n, name));
    SafeIsPlain(LocalUrl(env, token, n, url), Origin(env.port));
  }

  lemma NameIsSafe(name: string)
    requires IsName(name)
    ensures Safe(name)
  {
  }

  lemma TokenIsSafe(token: string)
    requires IsToken(token)
    ensures Safe(token)
  {
  }

  lemma DigitsAreSafe(s: string)
    requires AllDigits(s)
    ensures Safe(s)
  {
  }

  lemma OriginIsSafe(port: nat)
    ensures Safe(Origin(port)) && Origin(port) != "" && Origin(port)[0] == 'h'
  {
    DigitsAreSafe(Decimal(port));
    assert Safe("http://127.0.0.1:");
    SafeConcat("http://127.0.0.1:", Decimal(port));
  }

  lemma SafeIsPlain(s: string, front: string)
    requires Safe(s) && front != "" && front[0] == 'h' && front <= s
    ensures Plain(s)
  {
    hide IsSpace;
  }

  predicate Safe(s: string) { forall i :: 0 <= i < |s| ==> !IsSpace(s[i]) && s[i] != '"' }

  lemma SafeConcat(a: string, b: string)
    requires Safe(a) && Safe(b)
    ensures Safe(a + b)
  {
  }

  /** A local URL is answered from the URL it stands for, also after more parts were numbered. */
  lemma LocalIsAnswered(env: Env, token: string, own: Url, n: nat, url: Url, parts: seq<Url>)
    requires IsToken(token) && n < |parts| <= MAX_PARTS && parts[n] == url
    ensures ToTarget(env, token, own, parts)(LocalUrl(env, token, n, url)) == url
  {
    var name := SafeName(env.segment(url));
    hide SafeName, Decimal, ParseRequest, Target, ToTarget;
    PartIsTarget(token, own, parts, n, name);
    AnsweredFrom(env, token, own, parts, PartPath(token, n, name));
  }

  lemma PartIsTarget(token: string, own: Url, parts: seq<Url>, n: nat, name: string)
    requires IsToken(token) && n < |parts| <= MAX_PARTS && IsName(name)
    ensures Target(token, own, parts, PartPath(token, n, name)) == Some(parts[n])
  {
    PrintedPathIsRequest(token, n, name);
    hide ParseRequest, PartPath;
  }

  lemma AnsweredFrom(env: Env, token: string, own: Url, parts: seq<Url>, path: string)
    ensures ToTarget(env, token, own, parts)(Origin(env.port) + path) ==
            var t := Target(token, own, parts, path); if t.Some? then t.value else ""
  {
    hide Target, Origin;
    Prepended(Origin(env.port), path);
  }

  lemma Prepended(a: string, b: string)
    ensures a <= a + b && (a + b)[|a|..] == b
  {
  }

  /**
   * Answering undoes rewriting: in the rewritten playlist, replacing each local URL by what the server answers it
   * from, now or after other playlists were rewritten, gives the playlist with its URIs made absolute.
   */
  lemma AnsweringUndoesRewriting(env: Env, token: string, own: Url, base: string, text: string,
                                 parts: seq<Url>, later: seq<Url>)
    requires IsToken(token) && Sound(parts) && Sound(later) && parts <= later
    requires Covered(env, base, parts, Uris(Split(text)))
    ensures var local := Rewritten(text, ToLocal(env, token, base, parts));
            Rewritten(local, ToTarget(env, token, own, later)) == Rewritten(text, ToAbsolute(env, base))
  {
    var us := Uris(Split(text));
    var f, g := ToLocal(env, token, base, parts), ToTarget(env, token, own, later);
    forall u | u in us ensures Plain(f(u)) && g(f(u)) == ToAbsolute(env, base)(u) {
      var url := env.resolve(base, u).value;
      var n := Position(parts, url);
      LocalIsPlain(env, token, n, url);
      LocalIsAnswered(env, token, own, n, url, later);
    }
    hide ToLocal, ToTarget, ToAbsolute;
    RewritingComposes(text, f, g);
    LinesAgree(Split(text), u => g(f(u)), ToAbsolute(env, base));
  }

  /** Numbers are given once: two URIs of any playlists have one local URL exactly when they name one URL. */
  lemma NumberingIsBijective(env: Env, token: string, parts: seq<Url>,
                             base: string, u: string, base': string, u': string)
    requires IsToken(token) && Sound(parts) && Covered(env, base, parts, [u]) && Covered(env, base', parts, [u'])
    ensures Local(env, token, base, parts, u) == Local(env, token, base', parts, u') <==>
            env.resolve(base, u) == env.resolve(base', u')
  {
    assert u in [u] && u' in [u'];
    var a, b := env.resolve(base, u).value, env.resolve(base', u').value;
    LocalIsAnswered(env, token, a, Position(parts, a), a, parts);
    LocalIsAnswered(env, token, a, Position(parts, b), b, parts);
    hide LocalUrl, ToTarget, Position;
  }

  /** What was made local stays so while parts are added. */
  lemma LocalStays(env: Env, token: string, base: string, parts: seq<Url>, more: seq<Url>, us: seq<string>)
    requires Covered(env, base, parts, us) && parts <= more
    ensures Covered(env, base, more, us)
    ensures forall u :: u in us ==> ToLocal(env, token, base, parts)(u) == ToLocal(env, token, base, more)(u)
  {
    hide LocalUrl;
    forall u | u in us ensures ToLocal(env, token, base, parts)(u) == ToLocal(env, token, base, more)(u) {
      PositionIsStable(parts, more, env.resolve(base, u).value);
    }
  }

  // ----- one piece, one line more -----

  lemma PieceUrisCons(p: Piece, ps: seq<Piece>)
    ensures PieceUris([p] + ps) == (if p.Uri? then [p.u] else []) + PieceUris(ps)
  {
    assert ([p] + ps)[1..] == ps;
  }

  lemma {:induction false} PieceUrisConcat(a: seq<Piece>, b: seq<Piece>)
    ensures PieceUris(a + b) == PieceUris(a) + PieceUris(b)
  {
    if a == [] {
      NothingAdded(b);
      NothingAdded(PieceUris(b));
    } else {
      var p, rest := a[0], a[1..];
      HeadOf(a, b);
      PieceUrisConcat(rest, b);
      PieceUrisCons(p, rest + b);
      PieceUrisCons(p, rest);
      hide *;
      Associates(if p.Uri? then [p.u] else [], PieceUris(rest), PieceUris(b));
    }
  }

  function Substituted(p: Piece, f: string -> string): Piece { if p.Ch? then p else Uri(f(p.u)) }

  lemma MapCons(p: Piece, ps: seq<Piece>, f: string -> string)
    ensures MapPieces([p] + ps, f) == [Substituted(p, f)] + MapPieces(ps, f)
  {
    assert ([p] + ps)[1..] == ps;
  }

  lemma {:induction false} PieceAppended(a: seq<Piece>, p: Piece, f: string -> string)
    ensures Render(MapPieces(a + [p], f)) == Render(MapPieces(a, f)) + PieceText(Substituted(p, f))
  {
    hide PieceText, Substituted;
    var q := Substituted(p, f);
    if a == [] {
      NothingMapped(f);
      MapCons(p, [], f);
      RenderCons(q, []);
      NothingAdded([p]);
      NothingAdded(PieceText(q));
    } else {
      var first, rest := a[0], a[1..];
      HeadOf(a, [p]);
      PieceAppended(rest, p, f);
      MapCons(first, rest + [p], f);
      MapCons(first, rest, f);
      RenderCons(Substituted(first, f), MapPieces(rest, f));
      RenderCons(Substituted(first, f), MapPieces(rest + [p], f));
      hide *;
      Associates(PieceText(Substituted(first, f)), Render(MapPieces(rest, f)), PieceText(q));
    }
  }

  lemma NothingMapped(f: string -> string)
    ensures MapPieces([], f) == [] && Render([]) == ""
  {
  }

  lemma UrisCons(line: string, lines: seq<string>)
    ensures Uris([line] + lines) == LineUris(line) + Uris(lines)
  {
    hide LineUris;
    assert ([line] + lines)[1..] == lines;
  }

  lemma UrisNone()
    ensures Uris([]) == []
  {
  }

  lemma {:induction false} UrisOfConcat(a: seq<string>, b: seq<string>)
    ensures Uris(a + b) == Uris(a) + Uris(b)
  {
    hide Uris;
    if a == [] {
      UrisNone();
      NothingAdded(b);
      NothingAdded(Uris(b));
    } else {
      var line, rest := a[0], a[1..];
      HeadOf(a, b);
      UrisOfConcat(rest, b);
      UrisCons(line, rest + b);
      UrisCons(line, rest);
      Associates(LineUris(line), Uris(rest), Uris(b));
    }
  }

  lemma UrisAppended(lines: seq<string>, line: string)
    ensures Uris(lines + [line]) == Uris(lines) + LineUris(line)
  {
    hide *;
    UrisOfConcat(lines, [line]);
    UrisCons(line, []);
    UrisNone();
    NothingAdded([line]);
    NothingAdded(LineUris(line));
  }

  lemma LineAppended(lines: seq<string>, line: string, f: string -> string)
    ensures RewriteLines(lines + [line], f) == RewriteLines(lines, f) + [RewriteLine(line, f)]
  {
    hide RewriteLine;
    var l, r := RewriteLines(lines + [line], f), RewriteLines(lines, f) + [RewriteLine(line, f)];
    forall i | 0 <= i < |l| ensures l[i] == r[i] { assert l[i] == RewriteLine((lines + [line])[i], f); }
  }

  lemma OneMore(env: Env, base: string, fromInternal: bool, parts: seq<Url>, us: seq<string>, u: string)
    requires AddUris(env, base, fromInternal, parts, us).failure.None?
    ensures AddUris(env, base, fromInternal, parts, us + [u]) ==
            AddUri(env, base, fromInternal, AddUris(env, base, fromInternal, parts, us).parts, u)
  {
    assert (us + [u])[..|us|] == us;
  }

  lemma PieceUrisStep(ps: seq<Piece>, i: nat)
    requires i < |ps|
    ensures PieceUris(ps[..i + 1]) == if ps[i].Uri? then PieceUris(ps[..i]) + [ps[i].u] else PieceUris(ps[..i])
    ensures PieceUris(ps) == PieceUris(ps[..i + 1]) + PieceUris(ps[i + 1..])
  {
    OnePieceUris(ps[i]);
    hide *;
    CutAt(ps, i);
    var before, front, rest := ps[..i], ps[..i + 1], ps[i + 1..];
    PieceUrisConcat(before, [ps[i]]);
    PieceUrisConcat(front, rest);
    assert PieceUris(before) + [] == PieceUris(before);
  }

  lemma OnePieceUris(p: Piece)
    ensures PieceUris([p]) == if p.Uri? then [p.u] else []
  {
    assert PieceUris([p]) == (if p.Uri? then [p.u] else []) + PieceUris([p][1..]);
  }

  /** The text so far and one piece more, after numbering what it names. */
  lemma PieceStep(env: Env, token: string, base: string, mid: seq<Url>, more: seq<Url>, ps: seq<Piece>, i: nat)
    requires i < |ps| && mid <= more && Covered(env, base, mid, PieceUris(ps[..i]))
    ensures Render(MapPieces(ps[..i + 1], ToLocal(env, token, base, more))) ==
            Render(MapPieces(ps[..i], ToLocal(env, token, base, mid)))
            + PieceText(Substituted(ps[i], ToLocal(env, token, base, more)))
  {
    hide Local, Render, MapPieces, PieceUris, Substituted;
    var f, g := ToLocal(env, token, base, mid), ToLocal(env, token, base, more);
    LocalStays(env, token, base, mid, more, PieceUris(ps[..i]));
    PiecesAgree(ps[..i], f, g);
    PieceAppended(ps[..i], ps[i], g);
    assert ps[..i + 1] == ps[..i] + [ps[i]];
  }

  lemma LineStep(env: Env, token: string, base: string, mid: seq<Url>, more: seq<Url>, lines: seq<string>, i: nat)
    requires i < |lines| && mid <= more && Covered(env, base, mid, Uris(lines[..i]))
    ensures RewriteLines(lines[..i + 1], ToLocal(env, token, base, more)) ==
            RewriteLines(lines[..i], ToLocal(env, token, base, mid))
            + [RewriteLine(lines[i], ToLocal(env, token, base, more))]
  {
    hide Local, RewriteLine, Uris;
    var f, g := ToLocal(env, token, base, mid), ToLocal(env, token, base, more);
    LocalStays(env, token, base, mid, more, Uris(lines[..i]));
    LinesAgree(lines[..i], f, g);
    LineAppended(lines[..i], lines[i], g);
    assert lines[..i + 1] == lines[..i] + [lines[i]];
  }

  lemma UrisStep(lines: seq<string>, i: nat)
    requires i < |lines|
    ensures Uris(lines[..i + 1]) == Uris(lines[..i]) + LineUris(lines[i])
    ensures Uris(lines) == Uris(lines[..i + 1]) + Uris(lines[i + 1..])
  {
    hide *;
    CutAt(lines, i);
    var before, line, front, rest := lines[..i], lines[i], lines[..i + 1], lines[i + 1..];
    UrisAppended(before, line);
    UrisOfConcat(front, rest);
  }

  // ----- a token's entry, as it is updated in place -----

  class TokenEntry {
    const env: Env
    const token: string
    const url: Url
    var parts: seq<Url>
    var index: map<Url, nat>

    ghost predicate Valid()
      reads this
    {
      && IsToken(token) && Sound(parts)
      && (forall n :: 0 <= n < |parts| ==> parts[n] in index && index[parts[n]] == n)
      && (forall u :: u in index ==> index[u] < |parts| && parts[index[u]] == u)
    }

    constructor (env: Env, token: string, url: Url)
      requires IsToken(token)
      ensures Valid() && this.env == env && this.token == token && this.url == url && parts == []
    {
      this.env, this.token, this.url := env, token, url;
      parts, index := [], map[];
    }

    /** The local URL of a URL as a part of this token: judged now, numbered once. */
    method PartUrl(url: Url, fromInternal: bool) returns (r: Result<string, Failure>)
      requires Valid()
      modifies this
      ensures Valid()
      ensures var o := AddUrl(env, old(parts), url, fromInternal);
              parts == o.parts && (r.Err? <==> o.failure.Some?) && (r.Err? ==> o.failure == Some(r.error))
      ensures r.Ok? ==> url in parts && r.value == LocalUrl(env, token, Position(parts, url), url)
      ensures r == Err(Refused) <==> env.judge(url) == Rejected || (env.judge(url) == Internal && !fromInternal)
      ensures r == Err(TooLarge) <==> r != Err(Refused) && url !in old(parts) && |old(parts)| >= 200_000
      ensures r != Err(BadUrl) && parts == if r.Ok? && url !in old(parts) then old(parts) + [url] else old(parts)
    {
      hide LocalUrl;
      var verdict := env.judge(url);
      if verdict.Rejected? { return Err(Refused); }
      if verdict.Internal? && !fromInternal { return Err(Refused); }
      if url !in index {
        if |parts| >= MAX_PARTS { return Err(TooLarge); }
        index := index[url := |parts|];
        parts := parts + [url];
      }
      assert parts[index[url]] == url;
      PositionOf(parts, index[url]);
      return Ok(LocalUrl(env, token, index[url], url));
    }

    /** One URI of a playlist from this base, made local. */
    method Localise(base: string, u: string, fromInternal: bool) returns (r: Result<string, Failure>)
      requires Valid()
      modifies this
      ensures Valid()
      ensures var o := AddUri(env, base, fromInternal, old(parts), u);
              parts == o.parts && (r.Err? <==> o.failure.Some?) && (r.Err? ==> o.failure == Some(r.error))
      ensures r.Ok? ==> Covered(env, base, parts, [u]) && r.value == Local(env, token, base, parts, u)
    {
      var absolute := env.resolve(base, u);
      if absolute.None? { return Err(BadUrl); }
      r := PartUrl(absolute.value, fromInternal);
    }

    /** The line with each quoted URI made local, leftmost first. */
    method RewriteTag(line: string, base: string, fromInternal: bool) returns (r: Result<string, Failure>)
      requires Valid()
      modifies this
      ensures Valid()
      ensures AddUris(env, base, fromInternal, old(parts), PieceUris(Scan(line))) == Outcome(parts, Failed(r))
      ensures r.Ok? ==> r.value == Render(MapPieces(Scan(line), ToLocal(env, token, base, parts)))
    {
      hide Scan, MapPieces, Render, PieceUris, LocalUrl, Decimal, Local;
      hide AddUri, AddUris, ToLocal, Covered, Sound, PieceText;
      var ps, out, i := Scan(line), "", 0;
      Nothing(env, base, fromInternal, parts, ToLocal(env, token, base, parts));
      assert ps[..0] == [];
      while i < |ps|
        invariant 0 <= i <= |ps| && Valid()
        invariant AddUris(env, base, fromInternal, old(parts), PieceUris(ps[..i])) == Outcome(parts, None)
        invariant out == Render(MapPieces(ps[..i], ToLocal(env, token, base, parts)))
      {
        ghost var mid := parts;
        AddingIsStable(env, base, fromInternal, old(parts), PieceUris(ps[..i]));
        PieceUrisStep(ps, i);
        match ps[i] {
          case Ch(c) =>
            PieceStep(env, token, base, mid, mid, ps, i);
            SubstitutedIs(ps[i], env, token, base, mid);
            CharacterText(c);
            out := out + [c];
          case Uri(u) =>
            OneMore(env, base, fromInternal, old(parts), PieceUris(ps[..i]), u);
            var local := Localise(base, u, fromInternal);
            if local.Err? {
              FailureStays(env, base, fromInternal, old(parts), PieceUris(ps[..i + 1]), PieceUris(ps[i + 1..]));
              return Err(local.error);
            }
            AddUriGrows(env, base, fromInternal, mid, u);
            PieceStep(env, token, base, mid, parts, ps, i);
            SubstitutedIs(ps[i], env, token, base, parts);
            UriText(local.value);
            out := out + "URI=\"" + local.value + "\"";
        }
        i := i + 1;
      }
      assert ps[..i] == ps;
      return Ok(out);
    }

    /**
     * The playlist with every URI made local. The parts are those of numbering its URIs one by one; the first that
     * is no URL, is refused or is one too many fails the rewrite, and what was numbered before it stays numbered.
     */
    method RewritePlaylist(text: string, base: string, fromInternal: bool) returns (r: Result<string, Failure>)
      requires Valid()
      modifies this
      ensures Valid()
      ensures AddUris(env, base, fromInternal, old(parts), Uris(Split(text))) == Outcome(parts, Failed(r))
      ensures r.Ok? ==> r.value == Rewritten(text, ToLocal(env, token, base, parts))
    {
      hide Scan, MapPieces, Render, PieceUris, LocalUrl, Decimal, Local, Trim, Split, Uris, RewriteLines;
      hide AddUri, AddUris, ToLocal, Covered, Sound;
      var lines := Split(text);
      var out: seq<string>, i := [], 0;
      NoLines(env, base, fromInternal, parts, ToLocal(env, token, base, parts));
      assert lines[..0] == [];
      while i < |lines|
        invariant 0 <= i <= |lines| && Valid()
        invariant AddUris(env, base, fromInternal, old(parts), Uris(lines[..i])) == Outcome(parts, None)
        invariant out == RewriteLines(lines[..i], ToLocal(env, token, base, parts))
      {
        ghost var mid, done := parts, Uris(lines[..i]);
        AddingIsStable(env, base, fromInternal, old(parts), done);
        UrisStep(lines, i);
        AddingInTwo(env, base, fromInternal, old(parts), done, LineUris(lines[i]));
        AddingIsStable(env, base, fromInternal, mid, LineUris(lines[i]));
        var line := RewriteOne(lines[i], base, fromInternal);
        if line.Err? {
          FailureStays(env, base, fromInternal, old(parts), Uris(lines[..i + 1]), Uris(lines[i + 1..]));
          return Err(line.error);
        }
        LineStep(env, token, base, mid, parts, lines, i);
        out := out + [line.value];
        i := i + 1;
      }
      assert lines[..i] == lines;
      return Ok(Join(out));
    }

    /** One line: blank ones stay, tags have their quoted URIs replaced, any other line is a URI. */
    method RewriteOne(line: string, base: string, fromInternal: bool) returns (r: Result<string, Failure>)
      requires Valid()
      modifies this
      ensures Valid()
      ensures AddUris(env, base, fromInternal, old(parts), LineUris(line)) == Outcome(parts, Failed(r))
      ensures r.Ok? ==> r.value == RewriteLine(line, ToLocal(env, token, base, parts))
    {
      hide Scan, MapPieces, Render, PieceUris, LocalUrl, Decimal, AddUri, Covered, Sound, Trim;
      var t := Trim(line);
      if t == "" { return Ok(line); }
      if t[0] == '#' {
        r := RewriteTag(line, base, fromInternal);
      } else {
        Nothing(env, base, fromInternal, parts, ToLocal(env, token, base, parts));
        OneMore(env, base, fromInternal, parts, [], t);
        assert [] + [t] == [t];
        r := Localise(base, t, fromInternal);
      }
    }
  }

  function Failed<T>(r: Result<T, Failure>): Option<Failure> { if r.Err? then Some(r.error) else None }

  lemma Nothing(env: Env, base: string, fromInternal: bool, parts: seq<Url>, f: string -> string)
    ensures AddUris(env, base, fromInternal, parts, []) == Outcome(parts, None)
    ensures PieceUris([]) == [] && Render(MapPieces([], f)) == ""
  {
  }

  lemma NoLines(env: Env, base: string, fromInternal: bool, parts: seq<Url>, f: string -> string)
    ensures AddUris(env, base, fromInternal, parts, []) == Outcome(parts, None)
    ensures Uris([]) == [] && RewriteLines([], f) == []
  {
  }

  lemma SubstitutedIs(p: Piece, env: Env, token: string, base: string, parts: seq<Url>)
    ensures Substituted(p, ToLocal(env, token, base, parts)) ==
            if p.Ch? then p else Uri(Local(env, token, base, parts, p.u))
  {
  }

  lemma CharacterText(c: char)
    ensures PieceText(Ch(c)) == [c]
  {
  }

  lemma UriText(u: string)
    ensures PieceText(Uri(u)) == "URI=\"" + u + "\""
  {
  }

  lemma AddUriGrows(env: Env, base: string, fromInternal: bool, parts: seq<Url>, u: string)
    ensures parts <= AddUri(env, base, fromInternal, parts, u).parts
  {
  }
}
