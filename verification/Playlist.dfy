/**
 * The media proxy's playlists: every URI of a playlist becomes a numbered local URL, and a request for that URL is
 * answered from the URL it stood for.
 */
module Playlist {
  import opened Common
  import opened Text

  const MAX_PARTS: nat := 200000

  // ----- lines -----

  predicate NoBreak(s: string) { '\n' !in s }

  function Split(text: string): (lines: seq<string>)
    ensures lines != [] && forall i :: 0 <= i < |lines| ==> NoBreak(lines[i])
    decreases |text|
  {
    var i := IndexOf(text, '\n');
    if i == |text| then
      assert text[..i] == text;
      [text]
    else [text[..i]] + Split(text[i + 1..])
  }

  function Join(lines: seq<string>): string
    requires lines != []
  {
    if |lines| == 1 then lines[0] else lines[0] + "\n" + Join(lines[1..])
  }

  /** Lines without breaks come back from their joined text. */
  lemma {:induction false} SplitUndoesJoin(lines: seq<string>)
    requires lines != [] && forall i :: 0 <= i < |lines| ==> NoBreak(lines[i])
    ensures Split(Join(lines)) == lines
  {
    if |lines| == 1 {
      IndexAbsent(lines[0], '\n');
    } else {
      SplitUndoesJoin(lines[1..]);
      var rest := Join(lines[1..]);
      IndexAfter(lines[0], '\n', rest);
      var t := lines[0] + "\n" + rest;
      assert Join(lines) == t && t == lines[0] + ['\n'] + rest;
      assert t[..|lines[0]|] == lines[0] && t[|lines[0]| + 1..] == rest;
      assert lines == [lines[0]] + lines[1..];
    }
  }

  lemma {:induction false} JoinUndoesSplit(text: string)
    ensures Join(Split(text)) == text
    decreases |text|
  {
    var i := IndexOf(text, '\n');
    if i < |text| {
      JoinUndoesSplit(text[i + 1..]);
      assert text == text[..i] + [text[i]] + text[i + 1..];
      assert Split(text)[1..] == Split(text[i + 1..]);
    }
  }

  lemma CountAround(a: string, c: char, b: string)
    requires c !in a
    ensures multiset(a)[c] == 0 && multiset(a + [c] + b)[c] == 1 + multiset(b)[c]
  {
    assert c !in multiset(a);
  }

  /** There is one line more than there are line feeds. */
  lemma {:induction false} LinesAreCounted(text: string)
    ensures |Split(text)| == multiset(text)['\n'] + 1
    decreases |text|
  {
    var i := IndexOf(text, '\n');
    hide IndexOf, NoBreak;
    var before, rest := text[..i], text[if i < |text| then i + 1 else i..];
    CountAround(before, '\n', rest);
    if i < |text| {
      LinesAreCounted(rest);
      assert text == before + ['\n'] + rest;
    } else {
      assert before == text;
    }
  }

  // ----- the URIs of a line -----

  const MARK := "URI=\""

  /** A piece of a tag line: one character, or a quoted URI. */
  datatype Piece = Ch(c: char) | Uri(u: string)

  /** The pieces of a tag line, leftmost first: a URI needs its closing quote. */
  function Scan(s: string): seq<Piece>
    decreases |s|
  {
    if s == "" then []
    else if MARK <= s && IndexOf(s[5..], '"') < |s| - 5 then
      var i := IndexOf(s[5..], '"');
      [Uri(s[5..][..i])] + Scan(s[5 + i + 1..])
    else [Ch(s[0])] + Scan(s[1..])
  }

  function PieceText(p: Piece): string { if p.Ch? then [p.c] else MARK + p.u + "\"" }

  function Render(ps: seq<Piece>): string { if ps == [] then "" else PieceText(ps[0]) + Render(ps[1..]) }

  datatype Kind = Blank | Tag | Bare

  function KindOf(line: string): Kind {
    var t := Trim(line);
    if t == "" then Blank else if t[0] == '#' then Tag else Bare
  }

  function PieceUris(ps: seq<Piece>): seq<string> {
    if ps == [] then [] else (if ps[0].Uri? then [ps[0].u] else []) + PieceUris(ps[1..])
  }

  function LineUris(line: string): seq<string> {
    match KindOf(line)
    case Blank => []
    case Tag => PieceUris(Scan(line))
    case Bare => [Trim(line)]
  }

  function Uris(lines: seq<string>): seq<string> { if lines == [] then [] else LineUris(lines[0]) + Uris(lines[1..]) }

  // ----- rewriting with a function -----

  function MapPieces(ps: seq<Piece>, f: string -> string): seq<Piece> {
    if ps == [] then [] else [if ps[0].Ch? then ps[0] else Uri(f(ps[0].u))] + MapPieces(ps[1..], f)
  }

  function RewriteLine(line: string, f: string -> string): string {
    match KindOf(line)
    case Blank => line
    case Tag => Render(MapPieces(Scan(line), f))
    case Bare => f(Trim(line))
  }

  function RewriteLines(lines: seq<string>, f: string -> string): (r: seq<string>)
    ensures |r| == |lines|
    ensures forall i :: 0 <= i < |lines| ==> r[i] == RewriteLine(lines[i], f)
  {
    if lines == [] then [] else [RewriteLine(lines[0], f)] + RewriteLines(lines[1..], f)
  }

  /** The playlist with every URI replaced. */
  function Rewritten(text: string, f: string -> string): string { Join(RewriteLines(Split(text), f)) }

  // ----- what a scan finds again -----

  predicate QuoteFree(s: string) { '"' !in s }

  /** Would the scan take the text of these pieces for a URI here? */
  predicate Opens(t: string) { MARK <= t && IndexOf(t[5..], '"') < |t| - 5 }

  predicate Stable(ps: seq<Piece>) {
    ps == [] || ((if ps[0].Uri? then QuoteFree(ps[0].u) else !Opens(Render(ps))) && Stable(ps[1..]))
  }

  lemma RenderCons(p: Piece, ps: seq<Piece>)
    ensures Render([p] + ps) == PieceText(p) + Render(ps)
  {
    assert ([p] + ps)[1..] == ps;
  }

  lemma StableCons(p: Piece, ps: seq<Piece>)
    requires Stable(ps) && if p.Uri? then QuoteFree(p.u) else !Opens([p.c] + Render(ps))
    ensures Stable([p] + ps)
  {
    RenderCons(p, ps);
    hide Render, Opens, QuoteFree;
    assert ([p] + ps)[1..] == ps;
  }

  lemma SplitAtQuote(s: string, i: nat)
    requires MARK <= s && 5 + i < |s| && s[5..][i] == '"'
    ensures s == MARK + s[5..][..i] + "\"" + s[5 + i + 1..]
  {
    var t := s[5..];
    assert s == s[..5] + t && s[..5] == MARK;
    assert t == t[..i] + ([t[i]] + t[i + 1..]) && t[i + 1..] == s[5 + i + 1..];
  }

  /** Where a URI opens, the scan takes it whole. */
  lemma ScanOpens(s: string, i: nat, u: string, rest: string)
    requires Opens(s) && i == IndexOf(s[5..], '"') && u == s[5..][..i] && rest == s[5 + i + 1..]
    ensures QuoteFree(u) && Scan(s) == [Uri(u)] + Scan(rest) && s == MARK + u + "\"" + rest
  {
    assert s[5..][i] == '"';
    hide IndexOf;
    SplitAtQuote(s, i);
  }

  lemma {:induction false} ScanIsStable(s: string)
    ensures Render(Scan(s)) == s && Stable(Scan(s))
    decreases |s|
  {
    hide Stable, Render;
    if s == "" {
      EmptyIsStable();
    } else if Opens(s) {
      var i := IndexOf(s[5..], '"');
      var u, rest := s[5..][..i], s[5 + i + 1..];
      var p := Uri(u);
      ScanOpens(s, i, u, rest);
      hide Scan, Opens, IndexOf;
      ScanIsStable(rest);
      RenderCons(p, Scan(rest));
      StableCons(p, Scan(rest));
    } else {
      ScanIsStable(s[1..]);
      RenderCons(Ch(s[0]), Scan(s[1..]));
      assert s == [s[0]] + s[1..];
      StableCons(Ch(s[0]), Scan(s[1..]));
    }
  }

  lemma EmptyIsStable()
    ensures Stable([]) && Render([]) == ""
  {
  }

  lemma CharacterIsScanned(c: char, rest: string)
    requires !Opens([c] + rest)
    ensures Scan([c] + rest) == [Ch(c)] + Scan(rest)
  {
    hide IndexOf;
    assert ([c] + rest)[1..] == rest;
  }

  lemma ScanEmpty()
    ensures Scan("") == []
  {
  }

  lemma {:induction false} StableIsScanned(ps: seq<Piece>)
    requires Stable(ps)
    ensures Scan(Render(ps)) == ps
  {
    hide Scan, Opens, QuoteFree;
    if ps == [] {
      ScanEmpty();
    } else {
      StableIsScanned(ps[1..]);
      var rest := Render(ps[1..]);
      assert ps == [ps[0]] + ps[1..];
      if ps[0].Uri? {
        UriIsScanned(ps[0].u, rest);
      } else {
        CharacterIsScanned(ps[0].c, rest);
      }
    }
  }

  lemma UriIsScanned(u: string, rest: string)
    requires QuoteFree(u)
    ensures Scan(MARK + u + "\"" + rest) == [Uri(u)] + Scan(rest)
  {
    var t := MARK + u + "\"" + rest;
    IndexAfter(u, '"', rest);
    hide IndexOf;
    assert t[5..] == u + ['"'] + rest && t[5..][..|u|] == u && t[5 + |u| + 1..] == rest;
    assert t[..5] == MARK;
  }

  lemma RenderHead(ps: seq<Piece>)
    requires ps != []
    ensures Render(ps) != "" && Render(ps)[0] == (if ps[0].Ch? then ps[0].c else 'U')
    ensures ps[0].Ch? ==> Render(ps)[1..] == Render(ps[1..])
  {
  }

  lemma {:induction false} WordIsCharacters(ps: seq<Piece>, word: string)
    requires word <= Render(ps) && 'U' !in word
    ensures |word| <= |ps| && forall i :: 0 <= i < |word| ==> ps[i] == Ch(word[i])
    decreases |word|
  {
    if word != "" {
      assert ps != [] && Render(ps)[0] == word[0];
      RenderHead(ps);
      hide Render;
      assert word[1..] <= Render(ps)[1..];
      WordIsCharacters(ps[1..], word[1..]);
    }
  }

  lemma ConsCharacters(ps: seq<Piece>, word: string)
    requires ps != [] && word != "" && ps[0] == Ch(word[0]) && |word| <= |ps|
    requires forall i :: 0 <= i < |word| - 1 ==> ps[1..][i] == Ch(word[1..][i])
    ensures forall i :: 0 <= i < |word| ==> ps[i] == Ch(word[i])
  {
    forall i | 1 <= i < |word| ensures ps[i] == Ch(word[i]) { assert ps[1..][i - 1] == Ch(word[1..][i - 1]); }
  }

  lemma FrontIsCharacters(ps: seq<Piece>, word: string)
    requires ps != [] && ps[0].Ch? && word != "" && word <= Render(ps) && 'U' !in word[1..]
    ensures |word| <= |ps| && (forall i :: 0 <= i < |word| ==> ps[i] == Ch(word[i]))
    ensures Render(ps)[|word|..] == Render(ps[|word|..])
  {
    RenderHead(ps);
    hide Render;
    assert Render(ps)[0] == word[0];
    assert word[1..] <= Render(ps)[1..];
    WordIsCharacters(ps[1..], word[1..]);
    ConsCharacters(ps, word);
    CharactersRender(ps, word);
    hide *;
  }

  /** The opening mark can only be written by five characters: its letters after the first are not its first letter. */
  lemma MarkIsFiveCharacters(ps: seq<Piece>)
    requires ps != [] && ps[0].Ch? && MARK <= Render(ps)
    ensures |ps| >= 5 && (forall i :: 0 <= i < 5 ==> ps[i] == Ch(MARK[i]))
    ensures Render(ps)[5..] == Render(ps[5..])
  {
    hide Render;
    assert 'U' !in MARK[1..];
    FrontIsCharacters(ps, MARK);
  }

  lemma UriHasQuote(ps: seq<Piece>)
    requires ps != [] && ps[0].Uri?
    ensures !QuoteFree(Render(ps))
  {
    assert Render(ps)[4] == '"';
  }

  lemma {:induction false} NoQuoteNoUri(ps: seq<Piece>, f: string -> string)
    requires QuoteFree(Render(ps))
    ensures MapPieces(ps, f) == ps
  {
    if ps != [] {
      if ps[0].Uri? { UriHasQuote(ps); }
      RenderHead(ps);
      assert forall c :: c in Render(ps[1..]) ==> c in Render(ps);
      NoQuoteNoUri(ps[1..], f);
      assert ps == [ps[0]] + ps[1..];
    }
  }

  predicate Good(us: seq<string>, f: string -> string) { forall u :: u in us ==> Plain(f(u)) }

  /** A URL that can stand on a line of its own and between quotes. */
  predicate Plain(s: string) { s != "" && s[0] != '#' && forall i :: 0 <= i < |s| ==> !IsSpace(s[i]) && s[i] != '"' }

  lemma GoodTail(ps: seq<Piece>, f: string -> string)
    requires ps != [] && Good(PieceUris(ps), f)
    ensures Good(PieceUris(ps[1..]), f) && (ps[0].Uri? ==> Plain(f(ps[0].u)))
  {
    assert ps[0].Uri? ==> PieceUris(ps)[0] == ps[0].u;
    assert forall u :: u in PieceUris(ps[1..]) ==> u in PieceUris(ps);
  }

  lemma {:induction false} MapDrop(ps: seq<Piece>, f: string -> string, k: nat)
    requires k <= |ps|
    ensures |MapPieces(ps, f)| == |ps| && MapPieces(ps, f)[k..] == MapPieces(ps[k..], f)
    ensures k < |ps| ==> MapPieces(ps, f)[k] == (if ps[k].Ch? then ps[k] else Uri(f(ps[k].u)))
  {
    if k == 0 {
      assert ps[0..] == ps;
      if ps != [] { MapDrop(ps[1..], f, 0); }
    } else {
      MapDrop(ps[1..], f, k - 1);
      assert ps[1..][k - 1..] == ps[k..];
      assert MapPieces(ps, f)[1..] == MapPieces(ps[1..], f);
    }
  }

  lemma FirstPieces(ps: seq<Piece>, f: string -> string)
    requires var ms := MapPieces(ps, f); |ms| >= 5 && forall i :: 0 <= i < 5 ==> ms[i] == Ch(MARK[i])
    ensures |ps| >= 5 && (forall i :: 0 <= i < 5 ==> ps[i] == Ch(MARK[i]))
    ensures MapPieces(ps, f)[5..] == MapPieces(ps[5..], f)
  {
    MapDrop(ps, f, 0);
    forall i | 0 <= i < 5 ensures ps[i] == Ch(MARK[i]) { MapDrop(ps, f, i); }
    MapDrop(ps, f, 5);
  }

  /** Replacing URIs opens no new one before a character. */
  lemma MapOpensNothing(ps: seq<Piece>, f: string -> string)
    requires ps != [] && ps[0].Ch? && !Opens(Render(ps))
    ensures !Opens(Render(MapPieces(ps, f)))
  {
    var ms := MapPieces(ps, f);
    MapDrop(ps, f, 0);
    hide Render, MapPieces;
    if MARK <= Render(ms) {
      MarkIsFiveCharacters(ms);
      FirstPieces(ps, f);
      FiveCharacters(ps);
      var rest := Render(ps[5..]);
      assert Render(ps)[5..] == rest;
      IndexIsLength(rest, '"');
      NoQuoteNoUri(ps[5..], f);
    }
  }

  lemma IndexIsLength(s: string, c: char)
    requires IndexOf(s, c) == |s|
    ensures c !in s
  {
    assert s[..|s|] == s;
  }

  lemma FiveCharacters(ps: seq<Piece>)
    requires |ps| >= 5 && forall i :: 0 <= i < 5 ==> ps[i] == Ch(MARK[i])
    ensures Render(ps) == MARK + Render(ps[5..]) && MARK <= Render(ps) && Render(ps)[5..] == Render(ps[5..])
  {
    CharactersRender(ps, MARK);
  }

  lemma {:induction false} CharactersRender(ps: seq<Piece>, word: string)
    requires |word| <= |ps| && forall i :: 0 <= i < |word| ==> ps[i] == Ch(word[i])
    ensures Render(ps) == word + Render(ps[|word|..])
    decreases |word|
  {
    hide Render;
    if word == "" {
      assert ps[0..] == ps;
    } else {
      CharactersRender(ps[1..], word[1..]);
      assert ps[1..][|word| - 1..] == ps[|word|..];
      RenderCons(ps[0], ps[1..]);
      assert ps == [ps[0]] + ps[1..];
      assert word == [word[0]] + word[1..];
    }
  }

  lemma {:induction false} MapIsStable(ps: seq<Piece>, f: string -> string)
    requires Stable(ps) && Good(PieceUris(ps), f)
    ensures Stable(MapPieces(ps, f))
  {
    if ps != [] {
      GoodTail(ps, f);
      MapIsStable(ps[1..], f);
      assert MapPieces(ps, f)[1..] == MapPieces(ps[1..], f);
      if ps[0].Ch? { MapOpensNothing(ps, f); }
    }
  }

  /** The rewritten line holds the same pieces, each URI replaced. */
  lemma TagScansAgain(line: string, f: string -> string)
    requires Good(PieceUris(Scan(line)), f)
    ensures Scan(Render(MapPieces(Scan(line), f))) == MapPieces(Scan(line), f)
  {
    ScanIsStable(line);
    MapIsStable(Scan(line), f);
    StableIsScanned(MapPieces(Scan(line), f));
  }

  // ----- kinds of line -----

  predicate StartsTag(s: string) {
    s != "" && if IsSpace(s[0]) then StartsTag(s[1..]) else s[0] == '#'
  }

  lemma {:induction false} StartsTagIsTag(s: string)
    ensures StartsTag(s) <==> TrimStart(s) != "" && TrimStart(s)[0] == '#'
  {
    if s != "" && IsSpace(s[0]) { StartsTagIsTag(s[1..]); }
  }

  lemma KindIsTag(s: string)
    ensures KindOf(s).Tag? <==> StartsTag(s)
  {
    StartsTagIsTag(s);
    if TrimStart(s) != "" { TrimEndKeepsFirst(TrimStart(s)); }
  }

  lemma {:induction false} TrimEndKeepsFirst(t: string)
    requires t != "" && !IsSpace(t[0])
    ensures TrimEnd(t) != "" && TrimEnd(t)[0] == t[0]
  {
    if IsSpace(t[|t| - 1]) { TrimEndKeepsFirst(t[..|t| - 1]); }
  }

  lemma {:induction false} MapStartsTag(ps: seq<Piece>, f: string -> string)
    ensures StartsTag(Render(MapPieces(ps, f))) == StartsTag(Render(ps))
  {
    if ps != [] {
      MapStartsTag(ps[1..], f);
      RenderHead(ps);
      RenderHead(MapPieces(ps, f));
      assert MapPieces(ps, f)[1..] == MapPieces(ps[1..], f);
    }
  }

  lemma PlainIsBare(s: string)
    requires Plain(s)
    ensures KindOf(s).Bare? && Trim(s) == s && NoBreak(s)
  {
    TrimIdentity(s);
  }

  /** A rewritten line is of the same kind and names the replaced URIs, so rewriting composes. */
  lemma LineComposes(line: string, f: string -> string, g: string -> string)
    requires Good(LineUris(line), f)
    ensures KindOf(RewriteLine(line, f)) == KindOf(line)
    ensures RewriteLine(RewriteLine(line, f), g) == RewriteLine(line, u => g(f(u)))
  {
    match KindOf(line)
    case Blank =>
    case Tag =>
      var ps := Scan(line);
      ScanIsStable(line);
      KindIsTag(line);
      MapStartsTag(ps, f);
      KindIsTag(RewriteLine(line, f));
      TagScansAgain(line, f);
      MapTwice(ps, f, g);
    case Bare =>
      assert Trim(line) in LineUris(line);
      PlainIsBare(f(Trim(line)));
  }

  lemma {:induction false} MapTwice(ps: seq<Piece>, f: string -> string, g: string -> string)
    ensures MapPieces(MapPieces(ps, f), g) == MapPieces(ps, u => g(f(u)))
  {
    if ps != [] {
      MapTwice(ps[1..], f, g);
      assert MapPieces(ps, f)[1..] == MapPieces(ps[1..], f);
    }
  }

  lemma {:induction false} MapHasNoBreak(ps: seq<Piece>, f: string -> string)
    requires NoBreak(Render(ps)) && Good(PieceUris(ps), f)
    ensures NoBreak(Render(MapPieces(ps, f)))
  {
    if ps != [] {
      GoodTail(ps, f);
      assert Render(ps) == PieceText(ps[0]) + Render(ps[1..]);
      MapHasNoBreak(ps[1..], f);
      var m := MapPieces(ps, f);
      assert m[1..] == MapPieces(ps[1..], f);
      assert NoBreak(PieceText(m[0]));
      assert Render(m) == PieceText(m[0]) + Render(m[1..]);
    }
  }

  lemma LineHasNoBreak(line: string, f: string -> string)
    requires NoBreak(line) && Good(LineUris(line), f)
    ensures NoBreak(RewriteLine(line, f))
  {
    match KindOf(line)
    case Blank =>
    case Tag =>
      ScanIsStable(line);
      MapHasNoBreak(Scan(line), f);
    case Bare =>
      assert Trim(line) in LineUris(line);
      PlainIsBare(f(Trim(line)));
  }

  lemma {:induction false} LineUrisAmong(lines: seq<string>, i: nat)
    requires i < |lines|
    ensures forall u :: u in LineUris(lines[i]) ==> u in Uris(lines)
  {
    if i > 0 { LineUrisAmong(lines[1..], i - 1); }
  }

  /** The rewritten playlist has the same lines, each rewritten in its place. */
  lemma LinesAreKept(text: string, f: string -> string)
    requires Good(Uris(Split(text)), f)
    ensures Split(Rewritten(text, f)) == RewriteLines(Split(text), f)
  {
    var lines := Split(text);
    var r := RewriteLines(lines, f);
    forall i | 0 <= i < |r| ensures NoBreak(r[i]) {
      LineUrisAmong(lines, i);
      LineHasNoBreak(lines[i], f);
    }
    SplitUndoesJoin(r);
  }

  lemma LinesCompose(lines: seq<string>, f: string -> string, g: string -> string)
    requires Good(Uris(lines), f)
    ensures RewriteLines(RewriteLines(lines, f), g) == RewriteLines(lines, u => g(f(u)))
  {
    var a, b := RewriteLines(RewriteLines(lines, f), g), RewriteLines(lines, u => g(f(u)));
    hide RewriteLine, LineUris, Uris;
    forall i | 0 <= i < |lines| ensures a[i] == b[i] {
      LineUrisAmong(lines, i);
      LineComposes(lines[i], f, g);
    }
  }

  /** Rewriting twice is rewriting once by both functions. */
  lemma RewritingComposes(text: string, f: string -> string, g: string -> string)
    requires Good(Uris(Split(text)), f)
    ensures Rewritten(Rewritten(text, f), g) == Rewritten(text, u => g(f(u)))
  {
    LinesAreKept(text, f);
    LinesCompose(Split(text), f, g);
  }

  lemma {:induction false} PiecesAgree(ps: seq<Piece>, f: string -> string, g: string -> string)
    requires forall u :: u in PieceUris(ps) ==> f(u) == g(u)
    ensures MapPieces(ps, f) == MapPieces(ps, g)
  {
    if ps != [] {
      assert ps[0].Uri? ==> PieceUris(ps)[0] == ps[0].u;
      assert forall u :: u in PieceUris(ps[1..]) ==> u in PieceUris(ps);
      PiecesAgree(ps[1..], f, g);
    }
  }

  lemma {:induction false} LinesAgree(lines: seq<string>, f: string -> string, g: string -> string)
    requires forall u :: u in Uris(lines) ==> f(u) == g(u)
    ensures RewriteLines(lines, f) == RewriteLines(lines, g)
  {
    forall i | 0 <= i < |lines| ensures RewriteLine(lines[i], f) == RewriteLine(lines[i], g) {
      LineUrisAmong(lines, i);
      if KindOf(lines[i]).Tag? { PiecesAgree(Scan(lines[i]), f, g); }
      if KindOf(lines[i]).Bare? { assert Trim(lines[i]) in LineUris(lines[i]); }
    }
  }

  // ----- what a rewrite does to a line, in terms of its text -----

  /** A tag line with its quoted URIs replaced. */
  function TagText(s: string, f: string -> string): string { Render(MapPieces(Scan(s), f)) }

  /** A quoted URI is written here. */
  predicate Quoted(s: string, i: nat)
    requires i <= |s|
  {
    "URI=\"" <= s[i..] && '"' in s[i..][5..]
  }

  lemma OpensIsQuoted(s: string)
    ensures Opens(s) <==> Quoted(s, 0)
  {
    assert s[0..] == s;
    if MARK <= s {
      var t := s[5..];
      var i := IndexOf(t, '"');
      assert i == |t| ==> t[..i] == t;
    }
  }

  /** Text without a quoted URI stays as it is. */
  lemma {:induction false} TagUntouched(s: string, f: string -> string)
    requires forall i :: 0 <= i < |s| ==> !Quoted(s, i)
    ensures TagText(s, f) == s
    decreases |s|
  {
    hide Opens, Quoted;
    if s == "" {
      ScanEmpty();
    } else {
      hide Render, MapPieces, Scan, TagText;
      HeadOf(s, "");
      assert !Quoted(s, 0);
      OpensIsQuoted(s);
      QuotedLaters(s);
      TagUntouched(s[1..], f);
      TagCharacter(s[0], s[1..], f);
    }
  }

  lemma QuotedLaters(s: string)
    requires s != "" && forall i :: 0 <= i < |s| ==> !Quoted(s, i)
    ensures forall i :: 0 <= i < |s[1..]| ==> !Quoted(s[1..], i)
  {
    hide Quoted;
    forall i | 0 <= i < |s[1..]| ensures !Quoted(s[1..], i) { QuotedLater(s, i); }
  }

  lemma QuotedLater(s: string, i: nat)
    requires i < |s|
    ensures Quoted(s[1..], i) <==> Quoted(s, i + 1)
  {
    assert s[1..][i..] == s[i + 1..];
  }

  lemma TagCharacter(c: char, rest: string, f: string -> string)
    requires !Opens([c] + rest)
    ensures [c] + rest != "" && TagText([c] + rest, f) == [c] + TagText(rest, f)
  {
    hide Opens, Scan;
    CharacterIsScanned(c, rest);
    MapHead(Ch(c), Scan(rest), f);
    RenderCons(Ch(c), MapPieces(Scan(rest), f));
  }

  lemma MapHead(p: Piece, ps: seq<Piece>, f: string -> string)
    ensures MapPieces([p] + ps, f) == [if p.Ch? then p else Uri(f(p.u))] + MapPieces(ps, f)
  {
    assert ([p] + ps)[1..] == ps;
  }

  /** The first quoted URI is replaced by its image, what precedes it stays, and so on with what follows it. */
  lemma {:induction false} TagReplaced(before: string, u: string, rest: string, f: string -> string)
    requires '"' !in u
    requires var s := before + ("URI=\"" + u + "\"" + rest); forall i :: 0 <= i < |before| ==> !Quoted(s, i)
    ensures TagText(before + ("URI=\"" + u + "\"" + rest), f) == before + ("URI=\"" + f(u) + "\"" + TagText(rest, f))
    decreases |before|
  {
    hide Opens, Quoted, Render, MapPieces;
    var tail, image := MARK + u + "\"" + rest, MARK + f(u) + "\"" + TagText(rest, f);
    if before == "" {
      UriIsScanned(u, rest);
      MapHead(Uri(u), Scan(rest), f);
      RenderCons(Uri(f(u)), MapPieces(Scan(rest), f));
      NothingAdded(tail);
      NothingAdded(image);
    } else {
      var s, later := before + tail, before[1..] + tail;
      HeadOf(before, tail);
      HeadOf(before, image);
      assert s[1..] == later;
      assert s[0..] == s;
      OpensIsQuoted(s);
      forall i | 0 <= i < |before| - 1 ensures !Quoted(later, i) { QuotedLater(s, i); }
      TagReplaced(before[1..], u, rest, f);
      TagCharacter(before[0], later, f);
    }
  }

  /** A line of white space stays as it is and names nothing. */
  lemma BlankLine(line: string, f: string -> string)
    requires AllSpaces(line)
    ensures RewriteLine(line, f) == line && LineUris(line) == []
  {
    hide IsSpace;
    var t := TrimStart(line);
    assert t == line[|line| - |t|..];
  }

  /** A line whose first visible character is a hash is a tag: only what it quotes is named and replaced. */
  lemma TagLine(left: string, rest: string, f: string -> string)
    requires AllSpaces(left) && rest != "" && rest[0] == '#'
    ensures RewriteLine(left + rest, f) == TagText(left + rest, f)
    ensures LineUris(left + rest) == PieceUris(Scan(left + rest))
  {
    TrimStartAround(left, rest);
    TrimEndKeepsFirst(rest);
    hide TrimStart, TrimEnd, Scan, MapPieces, Render, PieceUris;
  }

  /** Any other line is one URI, without the white space around it. */
  lemma BareLine(left: string, t: string, right: string, f: string -> string)
    requires AllSpaces(left) && AllSpaces(right)
    requires t != "" && !IsSpace(t[0]) && !IsSpace(t[|t| - 1]) && t[0] != '#'
    ensures RewriteLine(left + t + right, f) == f(t) && LineUris(left + t + right) == [t]
  {
    TrimAround(left, t, right);
    hide Trim;
  }

  function Images(us: seq<string>, f: string -> string): (r: seq<string>)
    ensures |r| == |us| && forall i :: 0 <= i < |us| ==> r[i] == f(us[i])
  {
    seq(|us|, i requires 0 <= i < |us| => f(us[i]))
  }

  lemma ImagesConcat(a: seq<string>, b: seq<string>, f: string -> string)
    ensures Images(a + b, f) == Images(a, f) + Images(b, f)
  {
  }

  lemma {:induction false} PieceUrisReplaced(ps: seq<Piece>, f: string -> string)
    ensures PieceUris(MapPieces(ps, f)) == Images(PieceUris(ps), f)
  {
    if ps != [] {
      PieceUrisReplaced(ps[1..], f);
      MapDrop(ps, f, 1);
      ImagesConcat(if ps[0].Uri? then [ps[0].u] else [], PieceUris(ps[1..]), f);
    }
  }

  lemma LineUrisReplaced(line: string, f: string -> string)
    requires Good(LineUris(line), f)
    ensures LineUris(RewriteLine(line, f)) == Images(LineUris(line), f)
  {
    LineComposes(line, f, f);
    match KindOf(line)
    case Blank =>
    case Tag =>
      TagScansAgain(line, f);
      PieceUrisReplaced(Scan(line), f);
    case Bare =>
      assert Trim(line) in LineUris(line);
      PlainIsBare(f(Trim(line)));
  }

  lemma {:induction false} LinesUrisReplaced(lines: seq<string>, f: string -> string)
    requires Good(Uris(lines), f)
    ensures Uris(RewriteLines(lines, f)) == Images(Uris(lines), f)
  {
    hide LineUris, RewriteLine;
    if lines != [] {
      assert forall u :: u in LineUris(lines[0]) ==> u in Uris(lines);
      assert forall u :: u in Uris(lines[1..]) ==> u in Uris(lines);
      LineUrisReplaced(lines[0], f);
      LinesUrisReplaced(lines[1..], f);
      assert RewriteLines(lines, f)[1..] == RewriteLines(lines[1..], f);
      ImagesConcat(LineUris(lines[0]), Uris(lines[1..]), f);
    }
  }

  /** The rewritten playlist names, in order, the images of what the playlist named, and nothing else. */
  lemma UrisAreReplaced(text: string, f: string -> string)
    requires Good(Uris(Split(text)), f)
    ensures Uris(Split(Rewritten(text, f))) == Images(Uris(Split(text)), f)
  {
    LinesAreKept(text, f);
    LinesUrisReplaced(Split(text), f);
  }
}
