/** Printing proxies and parsing them back, and which slash-free pieces the parser accepts. */
module ProxyRoundTrip {
  import opened Strings
  import opened ProxyInfoModel
  import opened ProxyGrammar

  /** Free of every character the grammar or the splitter gives a meaning to, and short enough to be copied. */
  predicate Plain(s: string) {
    '=' !in s && ':' !in s && '/' !in s && ' ' !in s && ';' !in s && |s| < TEMP_SIZE
  }

  /** An empty access type or proxy type, or port 0, stands for an absent part. */
  predicate WellFormed(p: ProxyInfo) {
    Plain(p.accessType) && Plain(p.proxyType) && Plain(p.server) && p.server != "" && p.port < 0x1_0000
  }

  function Decimal(n: nat): (s: string)
    ensures s != "" && forall c <- s :: IsDigit(c)
  {
    if n < 10 then [n as char + '0'] else Decimal(n / 10) + [(n % 10) as char + '0']
  }

  function PrintHost(p: ProxyInfo): string {
    p.server + if p.port == 0 then "" else ":" + Decimal(p.port)
  }

  function PrintUrl(p: ProxyInfo): string {
    (if p.proxyType == "" then "" else p.proxyType + "://") + PrintHost(p)
  }

  function Print(p: ProxyInfo): string {
    (if p.accessType == "" then "" else p.accessType + "=") + PrintUrl(p)
  }

  function PrintAll(ps: seq<ProxyInfo>): seq<string> {
    seq(|ps|, i requires 0 <= i < |ps| => Print(ps[i]))
  }

  function WithMode(ps: seq<ProxyInfo>, mode: nat): seq<ProxyInfo> {
    seq(|ps|, i requires 0 <= i < |ps| => ps[i].(mode := mode))
  }

  // ----- decimal ports -----

  lemma {:induction false} LeadingDigitsSnoc(s: string, c: char, acc: nat)
    requires forall x <- s :: IsDigit(x)
    requires IsDigit(c)
    ensures LeadingDigits(s + [c], acc) == 10 * LeadingDigits(s, acc) + (c as int - '0' as int)
  {
    if s == "" {
      assert s + [c] == [c] && [c][1..] == "";
    } else {
      assert (s + [c])[1..] == s[1..] + [c] && IsDigit(s[0]);
      LeadingDigitsSnoc(s[1..], c, 10 * acc + (s[0] as int - '0' as int));
    }
  }

  lemma {:induction false} DecimalValue(n: nat)
    ensures LeadingDigits(Decimal(n), 0) == n
    ensures |Decimal(n)| <= 2 + n / 100
  {
    if n >= 10 {
      DecimalValue(n / 10);
      LeadingDigitsSnoc(Decimal(n / 10), (n % 10) as char + '0', 0);
    }
  }

  lemma PortRoundTrip(n: nat)
    requires n < 0x1_0000
    ensures ToUShort(Wtoi(Decimal(n))) == n
    ensures Plain(Decimal(n))
  {
    DecimalValue(n);
    var s := Decimal(n);
    assert IsDigit(s[0]);
    assert SkipSpaces(s) == s;
  }

  // ----- one piece -----

  lemma TokenAfterPlain(a: string, c: char, b: string)
    requires Plain(a)
    requires c == '=' || (c == ':' && '=' !in b)
    ensures Token(a + [c] + b) == (if c == '=' then 0 else 1, |a|)
  {
    var s := a + [c] + b;
    assert s[..|a|] == a;
    IndexOfUnique(s, c, |a|);
    if c == ':' {
      assert forall x <- s :: x in a || x == c || x in b;
      assert s[..|s|] == s;
      IndexOfUnique(s, '=', |s|);
    }
  }

  lemma TokenOfPlain(a: string)
    requires Plain(a)
    ensures Token(a) == (3, |a|)
  {
  }

  function Placed(p: ProxyInfo, info: ProxyInfo): ProxyInfo {
    if p.port == 0 then info.(server := p.server) else info.(server := p.server, port := p.port)
  }

  lemma HostParses(p: ProxyInfo, prev: ParseState, info: ProxyInfo, mode: nat)
    requires WellFormed(p) && prev in {INIT, L_SCHEME, R_SCHEME}
    ensures ParsePiece(PrintHost(p), prev, info, mode) == Piece(true, Placed(p, info).(mode := mode))
  {
    var host := PrintHost(p);
    if p.port == 0 {
      assert host == p.server;
      TokenOfPlain(p.server);
      assert host[..|host|] == host;
    } else {
      var digits := Decimal(p.port);
      PortRoundTrip(p.port);
      assert host == p.server + [':'] + digits;
      TokenAfterPlain(p.server, ':', digits);
      assert host[..|p.server|] == p.server && host[|p.server| + 1..] == digits;
      assert Advance(host, prev, info) == MORE(|p.server| + 1, PORT, info.(server := p.server));
      TokenOfPlain(digits);
      assert digits[..|digits|] == digits;
    }
  }

  lemma UrlHasNoEquals(p: ProxyInfo)
    requires WellFormed(p)
    ensures '=' !in PrintHost(p) && '=' !in PrintUrl(p)
  {
    assert '=' !in Decimal(p.port);
  }

  /** The token before "://" is the type. */
  lemma SchemeAdvances(kind: string, host: string, prev: ParseState, info: ProxyInfo)
    requires Plain(kind) && '=' !in host && prev in {INIT, L_SCHEME}
    ensures var url, n := kind + [':', '/', '/'] + host, |kind|;
      Advance(url, prev, info) == MORE(n + 3, R_SCHEME, info.(proxyType := kind)) && url[n + 3..] == host
  {
    var url, n := kind + [':', '/', '/'] + host, |kind|;
    assert Token(url) == (1, n) by {
      assert url == kind + [':'] + (['/', '/'] + host);
      TokenAfterPlain(kind, ':', ['/', '/'] + host);
    }
    assert url[..n] == kind;
    assert url[n + 1..][0] == '/' && url[n + 2..][0] == '/';
  }

  lemma UrlAdvances(p: ProxyInfo, prev: ParseState, info: ProxyInfo)
    requires WellFormed(p) && p.proxyType != "" && prev in {INIT, L_SCHEME}
    ensures var url, n := PrintUrl(p), |p.proxyType|;
      && Advance(url, prev, info) == MORE(n + 3, R_SCHEME, info.(proxyType := p.proxyType))
      && url[n + 3..] == PrintHost(p)
  {
    assert PrintUrl(p) == p.proxyType + [':', '/', '/'] + PrintHost(p);
    UrlHasNoEquals(p);
    SchemeAdvances(p.proxyType, PrintHost(p), prev, info);
  }

  lemma UrlParses(p: ProxyInfo, prev: ParseState, info: ProxyInfo, mode: nat)
    requires WellFormed(p) && prev in {INIT, L_SCHEME}
    ensures ParsePiece(PrintUrl(p), prev, info, mode) ==
            Piece(true, Placed(p, if p.proxyType == "" then info else info.(proxyType := p.proxyType)).(mode := mode))
  {
    if p.proxyType == "" {
      assert PrintUrl(p) == PrintHost(p);
      HostParses(p, prev, info, mode);
    } else {
      var left := info.(proxyType := p.proxyType);
      UrlAdvances(p, prev, info);
      ParseMore(PrintUrl(p), prev, info, mode, |p.proxyType| + 3, R_SCHEME, left, PrintHost(p));
      HostParses(p, R_SCHEME, left, mode);
    }
  }

  /** A printed proxy parses back to itself. */
  lemma PieceRoundTrip(p: ProxyInfo, mode: nat)
    requires WellFormed(p)
    ensures ParsePiece(Print(p), INIT, EMPTY_INFO, mode) == Piece(true, p.(mode := mode))
  {
    var s, url, n := Print(p), PrintUrl(p), |p.accessType|;
    if p.accessType == "" {
      assert s == url;
      UrlParses(p, INIT, EMPTY_INFO, mode);
    } else {
      assert s == p.accessType + ['='] + url;
      TokenAfterPlain(p.accessType, '=', url);
      assert s[..n] == p.accessType && s[n + 1..] == url;
      var left := EMPTY_INFO.(accessType := p.accessType);
      assert Advance(s, INIT, EMPTY_INFO) == MORE(n + 1, L_SCHEME, left);
      UrlParses(p, L_SCHEME, left, mode);
    }
  }

  // ----- whole strings -----

  lemma PrintHasNoSeparators(p: ProxyInfo)
    requires WellFormed(p)
    ensures ' ' !in Print(p) && ';' !in Print(p)
  {
    assert ' ' !in Decimal(p.port) && ';' !in Decimal(p.port);
  }

  lemma PiecesBySpace(parts: seq<string>)
    requires parts != [] && forall part <- parts :: ' ' !in part && ';' !in part
    ensures Pieces(Join(parts, ' ')) == parts
  {
    var front, last := parts[..|parts| - 1], parts[|parts| - 1];
    assert Cut(Join(parts, ' '), ' ') == parts by { CutJoin(parts, ' '); }
    assert Cut(last, ';') == [last] by { CutFree(last, ';'); }
    assert front + [last] == parts;
  }

  lemma PiecesBySemicolon(parts: seq<string>)
    requires parts != [] && forall part <- parts :: ' ' !in part && ';' !in part
    ensures Pieces(Join(parts, ';')) == parts
  {
    var s := Join(parts, ';');
    JoinFree(parts, ';', ' ');
    CutFree(s, ' ');
    assert [s][..0] + Cut(s, ';') == Cut(s, ';');
    CutJoin(parts, ';');
  }

  lemma {:induction false} AllFinal(pieces: seq<string>, entries: seq<ProxyInfo>, mode: nat)
    requires |pieces| == |entries|
    requires forall k | 0 <= k < |pieces| :: ParsePiece(pieces[k], INIT, EMPTY_INFO, mode) == Piece(true, entries[k])
    ensures ParseAll(pieces, mode) == Parsed(pieces != [], entries)
  {
    if pieces != [] {
      forall k | 0 <= k < |pieces| - 1
        ensures ParsePiece(pieces[1..][k], INIT, EMPTY_INFO, mode) == Piece(true, entries[1..][k])
      {
        assert pieces[1..][k] == pieces[k + 1] && entries[1..][k] == entries[k + 1];
      }
      AllFinal(pieces[1..], entries[1..], mode);
      ParseAllStep(pieces, 0, mode);
      assert pieces[0..] == pieces && entries == [entries[0]] + entries[1..];
    }
  }

  lemma PrintedPieces(ps: seq<ProxyInfo>, sep: char)
    requires ps != [] && (sep == ' ' || sep == ';')
    requires forall p <- ps :: WellFormed(p)
    ensures Pieces(Join(PrintAll(ps), sep)) == PrintAll(ps)
  {
    var parts := PrintAll(ps);
    forall part <- parts ensures ' ' !in part && ';' !in part {
      var k :| 0 <= k < |ps| && part == Print(ps[k]);
      PrintHasNoSeparators(ps[k]);
    }
    if sep == ' ' {
      PiecesBySpace(parts);
    } else {
      PiecesBySemicolon(parts);
    }
  }

  lemma NonEmptyRoundTrip(ps: seq<ProxyInfo>, sep: char, mode: nat)
    requires ps != [] && (sep == ' ' || sep == ';')
    requires forall p <- ps :: WellFormed(p)
    ensures ParseAll(Pieces(Join(PrintAll(ps), sep)), mode) == Parsed(true, WithMode(ps, mode))
  {
    var parts := PrintAll(ps);
    PrintedPieces(ps, sep);
    forall k | 0 <= k < |ps| ensures ParsePiece(parts[k], INIT, EMPTY_INFO, mode) == Piece(true, WithMode(ps, mode)[k]) {
      PieceRoundTrip(ps[k], mode);
    }
    AllFinal(parts, WithMode(ps, mode), mode);
  }

  lemma EmptyPiece(piece: string, mode: nat)
    requires piece == ""
    ensures ParsePiece(piece, INIT, EMPTY_INFO, mode) == Piece(false, EMPTY_INFO)
  {
  }

  lemma OneEntry(pieces: seq<string>, info: ProxyInfo, mode: nat)
    requires |pieces| == 1 && ParsePiece(pieces[0], INIT, EMPTY_INFO, mode) == Piece(false, info)
    ensures ParseAll(pieces, mode) == Parsed(false, [info])
  {
    assert pieces[1..] == [];
  }

  /** The empty string is one empty piece, which yields an entry and does not reach FINAL. */
  lemma EmptyParses(s: string, mode: nat)
    requires s == ""
    ensures ParseAll(Pieces(s), mode) == Parsed(false, [ProxyInfo(0, 0xFFFF_FFFF, "", "", "")])
  {
    PiecesBySpace([s]);
    EmptyPiece(s, mode);
    OneEntry(Pieces(s), EMPTY_INFO, mode);
  }

  /**
   * Printing a list of well-formed proxies, joined all by spaces or all by semicolons, and parsing it gives
   * the same access types, types, servers and ports in order, with status TRUE, exactly when the list is not empty.
   */
  lemma RoundTrip(ps: seq<ProxyInfo>, sep: char, mode: nat)
    requires sep == ' ' || sep == ';'
    requires forall p <- ps :: WellFormed(p)
    ensures ParseAll(Pieces(Join(PrintAll(ps), sep)), mode) == Parsed(true, WithMode(ps, mode)) <==> ps != []
  {
    if ps == [] {
      assert PrintAll(ps) == [];
      EmptyParses(Join(PrintAll(ps), sep), mode);
    } else {
      NonEmptyRoundTrip(ps, sep, mode);
    }
  }

  // ----- acceptance -----

  lemma FirstEquals(rest: string, pos: nat)
    requires pos < |rest| && rest[pos] == '=' && '=' !in rest[..pos]
    ensures Count(rest, '=') == Count(rest[pos + 1..], '=') + 1
  {
    IndexOfUnique(rest, '=', pos);
    CountFromFirst(rest, '=');
  }

  /** What the next token says about the '=' signs and the end of a slash-free text. */
  lemma TokenSplits(rest: string)
    requires rest != "" && '/' !in rest
    ensures var (token, pos) := Token(rest);
      if token == 3 then Count(rest, '=') == 0 && rest[|rest| - 1] !in {'=', ':'}
      else
        && token < 2 && pos < |rest|
        && Count(rest, '=') == Count(rest[pos + 1..], '=') + (if token == 0 then 1 else 0)
        && (token == 1 ==> Count(rest, '=') == 0)
        && rest[pos] in {'=', ':'}
  {
    var (token, pos) := Token(rest);
    if token == 0 {
      FirstEquals(rest, pos);
    } else {
      CountFree(rest, '=');
      assert rest[|rest| - 1] in rest;
      if token == 1 {
        CountFree(rest[pos + 1..], '=');
      }
    }
  }

  predicate Live(s: ParseState) {
    s == INIT || s == L_SCHEME || s == R_SCHEME || s == PORT
  }

  /** What the next token does to a text without '/'. */
  lemma SlashFreeMove(rest: string, prev: ParseState, info: ProxyInfo)
    requires rest != "" && '/' !in rest && |rest| < TEMP_SIZE && Live(prev)
    ensures var (token, pos) := Token(rest); var m := Advance(rest, prev, info);
      if token == 3 then m.COMPLETE?
      else if token == 0 && prev != INIT then m.STOP?
      else m.MORE? && m.skip == pos + 1 && m.next == (if token == 0 then L_SCHEME else PORT)
  {
    var (token, pos) := Token(rest);
    if pos + 1 <= |rest| {
      assert '/' !in rest[pos + 1..];
    }
  }

  /** Non-empty, not ending in '=' or ':', and with at most one '=' (none once the first was read). */
  predicate SlashFreeAccepted(rest: string, prev: ParseState) {
    rest != "" && rest[|rest| - 1] !in {'=', ':'} && Count(rest, '=') <= if prev == INIT then 1 else 0
  }

  lemma AcceptedStep(rest: string, prev: ParseState)
    requires rest != "" && '/' !in rest
    ensures var (token, pos) := Token(rest);
      if token == 3 then SlashFreeAccepted(rest, prev)
      else if token == 0 && prev != INIT then !SlashFreeAccepted(rest, prev)
      else SlashFreeAccepted(rest, prev) <==> SlashFreeAccepted(rest[pos + 1..], if token == 0 then L_SCHEME else PORT)
  {
    TokenSplits(rest);
    var (token, pos) := Token(rest);
    if token != 3 && pos + 1 < |rest| {
      assert rest[pos + 1..][|rest| - pos - 2] == rest[|rest| - 1];
    }
  }

  /** Which pieces without '/' reach FINAL. */
  lemma {:induction false} AcceptsSlashFree(rest: string, prev: ParseState, info: ProxyInfo, mode: nat)
    requires '/' !in rest && |rest| < TEMP_SIZE && Live(prev)
    ensures var r := ParsePiece(rest, prev, info, mode); r.Piece? && (r.final <==> SlashFreeAccepted(rest, prev))
    decreases |rest|
  {
    if rest != "" {
      SlashFreeMove(rest, prev, info);
      AcceptedStep(rest, prev);
      var m := Advance(rest, prev, info);
      if m.MORE? {
        AcceptsSlashFree(rest[m.skip..], m.next, m.info, mode);
      }
    }
  }

  // ----- every other piece: with an '=', without ':', with a '/' after its first ':', with none after it -----

  lemma EqualsFirst(rest: string)
    requires '=' in rest
    ensures Token(rest) == (0, IndexOf(rest, '=')) && IndexOf(rest, '=') < |rest|
  {
    assert rest[..|rest|] == rest;
  }

  /**
   * Up to the first '=' of a piece everything is the access type, '/' and ':' included; a later '=' is refused, with
   * the fields read so far.
   */
  lemma AccessTypeFirst(rest: string, prev: ParseState, info: ProxyInfo, mode: nat)
    requires '=' in rest && IndexOf(rest, '=') < TEMP_SIZE && Live(prev)
    ensures var i, r := IndexOf(rest, '='), ParsePiece(rest, prev, info, mode);
      if prev == INIT then r == ParsePiece(rest[i + 1..], L_SCHEME, info.(accessType := rest[..i]), mode)
      else r == Piece(false, info)
  {
    var i := IndexOf(rest, '=');
    EqualsFirst(rest);
    if prev == INIT {
      ParseMore(rest, prev, info, mode, i + 1, L_SCHEME, info.(accessType := rest[..i]), rest[i + 1..]);
    } else {
      assert Advance(rest, prev, info) == STOP(info);
    }
  }

  /** What follows the access type, if there is one. */
  function Unread(rest: string, prev: ParseState): string {
    if prev == INIT && '=' in rest then rest[IndexOf(rest, '=') + 1..] else rest
  }

  /** What the text at the end of a piece is: its port after a ':', else its server. */
  function Filled(rest: string, prev: ParseState, info: ProxyInfo): ProxyInfo {
    if prev == PORT then info.(port := ToUShort(Wtoi(rest))) else info.(server := rest)
  }

  lemma ColonFreeMove(rest: string, prev: ParseState, info: ProxyInfo)
    requires rest != "" && ':' !in rest && |rest| < TEMP_SIZE && Live(prev) && (prev == INIT ==> '=' !in rest)
    ensures Advance(rest, prev, info) ==
            if '=' in rest || '/' in rest then STOP(info) else COMPLETE(Filled(rest, prev, info))
  {
    assert rest[..|rest|] == rest;
  }

  /** The fields read with the access type, if there is one. */
  function WithAccessType(rest: string, prev: ParseState, info: ProxyInfo): ProxyInfo {
    if prev == INIT && '=' in rest then info.(accessType := rest[..IndexOf(rest, '=')]) else info
  }

  /**
   * Without ':' a piece reaches FINAL exactly when what follows its access type is not empty and has no '=' or '/';
   * that is then its server, or its port. Otherwise the piece keeps the fields read before it.
   */
  lemma AcceptsColonFree(rest: string, prev: ParseState, info: ProxyInfo, mode: nat)
    requires ':' !in rest && |rest| < TEMP_SIZE && Live(prev)
    ensures var r, tail := ParsePiece(rest, prev, info, mode), Unread(rest, prev);
      var read := WithAccessType(rest, prev, info);
      r == if tail != "" && '=' !in tail && '/' !in tail then Piece(true, Filled(tail, prev, read).(mode := mode))
           else Piece(false, read)
    decreases |rest|
  {
    if prev == INIT && '=' in rest {
      var i := IndexOf(rest, '=');
      AccessTypeFirst(rest, prev, info, mode);
      AcceptsColonFree(rest[i + 1..], L_SCHEME, info.(accessType := rest[..i]), mode);
    } else if rest != "" {
      ColonFreeMove(rest, prev, info);
    }
  }

  lemma FirstColon(kind: string, u: string)
    requires '=' !in kind && ':' !in kind && '=' !in u
    ensures Token(kind + [':'] + u) == (1, |kind|)
  {
    var rest := kind + [':'] + u;
    assert rest[..|kind|] == kind;
    IndexOfUnique(rest, ':', |kind|);
    assert forall x <- rest :: x in kind || x == ':' || x in u;
    assert rest[..|rest|] == rest;
    IndexOfUnique(rest, '=', |rest|);
  }

  lemma LoneSlash(u: string, info: ProxyInfo, mode: nat)
    requires |u| == 1 && '/' in u
    ensures ParsePiece(u, PORT, info, mode) == Piece(false, info)
  {
    assert u[0] == '/';
    ColonFreeMove(u, PORT, info);
  }

  /**
   * A '/' anywhere after the first ':' makes what precedes a type and drops two characters after the colon, whatever
   * they are; the piece is refused when the only '/' is the first of them, with the fields read so far. When nothing
   * follows that '/', what precedes the colon has become the server by then.
   */
  lemma SlashAfterColon(kind: string, u: string, prev: ParseState, info: ProxyInfo, mode: nat)
    requires '=' !in kind && ':' !in kind && |kind| < TEMP_SIZE && Live(prev)
    requires '=' !in u && '/' in u
    ensures var r := ParsePiece(kind + [':'] + u, prev, info, mode);
      if '/' in u[1..] then r == ParsePiece(u[2..], R_SCHEME, info.(proxyType := kind), mode)
      else r == Piece(false, if |u| == 1 then info.(server := kind) else info)
  {
    var rest, n := kind + [':'] + u, |kind|;
    FirstColon(kind, u);
    assert rest[..n] == kind && rest[n + 1..] == u;
    if |u| == 1 {
      assert Advance(rest, prev, info) == MORE(n + 1, PORT, info.(server := kind));
      ParseMore(rest, prev, info, mode, n + 1, PORT, info.(server := kind), u);
      LoneSlash(u, info.(server := kind), mode);
    } else {
      assert rest[n + 2..] == u[1..];
      if '/' in u[1..] {
        assert rest[n + 3..] == u[2..];
        ParseMore(rest, prev, info, mode, n + 3, R_SCHEME, info.(proxyType := kind), u[2..]);
      }
    }
  }

  /** With no '/' after the first ':' what precedes it is the server, even when it holds one, and a port follows. */
  lemma PortAfterColon(server: string, u: string, prev: ParseState, info: ProxyInfo, mode: nat)
    requires '=' !in server && ':' !in server && |server| < TEMP_SIZE && Live(prev)
    requires '=' !in u && '/' !in u && |u| < TEMP_SIZE
    ensures var r := ParsePiece(server + [':'] + u, prev, info, mode);
      && r == ParsePiece(u, PORT, info.(server := server), mode)
      && r.Piece? && (r.final <==> SlashFreeAccepted(u, PORT))
  {
    var rest, n := server + [':'] + u, |server|;
    FirstColon(server, u);
    assert rest[..n] == server && rest[n + 1..] == u;
    assert Advance(rest, prev, info) == MORE(n + 1, PORT, info.(server := server));
    ParseMore(rest, prev, info, mode, n + 1, PORT, info.(server := server), u);
    AcceptsSlashFree(u, PORT, info.(server := server), mode);
  }

  lemma SlashAfterPort(host: string, port: string, info: ProxyInfo, mode: nat)
    requires Plain(host) && Plain(port) && port != ""
    ensures ParsePiece(host + [':'] + (port + ['/']), R_SCHEME, info, mode) == Piece(false, info.(proxyType := host))
  {
    var tail := port + ['/'];
    assert tail[1..][|port| - 1] == '/';
    SlashAfterColon(host, tail, R_SCHEME, info, mode);
    if |port| > 1 {
      assert tail[2..][|port| - 2] == '/';
    }
    AcceptsColonFree(tail[2..], R_SCHEME, info.(proxyType := host), mode);
  }

  /**
   * An ordinary URL that ends in a slash is refused: the slash after the port makes the host the type, and the entry
   * that is appended holds nothing else.
   */
  lemma UrlWithSlashRefused(kind: string, host: string, port: string, mode: nat)
    requires Plain(kind) && Plain(host) && Plain(port) && port != ""
    ensures ParsePiece(kind + [':', '/', '/'] + host + [':'] + port + ['/'], INIT, EMPTY_INFO, mode) ==
            Piece(false, EMPTY_INFO.(proxyType := host))
  {
    var tail, left := port + ['/'], EMPTY_INFO.(proxyType := kind);
    var u := ['/', '/'] + (host + [':'] + tail);
    assert kind + [':', '/', '/'] + host + [':'] + port + ['/'] == kind + [':'] + u;
    assert u[1..][0] == '/' && u[2..] == host + [':'] + tail;
    SlashAfterColon(kind, u, INIT, EMPTY_INFO, mode);
    SlashAfterPort(host, port, left, mode);
  }

  // ----- what the conversions and the limits come to -----

  lemma {:induction false} SkipsBlanks(blanks: string, s: string)
    requires (forall c <- blanks :: IsSpace(c)) && (s == "" || !IsSpace(s[0]))
    ensures SkipSpaces(blanks + s) == s
  {
    if blanks == "" {
      assert blanks + s == s;
    } else {
      assert (blanks + s)[1..] == blanks[1..] + s && (blanks + s)[0] == blanks[0];
      SkipsBlanks(blanks[1..], s);
    }
  }

  lemma {:induction false} DigitsThen(digits: string, tail: string, acc: nat)
    requires (forall c <- digits :: IsDigit(c)) && (tail == "" || !IsDigit(tail[0]))
    ensures LeadingDigits(digits + tail, acc) == LeadingDigits(digits, acc)
  {
    if digits == "" {
      assert digits + tail == tail;
    } else {
      assert (digits + tail)[1..] == digits[1..] + tail && (digits + tail)[0] == digits[0] && IsDigit(digits[0]);
      DigitsThen(digits[1..], tail, 10 * acc + (digits[0] as int - '0' as int));
    }
  }

  /** The nearest 32-bit number. */
  function Saturated(n: int): int {
    if n < -0x8000_0000 then -0x8000_0000 else if n > 0x7FFF_FFFF then 0x7FFF_FFFF else n
  }

  lemma SignedNumber(sign: string, n: nat, tail: string)
    requires sign == "" || sign == "-" || sign == "+"
    requires tail == "" || !IsDigit(tail[0])
    ensures var s := sign + (Decimal(n) + tail);
      && s != "" && !IsSpace(s[0]) && (s[0] == '-' <==> sign == "-")
      && LeadingDigits(if s[0] == '-' || s[0] == '+' then s[1..] else s, 0) == n
  {
    var number := Decimal(n) + tail;
    assert IsDigit(number[0]) by { assert number[0] == Decimal(n)[0]; }
    DecimalValue(n);
    DigitsThen(Decimal(n), tail, 0);
    if sign == "" {
      assert sign + number == number;
    } else {
      assert (sign + number)[0] == sign[0] && (sign + number)[1..] == number;
    }
  }

  /** A number after any blanks, with or without a sign, is read up to the first character that is no digit. */
  lemma NumberIsRead(blanks: string, sign: string, n: nat, tail: string)
    requires forall c <- blanks :: c == ' ' || '\t' <= c <= '\r'
    requires sign == "" || sign == "-" || sign == "+"
    requires tail == "" || !IsDigit(tail[0])
    ensures Wtoi(blanks + (sign + (Decimal(n) + tail))) == Saturated(if sign == "-" then 0 - n else n)
  {
    SignedNumber(sign, n, tail);
    SkipsBlanks(blanks, sign + (Decimal(n) + tail));
  }

  /** What is no number converts to 0. */
  lemma NoNumberIsZero(s: string)
    requires s == "" || (!IsSpace(s[0]) && s[0] != '-' && s[0] != '+' && !IsDigit(s[0]))
    ensures Wtoi(s) == 0
  {
  }

  /** A text without tokens overflows the buffer, and ends the process, exactly from 2048 characters on. */
  lemma PlainTextAborts(rest: string, prev: ParseState, info: ProxyInfo, mode: nat)
    requires rest != "" && '=' !in rest && ':' !in rest && '/' !in rest && Live(prev)
    ensures ParsePiece(rest, prev, info, mode).ABORTED? <==> |rest| >= 2048
  {
  }

  /**
   * Nothing shorter does, and a piece that is parsed gets the discovery mode exactly when it reaches FINAL; otherwise
   * its mode is the one it had.
   */
  lemma {:induction false} ModeWhenFinal(rest: string, prev: ParseState, info: ProxyInfo, mode: nat)
    ensures var r := ParsePiece(rest, prev, info, mode);
      if r.ABORTED? then |rest| >= 2048 else r.info.mode == if r.final then mode else info.mode
    decreases |rest|
  {
    if rest != "" {
      var m := Advance(rest, prev, info);
      if m.MORE? {
        ModeWhenFinal(rest[m.skip..], m.next, m.info, mode);
      }
    }
  }
}
