/** The fields of one discovered proxy that the parser and the discovery engine read or write. */
module ProxyInfoModel {

  // USHORT and DWORD fields are kept as the numbers they hold.
  datatype ProxyInfo = ProxyInfo(port: nat, mode: nat, proxyType: string, server: string, accessType: string)

  const NO_MODE: nat := 0xFFFF_FFFF  // (DWORD)-1

  const EMPTY_INFO := ProxyInfo(0, NO_MODE, "", "", "")
}

/**
 * What a proxy string means: the piece grammar as a function on the unread suffix,
 * and the two-pass splitting of a whole string into pieces.
 */
module ProxyGrammar {
  import opened Strings
  import opened ProxyInfoModel

  const NUL := '\0'
  const TEMP_SIZE: nat := 2048

  datatype ParseState = INIT | L_SCHEME | R_SCHEME | PORT | FINAL | INVALID

  /** The transition table; the tokens 0..3 are '=', ':', '/' and the terminator. */
  function Transition(s: ParseState, token: nat): ParseState
    requires token < 4
  {
    match s
    case INIT => [L_SCHEME, PORT, INVALID, FINAL][token]
    case L_SCHEME => [INVALID, PORT, INVALID, FINAL][token]
    case R_SCHEME => [INVALID, PORT, INVALID, FINAL][token]
    case PORT => [INVALID, PORT, INVALID, FINAL][token]
    case FINAL => INVALID
    case INVALID => INVALID
  }

  /** Token priority: any '=' ahead wins over any ':' ahead, which wins over any '/' ahead. */
  function Token(rest: string): (r: (nat, nat))
    ensures r.0 < 4 && r.1 <= |rest|
    ensures r.0 == 3 <==> r.1 == |rest|
    ensures r.0 == 3 ==> '=' !in rest && ':' !in rest && '/' !in rest
    ensures r.0 < 3 ==> rest[r.1] == ['=', ':', '/'][r.0] && rest[r.1] !in rest[..r.1]
  {
    if IndexOf(rest, '=') < |rest| then (0, IndexOf(rest, '='))
    else if IndexOf(rest, ':') < |rest| then (1, IndexOf(rest, ':'))
    else if IndexOf(rest, '/') < |rest| then (2, IndexOf(rest, '/'))
    else (3, |rest|)
  }

  predicate IsSpace(c: char) { c == ' ' || '\t' <= c <= '\r' }

  predicate IsDigit(c: char) { '0' <= c <= '9' }

  function SkipSpaces(s: string): string {
    if s != "" && IsSpace(s[0]) then SkipSpaces(s[1..]) else s
  }

  /** The number spelled by the leading digits of `s`, continuing from `acc`. */
  function LeadingDigits(s: string, acc: nat): nat {
    if s == "" || !IsDigit(s[0]) then acc
    else LeadingDigits(s[1..], 10 * acc + (s[0] as int - '0' as int))
  }

  /** _wtoi: blanks, an optional sign, then digits, saturating at the 32-bit limits. */
  function Wtoi(s: string): int {
    var t := SkipSpaces(s);
    var negative := t != "" && t[0] == '-';
    var n: int := LeadingDigits(if t != "" && (t[0] == '-' || t[0] == '+') then t[1..] else t, 0);
    if negative then (if n > 0x8000_0000 then -0x8000_0000 else -n)
    else if n > 0x7FFF_FFFF then 0x7FFF_FFFF else n
  }

  /** Conversion of an int to USHORT: the 16-bit number that differs from it by a multiple of 65536. */
  function ToUShort(n: int): (r: nat)
    ensures r < 65536 && (n - r) % 65536 == 0
  {
    n % 0x1_0000
  }

  /**
   * One move on the unread text: CRASH when a segment does not fit the fixed buffer, which ends the process;
   * MORE drops `skip` characters and goes on in the given state.
   */
  datatype Move =
    | CRASH
    | STOP(info: ProxyInfo)
    | MORE(skip: nat, next: ParseState, info: ProxyInfo)
    | COMPLETE(info: ProxyInfo)

  function Advance(rest: string, prev: ParseState, info: ProxyInfo): (m: Move)
    requires rest != ""
    ensures m.MORE? ==> 0 < m.skip <= |rest|
  {
    var (token, pos) := Token(rest);
    if pos >= TEMP_SIZE then CRASH
    else
      var segment := rest[..pos];
      match Transition(prev, token)
      case L_SCHEME => MORE(pos + 1, L_SCHEME, info.(accessType := segment))
      case PORT =>
        if pos + 2 < |rest| && '/' in rest[pos + 1..] then
          if '/' in rest[pos + 2..] then MORE(pos + 3, R_SCHEME, info.(proxyType := segment)) else STOP(info)
        else MORE(pos + 1, PORT, info.(server := segment))
      case FINAL =>
        COMPLETE(if prev == PORT then info.(port := ToUShort(Wtoi(segment))) else info.(server := segment))
      case _ => STOP(info)
  }

  datatype PieceResult = ABORTED | Piece(final: bool, info: ProxyInfo)

  /** Parsing the unread part of one piece; only a piece that reaches FINAL gets its discovery mode. */
  function ParsePiece(rest: string, prev: ParseState, info: ProxyInfo, mode: nat): PieceResult
    decreases |rest|
  {
    if rest == "" then Piece(false, info)
    else
      match Advance(rest, prev, info)
      case CRASH => ABORTED
      case STOP(left) => Piece(false, left)
      case MORE(skip, next, left) => ParsePiece(rest[skip..], next, left, mode)
      case COMPLETE(left) => Piece(true, left.(mode := mode))
  }

  lemma ParseMore(rest: string, prev: ParseState, info: ProxyInfo, mode: nat,
                  skip: nat, next: ParseState, left: ProxyInfo, tail: string)
    requires rest != "" && Advance(rest, prev, info) == MORE(skip, next, left) && rest[skip..] == tail
    ensures ParsePiece(rest, prev, info, mode) == ParsePiece(tail, next, left, mode)
  {
  }

  lemma ParseEnds(rest: string, prev: ParseState, info: ProxyInfo, mode: nat)
    requires rest != "" && !Advance(rest, prev, info).MORE?
    ensures var m := Advance(rest, prev, info);
      ParsePiece(rest, prev, info, mode) ==
      if m.CRASH? then ABORTED else if m.STOP? then Piece(false, m.info) else Piece(true, m.info.(mode := mode))
  {
  }

  function LastOf(parts: seq<string>): string
    requires parts != []
  {
    parts[|parts| - 1]
  }

  /** Split at every space, then split what follows the last space at every semicolon. */
  function Pieces(s: string): (r: seq<string>)
    ensures |r| >= 1
  {
    var bySpace := Cut(s, ' ');
    bySpace[..|bySpace| - 1] + Cut(LastOf(bySpace), ';')
  }

  function AfterLastSpace(s: string): string
    decreases |s|
  {
    if ' ' in s then AfterLastSpace(s[IndexOf(s, ' ') + 1..]) else s
  }

  lemma LastOfCons(a: string, rest: seq<string>)
    requires rest != []
    ensures LastOf([a] + rest) == LastOf(rest)
  {
  }

  lemma LastStep(s: string, tail: string)
    requires ' ' in s && IndexOf(s, ' ') < |s| && tail == s[IndexOf(s, ' ') + 1..]
    ensures LastOf(Cut(s, ' ')) == LastOf(Cut(tail, ' '))
  {
    CutUnfold(s, ' ');
    LastOfCons(s[..IndexOf(s, ' ')], Cut(tail, ' '));
  }

  lemma AfterStep(s: string, tail: string)
    requires ' ' in s && IndexOf(s, ' ') < |s| && tail == s[IndexOf(s, ' ') + 1..]
    ensures AfterLastSpace(s) == AfterLastSpace(tail)
  {
  }

  lemma {:induction false} LastCutPiece(s: string)
    ensures LastOf(Cut(s, ' ')) == AfterLastSpace(s)
    decreases |s|
  {
    if ' ' in s {
      IndexOfPresent(s, ' ');
      var tail := s[IndexOf(s, ' ') + 1..];
      LastCutPiece(tail);
      LastStep(s, tail);
      AfterStep(s, tail);
    } else {
      CutFree(s, ' ');
    }
  }

  /** Aborted, or the overall status and the entries appended, one a piece. */
  datatype ParseResult = ParseAborted | Parsed(status: bool, entries: seq<ProxyInfo>)

  /** A result with earlier entries in front of it. */
  function Prepend(status: bool, entries: seq<ProxyInfo>, later: ParseResult): ParseResult {
    match later
    case ParseAborted => ParseAborted
    case Parsed(st, rest) => Parsed(status || st, entries + rest)
  }

  function ParseAll(pieces: seq<string>, mode: nat): ParseResult {
    if pieces == [] then Parsed(false, [])
    else
      match ParsePiece(pieces[0], INIT, EMPTY_INFO, mode)
      case ABORTED => ParseAborted
      case Piece(final, info) => Prepend(final, [info], ParseAll(pieces[1..], mode))
  }

  lemma ParseAllStep(pieces: seq<string>, i: nat, mode: nat)
    requires i < |pieces|
    ensures var p := ParsePiece(pieces[i], INIT, EMPTY_INFO, mode);
      ParseAll(pieces[i..], mode) ==
      if p.ABORTED? then ParseAborted else Prepend(p.final, [p.info], ParseAll(pieces[i + 1..], mode))
  {
    assert pieces[i..][0] == pieces[i] && pieces[i..][1..] == pieces[i + 1..];
  }

  lemma PrependMore(status: bool, entries: seq<ProxyInfo>, final: bool, info: ProxyInfo, later: ParseResult)
    ensures Prepend(status, entries, Prepend(final, [info], later)) == Prepend(status || final, entries + [info], later)
  {
    if later.Parsed? {
      assert entries + ([info] + later.entries) == entries + [info] + later.entries;
    }
  }

  /** One entry is appended for each piece, and the status says whether some piece reached FINAL. */
  lemma {:induction false} ParseAllEntries(pieces: seq<string>, mode: nat)
    ensures var r := ParseAll(pieces, mode);
      if r.ParseAborted? then exists k | 0 <= k < |pieces| :: ParsePiece(pieces[k], INIT, EMPTY_INFO, mode).ABORTED?
      else
        && |r.entries| == |pieces|
        && (forall k | 0 <= k < |pieces| ::
             var p := ParsePiece(pieces[k], INIT, EMPTY_INFO, mode); p.Piece? && r.entries[k] == p.info)
        && (r.status <==> exists k | 0 <= k < |pieces| ::
             var p := ParsePiece(pieces[k], INIT, EMPTY_INFO, mode); p.Piece? && p.final)
  {
    if pieces != [] {
      ParseAllEntries(pieces[1..], mode);
      assert forall k | 0 < k < |pieces| :: pieces[k] == pieces[1..][k - 1];
      assert forall k | 0 <= k < |pieces| - 1 :: pieces[1..][k] == pieces[k + 1];
    }
  }

  /** The separators Pieces consumes: every space, then the semicolons after the last one. */
  function Separators(s: string): seq<char> {
    seq(Count(s, ' '), _ => ' ') + seq(Count(AfterLastSpace(s), ';'), _ => ';')
  }

  function Weave(pieces: seq<string>, seps: seq<char>): string
    requires |pieces| == |seps| + 1
  {
    if seps == [] then pieces[0] else pieces[0] + [seps[0]] + Weave(pieces[1..], seps[1..])
  }

  lemma {:induction false} WeaveAll(pieces: seq<string>, c: char)
    requires |pieces| >= 1
    ensures Weave(pieces, seq(|pieces| - 1, _ => c)) == Join(pieces, c)
  {
    if |pieces| > 1 {
      WeaveAll(pieces[1..], c);
      assert seq(|pieces| - 1, _ => c)[1..] == seq(|pieces| - 2, _ => c);
    }
  }

  lemma {:induction false} WeaveJoinLast(front: seq<string>, last: seq<string>, c: char, seps: seq<char>)
    requires |last| == |seps| + 1
    ensures Weave(front + last, seq(|front|, _ => c) + seps) == Join(front + [Weave(last, seps)], c)
  {
    if front == [] {
      assert front + last == last && seq(0, _ => c) + seps == seps;
      assert front + [Weave(last, seps)] == [Weave(last, seps)];
    } else {
      WeaveJoinLast(front[1..], last, c, seps);
      assert (front + last)[1..] == front[1..] + last;
      assert (seq(|front|, _ => c) + seps)[1..] == seq(|front| - 1, _ => c) + seps;
      assert (front + [Weave(last, seps)])[1..] == front[1..] + [Weave(last, seps)];
    }
  }

  lemma WeaveTwoLevels(front: seq<string>, tail: seq<string>, spaces: nat, semicolons: nat)
    requires spaces == |front| && |tail| == semicolons + 1
    ensures Weave(front + tail, seq(spaces, _ => ' ') + seq(semicolons, _ => ';')) == Join(front + [Join(tail, ';')], ' ')
  {
    WeaveAll(tail, ';');
    WeaveJoinLast(front, tail, ' ', seq(semicolons, _ => ';'));
  }

  /**
   * Splitting conserves the input: there is one piece more than there are separators,
   * and the pieces rewoven with those separators give the input back.
   */
  lemma SplitterConservation(s: string)
    ensures |Pieces(s)| == 1 + Count(s, ' ') + Count(AfterLastSpace(s), ';')
    ensures Weave(Pieces(s), Separators(s)) == s
  {
    var bySpace, last := Cut(s, ' '), AfterLastSpace(s);
    var front, tail := bySpace[..|bySpace| - 1], Cut(last, ';');
    assert bySpace == front + [last] by { LastCutPiece(s); }
    assert Pieces(s) == front + tail;
    CutCount(s, ' ');
    CutCount(last, ';');
    WeaveTwoLevels(front, tail, Count(s, ' '), Count(last, ';'));
    JoinCut(last, ';');
    JoinCut(s, ' ');
  }
}

/** The parser object: it splits a private copy of the string in place, then drives the transition table. */
module ProxyStringParsing {
  import opened Options
  import opened Strings
  import opened ProxyInfoModel
  import opened ProxyGrammar

  const TOKENS: seq<char> := ['=', ':', '/', NUL]

  /** The status of one step; BAD_COPY stands for the invalid-parameter handler of the bounded copy. */
  datatype Status = BAD_COPY | FAILED | RUNNING | DONE

  ghost predicate Terminated(buffer: string) {
    && |buffer| > 0
    && buffer[|buffer| - 1] == NUL
    && forall k | 0 <= k < |buffer| - 1 :: buffer[k] != NUL
  }

  ghost function Text(buffer: string): string
    requires Terminated(buffer)
  {
    buffer[..|buffer| - 1]
  }

  lemma FirstToken(rest: string, j: nat, i: nat)
    requires j < 4 && i <= |rest|
    requires forall k | 0 <= k < j :: TOKENS[k] !in rest
    requires forall k | 0 <= k < i :: rest[k] != TOKENS[j]
    requires if j == 3 then i == |rest| else i < |rest| && rest[i] == TOKENS[j]
    ensures Token(rest) == (j, i)
  {
    IndexOfUnique(rest, TOKENS[j], i);
    assert rest[..|rest|] == rest;
    assert TOKENS[0] == '=' && TOKENS[1] == ':' && TOKENS[2] == '/';
    if 0 < j { IndexOfUnique(rest, '=', |rest|); }
    if 1 < j { IndexOfUnique(rest, ':', |rest|); }
    if 2 < j { IndexOfUnique(rest, '/', |rest|); }
  }

  lemma TextSlice(buffer: string, begin: nat, end: nat)
    requires Terminated(buffer) && begin <= end < |buffer|
    ensures buffer[begin..end] == Text(buffer)[begin..][..end - begin]
  {
    DropTake(Text(buffer), begin, end);
    assert forall k | begin <= k < end :: buffer[k] == Text(buffer)[k];
  }

  /** Cutting a terminated text at its first separator. */
  lemma CutTerminated(buffer: string, t: nat, c: char)
    requires Terminated(buffer) && t < |buffer| - 1
    requires buffer[t] == c && c !in buffer[..t]
    ensures Terminated(buffer[t + 1..])
    ensures Cut(Text(buffer), c) == [buffer[..t]] + Cut(Text(buffer[t + 1..]), c)
  {
    assert Text(buffer) == buffer[..t] + [c] + Text(buffer[t + 1..]);
    CutStep(buffer[..t], Text(buffer[t + 1..]), c);
  }

  lemma PiecesOfPasses(s: string, front: seq<string>, last: string, pieces: seq<string>)
    requires front + [last] == [] + Cut(s, ' ') && pieces == front + Cut(last, ';')
    ensures pieces == Pieces(s)
  {
    var bySpace := Cut(s, ' ');
    assert bySpace == front + [last];
    assert bySpace[..|bySpace| - 1] == front;
  }

  /** A character absent from a string is absent from its pieces. */
  lemma {:induction false} CutHides(s: string, sep: char, c: char)
    requires c !in s
    ensures forall piece <- Cut(s, sep) :: c !in piece
    decreases |s|
  {
    if IndexOf(s, sep) < |s| {
      CutHides(s[IndexOf(s, sep) + 1..], sep, c);
    }
  }

  lemma PiecesFree(s: string, c: char)
    requires c !in s
    ensures forall piece <- Pieces(s) :: c !in piece
  {
    CutHides(s, ' ', c);
    CutHides(LastOf(Cut(s, ' ')), ';', c);
  }

  class ProxyStringParser {
    var state: ParseState
    var prevState: ParseState
    var tokenId: nat

    constructor ()
    {
      state, prevState, tokenId := INIT, INIT, 0;
    }

    /** wcschr over the token list, in priority order. */
    method GetToken(buffer: string, at: nat) returns (token: nat, pos: nat)
      requires Terminated(buffer) && at < |buffer|
      ensures (token, pos) == Token(Text(buffer)[at..])
    {
      ghost var rest := Text(buffer)[at..];
      var j := 0;
      while true
        invariant j < 4
        invariant forall k | 0 <= k < j :: TOKENS[k] !in rest
        decreases 4 - j
      {
        var i := at;
        while buffer[i] != TOKENS[j] && buffer[i] != NUL
          invariant at <= i < |buffer|
          invariant forall k | at <= k < i :: buffer[k] != TOKENS[j]
          decreases |buffer| - i
        {
          i := i + 1;
        }
        if buffer[i] == TOKENS[j] {
          FirstToken(rest, j, i - at);
          return j, i - at;
        }
        j := j + 1;
      }
    }

    /** Offset of `c` from `at` before the terminator, or -1. */
    method FindChar(buffer: string, at: nat, c: char) returns (offset: int)
      requires Terminated(buffer) && at < |buffer|
      ensures offset == -1 <==> c !in Text(buffer)[at..]
      ensures offset != -1 ==> offset == IndexOf(Text(buffer)[at..], c)
    {
      var i := at;
      while buffer[i] != NUL
        invariant at <= i < |buffer|
        invariant forall k | at <= k < i :: buffer[k] != c
        decreases |buffer| - i
      {
        if buffer[i] == c {
          assert Text(buffer)[at..][i - at] == c;
          IndexOfUnique(Text(buffer)[at..], c, i - at);
          return i - at;
        }
        i := i + 1;
      }
      return -1;
    }

    /**
     * At a ':' with at least two characters after it: with a '/' among them it is a scheme's, whose next two
     * characters are skipped, and the step fails when that '/' is only the first of them; else a server's.
     */
    method LookAhead(buffer: string, begin: nat, tokenEnd: nat, temp: string, entry: ProxyInfo)
      returns (ok: bool, end: nat, info: ProxyInfo)
      requires Terminated(buffer) && begin <= tokenEnd < |buffer| - 1
      ensures var rest, pos := Text(buffer)[begin..], tokenEnd - begin;
        if pos + 2 < |rest| && '/' in rest[pos + 1..] then
          if '/' in rest[pos + 2..] then ok && end == tokenEnd + 2 && info == entry.(proxyType := temp)
          else !ok && end == tokenEnd && info == entry
        else ok && end == tokenEnd && info == entry.(server := temp)
      ensures end < |buffer| - 1
    {
      ok, end, info := true, tokenEnd, entry;
      ghost var rest, pos := Text(buffer)[begin..], tokenEnd - begin;
      if end + 2 < |buffer| - 1 {
        var token1 := FindChar(buffer, end + 1, '/');
        var token2 := FindChar(buffer, end + 2, '/');
        DropDrop(Text(buffer), begin, end + 1);
        DropDrop(Text(buffer), begin, end + 2);
        if token1 != -1 {
          if token2 == -1 {
            return false, end, info;
          }
          end := end + 2;
          info := info.(proxyType := temp);
        } else {
          info := info.(server := temp);
        }
      } else {
        info := info.(server := temp);
      }
    }

    /**
     * One step of the machine. `end` comes in as the end of the token and goes out as the last character consumed;
     * every read of the buffer is inside it.
     */
    method ProcessState(buffer: string, begin: nat, tokenEnd: nat, entry: ProxyInfo)
      returns (status: Status, end: nat, info: ProxyInfo)
      requires Terminated(buffer) && begin < |buffer| - 1 && begin <= tokenEnd && tokenId < 4
      requires (tokenId, tokenEnd - begin) == Token(Text(buffer)[begin..])
      modifies this`state, this`prevState
      ensures prevState == state
      ensures match Advance(Text(buffer)[begin..], old(prevState), entry)
              case CRASH => status == BAD_COPY
              case STOP(left) => status == FAILED && info == left
              case MORE(skip, next, left) =>
                status == RUNNING && end + 1 == begin + skip && state == next && state != FINAL && info == left
              case COMPLETE(left) => status == DONE && state == FINAL && info == left
    {
      status, end, info := RUNNING, tokenEnd, entry;
      state := Transition(prevState, tokenId);
      if end - begin >= TEMP_SIZE {
        prevState := state;
        return BAD_COPY, end, info;
      }
      var temp := buffer[begin..end];
      ghost var rest, pos := Text(buffer)[begin..], end - begin;
      TextSlice(buffer, begin, end);
      match state {
        case L_SCHEME =>
          info := info.(accessType := temp);
        case PORT =>
          var found;
          found, end, info := LookAhead(buffer, begin, end, temp, entry);
          if !found {
            prevState := state;
            return FAILED, end, info;
          }
          if end != tokenEnd {
            state := R_SCHEME;
          }
        case FINAL =>
          if prevState == PORT {
            info := info.(port := ToUShort(Wtoi(temp)));
          }
          if prevState == L_SCHEME || prevState == R_SCHEME || prevState == INIT {
            info := info.(server := temp);
          }
          status := DONE;
        case _ =>
          status := FAILED;
      }
      prevState := state;
    }

    /** Offset of `c` from `at` before the terminator, or -1, in the buffer being split. */
    method FindInBuffer(buffer: array<char>, at: nat, c: char) returns (offset: int)
      requires at < buffer.Length && Terminated(buffer[at..])
      ensures offset == -1 ==> c !in Text(buffer[at..])
      ensures offset != -1 ==> 0 <= offset < buffer.Length - 1 - at
      ensures offset != -1 ==> buffer[at + offset] == c && c !in buffer[at..at + offset]
    {
      ghost var s := buffer[at..];
      var i := at;
      while buffer[i] != NUL
        invariant at <= i < buffer.Length
        invariant forall k | at <= k < i :: buffer[k] != c
        invariant buffer[at..] == s
        decreases buffer.Length - i
      {
        assert s[i - at] == buffer[i];
        if buffer[i] == c {
          return i - at;
        }
        i := i + 1;
      }
      assert s[i - at] == NUL;
      return -1;
    }

    /** Overwrites the separator found at offset `t` by a terminator; the piece before it is the one pushed. */
    method CutInPlace(buffer: array<char>, base: nat, t: nat, c: char) returns (piece: string)
      requires base + t + 1 < buffer.Length && Terminated(buffer[base..]) && c != NUL
      requires buffer[base + t] == c && c !in buffer[base..base + t]
      modifies buffer
      ensures Terminated(buffer[base + t + 1..])
      ensures Cut(old(Text(buffer[base..])), c) == [piece] + Cut(Text(buffer[base + t + 1..]), c)
    {
      ghost var unread := buffer[base..];
      assert unread[..t] == buffer[base..base + t] && unread[t] == buffer[base + t];
      CutTerminated(unread, t, c);
      buffer[base + t] := NUL;
      piece := buffer[base..base + t];
      assert piece == unread[..t];
      assert buffer[base + t + 1..] == unread[t + 1..];
    }

    /**
     * One splitting pass from `from`, pushing the text before each `c`.
     * What stays in the buffer from `base` is the last piece.
     */
    method PreProcess(buffer: array<char>, from: nat, c: char, process: seq<string>)
      returns (base: nat, pushed: seq<string>)
      requires from < buffer.Length && Terminated(buffer[from..]) && c != NUL
      modifies buffer
      ensures base < buffer.Length && Terminated(buffer[base..])
      ensures pushed + [Text(buffer[base..])] == process + Cut(old(Text(buffer[from..])), c)
    {
      base, pushed := from, process;
      ghost var pieces := process + Cut(Text(buffer[from..]), c);
      while true
        invariant base < buffer.Length && Terminated(buffer[base..])
        invariant pieces == pushed + Cut(Text(buffer[base..]), c)
        decreases buffer.Length - base
      {
        var t := FindInBuffer(buffer, base, c);
        if t == -1 {
          CutFree(Text(buffer[base..]), c);
          break;
        }
        var piece := CutInPlace(buffer, base, t, c);
        pushed := pushed + [piece];
        base := base + t + 1;
      }
    }

    /** One turn of the inner loop: either the piece is finished, or the same meaning is left from `next`. */
    method Turn(pString: string, prev: nat, entry: ProxyInfo, mode: nat)
      returns (finished: bool, result: PieceResult, next: nat, serverInfo: ProxyInfo)
      requires Terminated(pString) && prev < |pString| - 1
      modifies this
      ensures var meaning := ParsePiece(Text(pString)[prev..], old(prevState), entry, mode);
        if finished then result == meaning
        else prev < next < |pString| && meaning == ParsePiece(Text(pString)[next..], prevState, serverInfo, mode)
    {
      ghost var rest, before := Text(pString)[prev..], prevState;
      var pos, status, end;
      tokenId, pos := GetToken(pString, prev);
      status, end, serverInfo := ProcessState(pString, prev, prev + pos, entry);
      next := end + 1;
      if status == BAD_COPY {
        ParseEnds(rest, before, entry, mode);
        return true, ABORTED, next, serverInfo;
      }
      if status == FAILED {
        ParseEnds(rest, before, entry, mode);
        return true, Piece(false, serverInfo), next, serverInfo;
      }
      if state == FINAL {
        ParseEnds(rest, before, entry, mode);
        return true, Piece(true, serverInfo.(mode := mode)), next, serverInfo;
      }
      DropDrop(Text(pString), prev, next);
      ParseMore(rest, before, entry, mode, next - prev, prevState, serverInfo, Text(pString)[next..]);
      return false, ABORTED, next, serverInfo;
    }

    /** The inner loop: drives the machine over one piece from a fresh INIT state. */
    method ParseOne(piece: string, mode: nat) returns (r: PieceResult)
      requires NUL !in piece
      modifies this
      ensures r == ParsePiece(piece, INIT, EMPTY_INFO, mode)
    {
      var pString := piece + [NUL];
      var len, end := |piece|, 0;
      state, prevState := INIT, INIT;
      var serverInfo := EMPTY_INFO;
      assert Text(pString) == piece == piece[0..];
      while end < len
        invariant end <= len
        invariant ParsePiece(piece, INIT, EMPTY_INFO, mode) == ParsePiece(piece[end..], prevState, serverInfo, mode)
      {
        var finished;
        finished, r, end, serverInfo := Turn(pString, end, serverInfo, mode);
        if finished {
          return;
        }
      }
      return Piece(false, serverInfo);
    }

    /** Both splitting passes over a private terminated copy of the string. */
    method Split(s: string) returns (process: seq<string>)
      requires NUL !in s
      ensures process == Pieces(s)
    {
      var buffer := new char[|s| + 1](i => if 0 <= i < |s| then s[i] else NUL);
      assert Text(buffer[0..]) == s;
      var base;
      base, process := PreProcess(buffer, 0, ' ', []);
      ghost var front, last := process, Text(buffer[base..]);
      base, process := PreProcess(buffer, base, ';', process);
      assert buffer[base..|s|] == Text(buffer[base..]);
      process := process + [buffer[base..|s|]];
      PiecesOfPasses(s, front, last, process);
    }

    /** The outer loop over the pieces. */
    method ParsePieces(process: seq<string>, mode: nat) returns (r: ParseResult)
      requires forall piece <- process :: NUL !in piece
      modifies this
      ensures r == ParseAll(process, mode)
    {
      var status, entries, i := false, [], 0;
      while i < |process|
        invariant i <= |process|
        invariant ParseAll(process, mode) == Prepend(status, entries, ParseAll(process[i..], mode))
      {
        var piece := ParseOne(process[i], mode);
        ParseAllStep(process, i, mode);
        if piece == ABORTED {
          return ParseAborted;
        }
        PrependMore(status, entries, piece.final, piece.info, ParseAll(process[i + 1..], mode));
        status := status || piece.final;
        entries := entries + [piece.info];
        i := i + 1;
      }
      return Parsed(status, entries);
    }

    /**
     * The caller's list keeps its entries and gains one entry a piece; the status is TRUE when some piece
     * reached FINAL. A missing string is refused.
     */
    method ParseProxyString(proxyString: Option<string>, info: seq<ProxyInfo>, mode: nat)
      returns (r: ParseResult)
      requires proxyString.Some? ==> NUL !in proxyString.value
      modifies this
      ensures proxyString.None? ==> r == Parsed(false, info)
      ensures proxyString.Some? ==> r == Prepend(false, info, ParseAll(Pieces(proxyString.value), mode))
    {
      if proxyString.None? {
        return Parsed(false, info);
      }
      var process := Split(proxyString.value);
      PiecesFree(proxyString.value, NUL);
      r := ParsePieces(process, mode);
      if r.Parsed? {
        r := r.(entries := info + r.entries);
      }
    }
  }
}
