/**
 * The HTTP response parser of src/core/http_response_parser.cpp, fed one
 * character at a time. Until the status code is known it collects the token
 * between the first and the second space and reads it with atoi(); after
 * that it collects header lines, picks up Content-Length and ETag, and
 * counts consecutive line ends until the blank line that ends the header.
 * The class keeps the NUL-terminated buffer of BufferSize characters in an
 * array; ParserState and Step are its abstract state and transition, and
 * Write is proved to follow them.
 */
module HttpResponse {
  import opened CStrings

  const ContentLengthHeader: seq<char> := "Content-Length: "
  const ETagHeader: seq<char> := "ETag: "

  /** The parser's fields, with the buffer as the text before position_. */
  datatype ParserState = ParserState(
    readingHeader: bool,
    consecutiveNls: nat,
    previous: char,
    text: seq<char>,
    spacesSeen: nat,
    statusCode: int,
    contentLength: int,
    etag: seq<char>)

  /** begin(): a fresh response; content_length_ keeps its value. */
  function Began(p: ParserState): ParserState {
    p.(readingHeader := true, consecutiveNls := 0, previous := Nul, text := [],
       spacesSeen := 0, statusCode := 0, etag := [])
  }

  predicate IsLineEnd(c: char) {
    c == '\n' || c == '\r'
  }

  /** A character is kept only while the buffer has room for it and the NUL. */
  function Append(text: seq<char>, c: char, bufferSize: nat): seq<char> {
    if |text| < bufferSize - 1 then text + [c] else text
  }

  /** write(c) before the status code is known: the status line's first two tokens. */
  function StatusStep(p: ParserState, c: char, bufferSize: nat): ParserState {
    if p.spacesSeen < 2 then
      if c == ' ' then
        var seen := p.spacesSeen + 1;
        p.(spacesSeen := seen, statusCode := if seen == 2 then Atoi(CStr(p.text)) else 0, text := [])
      else
        p.(text := Append(p.text, c, bufferSize))
    else
      p
  }

  /** write(c) of a CR or LF in the header: counts it, looks at the line, empties the buffer. */
  function LineEnd(p: ParserState, c: char): ParserState {
    var blank := c == '\n' && IsLineEnd(p.previous);
    var nls := if blank then p.consecutiveNls + 1 else p.consecutiveNls;
    var line := CStr(p.text);
    p.(consecutiveNls := nls,
       readingHeader := if blank && nls == 2 then false else p.readingHeader,
       contentLength :=
         if CaseInsensitivePrefix(line, ContentLengthHeader) then Atoi(CStr(p.text[|ContentLengthHeader|..]))
         else p.contentLength,
       etag := if CaseInsensitivePrefix(line, ETagHeader) then p.text[|ETagHeader|..] else p.etag,
       text := [],
       previous := c)
  }

  /** write(c) once the status code is known. */
  function HeaderStep(p: ParserState, c: char, bufferSize: nat): ParserState {
    if IsLineEnd(c) then LineEnd(p, c)
    else p.(consecutiveNls := 0, text := Append(p.text, c, bufferSize), previous := c)
  }

  /** write(c). */
  function Step(p: ParserState, c: char, bufferSize: nat): ParserState {
    if p.statusCode == 0 then StatusStep(p, c, bufferSize) else HeaderStep(p, c, bufferSize)
  }

  /** Writing a sequence of characters, one after the other. */
  function Feed(p: ParserState, s: seq<char>, bufferSize: nat): ParserState
    decreases |s|
  {
    if s == [] then p else Feed(Step(p, s[0], bufferSize), s[1..], bufferSize)
  }

  lemma {:induction false} FeedConcat(p: ParserState, a: seq<char>, b: seq<char>, bufferSize: nat)
    ensures Feed(p, a + b, bufferSize) == Feed(Feed(p, a, bufferSize), b, bufferSize)
    decreases |a|
  {
    if a == [] {
      assert a + b == b;
    } else {
      var q := Step(p, a[0], bufferSize);
      assert (a + b)[0] == a[0];
      assert (a + b)[1..] == a[1..] + b;
      assert Feed(p, a + b, bufferSize) == Feed(q, a[1..] + b, bufferSize);
      assert Feed(p, a, bufferSize) == Feed(q, a[1..], bufferSize);
      FeedConcat(q, a[1..], b, bufferSize);
    }
  }

  lemma FeedTwo(p: ParserState, c: char, d: char, bufferSize: nat)
    ensures Feed(p, [c, d], bufferSize) == Step(Step(p, c, bufferSize), d, bufferSize)
  {
    var q := Step(p, c, bufferSize);
    assert [c, d][1..] == [d];
    assert [d][1..] == [];
    assert Feed(q, [d], bufferSize) == Feed(Step(q, d, bufferSize), [], bufferSize);
  }

  /** The buffer never holds more than BufferSize - 1 characters, so its NUL always fits. */
  lemma {:induction false} FeedKeepsBound(p: ParserState, s: seq<char>, bufferSize: nat)
    requires bufferSize >= 1 && |p.text| < bufferSize
    ensures |Feed(p, s, bufferSize).text| < bufferSize
    decreases |s|
  {
    if s != [] {
      FeedKeepsBound(Step(p, s[0], bufferSize), s[1..], bufferSize);
    }
  }

  /** If the status token reads as 0, the rest of the response is ignored. */
  lemma {:induction false} ZeroStatusIgnoresRest(p: ParserState, s: seq<char>, bufferSize: nat)
    requires p.statusCode == 0 && p.spacesSeen >= 2
    ensures Feed(p, s, bufferSize) == p
    decreases |s|
  {
    if s != [] {
      assert Step(p, s[0], bufferSize) == p;
      ZeroStatusIgnoresRest(p, s[1..], bufferSize);
    }
  }

  /** The first n characters of t, or all of them. */
  function Clip(t: seq<char>, n: nat): seq<char> {
    if |t| <= n then t else t[..n]
  }

  lemma ClipClip(u: seq<char>, r: seq<char>, n: nat)
    ensures Clip(Clip(u, n) + r, n) == Clip(u + r, n)
  {
    if |u| > n {
      assert (u[..n] + r)[..n] == u[..n];
      assert (u + r)[..n] == u[..n];
    }
  }

  /** Before the status code, a token without spaces is collected, clipped to the buffer. */
  lemma {:induction false} FeedToken(p: ParserState, s: seq<char>, bufferSize: nat)
    requires bufferSize >= 1 && p.statusCode == 0 && p.spacesSeen < 2 && |p.text| <= bufferSize - 1
    requires ' ' !in s
    ensures Feed(p, s, bufferSize) == p.(text := Clip(p.text + s, bufferSize - 1))
    decreases |s|
  {
    if s == [] {
      assert p.text + s == p.text;
    } else {
      var q := Step(p, s[0], bufferSize);
      assert q == p.(text := Clip(p.text + [s[0]], bufferSize - 1));
      FeedToken(q, s[1..], bufferSize);
      ClipClip(p.text + [s[0]], s[1..], bufferSize - 1);
      assert p.text + [s[0]] + s[1..] == p.text + s;
    }
  }

  /**
   * The status code is atoi() of the token between the first and the second
   * space, as far as it fits in the buffer; a token that fits and holds no
   * NUL is read whole.
   */
  lemma StatusCodeIsSecondToken(p: ParserState, version: seq<char>, code: seq<char>, bufferSize: nat)
    requires bufferSize >= 1 && ' ' !in version && ' ' !in code
    ensures var q := Feed(Began(p), version + [' '] + code + [' '], bufferSize);
      q == Began(p).(spacesSeen := 2, statusCode := Atoi(CStr(Clip(code, bufferSize - 1))), text := [])
    ensures |code| < bufferSize && Nul !in code ==>
      Feed(Began(p), version + [' '] + code + [' '], bufferSize).statusCode == Atoi(code)
  {
    var b := Began(p);
    FeedToken(b, version, bufferSize);
    var q1 := Feed(b, version, bufferSize);
    var q2 := Step(q1, ' ', bufferSize);
    assert q2 == b.(spacesSeen := 1, text := []);
    assert Feed(q1, [' '], bufferSize) == q2;
    FeedToken(q2, code, bufferSize);
    var q3 := Feed(q2, code, bufferSize);
    assert q2.text + code == code;
    var q4 := Step(q3, ' ', bufferSize);
    assert Feed(q3, [' '], bufferSize) == q4;
    FeedConcat(b, version, [' '], bufferSize);
    FeedConcat(b, version + [' '], code, bufferSize);
    FeedConcat(b, version + [' '] + code, [' '], bufferSize);
    if |code| < bufferSize && Nul !in code {
      CStrOfPlain(code);
    }
  }

  /** After the status code, a line's characters are collected and reset the line-end count. */
  lemma {:induction false} FeedLineText(p: ParserState, line: seq<char>, bufferSize: nat)
    requires p.statusCode != 0 && line != []
    requires |p.text + line| < bufferSize
    requires forall i :: 0 <= i < |line| ==> !IsLineEnd(line[i])
    ensures Feed(p, line, bufferSize) ==
      p.(consecutiveNls := 0, text := p.text + line, previous := line[|line| - 1])
    decreases |line|
  {
    var q := Step(p, line[0], bufferSize);
    assert q == p.(consecutiveNls := 0, text := p.text + [line[0]], previous := line[0]);
    if |line| == 1 {
      assert Feed(p, line, bufferSize) == Feed(q, [], bufferSize);
    } else {
      FeedLineText(q, line[1..], bufferSize);
      assert q.text + line[1..] == p.text + line;
    }
  }

  /**
   * A header line ended by CR LF: a case-insensitive "Content-Length: "
   * prefix sets the content length to the number that follows, an "ETag: "
   * prefix sets the etag to the rest of the line, and otherwise neither
   * changes; the buffer is emptied, the header goes on, and one line end has
   * been counted.
   */
  lemma HeaderLine(p: ParserState, line: seq<char>, bufferSize: nat)
    requires p.statusCode != 0 && p.text == [] && line != []
    requires |line| < bufferSize && Nul !in line
    requires forall i :: 0 <= i < |line| ==> !IsLineEnd(line[i])
    ensures var q := Feed(p, line + "\r\n", bufferSize);
      q.contentLength == (if CaseInsensitivePrefix(line, ContentLengthHeader) then Atoi(line[|ContentLengthHeader|..]) else p.contentLength) &&
      q.etag == (if CaseInsensitivePrefix(line, ETagHeader) then line[|ETagHeader|..] else p.etag) &&
      q.text == [] && q.readingHeader == p.readingHeader && q.consecutiveNls == 1 && q.previous == '\n' &&
      q.statusCode == p.statusCode
  {
    FeedConcat(p, line, "\r\n", bufferSize);
    assert p.text + line == line;
    FeedLineText(p, line, bufferSize);
    var q := Feed(p, line, bufferSize);
    CrLfEndsLine(q, bufferSize);
    LineFields(q, line);
  }

  /** CR LF after a line's text: the line is looked at, and one line end is counted. */
  lemma CrLfEndsLine(q: ParserState, bufferSize: nat)
    requires q.statusCode != 0 && !IsLineEnd(q.previous) && q.consecutiveNls == 0
    ensures Feed(q, "\r\n", bufferSize) == LineEnd(q, '\r').(consecutiveNls := 1, previous := '\n')
  {
    var r := LineEnd(q, '\r');
    assert CStr(r.text) == [];
    FeedTwo(q, '\r', '\n', bufferSize);
    assert "\r\n" == ['\r', '\n'];
  }

  /** The fields a line end sets from a buffer holding a line without NUL. */
  lemma LineFields(q: ParserState, line: seq<char>)
    requires q.text == line && Nul !in line
    ensures LineEnd(q, '\r').contentLength ==
      (if CaseInsensitivePrefix(line, ContentLengthHeader) then Atoi(line[|ContentLengthHeader|..]) else q.contentLength)
    ensures LineEnd(q, '\r').etag == (if CaseInsensitivePrefix(line, ETagHeader) then line[|ETagHeader|..] else q.etag)
  {
    CStrOfPlain(line);
    if |ContentLengthHeader| <= |line| {
      NulFreeSuffix(line, |ContentLengthHeader|);
      CStrOfPlain(line[|ContentLengthHeader|..]);
    }
  }

  /** CR LF CR LF, from any point of the header that is not already past a line end, ends it. */
  lemma BlankLineEndsHeader(p: ParserState, bufferSize: nat)
    requires p.statusCode != 0 && p.consecutiveNls <= 1
    ensures !Feed(p, "\r\n\r\n", bufferSize).readingHeader
  {
    var q1 := LineEnd(p, '\r');
    var q2 := LineEnd(q1, '\n');
    var q3 := LineEnd(q2, '\r');
    var q4 := LineEnd(q3, '\n');
    assert !q4.readingHeader;
    FeedTwo(p, '\r', '\n', bufferSize);
    FeedTwo(q2, '\r', '\n', bufferSize);
    FeedConcat(p, "\r\n", "\r\n", bufferSize);
    assert "\r\n" == ['\r', '\n'];
    assert "\r\n\r\n" == "\r\n" + "\r\n";
  }

  /**
   * The header ends on a line feed that follows a line end and brings the
   * count of such line feeds to two; any other character resets that count,
   * and an ended header stays ended.
   */
  lemma HeaderEndRule(p: ParserState, c: char, bufferSize: nat)
    ensures p.readingHeader && !Step(p, c, bufferSize).readingHeader <==>
      p.readingHeader && p.statusCode != 0 && c == '\n' && IsLineEnd(p.previous) && p.consecutiveNls == 1
    ensures p.statusCode != 0 && !IsLineEnd(c) ==> Step(p, c, bufferSize).consecutiveNls == 0
    ensures !p.readingHeader ==> !Step(p, c, bufferSize).readingHeader
  {
  }

  /** The status line of a response with status `code`. */
  function StatusLineText(code: nat): seq<char> {
    "HTTP/1.1 " + Decimal(code) + " OK\r\n"
  }

  /**
   * A whole response: status line, one header line, blank line. The status
   * code is the line's, the header has ended, and the content length is the
   * header's when it is a Content-Length header and the previous response's
   * otherwise.
   */
  lemma ResponseWithHeader(p: ParserState, code: nat, header: seq<char>, bufferSize: nat)
    requires 0 < code && 8 < bufferSize && |Decimal(code)| < bufferSize
    requires header != [] && |header| < bufferSize && Nul !in header
    requires forall i :: 0 <= i < |header| ==> !IsLineEnd(header[i])
    ensures var q := Feed(Began(p), StatusLineText(code) + header + "\r\n" + "\r\n", bufferSize);
      q.statusCode == code && !q.readingHeader &&
      q.contentLength == (if CaseInsensitivePrefix(header, ContentLengthHeader) then Atoi(header[|ContentLengthHeader|..])
                          else p.contentLength)
  {
    var crlf: seq<char> := "\r\n";
    var status := StatusLineText(code);
    StatusLine(p, code, bufferSize);
    var q := Feed(Began(p), status, bufferSize);
    HeaderLine(q, header, bufferSize);
    var r := Feed(q, header + crlf, bufferSize);
    BlankLine(r, bufferSize);
    FeedConcat(Began(p), status, header + crlf, bufferSize);
    FeedConcat(Began(p), status + (header + crlf), crlf, bufferSize);
    assert status + header + crlf + crlf == status + (header + crlf) + crlf;
  }

  lemma NumeralChars(n: nat)
    ensures ' ' !in Decimal(n) && Nul !in Decimal(n)
  {
    var d := Decimal(n);
    forall i | 0 <= i < |d| ensures d[i] != ' ' && d[i] != Nul {
      assert IsDigit(d[i]);
    }
  }

  /** A status line and its CR LF. */
  lemma StatusLine(p: ParserState, code: nat, bufferSize: nat)
    requires 0 < code && 8 < bufferSize && |Decimal(code)| < bufferSize
    ensures var q := Feed(Began(p), StatusLineText(code), bufferSize);
      q.statusCode == code && q.text == [] && q.readingHeader && q.consecutiveNls == 1 &&
      q.contentLength == p.contentLength
  {
    var b := Began(p);
    var version: seq<char> := "HTTP/1.1";
    var digits := Decimal(code);
    var s1 := version + [' '] + digits + [' '];
    var s2: seq<char> := "OK";
    var crlf: seq<char> := "\r\n";
    var q1 := Feed(b, s1, bufferSize);
    assert q1 == b.(spacesSeen := 2, statusCode := code, text := []) by {
      NumeralChars(code);
      StatusCodeIsSecondToken(p, version, digits, bufferSize);
      AtoiDecimal(code, []);
      assert digits + [] == digits;
    }
    var q2 := Feed(q1, s2, bufferSize);
    assert q2 == q1.(consecutiveNls := 0, text := s2, previous := 'K') by {
      FeedLineText(q1, s2, bufferSize);
    }
    var q3 := Feed(q2, crlf, bufferSize);
    assert q3.statusCode == code && q3.text == [] && q3.readingHeader && q3.consecutiveNls == 1 &&
      q3.contentLength == p.contentLength by {
      CrLfEndsLine(q2, bufferSize);
      LineFields(q2, s2);
    }
    assert Feed(b, StatusLineText(code), bufferSize) == q3 by {
      FeedConcat(b, s1, s2, bufferSize);
      FeedConcat(b, s1 + s2, crlf, bufferSize);
      assert StatusLineText(code) == s1 + s2 + crlf;
    }
  }

  /** The blank line CR LF after a header line ends the header. */
  lemma BlankLine(q: ParserState, bufferSize: nat)
    requires q.statusCode != 0 && q.text == [] && q.consecutiveNls == 1
    ensures Feed(q, "\r\n", bufferSize) == q.(readingHeader := false, consecutiveNls := 2, previous := '\n')
  {
    assert CStr([]) == [];
    FeedTwo(q, '\r', '\n', bufferSize);
    assert "\r\n" == ['\r', '\n'];
  }

  class HttpResponseParser {
    const bufferSize: nat
    const buffer: array<char>
    var position: nat
    var readingHeader: bool
    var consecutiveNls: nat
    var previous: char
    var spacesSeen: nat
    var statusCode: int
    var contentLength: int
    var etag: seq<char>

    /** The buffer holds the text before position_ and a NUL at position_. */
    ghost predicate Valid()
      reads this, buffer
    {
      buffer.Length == bufferSize && bufferSize >= 1 &&
      position < bufferSize && buffer[position] == Nul
    }

    function State(): ParserState
      reads this, buffer
      requires position <= buffer.Length
    {
      ParserState(readingHeader, consecutiveNls, previous, buffer[..position], spacesSeen, statusCode, contentLength, etag)
    }

    constructor (bufferSize: nat)
      requires bufferSize >= 1
      ensures Valid() && fresh(buffer) && this.bufferSize == bufferSize
      ensures State() == ParserState(true, 0, Nul, [], 0, 0, 0, [])
    {
      this.bufferSize := bufferSize;
      buffer := new char[bufferSize](_ => Nul);
      position := 0;
      readingHeader := true;
      consecutiveNls := 0;
      previous := Nul;
      spacesSeen := 0;
      statusCode := 0;
      contentLength := 0;
      etag := [];
    }

    /** begin(). */
    method Begin()
      requires Valid()
      modifies this, buffer
      ensures Valid() && State() == Began(old(State()))
    {
      readingHeader := true;
      consecutiveNls := 0;
      previous := Nul;
      position := 0;
      spacesSeen := 0;
      statusCode := 0;
      buffer[0] := Nul;
      etag := [];
    }

    /** Stores a character at position_ when it fits, keeping the NUL after it. */
    method Put(c: char)
      requires Valid()
      modifies this, buffer
      ensures Valid() && buffer[..position] == Append(old(buffer[..position]), c, bufferSize)
      ensures readingHeader == old(readingHeader) && consecutiveNls == old(consecutiveNls)
      ensures previous == old(previous) && spacesSeen == old(spacesSeen) && statusCode == old(statusCode)
      ensures contentLength == old(contentLength) && etag == old(etag)
    {
      if position < bufferSize - 1 {
        buffer[position] := c;
        position := position + 1;
        buffer[position] := Nul;
        assert buffer[..position] == old(buffer[..position]) + [c];
      }
    }

    /** Empties the buffer. */
    method Clear()
      requires Valid()
      modifies this, buffer
      ensures Valid() && position == 0
      ensures readingHeader == old(readingHeader) && consecutiveNls == old(consecutiveNls)
      ensures previous == old(previous) && spacesSeen == old(spacesSeen) && statusCode == old(statusCode)
      ensures contentLength == old(contentLength) && etag == old(etag)
    {
      buffer[0] := Nul;
      position := 0;
    }

    /** write(c): the status-line branch or the header branch. */
    method Write(c: char)
      requires Valid()
      modifies this, buffer
      ensures Valid() && State() == Step(old(State()), c, bufferSize)
    {
      if statusCode == 0 {
        WriteStatus(c);
      } else if c == '\n' || c == '\r' {
        WriteLineEnd(c);
      } else {
        consecutiveNls := 0;
        Put(c);
        previous := c;
      }
    }

    method WriteStatus(c: char)
      requires Valid()
      modifies this, buffer
      ensures Valid() && State() == StatusStep(old(State()), c, bufferSize)
    {
      ghost var before := State();
      if spacesSeen < 2 {
        if c == ' ' {
          CStrOfTerminated(buffer[..], position);
          assert buffer[..][..position] == before.text;
          var code := 0;
          spacesSeen := spacesSeen + 1;
          if spacesSeen == 2 {
            code := Atoi(CStr(buffer[..]));
          }
          assert code == if spacesSeen == 2 then Atoi(CStr(before.text)) else 0;
          statusCode := code;
          Clear();
          assert State() == StatusStep(before, c, bufferSize);
        } else {
          Put(c);
        }
      }
    }

    method WriteLineEnd(c: char)
      requires Valid() && IsLineEnd(c)
      modifies this, buffer
      ensures Valid() && State() == LineEnd(old(State()), c)
    {
      var line, length, tag := ReadLine();
      var blank := c == '\n' && (previous == '\r' || previous == '\n');
      if blank {
        consecutiveNls := consecutiveNls + 1;
        if consecutiveNls == 2 {
          readingHeader := false;
        }
      }
      contentLength := length;
      etag := tag;
      Clear();
      previous := c;
    }

    /** What the strncasecmp() tests at a line end find in the buffer. */
    method ReadLine() returns (line: seq<char>, length: int, tag: seq<char>)
      requires Valid()
      ensures var text := buffer[..position];
        line == CStr(text) &&
        length == (if CaseInsensitivePrefix(line, ContentLengthHeader) then Atoi(CStr(text[|ContentLengthHeader|..])) else contentLength) &&
        tag == (if CaseInsensitivePrefix(line, ETagHeader) then text[|ETagHeader|..] else etag)
    {
      ghost var text := buffer[..position];
      CStrOfTerminated(buffer[..], position);
      assert buffer[..][..position] == text;
      line := CStr(buffer[..]);
      length := contentLength;
      if CaseInsensitivePrefix(line, ContentLengthHeader) {
        var rest := buffer[|ContentLengthHeader|..];
        assert rest == text[|ContentLengthHeader|..] + [Nul] + buffer[position + 1..];
        CStrStopsAtNul(text[|ContentLengthHeader|..], buffer[position + 1..]);
        length := Atoi(CStr(rest));
      }
      tag := etag;
      if CaseInsensitivePrefix(line, ETagHeader) {
        tag := buffer[|ETagHeader|..position];
      }
    }
  }
}
