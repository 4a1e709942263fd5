/**
 * The `Url` splitter of src/utils.h: it walks a NUL-terminated URL with a
 * pointer, finds the server after the first "//", and cuts the buffer in
 * place with NULs at the port's ':' and at the path's '/'. The C string is
 * `s`, the characters before the buffer's first NUL; positions are indexes
 * into the buffer.
 */
module Urls {
  import opened Basics
  import opened CStrings

  const DefaultPort: uint16 := 80

  /**
   * What the constructor leaves behind: where the server and the path start,
   * the positions it overwrote with NUL (in the order written), and the text
   * it read the port from, if any.
   */
  datatype Split = Split(server: Option<nat>, cuts: seq<nat>, path: Option<nat>, portText: Option<seq<char>>)
  {
    /** The port field: atoi() of the port text when there is one, 80 otherwise. */
    function Port(): uint16 {
      if portText.None? then DefaultPort else PortOf(portText.value)
    }
  }

  /** The walk as the code is written: it may read past the terminator. */
  datatype Walked = OverRead | Walked(split: Split)

  /** `port = atoi(...)`: the int is converted to uint16_t modulo 2^16. */
  function PortOf(digits: seq<char>): uint16 {
    Atoi(digits) % Uint16Modulus
  }

  /** Well-formed results: the server starts within the string and before any cut, and the path follows a cut. */
  ghost predicate WellFormed(s: seq<char>, w: Split) {
    (w.server.Some? ==> w.server.value <= |s|) &&
    (forall k :: 0 <= k < |w.cuts| ==> w.server.Some? && w.server.value < w.cuts[k] < |s|) &&
    (|w.cuts| == 2 ==> w.cuts[0] < w.cuts[1]) && |w.cuts| <= 2 &&
    (w.path.Some? ==> w.cuts != [] && w.path.value == w.cuts[|w.cuts| - 1] + 1)
  }

  /**
   * The inner loop after a ':' at `colon`: it looks for a '/' at or after `j`;
   * at one, it cuts there too, reads the port and starts the path after it;
   * at the terminator the port stays 80 and there is no path.
   */
  function PortScan(s: seq<char>, server: nat, colon: nat, j: nat): (w: Split)
    requires server < colon < j <= |s|
    ensures WellFormed(s, w) && w.server == Some(server) && |w.cuts| >= 1 && w.cuts[0] == colon
    decreases |s| - j
  {
    if j == |s| then Split(Some(server), [colon], None, None)
    else if s[j] == '/' then Split(Some(server), [colon, j], Some(j + 1), Some(s[colon + 1..j]))
    else PortScan(s, server, colon, j + 1)
  }

  /**
   * The outer loop as written, examining position i with the server found so
   * far. It runs while p[0] and p[1] are both not NUL; after "//" it moves
   * p past the two slashes and then the loop's ++p moves once more, so the
   * server's first character is never examined and, when "//" ends the
   * string, the next test reads the character after the terminator.
   */
  function WalkAsWritten(s: seq<char>, i: nat, server: Option<nat>): (w: Walked)
    requires server.Some? ==> server.value < i
    ensures i <= |s| && w.OverRead? ==> server.None? && |s| >= 2 && s[|s| - 2] == '/' && s[|s| - 1] == '/'
    ensures i <= |s| && w.Walked? ==> WellFormed(s, w.split)
    decreases |s| + 2 - i
  {
    if i > |s| then OverRead
    else if i + 1 >= |s| then Walked(Split(server, [], None, None))
    else if server.None? && s[i] == '/' && s[i + 1] == '/' then WalkAsWritten(s, i + 3, Some(i + 2))
    else if server.Some? && s[i] == ':' then Walked(PortScan(s, server.value, i, i + 1))
    else if server.Some? && s[i] == '/' then Walked(Split(server, [i], Some(i + 1), None))
    else WalkAsWritten(s, i + 1, server)
  }

  /** The outer loop, stopping when the server starts at the terminator. */
  function Walk(s: seq<char>, i: nat, server: Option<nat>): (w: Split)
    requires i <= |s|
    requires server.Some? ==> server.value < i
    ensures WellFormed(s, w)
    ensures w.server.None? ==> server.None?
    ensures server.Some? ==> w.server == server
    decreases |s| - i
  {
    if i + 1 >= |s| then Split(server, [], None, None)
    else if server.None? && s[i] == '/' && s[i + 1] == '/' then
      if i + 2 == |s| then Split(Some(i + 2), [], None, None)
      else Walk(s, i + 3, Some(i + 2))
    else if server.Some? && s[i] == ':' then PortScan(s, server.value, i, i + 1)
    else if server.Some? && s[i] == '/' then Split(server, [i], Some(i + 1), None)
    else Walk(s, i + 1, server)
  }

  /** Url(url) on the C string s. */
  function UrlOf(s: seq<char>): (w: Split)
    ensures WellFormed(s, w)
  {
    Walk(s, 0, None)
  }

  /** Url(url) as written. */
  function UrlAsWritten(s: seq<char>): (w: Walked)
    ensures w.OverRead? ==> |s| >= 2 && s[|s| - 2..] == "//"
    ensures w.Walked? ==> WellFormed(s, w.split)
  {
    WalkAsWritten(s, 0, None)
  }

  /** The buffer after the constructor's NUL writes. */
  function Cut(b: seq<char>, cuts: seq<nat>): (r: seq<char>)
    requires forall k :: 0 <= k < |cuts| ==> cuts[k] < |b|
    ensures |r| == |b|
    ensures forall i :: 0 <= i < |b| ==> r[i] == (if i in cuts then Nul else b[i])
    decreases |cuts|
  {
    if cuts == [] then b else Cut(b[cuts[0] := Nul], cuts[1..])
  }

  /** The server, path and port a program sees through the struct's fields. */
  datatype UrlParts = UrlParts(server: Option<seq<char>>, path: Option<seq<char>>, port: uint16)

  /** The C strings at `server` and `path` in the cut buffer, read off the walk. */
  function Parts(s: seq<char>): UrlParts {
    var w := UrlOf(s);
    UrlParts(
      if w.server.None? then None else Some(s[w.server.value..if w.cuts == [] then |s| else w.cuts[0]]),
      if w.path.None? then None else Some(s[w.path.value..]),
      w.Port())
  }

  /** s has "//" at position k. */
  predicate SlashesAt(s: seq<char>, k: int) {
    0 <= k && k + 1 < |s| && s[k] == '/' && s[k + 1] == '/'
  }

  /**
   * The as-written walk reads past the terminator exactly when the first
   * "//" ends the string; otherwise it agrees with the corrected walk.
   */
  lemma {:induction false} AsWrittenAgrees(s: seq<char>, i: nat, server: Option<nat>)
    requires i <= |s| && (server.Some? ==> server.value < i)
    ensures WalkAsWritten(s, i, server) ==
      if server.None? && |s| >= i + 2 && SlashesAt(s, |s| - 2) && (forall k :: i <= k < |s| - 2 ==> !SlashesAt(s, k))
      then OverRead else Walked(Walk(s, i, server))
    decreases |s| - i
  {
    if i + 1 >= |s| {
    } else if server.None? && s[i] == '/' && s[i + 1] == '/' {
      if i + 2 < |s| {
        AsWrittenAgrees(s, i + 3, Some(i + 2));
      }
      assert SlashesAt(s, i);
    } else if server.Some? && (s[i] == ':' || s[i] == '/') {
    } else {
      AsWrittenAgrees(s, i + 1, server);
      assert !SlashesAt(s, i);
    }
  }

  /** "http://": the as-written walk reads the character after the terminator. */
  lemma OverReadAtEnd()
    ensures UrlAsWritten("http://") == OverRead
    ensures Parts("http://") == UrlParts(Some([]), None, DefaultPort)
  {
    var s: seq<char> := "http://";
    AsWrittenAgrees(s, 0, None);
    assert SlashesAt(s, 5);
    assert forall k :: 0 <= k < 5 ==> !SlashesAt(s, k);
    assert Walk(s, 0, None) == Walk(s, 5, None);
    assert Walk(s, 5, None) == Split(Some(7), [], None, None);
    assert s[7..7] == [];
  }

  /** The walk before the server passes over text without "//". */
  lemma {:induction false} WalkBeforeServer(s: seq<char>, i: nat, j: nat)
    requires i <= j <= |s|
    requires forall k :: i <= k < j ==> !SlashesAt(s, k)
    ensures Walk(s, i, None) == Walk(s, j, None)
    decreases j - i
  {
    if i < j && i + 1 < |s| {
      assert !SlashesAt(s, i);
      WalkBeforeServer(s, i + 1, j);
    } else if i < j {
      // both walks are at the end of the string
      assert Walk(s, i, None) == Split(None, [], None, None);
    }
  }

  /** The walk after the server passes over text without ':' or '/'. */
  lemma {:induction false} WalkInServer(s: seq<char>, i: nat, j: nat, server: nat)
    requires server < i <= j < |s|
    requires forall k :: i <= k < j ==> s[k] != ':' && s[k] != '/'
    ensures Walk(s, i, Some(server)) == Walk(s, j, Some(server))
    decreases j - i
  {
    if i < j {
      WalkInServer(s, i + 1, j, server);
    }
  }

  /** The port scan passes over text without '/'. */
  lemma {:induction false} ScanInPort(s: seq<char>, server: nat, colon: nat, j: nat, k: nat)
    requires server < colon < j <= k <= |s|
    requires forall m :: j <= m < k ==> s[m] != '/'
    ensures PortScan(s, server, colon, j) == PortScan(s, server, colon, k)
    decreases k - j
  {
    if j < k {
      ScanInPort(s, server, colon, j + 1, k);
    }
  }

  /** Without "//" anywhere there is no server and no path, and the port stays 80. */
  lemma NoSlashes(s: seq<char>)
    requires forall k :: 0 <= k < |s| ==> !SlashesAt(s, k)
    ensures UrlOf(s) == Split(None, [], None, None)
    ensures Parts(s) == UrlParts(None, None, DefaultPort)
  {
    WalkBeforeServer(s, 0, |s|);
  }

  /** The walk reaches the server of scheme + "//" + rest, with rest not empty. */
  lemma ReachServer(scheme: seq<char>, rest: seq<char>)
    requires '/' !in scheme && rest != []
    ensures var s := scheme + "//" + rest;
      |s| > |scheme| + 2 && Walk(s, 0, None) == Walk(s, |scheme| + 3, Some(|scheme| + 2))
  {
    var s := scheme + "//" + rest;
    forall k | 0 <= k < |scheme|
      ensures !SlashesAt(s, k)
    {
      assert s[k] == scheme[k];
    }
    WalkBeforeServer(s, 0, |scheme|);
    assert SlashesAt(s, |scheme|);
  }

  /** "scheme://host/path": server "host", path "path", port 80. */
  lemma HostAndPath(scheme: seq<char>, host: seq<char>, path: seq<char>)
    requires '/' !in scheme && host != [] && ':' !in host && '/' !in host && path != []
    ensures var s := scheme + "//" + host + "/" + path;
      Parts(s) == UrlParts(Some(host), Some(path), DefaultPort) &&
      UrlOf(s).cuts == [|scheme| + 2 + |host|]
  {
    var s := scheme + "//" + host + "/" + path;
    var start := |scheme| + 2;
    var slash := start + |host|;
    assert s == scheme + "//" + (host + "/" + path);
    ReachServer(scheme, host + "/" + path);
    forall k | start + 1 <= k < slash
      ensures s[k] != ':' && s[k] != '/'
    {
      assert s[k] == host[k - start];
    }
    WalkInServer(s, start + 1, slash, start);
    assert s[slash] == '/';
    assert s[start..slash] == host;
    assert s[slash + 1..] == path;
  }

  /**
   * The loop stops when p[1] is the terminator, so a '/' (or ':') as the
   * last character is never examined: "scheme://host/" keeps the slash in
   * the server and has no path.
   */
  lemma TrailingSlashStaysInServer(scheme: seq<char>, host: seq<char>)
    requires '/' !in scheme && host != [] && ':' !in host && '/' !in host
    ensures Parts(scheme + "//" + host + "/") == UrlParts(Some(host + "/"), None, DefaultPort)
  {
    var s := scheme + "//" + host + "/";
    var start := |scheme| + 2;
    var slash := start + |host|;
    assert s == scheme + "//" + (host + "/");
    ReachServer(scheme, host + "/");
    forall k | start + 1 <= k < slash
      ensures s[k] != ':' && s[k] != '/'
    {
      assert s[k] == host[k - start];
    }
    WalkInServer(s, start + 1, slash, start);
    assert Walk(s, slash, Some(start)) == Split(Some(start), [], None, None);
    assert s[start..|s|] == host + "/";
  }

  /** The walk of scheme + "//" + host + ":" + rest reaches the port scan after the colon. */
  lemma ReachColon(scheme: seq<char>, host: seq<char>, rest: seq<char>)
    requires '/' !in scheme && host != [] && ':' !in host && '/' !in host && rest != []
    ensures var s := scheme + "//" + host + ":" + rest; var start := |scheme| + 2; var colon := start + |host|;
      colon < |s| && UrlOf(s) == PortScan(s, start, colon, colon + 1) && s[start..colon] == host && s[colon + 1..] == rest
  {
    var s := scheme + "//" + host + ":" + rest;
    var start := |scheme| + 2;
    var colon := start + |host|;
    assert s == scheme + "//" + (host + ":" + rest);
    ReachServer(scheme, host + ":" + rest);
    forall k | start + 1 <= k < colon
      ensures s[k] != ':' && s[k] != '/'
    {
      assert s[k] == host[k - start];
    }
    WalkInServer(s, start + 1, colon, start);
    assert s[colon] == ':';
    assert s[start..colon] == host;
    assert s[colon + 1..] == rest;
  }

  /** The port scan over digits and a '/': cuts at the '/', reads the digits' port and starts the path after it. */
  lemma ScanDigits(s: seq<char>, server: nat, colon: nat, digits: seq<char>, path: seq<char>)
    requires server < colon && colon + 1 <= |s| && s[colon + 1..] == digits + "/" + path
    requires forall m :: 0 <= m < |digits| ==> IsDigit(digits[m])
    ensures var slash := colon + 1 + |digits|;
      PortScan(s, server, colon, colon + 1) == Split(Some(server), [colon, slash], Some(slash + 1), Some(digits)) &&
      s[slash + 1..] == path
  {
    var rest := s[colon + 1..];
    var slash := colon + 1 + |digits|;
    forall m | colon + 1 <= m < slash
      ensures s[m] != '/'
    {
      assert s[m] == rest[m - colon - 1] == digits[m - colon - 1];
      assert IsDigit(digits[m - colon - 1]);
    }
    ScanInPort(s, server, colon, colon + 1, slash);
    assert s[slash] == rest[|digits|] == '/';
    assert s[colon + 1..slash] == rest[..|digits|] == digits;
    assert s[slash + 1..] == rest[|digits| + 1..] == path;
    assert PortScan(s, server, colon, slash) ==
      Split(Some(server), [colon, slash], Some(slash + 1), Some(s[colon + 1..slash]));
  }

  /** "scheme://host:N/path": server "host", port N (as a uint16), path "path". */
  lemma HostPortAndPath(scheme: seq<char>, host: seq<char>, n: nat, path: seq<char>)
    requires '/' !in scheme && host != [] && ':' !in host && '/' !in host
    ensures var s := scheme + "//" + host + ":" + Decimal(n) + "/" + path;
      Parts(s) == UrlParts(Some(host), Some(path), n % Uint16Modulus)
  {
    var digits := Decimal(n);
    var rest := digits + "/" + path;
    var s := scheme + "//" + host + ":" + rest;
    assert s == scheme + "//" + host + ":" + digits + "/" + path;
    var start := |scheme| + 2;
    var colon := start + |host|;
    var slash := colon + 1 + |digits|;
    ReachColon(scheme, host, rest);
    ScanDigits(s, start, colon, digits, path);
    var w := UrlOf(s);
    assert w == Split(Some(start), [colon, slash], Some(slash + 1), Some(digits));
    PortOfDecimal(n);
    assert w.Port() == n % Uint16Modulus;
    assert Parts(s) == UrlParts(Some(s[start..colon]), Some(s[slash + 1..]), w.Port());
    assert s[start..colon] == host && s[slash + 1..] == path;
  }

  /** A decimal port text reads back as its value modulo 2^16. */
  lemma PortOfDecimal(n: nat)
    ensures PortOf(Decimal(n)) == n % Uint16Modulus
  {
    AtoiDecimal(n, []);
    assert Decimal(n) + [] == Decimal(n);
  }

  /** "scheme://host:rest" with no '/' after the ':': server "host", port 80, no path. */
  lemma HostPortNoPath(scheme: seq<char>, host: seq<char>, rest: seq<char>)
    requires '/' !in scheme && host != [] && ':' !in host && '/' !in host && rest != [] && '/' !in rest
    ensures var s := scheme + "//" + host + ":" + rest;
      Parts(s) == UrlParts(Some(host), None, DefaultPort)
  {
    var s := scheme + "//" + host + ":" + rest;
    var start := |scheme| + 2;
    var colon := start + |host|;
    ReachColon(scheme, host, rest);
    forall m | colon + 1 <= m < |s|
      ensures s[m] != '/'
    {
      assert s[m] == rest[m - colon - 1];
    }
    ScanInPort(s, start, colon, colon + 1, |s|);
  }

  /** With the buffer cut, the C string at a split's start ends at the next NUL written. */
  lemma CutCString(b: seq<char>, cuts: seq<nat>, a: nat, e: nat)
    requires forall k :: 0 <= k < |cuts| ==> cuts[k] < |b|
    requires a <= e < |b| && Nul !in b[a..e] && (e in cuts || b[e] == Nul)
    requires forall k :: 0 <= k < |cuts| ==> !(a <= cuts[k] < e)
    ensures CStr(Cut(b, cuts)[a..]) == b[a..e]
  {
    var r := Cut(b, cuts);
    assert r[a..][e - a] == Nul;
    CStrOfTerminated(r[a..], e - a);
    assert r[a..][..e - a] == b[a..e];
    CStrOfPlain(b[a..e]);
  }

  /** The C strings the struct's fields point at in the cut buffer are the parts of the URL. */
  lemma CutParts(b: seq<char>)
    requires |CStr(b)| < |b|
    ensures var s := CStr(b); var w := UrlOf(s); var parts := Parts(s); var r := Cut(b, w.cuts);
      (w.server.Some? <==> parts.server.Some?) && (w.server.Some? ==> CStr(r[w.server.value..]) == parts.server.value) &&
      (w.path.Some? <==> parts.path.Some?) && (w.path.Some? ==> CStr(r[w.path.value..]) == parts.path.value)
  {
    var s := CStr(b);
    var w := UrlOf(s);
    if w.server.Some? {
      CutServer(b, s, w);
    }
    if w.path.Some? {
      CutPath(b, s, w);
    }
  }

  /** The cuts of a well-formed split come after the server, the first one first, and all of them before the path. */
  lemma CutsInOrder(s: seq<char>, w: Split)
    requires WellFormed(s, w)
    ensures forall k :: 0 <= k < |w.cuts| ==> w.server.Some? && w.server.value < w.cuts[0] <= w.cuts[k] < |s|
    ensures w.path.Some? ==> forall k :: 0 <= k < |w.cuts| ==> w.cuts[k] < w.path.value
  {
  }

  /** The server's C string in the cut buffer runs to the first cut, or to the end. */
  lemma CutServer(b: seq<char>, s: seq<char>, w: Split)
    requires s == CStr(b) && |s| < |b| && WellFormed(s, w) && w.server.Some?
    ensures CStr(Cut(b, w.cuts)[w.server.value..]) == s[w.server.value..if w.cuts == [] then |s| else w.cuts[0]]
  {
    var e := if w.cuts == [] then |s| else w.cuts[0];
    CutsInOrder(s, w);
    assert w.cuts != [] ==> e in w.cuts;
    CutFrom(b, s, w, w.server.value, e);
  }

  /** The path's C string in the cut buffer runs to the end. */
  lemma CutPath(b: seq<char>, s: seq<char>, w: Split)
    requires s == CStr(b) && |s| < |b| && WellFormed(s, w) && w.path.Some?
    ensures CStr(Cut(b, w.cuts)[w.path.value..]) == s[w.path.value..]
  {
    CutsInOrder(s, w);
    CutFrom(b, s, w, w.path.value, |s|);
  }

  /** A part of a well-formed split that no cut falls inside reads back, from the cut buffer, as the URL's text there. */
  lemma CutFrom(b: seq<char>, s: seq<char>, w: Split, a: nat, e: nat)
    requires s == CStr(b) && |s| < |b| && WellFormed(s, w)
    requires a <= e <= |s| && (e in w.cuts || e == |s|)
    requires forall k :: 0 <= k < |w.cuts| ==> !(a <= w.cuts[k] < e)
    ensures CStr(Cut(b, w.cuts)[a..]) == s[a..e]
  {
    assert s[a..e] == b[a..e];
    CutCString(b, w.cuts, a, e);
  }

  /**
   * The constructor's walk over a buffer holding a NUL-terminated URL: it
   * writes NULs into the buffer and returns where the server and the path
   * start, and the port.
   */
  method CutUrl(url: array<char>) returns (server: Option<nat>, path: Option<nat>, port: uint16)
    requires |CStr(url[..])| < url.Length
    modifies url
    ensures var w := UrlOf(CStr(old(url[..])));
      server == w.server && path == w.path && port == w.Port() && url[..] == Cut(old(url[..]), w.cuts)
  {
    ghost var b := url[..];
    ghost var s := CStr(b);
    ghost var w := UrlOf(s);
    var p := 0;
    server := None;
    path := None;
    port := DefaultPort;
    while url[p] != Nul && url[p + 1] != Nul
      invariant p <= |s| && (server.Some? ==> server.value < p)
      invariant url[..] == b && w == Walk(s, p, server)
      decreases |s| - p
    {
      if server.None? && url[p] == '/' && url[p + 1] == '/' {
        p := p + 2;
        server := Some(p);
        if url[p] == Nul {
          return;
        }
      } else if server.Some? && url[p] == ':' {
        path, port := CutAtColon(url, server.value, p);
        return;
      } else if server.Some? && url[p] == '/' {
        url[p] := Nul;
        assert url[..] == Cut(b, [p]);
        path := Some(p + 1);
        return;
      }
      p := p + 1;
    }
  }

  /** The ':' branch: cut at the colon, then at the first '/' after it, reading the port between. */
  /** A '/' after the colon ends the port: the text between them is the C string the cut leaves at the port. */
  lemma PortAtSlash(b: seq<char>, server: nat, colon: nat, p: nat)
    requires |CStr(b)| < |b| && server < colon < p < |CStr(b)| && CStr(b)[p] == '/'
    requires PortScan(CStr(b), server, colon, colon + 1) == PortScan(CStr(b), server, colon, p)
    ensures var w := PortScan(CStr(b), server, colon, colon + 1);
      w.cuts == [colon, p] && w.path == Some(p + 1) && w.Port() == PortOf(CStr(Cut(b, [colon, p])[colon + 1..]))
  {
    var s := CStr(b);
    assert s[colon + 1..p] == b[colon + 1..p];
    CutCString(b, [colon, p], colon + 1, p);
  }

  /** Cutting at one or two positions is writing NUL there. */
  lemma CutAtOneTwo(b: seq<char>, i: nat, j: nat)
    requires i < |b| && j < |b|
    ensures Cut(b, [i]) == b[i := Nul]
    ensures Cut(b, [i, j]) == b[i := Nul][j := Nul]
  {
    assert [i][1..] == [];
    assert [i, j][1..] == [j];
    assert Cut(b[i := Nul], [j]) == Cut(b[i := Nul][j := Nul], []);
  }

  method CutAtColon(url: array<char>, ghost server: nat, colon: nat) returns (path: Option<nat>, port: uint16)
    requires |CStr(url[..])| < url.Length && server < colon < |CStr(url[..])|
    modifies url
    ensures var w := PortScan(CStr(old(url[..])), server, colon, colon + 1);
      path == w.path && port == w.Port() && url[..] == Cut(old(url[..]), w.cuts)
  {
    ghost var b := url[..];
    ghost var s := CStr(b);
    ghost var w := PortScan(s, server, colon, colon + 1);
    url[colon] := Nul;
    ghost var c := url[..];
    assert forall i :: colon < i <= |s| ==> c[i] == (if i < |s| then s[i] else Nul);
    var p := colon + 1;
    var portBegin := p;
    path := None;
    port := DefaultPort;
    while url[p] != Nul
      invariant colon < p <= |s|
      invariant url[..] == c && w == PortScan(s, server, colon, p)
      decreases |s| - p
    {
      if url[p] == '/' {
        url[p] := Nul;
        CutAtOneTwo(b, colon, p);
        PortAtSlash(b, server, colon, p);
        port := PortOf(CStr(url[portBegin..]));
        path := Some(p + 1);
        return;
      }
      p := p + 1;
    }
    CutAtOneTwo(b, colon, colon);
  }

  /** Url(char *url): the struct's fields, pointing into the cut buffer. */
  class Url {
    var server: Option<nat>
    var path: Option<nat>
    var port: uint16

    constructor (url: array<char>)
      requires |CStr(url[..])| < url.Length
      modifies url
      ensures var s := CStr(old(url[..])); var w := UrlOf(s);
        server == w.server && path == w.path && port == w.Port() && url[..] == Cut(old(url[..]), w.cuts)
      ensures var parts := Parts(CStr(old(url[..])));
        (server.Some? <==> parts.server.Some?) && (server.Some? ==> CStr(url[server.value..]) == parts.server.value) &&
        (path.Some? <==> parts.path.Some?) && (path.Some? ==> CStr(url[path.value..]) == parts.path.value) &&
        port == parts.port
    {
      CutParts(url[..]);
      var srv, pth, prt := CutUrl(url);
      server, path, port := srv, pth, prt;
    }
  }
}
