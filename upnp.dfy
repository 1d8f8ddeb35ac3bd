/** The UPnP side of the library: the tiny HTTP helpers (header lists written
    as text, URIs split by a regular expression), SSDP discovery (the M-SEARCH
    request and the reading of a reply datagram), the SOAP bodies sent to the
    renderer, and the one-shot content server. Sockets, aiohttp and lxml are
    not modelled: what a socket would send is recorded in a field. */
module Upnp {
  import opened Wrappers
  import opened Dicts
  import Text

  const SsdpHost := "239.255.255.250"
  const SsdpPort := 1900
  const DenonDevice := "urn:schemas-denon-com:device:AiosDevice:1"
  const MediaDevice := "urn:schemas-upnp-org:device:MediaRenderer:1"
  const AvTransportService := "urn:schemas-upnp-org:service:AVTransport:1"
  const UserAgent := "Mega client v0.0.1"
  const ServerName := "Mega Server v0.0.1"
  const OkLine := "HTTP/1.1 200 OK"

  /** The exceptions the modelled code can raise. */
  datatype UpnpError =
    | KeyError        // a reply without the header looked up
    | ValueError      // a header line with more than one ": "
    | InvalidState    // a discovery future that already holds a result
    | EncodeError     // a non-ASCII M-SEARCH request
    | NoMatch         // _parse_uri on a text the pattern does not match

  // ================================================================ headers

  /** Headers in insertion order (a Python dict of text to text). */
  type Headers = seq<(string, string)>

  /** The text get_headers writes for the headers: one `key: value` line each. */
  function HeaderBlock(h: Headers): string
    decreases |h|
  {
    if h == [] then ""
    else HeaderBlock(h[..|h| - 1]) + h[|h| - 1].0 + ": " + h[|h| - 1].1 + "\r\n"
  }

  /** The header lines without their line ends. */
  function HeaderLines(h: Headers): (lines: seq<string>)
    ensures |lines| == |h|
    ensures forall i :: 0 <= i < |h| ==> lines[i] == h[i].0 + ": " + h[i].1
  {
    seq(|h|, i requires 0 <= i < |h| => h[i].0 + ": " + h[i].1)
  }

  /** A non-empty header block is the header lines joined by CRLF, plus a CRLF. */
  lemma {:induction false} HeaderBlockLines(h: Headers)
    requires h != []
    ensures HeaderBlock(h) == Text.Join(HeaderLines(h), "\r\n") + "\r\n"
    decreases |h|
  {
    var init := h[..|h| - 1];
    var line := h[|h| - 1].0 + ": " + h[|h| - 1].1;
    assert HeaderBlock(h) == HeaderBlock(init) + line + "\r\n";
    assert HeaderLines(h) == HeaderLines(init) + [line];
    if init == [] {
      assert HeaderLines(h) == [line];
    } else {
      HeaderBlockLines(init);
      Text.JoinSnoc(HeaderLines(init), line, "\r\n");
    }
  }

  /** The header block is the header lines joined by CRLF, with a final CRLF. */
  lemma HeaderBlockJoin(h: Headers)
    ensures HeaderBlock(h) == Text.Join(HeaderLines(h) + [""], "\r\n")
  {
    if h == [] {
      assert HeaderLines(h) + [""] == [""];
    } else {
      HeaderBlockLines(h);
      Text.JoinSnoc(HeaderLines(h), "", "\r\n");
    }
  }

  /** get_headers: the header text accumulated line by line. */
  method WriteHeaders(h: Headers) returns (text: string)
    ensures text == HeaderBlock(h)
  {
    text := "";
    for i := 0 to |h|
      invariant text == HeaderBlock(h[..i])
    {
      assert h[..i + 1][..i] == h[..i];
      text := text + h[i].0 + ": " + h[i].1 + "\r\n";
    }
    assert h[..|h|] == h;
  }

  /** The HTTP client helper: a header dict that add_header updates in place. */
  class Http {
    var headers: Headers

    constructor ()
      ensures headers == []
    {
      headers := [];
    }

    /** add_header: a present key keeps its place and gets the new value. */
    method AddHeader(key: string, value: string)
      modifies `headers
      ensures headers == Assign(old(headers), key, value)
    {
      headers := Assign(headers, key, value);
    }

    method AddUserAgentHeader()
      modifies `headers
      ensures headers == Assign(old(headers), "user_agent", UserAgent)
    {
      AddHeader("user_agent", UserAgent);
    }

    method GetHeaders() returns (text: string)
      ensures text == HeaderBlock(headers)
    {
      text := WriteHeaders(headers);
    }
  }

  /** The HTTP response helper: a status and a header dict that already holds
      Server and then Date when built. */
  class HttpResponse {
    const status: string
    var headers: Headers

    /** HttpResponse(status); `date` stands for the formatted wall-clock time. */
    constructor (status: string, date: string)
      ensures this.status == status
      ensures headers == [("Server", ServerName), ("Date", date)]
    {
      this.status := status;
      headers := [("Server", ServerName)];
      new;
      AddHeader("Date", date);
    }

    method AddHeader(key: string, value: string)
      modifies `headers
      ensures headers == Assign(old(headers), key, value)
    {
      headers := Assign(headers, key, value);
    }

    method GetHeaders() returns (text: string)
      ensures text == HeaderBlock(headers)
    {
      text := WriteHeaders(headers);
    }

    method GetStatus() returns (line: string)
      ensures line == StatusLine(status)
    {
      line := "HTTP/1.1 " + status + " OK\r\n";
    }
  }

  /** get_status: the status line for any status text. */
  function StatusLine(status: string): (line: string)
    ensures |line| == |status| + 14 && Text.StartsWith(line, "HTTP/1.1 ")
    ensures line[9..|line| - 5] == status && line[|line| - 5..] == " OK\r\n"
  {
    "HTTP/1.1 " + status + " OK\r\n"
  }

  // ================================================================ URIs

  /** A port as _parse_uri returns it: the digits matched, or the integer 80. */
  datatype Port = Digits(text: string) | Number(n: int)

  datatype Uri = Uri(host: string, port: Port, path: string)

  /** The match of `https?://([^:/]+)(:([0-9]+))?(.*)$` starting at index i. */
  function UriAt(uri: string, i: nat): (r: Option<Uri>)
    ensures r.Some? ==> |r.value.host| > 0 && forall m :: 0 <= m < |r.value.host| ==> Text.IsHostChar(r.value.host[m])
    ensures r.Some? && r.value.port.Digits? ==> |r.value.port.text| > 0 && Text.AllDigits(r.value.port.text)
    ensures r.Some? && r.value.port.Number? ==> r.value.port.n == 80
  {
    match Text.SchemeEnd(uri, i)
    case None => None
    case Some(j) =>
      var k := Text.HostEnd(uri, j);
      if k == j then None
      else
        var hasPort := k + 1 < |uri| && uri[k] == ':' && Text.IsDigit(uri[k + 1]);
        var p := if hasPort then Text.DigitsEnd(uri, k + 1) else k;
        if !Text.RestOfLine(uri, p) then None
        else Some(Uri(uri[j..k], if hasPort then Digits(uri[k + 1..p]) else Number(80), uri[p..Text.LineEnd(uri, p)]))
  }

  /** re.search: the leftmost index at which the pattern matches. */
  function SearchUri(uri: string, i: nat): (r: Option<Uri>)
    ensures r.Some? ==> |r.value.host| > 0 && forall m :: 0 <= m < |r.value.host| ==> Text.IsHostChar(r.value.host[m])
    ensures r.Some? ==> (r.value.port.Digits? && Text.AllDigits(r.value.port.text)) || r.value.port == Number(80)
    decreases |uri| + 1 - i
  {
    if i > |uri| then None
    else match UriAt(uri, i)
      case Some(u) => Some(u)
      case None => SearchUri(uri, i + 1)
  }

  /** _parse_uri: host, port and path; a text without a match raises. */
  function ParseUri(uri: string): Result<Uri, UpnpError> {
    match SearchUri(uri, 0)
    case Some(u) => Ok(u)
    case None => Err(NoMatch)
  }

  lemma SchemeEndOf(scheme: string, rest: string)
    requires scheme == "http://" || scheme == "https://"
    ensures Text.SchemeEnd(scheme + rest, 0) == Some(|scheme|)
  {
    var uri := scheme + rest;
    if scheme == "http://" {
      assert uri[4] == ':';
      assert uri[0..7] == "http://";
    } else {
      assert uri[0..8] == "https://";
    }
  }

  /** `.*$` takes the whole of a path without a line feed. */
  lemma PathPart(prefix: string, path: string)
    requires '\n' !in path
    ensures Text.RestOfLine(prefix + path, |prefix|)
    ensures Text.LineEnd(prefix + path, |prefix|) == |prefix + path|
    ensures (prefix + path)[|prefix|..] == path
  {
    var uri := prefix + path;
    forall m | |prefix| <= m < |uri|
      ensures uri[m] == path[m - |prefix|]
    {
    }
  }

  /** The match at index 0 in terms of where the host, the port and the path start. */
  lemma UriAtParts(uri: string, j: nat, k: nat, p: nat)
    requires Text.SchemeEnd(uri, 0) == Some(j) && j < k <= p <= |uri|
    requires forall m :: j <= m < k ==> Text.IsHostChar(uri[m])
    requires k < |uri| ==> !Text.IsHostChar(uri[k])
    requires p == k ==> !(k + 1 < |uri| && uri[k] == ':' && Text.IsDigit(uri[k + 1]))
    requires p != k ==> p > k + 1 && uri[k] == ':' && (forall m :: k + 1 <= m < p ==> Text.IsDigit(uri[m]))
    requires p != k && p < |uri| ==> !Text.IsDigit(uri[p])
    requires Text.RestOfLine(uri, p) && Text.LineEnd(uri, p) == |uri|
    ensures UriAt(uri, 0) == Some(Uri(uri[j..k], if p == k then Number(80) else Digits(uri[k + 1..p]), uri[p..]))
  {
    assert Text.HostEnd(uri, j) == k;
    assert uri[p..Text.LineEnd(uri, p)] == uri[p..];
    if p != k {
      assert Text.IsDigit(uri[k + 1]);
      assert Text.DigitsEnd(uri, k + 1) == p;
    }
  }

  /** The host of a URL is the run of host characters after the scheme. */
  lemma HostPart(scheme: string, host: string, rest: string)
    requires |host| > 0 && forall m :: 0 <= m < |host| ==> Text.IsHostChar(host[m])
    ensures var uri := scheme + host + rest;
      && uri[|scheme|..|scheme| + |host|] == host
      && forall m :: |scheme| <= m < |scheme| + |host| ==> Text.IsHostChar(uri[m])
  {
    var uri := scheme + host + rest;
    assert uri == scheme + (host + rest);
    forall m | |scheme| <= m < |scheme| + |host|
      ensures uri[m] == host[m - |scheme|]
    {
    }
  }

  /** The match at index 0 of a URL without a port. */
  lemma UriAtNoPort(scheme: string, host: string, path: string)
    requires scheme == "http://" || scheme == "https://"
    requires |host| > 0 && forall m :: 0 <= m < |host| ==> Text.IsHostChar(host[m])
    requires path == [] || path[0] == '/'
    requires '\n' !in path
    ensures UriAt(scheme + host + path, 0) == Some(Uri(host, Number(80), path))
  {
    var uri := scheme + host + path;
    var k := |scheme| + |host|;
    SchemeEndOf(scheme, host + path);
    assert uri == scheme + (host + path);
    HostPart(scheme, host, path);
    PathPart(scheme + host, path);
    assert k < |uri| ==> uri[k] == path[0];
    UriAtParts(uri, |scheme|, k, k);
  }

  /** The match at index 0 of a URL with a port. */
  lemma UriAtWithPort(scheme: string, host: string, port: string, path: string)
    requires scheme == "http://" || scheme == "https://"
    requires |host| > 0 && forall m :: 0 <= m < |host| ==> Text.IsHostChar(host[m])
    requires |port| > 0 && Text.AllDigits(port)
    requires path == [] || path[0] == '/'
    requires '\n' !in path
    ensures UriAt(scheme + host + ":" + port + path, 0) == Some(Uri(host, Digits(port), path))
  {
    var k := |scheme| + |host|;
    PortUriScheme(scheme, host, port, path);
    PortUriHost(scheme, host, port, path);
    PortUriPort(scheme, host, port, path);
    PortUriPath(scheme, host, port, path);
    UriAtParts(scheme + host + ":" + port + path, |scheme|, k, k + 1 + |port|);
  }

  lemma PortUriScheme(scheme: string, host: string, port: string, path: string)
    requires scheme == "http://" || scheme == "https://"
    ensures Text.SchemeEnd(scheme + host + ":" + port + path, 0) == Some(|scheme|)
  {
    SchemeEndOf(scheme, host + ":" + port + path);
    assert scheme + host + ":" + port + path == scheme + (host + ":" + port + path);
  }

  lemma PortUriHost(scheme: string, host: string, port: string, path: string)
    requires |host| > 0 && forall m :: 0 <= m < |host| ==> Text.IsHostChar(host[m])
    ensures var uri := scheme + host + ":" + port + path;
      && uri[|scheme|..|scheme| + |host|] == host
      && (forall m :: |scheme| <= m < |scheme| + |host| ==> Text.IsHostChar(uri[m]))
      && uri[|scheme| + |host|] == ':'
  {
    HostPart(scheme, host, ":" + port + path);
    assert scheme + host + ":" + port + path == scheme + host + (":" + port + path);
  }

  lemma PortUriPort(scheme: string, host: string, port: string, path: string)
    requires Text.AllDigits(port)
    ensures var uri := scheme + host + ":" + port + path;
      && uri[|scheme| + |host| + 1..|scheme| + |host| + 1 + |port|] == port
      && forall m :: |scheme| + |host| + 1 <= m < |scheme| + |host| + 1 + |port| ==> Text.IsDigit(uri[m])
  {
    PortDigits(scheme + host + ":", port, path);
  }

  lemma PortUriPath(scheme: string, host: string, port: string, path: string)
    requires path == [] || path[0] == '/'
    requires '\n' !in path
    ensures var uri := scheme + host + ":" + port + path;
      var p := |scheme| + |host| + 1 + |port|;
      && Text.RestOfLine(uri, p) && Text.LineEnd(uri, p) == |uri| && uri[p..] == path
      && (p < |uri| ==> !Text.IsDigit(uri[p]))
  {
    var prefix := scheme + host + ":" + port;
    PathPart(prefix, path);
    if path != [] {
      assert (prefix + path)[|prefix|] == path[0];
    }
  }

  /** The port digits of a URL, read back from where they were written. */
  lemma PortDigits(front: string, port: string, path: string)
    requires Text.AllDigits(port)
    ensures var uri := front + port + path;
      && uri[|front|..|front| + |port|] == port
      && forall m :: |front| <= m < |front| + |port| ==> Text.IsDigit(uri[m])
  {
    var uri := front + port + path;
    assert uri == front + (port + path);
    forall m | |front| <= m < |front| + |port|
      ensures uri[m] == port[m - |front|]
    {
    }
  }

  /** A one-line http(s) URL splits into the host, the port digits (80 when
      there are none) and the path it was written from. */
  lemma ParseUriOfUrl(scheme: string, host: string, port: string, path: string)
    requires scheme == "http://" || scheme == "https://"
    requires |host| > 0 && forall m :: 0 <= m < |host| ==> Text.IsHostChar(host[m])
    requires Text.AllDigits(port)
    requires path == [] || path[0] == '/'
    requires '\n' !in path
    ensures ParseUri(scheme + host + (if port == "" then "" else ":" + port) + path)
            == Ok(Uri(host, if port == "" then Number(80) else Digits(port), path))
  {
    if port == "" {
      assert scheme + host + "" + path == scheme + host + path;
      UriAtNoPort(scheme, host, path);
    } else {
      assert scheme + host + (":" + port) + path == scheme + host + ":" + port + path;
      UriAtWithPort(scheme, host, port, path);
    }
  }

  // ================================================================ SSDP discovery

  /** The lines of the M-SEARCH request. */
  function MSearchLines(host: string, port: int, target: string): seq<string> {
    ["M-SEARCH * HTTP/1.1",
     "Host: " + host + ":" + Text.IntToDecimal(port),
     "Man: \"ssdp:discover\"",
     "ST: " + target,
     "MX: 3",
     "",
     ""]
  }

  /** The M-SEARCH request text: the lines joined by CRLF. */
  function MSearch(host: string, port: int, target: string): string {
    Text.Join(MSearchLines(host, port, target), "\r\n")
  }

  /** The request reads back, line by line, as the five request lines and the
      empty line that ends it; the text ends with a blank line. */
  lemma MSearchLinesBack(host: string, port: int, target: string)
    requires '\r' !in host && '\r' !in target
    ensures Text.Split(MSearch(host, port, target), "\r\n") == MSearchLines(host, port, target)
    ensures var text := MSearch(host, port, target);
      |text| >= 4 && text[|text| - 4..] == "\r\n\r\n"
  {
    var lines := MSearchLines(host, port, target);
    DecimalHasNoCr(port);
    assert '\r' !in lines[1];
    assert '\r' !in lines[3];
    Text.SplitJoin(lines, "\r\n");
    EndsWithBlankLine(lines, "\r\n");
  }

  lemma DecimalHasNoCr(i: int)
    ensures '\r' !in Text.IntToDecimal(i)
  {
    var digits := Text.NatToDecimal(if i < 0 then -i else i);
    Text.NatToDecimalDigits(if i < 0 then -i else i);
    assert forall m :: 0 <= m < |digits| ==> Text.IsDigit(digits[m]);
  }

  /** Joining parts whose last two are empty ends the text with two separators. */
  lemma EndsWithBlankLine(parts: seq<string>, sep: string)
    requires |parts| >= 3 && parts[|parts| - 1] == "" && parts[|parts| - 2] == ""
    ensures var text := Text.Join(parts, sep);
      |text| >= 2 * |sep| && text[|text| - 2 * |sep|..] == sep + sep
  {
    var n := |parts|;
    Text.JoinSnoc(parts[..n - 1], "", sep);
    assert parts[..n - 1] + [""] == parts;
    Text.JoinSnoc(parts[..n - 2], "", sep);
    assert parts[..n - 2] + [""] == parts[..n - 1];
    var head := Text.Join(parts[..n - 2], sep);
    assert Text.Join(parts, sep) == head + (sep + sep);
  }

  /** `sub` occurs somewhere in `s` (Python's `sub in s`). */
  predicate Contains(s: string, sub: string) {
    exists i: nat | i <= |s| :: Text.OccursAt(s, sub, i)
  }

  /** The reply headers a datagram's lines give: each line holding ": " is
      split on it and must give exactly a name and a value (else ValueError);
      names are lowercased, and a later line wins for a repeated name. */
  function ReplyHeaders(lines: seq<string>): Option<Headers>
    decreases |lines|
  {
    if lines == [] then Some([])
    else match ReplyHeaders(lines[..|lines| - 1])
      case None => None
      case Some(reply) =>
        var line := lines[|lines| - 1];
        if !Contains(line, ": ") then Some(reply)
        else
          var parts := Text.Split(line, ": ");
          if |parts| != 2 then None else Some(Assign(reply, Text.Lower(parts[0]), parts[1]))
  }

  lemma {:induction false} ReplyHeadersStopsAt(lines: seq<string>, k: nat)
    requires k <= |lines| && ReplyHeaders(lines[..k]).None?
    ensures ReplyHeaders(lines).None?
    decreases |lines| - k
  {
    if k < |lines| {
      assert lines[..|lines| - 1][..k] == lines[..k];
      ReplyHeadersStopsAt(lines[..|lines| - 1], k);
    } else {
      assert lines[..k] == lines;
    }
  }

  /** What datagram_received concludes from a datagram: nothing unless it is a
      200 reply whose `st` header is the search target, then its location. */
  function Datagram(data: string, target: string): Result<Option<string>, UpnpError> {
    var content := Text.Split(data, "\r\n");
    if content[0] != OkLine then Ok(None)
    else match ReplyHeaders(content)
      case None => Err(ValueError)
      case Some(reply) =>
        match Lookup(reply, "st")
        case None => Err(KeyError)
        case Some(st) =>
          if st != target then Ok(None)
          else match Lookup(reply, "location")
            case None => Err(KeyError)
            case Some(url) => Ok(Some(url))
  }

  /** A header list `ReplyHeaders` reads back: names without ':' and no CR, values
      without ": " and no CR. */
  predicate Readable(h: Headers) {
    forall i :: 0 <= i < |h| ==>
      ':' !in h[i].0 && '\r' !in h[i].0 && '\r' !in h[i].1 && Text.NoOccurrence(h[i].1, ": ")
  }

  /** The headers with lowercased names, as the reply dict collects them. */
  function Lowered(h: Headers): Headers
    decreases |h|
  {
    if h == [] then []
    else Assign(Lowered(h[..|h| - 1]), Text.Lower(h[|h| - 1].0), h[|h| - 1].1)
  }

  lemma NoColonNoSeparator(s: string)
    requires ':' !in s
    ensures !Contains(s, ": ")
  {
    Text.NoFirstCharNoOccurrence(s, ": ");
  }

  /** A header line splits back into its name and its value. */
  lemma HeaderLineBack(name: string, value: string)
    requires ':' !in name && Text.NoOccurrence(value, ": ")
    ensures Contains(name + ": " + value, ": ")
    ensures Text.Split(name + ": " + value, ": ") == [name, value]
  {
    var line := name + ": " + value;
    assert Text.OccursAt(line, ": ", |name|);
    Text.SplitAfterPiece(name, ": ", value);
    Text.SplitNoOccurrence(value, ": ");
  }

  /** The status line followed by header lines reads back as the lowercased headers. */
  lemma {:induction false} ReplyHeadersOfLines(h: Headers)
    requires Readable(h)
    ensures ReplyHeaders([OkLine] + HeaderLines(h)) == Some(Lowered(h))
    decreases |h|
  {
    var lines := [OkLine] + HeaderLines(h);
    if h == [] {
      assert lines == [OkLine];
      assert lines[..0] == [];
      NoColonNoSeparator(OkLine);
    } else {
      var init := h[..|h| - 1];
      var (name, value) := h[|h| - 1];
      assert Readable(init) by {
        assert forall i :: 0 <= i < |init| ==> init[i] == h[i];
      }
      ReplyHeadersOfLines(init);
      assert lines[..|lines| - 1] == [OkLine] + HeaderLines(init);
      assert lines[|lines| - 1] == name + ": " + value;
      HeaderLineBack(name, value);
    }
  }

  /** A reply written as the status line, the header block and a blank line
      reads back, line by line, as the lowercased headers. */
  lemma ReplyHeadersOfReply(h: Headers)
    requires Readable(h)
    ensures Text.Split(OkLine + "\r\n" + HeaderBlock(h) + "\r\n", "\r\n") == [OkLine] + HeaderLines(h) + ["", ""]
    ensures ReplyHeaders([OkLine] + HeaderLines(h) + ["", ""]) == Some(Lowered(h))
  {
    ReplySplitsIntoLines(h);
    ReplyHeadersWithBlanks(h);
  }

  /** The reply text splits at its line ends into the status line, the header
      lines and two empty lines. */
  lemma ReplySplitsIntoLines(h: Headers)
    requires Readable(h)
    ensures Text.Split(OkLine + "\r\n" + HeaderBlock(h) + "\r\n", "\r\n") == [OkLine] + HeaderLines(h) + ["", ""]
  {
    var lines := [OkLine] + HeaderLines(h) + ["", ""];
    HeaderBlockJoin(h);
    Text.JoinSnoc(HeaderLines(h) + [""], "", "\r\n");
    assert HeaderLines(h) + ["", ""] == HeaderLines(h) + [""] + [""];
    assert lines == [OkLine] + (HeaderLines(h) + ["", ""]);
    assert lines[1..] == HeaderLines(h) + ["", ""];
    assert Text.Join(lines, "\r\n") == OkLine + "\r\n" + HeaderBlock(h) + "\r\n";
    forall i | 0 <= i < |lines|
      ensures '\r' !in lines[i]
    {
      if 1 <= i < |lines| - 2 {
        assert lines[i] == h[i - 1].0 + ": " + h[i - 1].1;
      }
    }
    Text.SplitJoin(lines, "\r\n");
  }

  /** The two empty lines that end a reply add no header. */
  lemma ReplyHeadersWithBlanks(h: Headers)
    requires Readable(h)
    ensures ReplyHeaders([OkLine] + HeaderLines(h) + ["", ""]) == Some(Lowered(h))
  {
    var lines := [OkLine] + HeaderLines(h) + ["", ""];
    ReplyHeadersOfLines(h);
    var withBlank := [OkLine] + HeaderLines(h) + [""];
    assert lines[..|lines| - 1] == withBlank;
    assert withBlank[..|withBlank| - 1] == [OkLine] + HeaderLines(h);
    assert !Contains("", ": ");
  }

  /** A 200 reply written with the header writer is understood: the location
      is taken exactly when the lowercased `st` header is the search target. */
  lemma DatagramOfReply(h: Headers, target: string)
    requires Readable(h)
    ensures var reply := Lowered(h);
      Datagram(OkLine + "\r\n" + HeaderBlock(h) + "\r\n", target)
      == match Lookup(reply, "st")
         case None => Err(KeyError)
         case Some(st) =>
           if st != target then Ok(None)
           else match Lookup(reply, "location")
             case None => Err(KeyError)
             case Some(url) => Ok(Some(url))
  {
    ReplyHeadersOfReply(h);
  }

  /** The datagram protocol of one discovery: it sends the M-SEARCH request,
      and the first matching reply settles the future and closes the transport. */
  class DiscoverProtocol {
    const ssdpHost: string
    const ssdpPort: int
    const searchTarget: string
    var sent: seq<string>
    var result: Option<string>
    var closed: bool

    constructor (ssdpHost: string, ssdpPort: int, searchTarget: string)
      ensures this.ssdpHost == ssdpHost && this.ssdpPort == ssdpPort && this.searchTarget == searchTarget
      ensures sent == [] && result.None? && !closed
    {
      this.ssdpHost, this.ssdpPort, this.searchTarget := ssdpHost, ssdpPort, searchTarget;
      sent, result, closed := [], None, false;
    }

    /** connection_made: the request is ASCII-encoded and sent to the SSDP address. */
    method ConnectionMade() returns (r: Outcome<UpnpError>)
      modifies `sent
      ensures var msg := MSearch(ssdpHost, ssdpPort, searchTarget);
        if Text.IsAscii(msg) then sent == old(sent) + [msg] && r == Pass
        else sent == old(sent) && r == Fail(EncodeError)
    {
      var msg := Text.Join(MSearchLines(ssdpHost, ssdpPort, searchTarget), "\r\n");
      if !Text.IsAscii(msg) {
        return Fail(EncodeError);
      }
      sent := sent + [msg];
      r := Pass;
    }

    /** datagram_received: the reply dict is built line by line; a reply naming
        the search target settles the future (raising if it already holds a
        result) and closes the transport. */
    method DatagramReceived(data: string) returns (r: Outcome<UpnpError>)
      modifies `result, `closed
      ensures match Datagram(data, searchTarget)
        case Err(e) => r == Fail(e) && result == old(result) && closed == old(closed)
        case Ok(None) => r == Pass && result == old(result) && closed == old(closed)
        case Ok(Some(url)) =>
          if old(result).Some? then r == Fail(InvalidState) && result == old(result) && closed == old(closed)
          else r == Pass && result == Some(url) && closed
    {
      var content := Text.Split(data, "\r\n");
      if content[0] != OkLine {
        return Pass;
      }
      var reply: Headers := [];
      for i := 0 to |content|
        invariant ReplyHeaders(content[..i]) == Some(reply)
      {
        assert content[..i + 1][..i] == content[..i];
        var line := content[i];
        if Contains(line, ": ") {
          var parts := Text.Split(line, ": ");
          if |parts| != 2 {
            ReplyHeadersStopsAt(content, i + 1);
            return Fail(ValueError);
          }
          reply := Assign(reply, Text.Lower(parts[0]), parts[1]);
        }
      }
      assert content[..|content|] == content;
      var st := Lookup(reply, "st");
      if st.None? {
        return Fail(KeyError);
      }
      if st.value != searchTarget {
        return Pass;
      }
      var url := Lookup(reply, "location");
      if url.None? {
        return Fail(KeyError);
      }
      if result.Some? {
        return Fail(InvalidState);
      }
      result := url;
      closed := true;
      r := Pass;
    }
  }

  // ================================================================ SOAP bodies

  const XmlHead := "<?xml version=\"1.0\" encoding=\"utf-8\"?>"
  const EnvelopeOpen := "<s:Envelope s:encodingStyle=\"http://schemas.xmlsoap.org/soap/encoding/\" xmlns:s=\"http://schemas.xmlsoap.org/soap/envelope/\"><s:Body>"
  const EnvelopeClose := "</s:Body></s:Envelope>"

  /** The body set_avtransport_uri posts: the uri goes in verbatim. */
  function SetAvTransportUriBody(service: string, uri: string): string {
    XmlHead + EnvelopeOpen
    + "<u:SetAVTransportURI xmlns:u=\"" + service + "\">"
    + "<InstanceID>0</InstanceID>"
    + "<CurrentURI>" + uri + "</CurrentURI>"
    + "<CurrentURIMetaData></CurrentURIMetaData>"
    + "</u:SetAVTransportURI>"
    + EnvelopeClose
  }

  /** The body set_play posts. */
  function PlayBody(service: string): string {
    XmlHead + EnvelopeOpen
    + "<u:Play xmlns:u=\"" + service + "\">"
    + "<InstanceID>0</InstanceID>"
    + "<Speed>1</Speed>"
    + "</u:Play>"
    + EnvelopeClose
  }

  /** The transport body addresses instance 0 and holds the uri unescaped
      between the CurrentURI tags, whatever characters it has. */
  lemma SetAvTransportUriBodyHoldsUri(service: string, uri: string)
    ensures Contains(SetAvTransportUriBody(service, uri), "<InstanceID>0</InstanceID>")
    ensures Contains(SetAvTransportUriBody(service, uri), "<CurrentURI>" + uri + "</CurrentURI>")
  {
    var body := SetAvTransportUriBody(service, uri);
    var before := XmlHead + EnvelopeOpen + "<u:SetAVTransportURI xmlns:u=\"" + service + "\">";
    var instance := "<InstanceID>0</InstanceID>";
    var current := "<CurrentURI>" + uri + "</CurrentURI>";
    var after := "<CurrentURIMetaData></CurrentURIMetaData>" + "</u:SetAVTransportURI>" + EnvelopeClose;
    assert body == before + instance + current + after;
    assert body[|before|..|before| + |instance|] == instance;
    assert Text.OccursAt(body, instance, |before|);
    assert body[|before| + |instance|..|before| + |instance| + |current|] == current;
    assert Text.OccursAt(body, current, |before| + |instance|);
  }

  /** The play body addresses instance 0 at speed 1. */
  lemma PlayBodyAtSpeedOne(service: string)
    ensures Contains(PlayBody(service), "<InstanceID>0</InstanceID><Speed>1</Speed>")
  {
    var body := PlayBody(service);
    var before := XmlHead + EnvelopeOpen + "<u:Play xmlns:u=\"" + service + "\">";
    var middle := "<InstanceID>0</InstanceID><Speed>1</Speed>";
    assert body == before + middle + ("</u:Play>" + EnvelopeClose);
    assert body[|before|..|before| + |middle|] == middle;
    assert Text.OccursAt(body, middle, |before|);
  }

  // ================================================================ content server

  /** The response head the content server writes before the content. */
  function ContentHead(date: string, contentType: string, length: nat): string {
    StatusLine("200") + HeaderBlock(ContentHeaders(date, contentType, length)) + "\r\n"
  }

  /** Assigning a key the headers do not hold appends it. */
  lemma AssignAbsent(h: Headers, key: string, value: string)
    requires forall i :: 0 <= i < |h| ==> h[i].0 != key
    ensures Assign(h, key, value) == h + [(key, value)]
  {
  }

  /** The one-shot HTTP server play_content starts: whatever the request, it
      answers with the content and closes. */
  class PlayContentServer {
    const content: seq<bv8>
    const contentType: string
    var written: seq<(string, seq<bv8>)>
    var closed: bool

    constructor (content: seq<bv8>, contentType: string)
      ensures this.content == content && this.contentType == contentType
      ensures written == [] && !closed
    {
      this.content, this.contentType := content, contentType;
      written, closed := [], false;
    }

    /** data_received: the request is not looked at; `date` stands for the
        formatted wall-clock time of the Date header. */
    method DataReceived(data: seq<bv8>, date: string)
      modifies `written, `closed
      ensures written == old(written) + [(ContentHead(date, contentType, |content|), content)]
      ensures closed
    {
      var response := new HttpResponse("200", date);
      var length := Text.IntToDecimal(|content|);
      AssignAbsent(response.headers, "Content-Length", length);
      response.AddHeader("Content-Length", length);
      AssignAbsent(response.headers, "Content-Type", contentType);
      response.AddHeader("Content-Type", contentType);
      assert response.headers == ContentHeaders(date, contentType, |content|);
      var status := response.GetStatus();
      var headers := response.GetHeaders();
      written := written + [(status + headers + "\r\n", content)];
      closed := true;
    }
  }

  /** The headers of the content server's answer, in the order they are added. */
  function ContentHeaders(date: string, contentType: string, length: nat): Headers {
    [("Server", ServerName), ("Date", date),
     ("Content-Length", Text.IntToDecimal(length)), ("Content-Type", contentType)]
  }

  /** Read back with lowercased names, the answer's headers are the same four. */
  lemma LoweredContentHeaders(date: string, contentType: string, length: nat)
    ensures Lowered(ContentHeaders(date, contentType, length))
            == [("server", ServerName), ("date", date),
                ("content-length", Text.IntToDecimal(length)), ("content-type", contentType)]
  {
    var h := ContentHeaders(date, contentType, length);
    assert Text.Lower("Server") == "server";
    assert Text.Lower("Date") == "date";
    assert Text.Lower("Content-Length") == "content-length";
    assert Text.Lower("Content-Type") == "content-type";
    assert h[..1][..0] == [];
    assert h[..2][..1] == h[..1];
    assert h[..3][..2] == h[..2];
    assert h[..4][..3] == h[..3];
    assert h[..4] == h;
    assert Lowered(h[..1]) == [("server", ServerName)];
    assert Lowered(h[..2]) == [("server", ServerName), ("date", date)];
    assert Lowered(h[..3]) == [("server", ServerName), ("date", date), ("content-length", Text.IntToDecimal(length))];
  }

  lemma ContentHeadersReadable(date: string, contentType: string, length: nat)
    requires '\r' !in date && Text.NoOccurrence(date, ": ")
    requires '\r' !in contentType && Text.NoOccurrence(contentType, ": ")
    ensures Readable(ContentHeaders(date, contentType, length))
  {
    var digits := Text.IntToDecimal(length);
    Text.NatToDecimalDigits(length);
    assert forall m :: 0 <= m < |digits| ==> Text.IsDigit(digits[m]);
    Text.NoFirstCharNoOccurrence(digits, ": ");
    Text.NoFirstCharNoOccurrence(ServerName, ": ");
  }

  /** The head of the content server's answer is a 200 reply whose headers,
      read back, give Server, Date, the content's length and its type, and
      whose Content-Length reads back as the length. */
  lemma ContentHeadReadsBack(date: string, contentType: string, length: nat)
    requires '\r' !in date && Text.NoOccurrence(date, ": ")
    requires '\r' !in contentType && Text.NoOccurrence(contentType, ": ")
    ensures var lines := Text.Split(ContentHead(date, contentType, length), "\r\n");
      && lines[0] == OkLine
      && ReplyHeaders(lines)
         == Some([("server", ServerName), ("date", date),
                  ("content-length", Text.IntToDecimal(length)), ("content-type", contentType)])
    ensures Text.ParseInt(Text.IntToDecimal(length)) == Some(length)
  {
    var h := ContentHeaders(date, contentType, length);
    ContentHeadersReadable(date, contentType, length);
    ReplyHeadersOfReply(h);
    assert ContentHead(date, contentType, length) == OkLine + "\r\n" + HeaderBlock(h) + "\r\n";
    LoweredContentHeaders(date, contentType, length);
    Text.IntRoundTrip(length);
  }
}
