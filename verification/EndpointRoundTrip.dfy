/** Printing an endpoint and parsing it back: when that gives the parts one
    started from, and when it does not. */
module EndpointRoundTrip {
  import opened Wrappers
  import opened EndpointSpec
  import opened EndpointParser

  function DigitChar(d: nat): (c: char)
    requires d < 10
    ensures IsDigit(c) && (c - '0') as nat == d
  {
    '0' + d as char
  }

  /** std::to_string of a port */
  function Decimal(n: nat): string {
    (if n < 10 then "" else Decimal(n / 10)) + [DigitChar(n % 10)]
  }

  lemma {:induction false} DecimalValue(n: nat)
    ensures IsDigits(Decimal(n)) && Decimal(n) != "" && Value(Decimal(n)) == n
  {
    var front := if n < 10 then "" else Decimal(n / 10);
    if n >= 10 { DecimalValue(n / 10); }
    assert Decimal(n) == front + [DigitChar(n % 10)];
    AppendDigit(front, n % 10);
  }

  lemma AppendDigit(digits: string, d: nat)
    requires IsDigits(digits) && d < 10
    ensures var s := digits + [DigitChar(d)]; IsDigits(s) && Value(s) == 10 * Value(digits) + d
  {
    var s := digits + [DigitChar(d)];
    assert s[..|s| - 1] == digits && s[|s| - 1] == DigitChar(d);
  }

  /** Ports beyond 32 bits do not survive the conversion to unsigned. */
  lemma PortComesBack(p: nat)
    ensures IsDigits(Decimal(p)) && (PortValue(Decimal(p)) == p <==> p < UNSIGNED)
  {
    DecimalValue(p);
  }

  // ------------------------------------------------------- pieces come apart

  lemma CutPortAtColon(host: string, digits: string)
    requires IsDigits(digits)
    ensures CutPort(host + ":" + digits) == (host, Some(digits))
  {
    var s := host + ":" + digits;
    assert s[|host|] == ':' && s[|host| + 1..] == digits && s[..|host|] == host;
    TrunkAt(s, |host| + 1);
  }

  /** A colon with nothing but digits behind it. */
  ghost predicate EndsLikePort(s: string) {
    exists i :: 0 <= i < |s| && s[i] == ':' && IsDigits(s[i + 1..])
  }

  lemma CutPortExactly(s: string)
    ensures CutPort(s).1.None? <==> !EndsLikePort(s)
    ensures CutPort(s).1.None? ==> CutPort(s).0 == s
    ensures CutPort(s).1.Some? ==> |CutPort(s).0| < |s|
  {
    TrunkDigits(s);
    if EndsLikePort(s) {
      var i :| 0 <= i < |s| && s[i] == ':' && IsDigits(s[i + 1..]);
      TrunkAt(s, i + 1);
    }
  }

  lemma {:induction false} DigitsHoldNoProtocol(digits: string)
    requires IsDigits(digits)
    ensures CutProtocol(digits) == None
  {
    if |digits| >= 3 {
      assert digits[..3][0] == digits[0] && IsDigit(digits[0]);
      DigitsHoldNoProtocol(digits[1..]);
    }
  }

  lemma {:induction false} PortAddsNoProtocol(host: string, digits: string)
    requires CutProtocol(host) == None && IsDigits(digits)
    ensures CutProtocol(host + ":" + digits) == None
  {
    var s := host + ":" + digits;
    if host == "" {
      assert s[1..] == digits;
      DigitsHoldNoProtocol(digits);
      if |s| >= 3 { assert s[..3][1] == digits[0] && IsDigit(digits[0]); }
    } else {
      assert s[1..] == host[1..] + ":" + digits;
      PortAddsNoProtocol(host[1..], digits);
      if |host| >= 3 {
        assert s[..3] == host[..3];
      } else if |s| >= 3 {
        assert s[..3][|host|] == ':';
      }
    }
  }

  lemma CutProtocolLater(s: string)
    requires |s| >= 3 && s[0] != ':'
    ensures CutProtocol(s) == match CutProtocol(s[1..])
      case None => None
      case Some((proto, rest)) => Some(([s[0]] + proto, rest))
  {
    assert s[..3][0] != "://"[0];
  }

  lemma {:induction false} CutProtocolBefore(proto: string, tail: string)
    requires ':' !in proto && |tail| >= 3 && tail[..3] == "://"
    ensures CutProtocol(proto + tail) == Some((proto, tail[3..]))
  {
    var s := proto + tail;
    if proto == "" {
      assert s == tail;
    } else {
      CutProtocolBefore(proto[1..], tail);
      assert s[1..] == proto[1..] + tail;
      assert s[0] == proto[0] && proto[0] in proto;
      CutProtocolLater(s);
      assert [s[0]] + proto[1..] == proto;
    }
  }

  lemma CutProtocolAt(proto: string, rest: string)
    requires ':' !in proto
    ensures CutProtocol(proto + "://" + rest) == Some((proto, rest))
  {
    var tail := "://" + rest;
    assert tail[..3] == "://" && tail[3..] == rest;
    CutProtocolBefore(proto, tail);
    assert proto + "://" + rest == proto + tail;
  }

  ghost predicate NoTail(s: string) {
    forall c | c in s :: !IsTail(c)
  }

  lemma {:induction false} CutTailAt(front: string, tail: string)
    requires NoTail(front) && (tail != "" ==> IsTail(tail[0]))
    ensures CutTail(front + tail) == front
  {
    if front == "" {
      assert front + tail == tail;
    } else {
      assert front[0] in front;
      CutTailAt(front[1..], tail);
      assert (front + tail)[1..] == front[1..] + tail;
    }
  }

  // --------------------------------------------------------- without a protocol

  /** `host:port` parses back to its parts, for every non-empty host without
      "://", exactly if the port fits; a port passed explicitly wins. */
  lemma HostAndPort(host: string, p: nat, newPort: nat)
    requires host != "" && CutProtocol(host) == None
    ensures ParseEndpoint(host + ":" + Decimal(p), newPort) ==
            Endpoint(host, if newPort != 0 then newPort else p, false)
            <==> newPort != 0 || p < UNSIGNED
  {
    DecimalValue(p);
    PortComesBack(p);
    CutPortAtColon(host, Decimal(p));
    PortAddsNoProtocol(host, Decimal(p));
  }

  /** A host alone parses to itself and the default port, or the one passed
      explicitly, exactly if it does not end like a port. */
  lemma HostAlone(host: string, newPort: nat)
    requires host != "" && CutProtocol(host) == None
    ensures ParseEndpoint(host, newPort) == Endpoint(host, if newPort != 0 then newPort else DEFAULT_PORT, false)
            <==> !EndsLikePort(host)
  {
    CutPortExactly(host);
  }

  /** The header lists ::1 as an endpoint; it is read as host ":" and port 1. */
  lemma BareIpv6IsMisread(newPort: nat)
    ensures ParseEndpoint("::1", newPort) == Endpoint(":", if newPort != 0 then newPort else 1, false)
  {
    CutPortAtColon(":", "1");
    assert ":" + ":" + "1" == "::1";
    assert CutProtocol(":") == None;
    PortAddsNoProtocol(":", "1");
    assert "1"[..0] == "" && Value("1") == 1;
  }

  // ------------------------------------------------------------ with a protocol

  function Url(proto: string, auth: Option<string>, server: string, tail: string): string {
    proto + "://" + ((if auth.Some? then auth.value + "@" else "") + server + tail)
  }

  function Server(host: string, port: Option<nat>): string {
    if port.Some? then host + ":" + Decimal(port.value) else host
  }

  /** Everything around the server is found and dropped. */
  lemma UrlServer(proto: string, auth: Option<string>, server: string, tail: string, newPort: nat)
    requires Protocol(proto).Some?
    requires (auth.Some? ==> NoTail(auth.value)) && NoTail(server) && '@' !in server
    requires tail != "" ==> IsTail(tail[0])
    ensures ParseEndpoint(Url(proto, auth, server, tail), newPort) ==
            ParseServer(server, tail != "", Protocol(proto).value, newPort)
  {
    var info := if auth.Some? then auth.value + "@" else "";
    var rest := info + server + tail;
    assert ':' !in proto;
    CutProtocolAt(proto, rest);
    assert Url(proto, auth, server, tail) == proto + "://" + rest;
    var front := info + server;
    assert NoTail(front);
    CutTailAt(front, tail);
    if auth.Some? {
      var at := |auth.value|;
      assert front[at] == '@' && front[at + 1..] == server;
      CutAuthAt(front, at);
    } else {
      assert front == server;
    }
  }

  lemma ServerIsClean(host: string, port: Option<nat>)
    requires NoTail(host) && '@' !in host
    ensures NoTail(Server(host, port)) && '@' !in Server(host, port)
  {
    if port.Some? { DecimalValue(port.value); }
  }

  /** A URL parses back to its host, its port or the protocol's default, and the
      protocol's ssl flag - exactly if it has not both a port and a tail, its
      port fits, and a host without port and tail does not end like a port. A
      port passed explicitly takes the place of the other two. */
  lemma UrlComesBackExactly(proto: string, auth: Option<string>, host: string, port: Option<nat>, tail: string,
                            newPort: nat)
    requires Protocol(proto).Some? && host != "" && NoTail(host) && '@' !in host
    requires auth.Some? ==> NoTail(auth.value)
    requires tail != "" ==> IsTail(tail[0])
    ensures var ssl := Protocol(proto).value;
      var meant := if newPort != 0 then newPort else if port.Some? then port.value else Default(ssl);
      ParseEndpoint(Url(proto, auth, Server(host, port), tail), newPort) == Endpoint(host, meant, ssl)
      <==> if port.Some? then tail == "" && (newPort != 0 || port.value < UNSIGNED)
           else tail != "" || !EndsLikePort(host)
  {
    ServerIsClean(host, port);
    UrlServer(proto, auth, Server(host, port), tail, newPort);
    if port.Some? {
      DecimalValue(port.value);
      PortComesBack(port.value);
      CutPortAtColon(host, Decimal(port.value));
      assert |Server(host, port)| > |host|;
    } else {
      CutPortExactly(host);
    }
  }

  /** What becomes of a URL with both: the port ends up in the host name, and
      the default port is used, or the one passed explicitly. */
  lemma PortAndTailAreMisread(proto: string, host: string, p: nat, tail: string, newPort: nat)
    requires Protocol(proto).Some? && host != "" && NoTail(host) && '@' !in host
    requires tail != "" && IsTail(tail[0])
    ensures var ssl := Protocol(proto).value;
      ParseEndpoint(Url(proto, None, Server(host, Some(p)), tail), newPort) ==
      Endpoint(host + ":" + Decimal(p), if newPort != 0 then newPort else Default(ssl), ssl)
  {
    ServerIsClean(host, Some(p));
    UrlServer(proto, None, Server(host, Some(p)), tail, newPort);
  }

  // ---------------------------------------------------------- spelled out

  predicate IsClean(host: string) {
    host != "" && forall c | c in host :: c != '/' && c != '?' && c != '#' && c != '@'
  }

  lemma DigitsExactly(c: char)
    ensures IsDigit(c) <==> c in "0123456789"
  {
    var digits := "0123456789";
    if IsDigit(c) {
      assert digits[(c - '0') as nat] == c;
    }
  }

  lemma CleanHost(host: string)
    requires IsClean(host)
    ensures host != "" && NoTail(host) && '@' !in host
  {}

  lemma BareUrl(proto: string, host: string, tail: string)
    ensures Url(proto, None, Server(host, None), tail) == proto + "://" + (host + tail)
  {
    assert "" + host + tail == host + tail;
  }

  lemma ProtocolMeans(proto: string, host: string, tail: string)
    requires Protocol(proto).Some? && IsClean(host)
    requires if tail == "" then !EndsLikePort(host) else IsTail(tail[0])
    ensures ParseEndpoint(proto + "://" + (host + tail), 0) ==
            Endpoint(host, Default(Protocol(proto).value), Protocol(proto).value)
  {
    CleanHost(host);
    BareUrl(proto, host, tail);
    UrlComesBackExactly(proto, None, host, None, tail, 0);
  }

  /** The protocols without SSL, and their default port. */
  lemma PlainProtocols(host: string)
    requires IsClean(host) && !EndsLikePort(host)
    ensures ParseEndpoint("irc" + "://" + host, 0) == Endpoint(host, 6667, false)
    ensures ParseEndpoint("tcp" + "://" + host, 0) == Endpoint(host, 6667, false)
  {
    assert host + "" == host;
    ProtocolMeans("irc", host, "");
    ProtocolMeans("tcp", host, "");
  }

  /** The protocols with SSL, and their default port. */
  lemma SslProtocols(host: string)
    requires IsClean(host) && !EndsLikePort(host)
    ensures ParseEndpoint("ircs" + "://" + host, 0) == Endpoint(host, 6697, true)
    ensures ParseEndpoint("ssl" + "://" + host, 0) == Endpoint(host, 6697, true)
  {
    assert host + "" == host;
    ProtocolMeans("ircs", host, "");
    ProtocolMeans("ssl", host, "");
  }

  /** No other protocol is known. */
  lemma OtherProtocolsAreInvalid(proto: string, rest: string, newPort: nat)
    requires ':' !in proto && proto != "irc" && proto != "tcp" && proto != "ircs" && proto != "ssl"
    ensures ParseEndpoint(proto + "://" + rest, newPort) == EndpointSpec.Invalid
  {
    CutProtocolAt(proto, rest);
  }

  /** A slash, a question mark and a number sign each begin a part that is dropped. */
  lemma TailsAreDropped(host: string, sign: char, rest: string)
    requires IsClean(host) && (sign == '/' || sign == '?' || sign == '#')
    ensures ParseEndpoint("irc" + "://" + (host + ([sign] + rest)), 0) == Endpoint(host, 6667, false)
  {
    ProtocolMeans("irc", host, [sign] + rest);
  }

  /** Ports are read with the range of a 64-bit long and kept in 32 bits. */
  lemma PortIsReduced(p: nat)
    ensures IsDigits(Decimal(p))
    ensures PortValue(Decimal(p)) ==
            (if p <= 9223372036854775807 then p else 9223372036854775807) % 4294967296
  {
    DecimalValue(p);
  }
}
