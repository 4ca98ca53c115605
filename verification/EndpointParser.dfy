/** set_endpoint's parser: positions into the endpoint string that close in on
    the server, as the code moves them. */
module EndpointParser {
  import opened Wrappers
  import opened EndpointSpec

  // ------------------------------------------------- the searches of std::string

  /** The search for the protocol goes on at i. */
  function Behind(front: string, r: Option<(string, string)>): Option<(string, string)> {
    match r
    case None => None
    case Some((proto, rest)) => Some((front + proto, rest))
  }

  lemma NextProtocol(s: string, i: nat)
    requires i + 3 <= |s| && s[i..i + 3] != "://"
    ensures Behind(s[..i], CutProtocol(s[i..])) == Behind(s[..i + 1], CutProtocol(s[i + 1..]))
  {
    assert s[i..][..3] == s[i..i + 3] && s[i..][1..] == s[i + 1..];
    match CutProtocol(s[i + 1..])
    case None =>
    case Some((proto, _)) => assert s[..i + 1] + proto == s[..i] + ([s[i]] + proto);
  }

  /** find("://", 0) */
  method FindProtocol(s: string) returns (pos: Option<nat>)
    ensures match CutProtocol(s)
      case None => pos == None
      case Some((proto, rest)) =>
        pos.Some? && pos.value + 3 <= |s| && s[..pos.value] == proto && s[pos.value + 3..] == rest
  {
    var i := 0;
    assert s[0..] == s;
    match CutProtocol(s) { case None => case Some((proto, _)) => assert s[..0] + proto == proto; }
    while i + 3 <= |s| && s[i..i + 3] != "://"
      invariant 0 <= i <= |s|
      invariant Behind(s[..i], CutProtocol(s[i..])) == CutProtocol(s)
    {
      NextProtocol(s, i);
      i := i + 1;
    }
    if i + 3 > |s| {
      return None;
    }
    assert s[i..][..3] == "://" && s[i..][3..] == s[i + 3..];
    assert s[..i] + "" == s[..i];
    pos := Some(i);
  }

  /** find_first_of("/?#", from) */
  method FindTail(s: string, from: nat) returns (pos: Option<nat>)
    requires from <= |s|
    ensures match pos
      case None => CutTail(s[from..]) == s[from..]
      case Some(p) => from <= p < |s| && CutTail(s[from..]) == s[from..p] && IsTail(s[p])
  {
    var i := from;
    while i < |s| && s[i] != '/' && s[i] != '?' && s[i] != '#'
      invariant from <= i <= |s|
      invariant CutTail(s[from..]) == s[from..i] + CutTail(s[i..])
    {
      assert s[i..][1..] == s[i + 1..];
      assert s[from..i + 1] == s[from..i] + [s[i]];
      i := i + 1;
    }
    if i == |s| {
      assert s[i..] == "" && s[from..i] == s[from..];
      return None;
    }
    assert CutTail(s[i..]) == "";
    pos := Some(i);
  }

  /** rfind('@', last): the search starts at `last` if that is inside the string. */
  method FindAuth(s: string, last: nat) returns (pos: Option<nat>)
    ensures match pos
      case None => forall k | 0 <= k < |s| && k <= last :: s[k] != '@'
      case Some(p) => p < |s| && p <= last && s[p] == '@' && forall k | p < k < |s| && k <= last :: s[k] != '@'
  {
    var i := if last < |s| then last + 1 else |s|;
    while i > 0 && s[i - 1] != '@'
      invariant 0 <= i <= |s| && i <= last + 1
      invariant forall k | i <= k < |s| && k <= last :: s[k] != '@'
    {
      i := i - 1;
    }
    pos := if i > 0 then Some(i - 1) else None;
  }

  /** find_last_not_of("0123456789", last) */
  method FindNonDigit(s: string, last: nat) returns (pos: Option<nat>)
    ensures match pos
      case None => forall k | 0 <= k < |s| && k <= last :: IsDigit(s[k])
      case Some(p) => p < |s| && p <= last && !IsDigit(s[p]) && forall k | p < k < |s| && k <= last :: IsDigit(s[k])
  {
    var i := if last < |s| then last + 1 else |s|;
    while i > 0 && '0' <= s[i - 1] <= '9'
      invariant 0 <= i <= |s| && i <= last + 1
      invariant forall k | i <= k < |s| && k <= last :: IsDigit(s[k])
    {
      i := i - 1;
    }
    pos := if i > 0 then Some(i - 1) else None;
  }

  /** The last '@' found is the one CutAuth cuts behind. */
  lemma {:induction false} CutAuthAt(s: string, p: nat)
    requires p < |s| && s[p] == '@' && '@' !in s[p + 1..]
    ensures CutAuth(s) == s[p + 1..]
  {
    assert '@' in s;
    if p == 0 {
      assert CutAuth(s[1..]) == s[1..];
    } else {
      assert s[1..][p - 1 + 1..] == s[p + 1..];
      CutAuthAt(s[1..], p - 1);
    }
  }

  /** The digits at the end begin behind the last character that is not one. */
  lemma {:induction false} TrunkAt(s: string, n: nat)
    requires n <= |s| && IsDigits(s[n..]) && (n > 0 ==> !IsDigit(s[n - 1]))
    ensures Trunk(s) == n
  {
    if n < |s| {
      assert s[|s| - 1] == s[n..][|s| - 1 - n];
      assert IsDigits(s[..|s| - 1][n..]) by {
        assert forall c | c in s[..|s| - 1][n..] :: c in s[n..];
      }
      TrunkAt(s[..|s| - 1], n);
    }
  }

  /** Chops off authentication info; `end` is the end of the string or the
      beginning of a tail. */
  method SkipAuth(s: string, start: nat, end: nat) returns (begin: nat)
    requires start <= end <= |s| && (end < |s| ==> IsTail(s[end]))
    ensures start <= begin <= end && CutAuth(s[start..end]) == s[begin..end]
  {
    begin := start;
    var server := s[start..end];
    var pos := FindAuth(s, end);
    if pos.Some? && start <= pos.value {
      begin := pos.value + 1;
      assert server[pos.value - start..][0] == '@';
      assert server[pos.value - start + 1..] == s[begin..end];
      CutAuthAt(server, pos.value - start);
    } else {
      assert '@' !in server;
    }
  }

  /** A colon in front of the digits at the end of the server ends the host. */
  lemma ColonCuts(s: string, begin: nat, colon: nat)
    requires begin <= colon < |s| && s[colon] == ':' && IsDigits(s[colon + 1..])
    ensures CutPort(s[begin..]) == (s[begin..colon], Some(s[colon + 1..]))
  {
    var server := s[begin..];
    var n := colon - begin + 1;
    assert server[n..] == s[colon + 1..] && server[..n - 1] == s[begin..colon];
    TrunkAt(server, n);
  }

  lemma NothingCuts(s: string, begin: nat, last: Option<nat>)
    requires begin <= |s|
    requires match last
      case None => IsDigits(s)
      case Some(p) => p < |s| && !IsDigit(s[p]) && IsDigits(s[p + 1..]) && (begin <= p ==> s[p] != ':')
    ensures CutPort(s[begin..]) == (s[begin..], None)
  {
    var server := s[begin..];
    var n := if last.Some? && begin <= last.value then last.value - begin + 1 else 0;
    assert server[n..] == s[begin + n..];
    assert IsDigits(server[n..]) by {
      if last.Some? && last.value < begin {
        assert forall c | c in server :: c in s[last.value + 1..];
      }
    }
    TrunkAt(server, n);
  }

  /** Reads the port, if one stands at the end of the string, and checks that a
      server is left. */
  method ParsePort(s: string, begin: nat, serverEnd: nat, ssl: bool, newPort: nat) returns (r: Endpoint)
    requires begin <= serverEnd <= |s| && (serverEnd < |s| ==> IsTail(s[serverEnd]))
    ensures r == ParseServer(s[begin..serverEnd], serverEnd < |s|, ssl, newPort)
  {
    var end := serverEnd;
    var port := if ssl then DEFAULT_PORT_SSL else DEFAULT_PORT;
    var pos := FindNonDigit(s, end);
    if pos.Some? && begin <= pos.value && s[pos.value] == ':' {
      ColonCuts(s, begin, pos.value);
      port := PortValue(s[pos.value + 1..]);
      end := pos.value;
    } else if serverEnd == |s| {
      NothingCuts(s, begin, pos);
    }
    if newPort != 0 {
      port := newPort;
    }
    assert s[begin..|s|] == s[begin..];
    if end <= begin {
      return Invalid;
    }
    r := Endpoint(s[begin..end], port, ssl);
  }

  method Parse(endpoint: string, newPort: nat) returns (r: Endpoint)
    ensures r == ParseEndpoint(endpoint, newPort)
  {
    var ssl := false;
    var begin, end := 0, |endpoint|;
    var pos := FindProtocol(endpoint);
    if pos.Some? {
      var proto := endpoint[..pos.value];
      if proto == "irc" || proto == "tcp" {
        ssl := false;
      } else if proto == "ircs" || proto == "ssl" {
        ssl := true;
      } else {
        return Invalid;
      }
      begin := pos.value + 3;
      var tail := FindTail(endpoint, begin);
      if tail.Some? {
        end := tail.value;
      }
      assert CutTail(endpoint[begin..]) == endpoint[begin..end];
      begin := SkipAuth(endpoint, begin, end);
    } else {
      assert endpoint[0..|endpoint|] == endpoint;
    }
    r := ParsePort(endpoint, begin, end, ssl, newPort);
  }
}
