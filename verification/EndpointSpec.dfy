/** What an endpoint string means: the parts of
    [protocol "://" [auth "@"]] server [":" port] [path, query or fragment]. */
module EndpointSpec {
  import opened Wrappers

  datatype Endpoint = Invalid | Endpoint(host: string, port: nat, ssl: bool)

  const DEFAULT_PORT := 6667
  const DEFAULT_PORT_SSL := 6697

  const LONG_MAX: nat := 0x7FFF_FFFF_FFFF_FFFF
  const UNSIGNED: nat := 0x1_0000_0000

  predicate IsDigit(c: char) {
    '0' <= c <= '9'
  }

  predicate IsDigits(s: string) {
    forall c | c in s :: IsDigit(c)
  }

  predicate IsTail(c: char) {
    c == '/' || c == '?' || c == '#'
  }

  /** Whether the protocol asks for SSL; None if it is not known. */
  function Protocol(proto: string): Option<bool> {
    if proto == "irc" || proto == "tcp" then Some(false)
    else if proto == "ircs" || proto == "ssl" then Some(true)
    else None
  }

  function Default(ssl: bool): nat {
    if ssl then DEFAULT_PORT_SSL else DEFAULT_PORT
  }

  /** The parts in front of and behind the first "://". */
  function CutProtocol(s: string): Option<(string, string)> {
    if |s| < 3 then None
    else if s[..3] == "://" then Some(("", s[3..]))
    else
      match CutProtocol(s[1..])
      case None => None
      case Some((proto, rest)) => Some(([s[0]] + proto, rest))
  }

  /** The part in front of the path, query or fragment. */
  function CutTail(s: string): string {
    if s == "" || IsTail(s[0]) then "" else [s[0]] + CutTail(s[1..])
  }

  /** The part behind the last '@'. */
  function CutAuth(s: string): string {
    if '@' !in s then s else CutAuth(s[1..])
  }

  /** The length of s without the digits at its end. */
  function Trunk(s: string): (n: nat)
    ensures n <= |s|
  {
    if s == "" || !IsDigit(s[|s| - 1]) then |s| else Trunk(s[..|s| - 1])
  }

  /** Server and port digits: the port is what follows a colon with digits only
      behind it, possibly none. */
  function CutPort(s: string): (string, Option<string>) {
    var n := Trunk(s);
    if n > 0 && s[n - 1] == ':' then (s[..n - 1], Some(s[n..])) else (s, None)
  }

  function Value(digits: string): nat
    requires IsDigits(digits)
  {
    if digits == "" then 0
    else
      assert digits[|digits| - 1] in digits;
      10 * Value(digits[..|digits| - 1]) + (digits[|digits| - 1] - '0') as nat
  }

  /** strtol, with its result converted to unsigned int: saturated at LONG_MAX
      (64 bits), then reduced to 32 bits. */
  function PortValue(digits: string): nat
    requires IsDigits(digits)
  {
    var v := Value(digits);
    (if v <= LONG_MAX then v else LONG_MAX) % UNSIGNED
  }

  lemma {:induction false} TrunkDigits(s: string)
    ensures IsDigits(s[Trunk(s)..])
    ensures Trunk(s) > 0 ==> !IsDigit(s[Trunk(s) - 1])
  {
    if s != "" && IsDigit(s[|s| - 1]) {
      var t := s[..|s| - 1];
      TrunkDigits(t);
      assert s[Trunk(s)..] == t[Trunk(t)..] + [s[|s| - 1]];
    }
  }

  /** The server and port part: `cut` says that a tail has been cut off behind
      it, in which case the code finds no port. */
  function ParseServer(server: string, cut: bool, ssl: bool, newPort: nat): Endpoint {
    TrunkDigits(server);
    var (host, digits) := if cut then (server, None) else CutPort(server);
    var port := if newPort != 0 then newPort else if digits.Some? then PortValue(digits.value) else Default(ssl);
    if host == "" then Invalid else Endpoint(host, port, ssl)
  }

  function ParseEndpoint(s: string, newPort: nat): Endpoint {
    match CutProtocol(s)
    case None => ParseServer(s, false, false, newPort)
    case Some((proto, rest)) =>
      match Protocol(proto)
      case None => Invalid
      case Some(ssl) =>
        var front := CutTail(rest);
        ParseServer(CutAuth(front), |front| < |rest|, ssl, newPort)
  }
}
