/**
 * The decision procedure of the Liberty container crawler: which port to
 * probe, whether the plugin applies to the container at all, which address to
 * connect to, and how a failed metrics call is reported.
 *
 * The container inspection, the namespace switch and the metrics client are
 * collaborators: the container's labels, exposed ports and pid are inputs, the
 * JSON decoder of the ports label, the namespace call and the metrics call
 * are function parameters whose results the model takes as given.
 */
module LibertyContainerCrawler {
  import opened Wrappers
  import opened Values

  const FeatureType := "application"
  const FeatureKey := "liberty"
  const DefaultPort := 9443
  const PortsLabel := "annotation.io.kubernetes.container.ports"
  const ContainerPortKey := "containerPort"
  const Loopback := "127.0.0.1"

  /** `get_feature`. */
  function GetFeature(): (f: string)
    ensures f == "liberty"
  {
    FeatureKey
  }

  /**
   * `get_opt`: the credentials as `(password, user)`, each taken from the
   * keyword arguments when given there, else its default.
   */
  function GetOpt(kwargs: map<string, Value>): (r: (Value, Value))
    ensures "password" in kwargs ==> r.0 == kwargs["password"]
    ensures "password" !in kwargs ==> r.0 == Str("password")
    ensures "user" in kwargs ==> r.1 == kwargs["user"]
    ensures "user" !in kwargs ==> r.1 == Str("user")
  {
    var password := if "password" in kwargs then kwargs["password"] else Str("password");
    var user := if "user" in kwargs then kwargs["user"] else Str("user");
    (password, user)
  }

  /** Each credential depends on its own keyword argument only. */
  lemma GetOptComponentsIndependent(kwargs: map<string, Value>, other: map<string, Value>)
    ensures ("password" in kwargs <==> "password" in other) &&
            ("password" in kwargs ==> kwargs["password"] == other["password"]) ==>
            GetOpt(kwargs).0 == GetOpt(other).0
    ensures ("user" in kwargs <==> "user" in other) &&
            ("user" in kwargs ==> kwargs["user"] == other["user"]) ==>
            GetOpt(kwargs).1 == GetOpt(other).1
  {
  }

  // ---------------------------------------------------------------------------
  // Port entries
  // ---------------------------------------------------------------------------

  /** The exceptions the port loop can raise. */
  datatype PortError = TypeError | ValueError

  /** Python's `needle in haystack` on strings: a substring test. */
  predicate IsSubstring(needle: string, haystack: string)
    decreases |haystack|
  {
    needle <= haystack || (|haystack| > 0 && IsSubstring(needle, haystack[1..]))
  }

  /** Python's `key in v`: a key test on a dictionary, a substring test on a string, a TypeError otherwise. */
  function Contains(v: Value, key: string): (r: Result<bool, PortError>)
  {
    match v
    case Dict(entries) => Ok(key in entries)
    case Str(s) => Ok(IsSubstring(key, s))
    case _ => Err(TypeError)
  }

  predicate IsDigit(c: char)
  {
    '0' <= c <= '9'
  }

  predicate IsSpace(c: char)
  {
    c == ' ' || c == '\t' || c == '\n' || c == '\r' || c == '\U{000B}' || c == '\U{000C}'
  }

  function TrimStart(s: string): (t: string)
    ensures |t| <= |s|
  {
    if s != [] && IsSpace(s[0]) then TrimStart(s[1..]) else s
  }

  function TrimEnd(s: string): (t: string)
    ensures |t| <= |s|
  {
    if s != [] && IsSpace(s[|s| - 1]) then TrimEnd(s[..|s| - 1]) else s
  }

  function DigitsValue(s: string): (n: int)
    requires forall i | 0 <= i < |s| :: IsDigit(s[i])
  {
    if s == [] then 0 else 10 * DigitsValue(s[..|s| - 1]) + (s[|s| - 1] as int - '0' as int)
  }

  /** Python's `int(s)` on a string: optional surrounding whitespace, an optional sign, decimal digits. */
  function ParseInt(s: string): (r: Option<int>)
  {
    var t := TrimEnd(TrimStart(s));
    var negative := |t| > 0 && t[0] == '-';
    var digits := if |t| > 0 && (t[0] == '-' || t[0] == '+') then t[1..] else t;
    if digits != [] && forall i | 0 <= i < |digits| :: IsDigit(digits[i]) then
      Some(if negative then -DigitsValue(digits) else DigitsValue(digits))
    else None
  }

  /** Python's `int(v)`. */
  function IntOf(v: Value): (r: Result<int, PortError>)
  {
    match v
    case Int(n) => Ok(n)
    case Bool(b) => Ok(if b then 1 else 0)
    case Str(s) => if ParseInt(s).Some? then Ok(ParseInt(s).value) else Err(ValueError)
    case Dict(_) => Err(TypeError)
  }

  /**
   * The port of one entry as the loop body computes it: the `containerPort`
   * field converted to an integer when the entry has one, else the entry
   * itself converted. An entry the `in` test cannot be applied to raises
   * TypeError, and so does a string that contains the word `containerPort`
   * (it cannot be indexed by a string).
   */
  function PortOf(entry: Value): (r: Result<int, PortError>)
    ensures entry.Dict? && ContainerPortKey in entry.entries ==> r == IntOf(entry.entries[ContainerPortKey])
    ensures entry.Str? && !IsSubstring(ContainerPortKey, entry.s) ==> r == IntOf(entry)
    ensures entry.Int? || entry.Bool? ==> r == Err(TypeError)
    ensures entry.Dict? && ContainerPortKey !in entry.entries ==> r == Err(TypeError)
    ensures entry.Str? && IsSubstring(ContainerPortKey, entry.s) ==> r == Err(TypeError)
  {
    match Contains(entry, ContainerPortKey)
    case Err(e) => Err(e)
    case Ok(found) =>
      if !found then IntOf(entry)
      else if entry.Dict? then IntOf(entry.entries[ContainerPortKey])
      else Err(TypeError)
  }

  /** A structured entry naming the default port is recognised. */
  lemma StructuredEntryMatches()
    ensures PortOf(Dict(map[ContainerPortKey := Int(DefaultPort)])) == Ok(DefaultPort)
  {
  }

  /** A raw port number given as a decimal string is recognised. */
  lemma RawStringEntryMatches()
    ensures PortOf(Str("9443")) == Ok(DefaultPort)
  {
    var t := "9443";
    assert !IsSubstring(ContainerPortKey, t);
    assert TrimStart(t) == t && TrimEnd(t) == t;
    assert t[..3] == "944" && t[..3][..2] == "94" && t[..3][..2][..1] == "9" && t[..3][..2][..1][..0] == "";
    assert DigitsValue("9") == 9;
    assert DigitsValue("94") == 94;
    assert DigitsValue("944") == 944;
    assert DigitsValue(t) == 9443;
    assert ParseInt(t) == Some(9443);
    assert IntOf(Str(t)) == Ok(9443);
  }

  /**
   * A raw port number given as an integer is NOT recognised: the loop's
   * `"containerPort" in each_port` raises TypeError on it.
   */
  lemma RawIntegerEntryRaises()
    ensures PortOf(Int(DefaultPort)) == Err(TypeError)
  {
  }

  /**
   * The outcome of the whole port loop: the first entry whose port cannot be
   * computed raises; otherwise whether some entry names the default port.
   */
  function ScanPorts(ports: seq<Value>): (r: Result<bool, PortError>)
    ensures r.Ok? <==> forall i | 0 <= i < |ports| :: PortOf(ports[i]).Ok?
    ensures r == Ok(true) <==> r.Ok? && exists i | 0 <= i < |ports| :: PortOf(ports[i]) == Ok(DefaultPort)
    ensures r.Err? ==> exists i | 0 <= i < |ports| ::
      PortOf(ports[i]) == Err(r.error) && forall j | 0 <= j < i :: PortOf(ports[j]).Ok?
  {
    if ports == [] then Ok(false)
    else match PortOf(ports[0])
      case Err(e) => Err(e)
      case Ok(n) =>
        var rest := ScanPorts(ports[1..]);
        assert forall i | 1 <= i < |ports| :: ports[i] == ports[1..][i - 1];
        match rest
        case Err(e) =>
          assert exists i | 0 <= i < |ports| :: PortOf(ports[i]) == Err(e) && forall j | 0 <= j < i :: PortOf(ports[j]).Ok? by {
            var i :| 0 <= i < |ports[1..]| && PortOf(ports[1..][i]) == Err(e)
              && forall j | 0 <= j < i :: PortOf(ports[1..][j]).Ok?;
            assert PortOf(ports[i + 1]) == Err(e);
            assert forall j | 0 <= j < i + 1 :: PortOf(ports[j]).Ok? by {
              forall j | 0 <= j < i + 1 ensures PortOf(ports[j]).Ok? {
                if j > 0 { assert ports[j] == ports[1..][j - 1]; }
              }
            }
          }
          Err(e)
        case Ok(found) => Ok(found || n == DefaultPort)
  }

  // ---------------------------------------------------------------------------
  // Addresses
  // ---------------------------------------------------------------------------

  /** The first address of the list that is not the loopback address. */
  function FirstNonLoopback(ips: seq<string>): (r: Option<string>)
    ensures r.None? <==> forall i | 0 <= i < |ips| :: ips[i] == Loopback
    ensures r.Some? ==> exists i | 0 <= i < |ips| ::
      ips[i] == r.value && r.value != Loopback && forall j | 0 <= j < i :: ips[j] == Loopback
  {
    if ips == [] then None
    else if ips[0] != Loopback then Some(ips[0])
    else
      var rest := FirstNonLoopback(ips[1..]);
      assert forall i | 1 <= i < |ips| :: ips[i] == ips[1..][i - 1];
      if rest.Some? then
        assert exists i | 0 <= i < |ips| :: ips[i] == rest.value && forall j | 0 <= j < i :: ips[j] == Loopback by {
          var i :| 0 <= i < |ips[1..]| && ips[1..][i] == rest.value && forall j | 0 <= j < i :: ips[1..][j] == Loopback;
          assert ips[i + 1] == rest.value;
          assert forall j | 0 <= j < i + 1 :: ips[j] == Loopback by {
            forall j | 0 <= j < i + 1 ensures ips[j] == Loopback {
              if j > 0 { assert ips[j] == ips[1..][j - 1]; }
            }
          }
        }
        rest
      else rest
  }

  /** The address the scan stops at is the first non-loopback one. */
  lemma {:induction false} FirstNonLoopbackAt(ips: seq<string>, k: nat)
    requires k <= |ips|
    requires forall j | 0 <= j < k :: ips[j] == Loopback
    requires k < |ips| ==> ips[k] != Loopback
    ensures FirstNonLoopback(ips) == if k < |ips| then Some(ips[k]) else None
    decreases k
  {
    if k > 0 {
      FirstNonLoopbackAt(ips[1..], k - 1);
    }
  }

  // ---------------------------------------------------------------------------
  // The crawl
  // ---------------------------------------------------------------------------

  /** A call of the namespace switch: run the address lookup in these namespaces of this pid. */
  datatype NamespaceCall = NamespaceCall(pid: string, kinds: seq<string>)

  /** What the namespace call gives back: the container's addresses, or the failure it raised. */
  datatype NamespaceOutcome = Addresses(ips: seq<string>) | SwitchFailed

  /** A call of the metrics client. */
  datatype MetricsCall = MetricsCall(host: string, port: int, user: Value, password: Value, featureType: string)

  /** The ways `crawl` ends. */
  datatype CrawlOutcome<M> =
    /** `return` with no value: the container does not expose the default port. */
    | NotApplicable
    /** An exception from the port loop. */
    | PortFailed(error: PortError)
    /** An exception from the namespace switch, passed on. */
    | NamespaceFailed
    /** The ConnectionError naming the port. */
    | ConnectionError(port: int)
    /** The metrics the client returned. */
    | Collected(metrics: M)

  /** The port list `crawl` scans: the Kubernetes ports label when present, else the container's ports. */
  function PortsToScan(labels: map<string, string>, jsonLoads: string -> seq<Value>, containerPorts: seq<Value>): (ports: seq<Value>)
    ensures PortsLabel in labels ==> ports == jsonLoads(labels[PortsLabel])
    ensures PortsLabel !in labels ==> ports == containerPorts
  {
    if PortsLabel in labels then jsonLoads(labels[PortsLabel]) else containerPorts
  }

  /**
   * The port loop of `crawl`: every entry's port is computed in turn, and the
   * port is kept when it is the default port. Ends with the default port iff
   * some entry names it, or with the exception of the first bad entry.
   */
  method ScanForDefaultPort(ports: seq<Value>) returns (r: Result<Option<int>, PortError>)
    ensures ScanPorts(ports).Err? ==> r == Err(ScanPorts(ports).error)
    ensures ScanPorts(ports) == Ok(true) ==> r == Ok(Some(DefaultPort))
    ensures ScanPorts(ports) == Ok(false) ==> r == Ok(None)
  {
    var port: Option<int> := None;
    for k := 0 to |ports|
      invariant forall i | 0 <= i < k :: PortOf(ports[i]).Ok?
      invariant port.Some? <==> exists i | 0 <= i < k :: PortOf(ports[i]) == Ok(DefaultPort)
      invariant port.Some? ==> port.value == DefaultPort
    {
      var entry := ports[k];
      var hasKey := Contains(entry, ContainerPortKey);
      if hasKey.Err? {
        return Err(hasKey.error);
      }
      var tmpPort: Result<int, PortError>;
      if hasKey.value {
        tmpPort := if entry.Dict? then IntOf(entry.entries[ContainerPortKey]) else Err(TypeError);
      } else {
        tmpPort := IntOf(entry);
      }
      if tmpPort.Err? {
        return Err(tmpPort.error);
      }
      if tmpPort.value == DefaultPort {
        port := Some(tmpPort.value);
      }
    }
    r := Ok(port);
  }

  /** The address loop of `crawl`: the first address that is not the loopback address, if any. */
  method ChooseAddress(ips: seq<string>) returns (ip: Option<string>)
    ensures ip == FirstNonLoopback(ips)
  {
    ip := None;
    var k := 0;
    while k < |ips|
      invariant 0 <= k <= |ips|
      invariant forall j | 0 <= j < k :: ips[j] == Loopback
      invariant ip.None?
    {
      if ips[k] != Loopback {
        ip := Some(ips[k]);
        break;
      }
      k := k + 1;
    }
    FirstNonLoopbackAt(ips, k);
  }

  /**
   * `crawl`: scan the ports for the default port; if none names it, the plugin
   * does not apply. Otherwise look up the container's addresses inside its
   * network namespace, connect to the first non-loopback one, and turn every
   * failure from there on (including finding no such address) into a
   * ConnectionError naming the port.
   */
  method Crawl<M>(kwargs: map<string, Value>, labels: map<string, string>, jsonLoads: string -> seq<Value>,
                  containerPorts: seq<Value>, pid: string,
                  runAsAnotherNamespace: NamespaceCall -> NamespaceOutcome,
                  retrieveMetrics: MetricsCall -> Option<M>)
    returns (outcome: CrawlOutcome<M>)
    ensures var ports := PortsToScan(labels, jsonLoads, containerPorts);
      && (outcome.PortFailed? <==> ScanPorts(ports).Err?)
      && (outcome.PortFailed? ==> outcome.error == ScanPorts(ports).error)
      && (outcome.NotApplicable? <==> ScanPorts(ports) == Ok(false))
    ensures var ports := PortsToScan(labels, jsonLoads, containerPorts);
      ScanPorts(ports) == Ok(true) ==>
        match runAsAnotherNamespace(NamespaceCall(pid, ["net"]))
        case SwitchFailed => outcome == NamespaceFailed
        case Addresses(ips) =>
          match FirstNonLoopback(ips)
          case None => outcome == ConnectionError(DefaultPort)
          case Some(ip) =>
            var (password, user) := GetOpt(kwargs);
            match retrieveMetrics(MetricsCall(ip, DefaultPort, user, password, FeatureType))
            case None => outcome == ConnectionError(DefaultPort)
            case Some(m) => outcome == Collected(m)
  {
    var (password, user) := GetOpt(kwargs);

    var ports: seq<Value>;
    if PortsLabel in labels {
      ports := jsonLoads(labels[PortsLabel]);
    } else {
      ports := containerPorts;
    }

    var port := ScanForDefaultPort(ports);
    if port.Err? {
      return PortFailed(port.error);
    }
    if port.value.None? {
      return NotApplicable;
    }

    var ips := runAsAnotherNamespace(NamespaceCall(pid, ["net"]));
    if ips.SwitchFailed? {
      return NamespaceFailed;
    }
    var ip := ChooseAddress(ips.ips);

    // `ip` is read inside the `try`, so an unbound `ip` ends as the ConnectionError too.
    if ip.None? {
      return ConnectionError(port.value.value);
    }
    var metrics := retrieveMetrics(MetricsCall(ip.value, port.value.value, user, password, FeatureType));
    if metrics.None? {
      return ConnectionError(port.value.value);
    }
    outcome := Collected(metrics.value);
  }
}
