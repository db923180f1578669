/**
 * The state machine behind the proxy-rotation dashboard page: the
 * current identity, the proxy table, the auto-rotation countdown, the
 * new-proxy form and the terminal log, with the handlers that change
 * them. Values the page draws from `Math.random` and `new Date()` reach
 * the handlers as a `Draw` parameter.
 */
module Dashboard {
  import opened Text
  import opened Countdown
  import opened Proxies
  import opened Options

  datatype Geo = Geo(country: string, region: string, city: string, org: string, timezone: string)

  /** The identity the dashboard shows: address, proxy, latency, time and location. */
  datatype Identity = Identity(
    ip: string, proxy: string, responseTime: real, timestamp: string, geo: Geo, success: bool)

  /**
   * The mock identity the page starts with: the first exit country a
   * rotation can pick, with its city, reached through the table's Tor proxy.
   */
  function InitialIdentity(): (id: Identity)
    ensures id.geo.country == Countries[0] && id.geo.city == Cities[0]
    ensures id.proxy == Initial()[Tor][0].name
  {
    Identity("123.45.67.89", "Local Tor", 0.82, "2023-06-15T12:34:56",
             Geo("Netherlands", "North Holland", "Amsterdam", "Tor Exit Node", "Europe/Amsterdam"),
             true)
  }

  const InitialLog: seq<string> := [
    "> NiedProxy v2.0 initialized",
    "> Checking available proxies...",
    "> Tor circuit established",
    "> System ready"
  ]

  /** Exit countries a rotation picks from, and the city paired with each. */
  const Countries: seq<string> := ["Netherlands", "Germany", "Sweden", "Switzerland", "Romania"]
  const Cities: seq<string> := ["Amsterdam", "Berlin", "Stockholm", "Zurich", "Bucharest"]

  /**
   * What one rotation draws: four octets `floor(random * 255)`, a country
   * index `floor(random * 5)`, a latency `random * 2`, and the clock read
   * both as an ISO string (for the identity) and as an instant (for the
   * last-rotation time).
   */
  datatype Draw = Draw(octets: seq<nat>, countryIndex: nat, responseTime: real, isoNow: string, now: int)

  predicate ValidDraw(d: Draw)
  {
    && |d.octets| == 4
    && (forall i :: 0 <= i < 4 ==> d.octets[i] < 255)
    && d.countryIndex < |Countries|
    && 0.0 <= d.responseTime < 2.0
  }

  /** The dotted-quad text of four octets: digits and dots only. */
  function IpText(o: seq<nat>): (r: string)
    requires |o| == 4
    ensures 7 <= |r|
    ensures (forall i :: 0 <= i < 4 ==> o[i] < 255) ==> |r| <= 15
    ensures forall i :: 0 <= i < |r| ==> IsDigit(r[i]) || r[i] == '.'
  {
    Decimal(o[0]) + "." + Decimal(o[1]) + "." + Decimal(o[2]) + "." + Decimal(o[3])
  }

  lemma SeparatorAt(x: string, sep: char, y: string, u: string, v: string)
    requires |x| < |u| && sep !in u
    ensures (x + [sep] + y)[|x|] == sep && (u + [sep] + v)[|x|] != sep
  {
    assert (u + [sep] + v)[|x|] == u[|x|];
  }

  /** A field free of the separator is recovered, with the rest, from the text it starts. */
  lemma SplitAt(x: string, sep: char, y: string, u: string, v: string)
    requires sep !in x && sep !in u
    requires x + [sep] + y == u + [sep] + v
    ensures x == u && y == v
  {
    if |x| < |u| {
      SeparatorAt(x, sep, y, u, v);
      assert false;
    } else if |u| < |x| {
      SeparatorAt(u, sep, v, x, y);
      assert false;
    }
    assert x == (x + [sep] + y)[..|x|];
    assert u == (u + [sep] + v)[..|u|];
    assert y == (x + [sep] + y)[|x| + 1..];
    assert v == (u + [sep] + v)[|u| + 1..];
  }

  lemma NoDotInDecimal(n: nat)
    ensures '.' !in Decimal(n)
  {
  }

  lemma Reassociate(w: string, x: string, y: string, z: string)
    ensures w + "." + x + "." + y + "." + z == w + "." + (x + "." + (y + "." + z))
  {
  }

  /** An octet and the text after its dot are recovered from the text they start. */
  lemma SplitOctet(p: nat, y: string, q: nat, v: string)
    requires Decimal(p) + "." + y == Decimal(q) + "." + v
    ensures p == q && y == v
  {
    NoDotInDecimal(p);
    NoDotInDecimal(q);
    SplitAt(Decimal(p), '.', y, Decimal(q), v);
    DecimalInjective(p, q);
  }

  /** Distinct draws of octets are logged as distinct addresses. */
  lemma IpTextInjective(a: seq<nat>, b: seq<nat>)
    requires |a| == 4 && |b| == 4
    requires IpText(a) == IpText(b)
    ensures a == b
  {
    var sa := Decimal(a[2]) + "." + Decimal(a[3]);
    var sb := Decimal(b[2]) + "." + Decimal(b[3]);
    var ra := Decimal(a[1]) + "." + sa;
    var rb := Decimal(b[1]) + "." + sb;
    Reassociate(Decimal(a[0]), Decimal(a[1]), Decimal(a[2]), Decimal(a[3]));
    Reassociate(Decimal(b[0]), Decimal(b[1]), Decimal(b[2]), Decimal(b[3]));
    SplitOctet(a[0], ra, b[0], rb);
    SplitOctet(a[1], sa, b[1], sb);
    SplitOctet(a[2], Decimal(a[3]), b[2], Decimal(b[3]));
    DecimalInjective(a[3], b[3]);
  }

  /**
   * The identity after a rotation: a new address, time, latency, country
   * and that country's city; the proxy, region, organisation, time zone
   * and success flag are carried over.
   */
  function Rotated(id: Identity, d: Draw): (r: Identity)
    requires ValidDraw(d)
    ensures r.ip == IpText(d.octets) && r.timestamp == d.isoNow && r.responseTime == d.responseTime
    ensures r.geo.country == Countries[d.countryIndex] && r.geo.city == Cities[d.countryIndex]
    ensures r.proxy == id.proxy && r.success == id.success
    ensures r.geo.region == id.geo.region && r.geo.org == id.geo.org && r.geo.timezone == id.geo.timezone
  {
    id.(ip := IpText(d.octets), timestamp := d.isoNow, responseTime := d.responseTime,
        geo := id.geo.(country := Countries[d.countryIndex], city := Cities[d.countryIndex]))
  }

  /** The log text of a rotation: it names the address and country the rotated identity shows. */
  function RotationLine(d: Draw): (line: string)
    requires ValidDraw(d)
    ensures forall id :: line == "IP rotated to " + Rotated(id, d).ip + " (" + Rotated(id, d).geo.country + ")"
  {
    "IP rotated to " + IpText(d.octets) + " (" + Countries[d.countryIndex] + ")"
  }

  lemma NoBlankInIp(o: seq<nat>)
    requires |o| == 4
    ensures ' ' !in IpText(o)
  {
  }

  lemma CountriesDistinct(i: nat, j: nat)
    requires i < |Countries| && j < |Countries| && Countries[i] == Countries[j]
    ensures i == j
  {
  }

  /** Text after a common prefix: a blank-free field, a blank, then the rest. */
  lemma SplitAfterPrefix(prefix: string, x: string, y: string, u: string, v: string)
    requires ' ' !in x && ' ' !in u
    requires prefix + x + " " + y == prefix + u + " " + v
    ensures x == u && y == v
  {
    var l, r := prefix + x + " " + y, prefix + u + " " + v;
    assert l[|prefix|..] == x + [' '] + y;
    assert r[|prefix|..] == u + [' '] + v;
    SplitAt(x, ' ', y, u, v);
  }

  /** The rotation line determines the drawn address and country. */
  lemma RotationLineInjective(d1: Draw, d2: Draw)
    requires ValidDraw(d1) && ValidDraw(d2)
    requires RotationLine(d1) == RotationLine(d2)
    ensures d1.octets == d2.octets && d1.countryIndex == d2.countryIndex
  {
    var ip1, ip2 := IpText(d1.octets), IpText(d2.octets);
    var c1, c2 := Countries[d1.countryIndex], Countries[d2.countryIndex];
    NoBlankInIp(d1.octets);
    NoBlankInIp(d2.octets);
    RotationTextInjective(ip1, c1, ip2, c2);
    IpTextInjective(d1.octets, d2.octets);
    CountriesDistinct(d1.countryIndex, d2.countryIndex);
  }

  lemma RotationTextInjective(ip1: string, c1: string, ip2: string, c2: string)
    requires ' ' !in ip1 && ' ' !in ip2
    requires "IP rotated to " + ip1 + " (" + c1 + ")" == "IP rotated to " + ip2 + " (" + c2 + ")"
    ensures ip1 == ip2 && c1 == c2
  {
    var t1, t2 := "(" + c1 + ")", "(" + c2 + ")";
    assert " (" == " " + "(";
    assert "IP rotated to " + ip1 + " (" + c1 + ")" == "IP rotated to " + ip1 + " " + t1;
    assert "IP rotated to " + ip2 + " (" + c2 + ")" == "IP rotated to " + ip2 + " " + t2;
    SplitAfterPrefix("IP rotated to ", ip1, t1, ip2, t2);
    assert c1 == t1[1..|t1| - 1] && c2 == t2[1..|t2| - 1];
  }

  /** Terminal commands; anything else is `Unknown`. */
  datatype Command = Help | Rotate | Status | Clear | Exit | Unknown

  /**
   * Matching of a typed command: lower-cased, otherwise exact. Nothing is
   * trimmed, so a recognised command is one bare word of 4 to 6 letters.
   */
  function Parse(command: string): (c: Command)
    ensures c != Unknown ==> 4 <= |command| <= 6
    ensures c != Unknown ==> ' ' !in command
  {
    var c := Lower(command);
    if c == "help" then Help
    else if c == "rotate" then Rotate
    else if c == "status" then Status
    else if c == "clear" then Clear
    else if c == "exit" then Exit
    else Unknown
  }

  /** Case does not matter: a command and its lower-case form mean the same. */
  lemma ParseIgnoresCase(command: string)
    ensures Parse(Lower(command)) == Parse(command)
  {
    LowerIdempotent(command);
  }

  /** Only the five words, in any case, are commands. */
  lemma ParseRecognises(command: string)
    ensures Parse(command) != Unknown <==>
      Lower(command) in {"help", "rotate", "status", "clear", "exit"}
    ensures Parse("HELP") == Parse("help") == Help
    ensures Parse(" help") == Unknown
  {
    assert Lower("HELP") == "help";
    assert Lower(" help") == " help";
  }

  const HelpLine: string := "Available commands: rotate, status, clear, exit"
  const ActivatedLine: string := "Automatic IP rotation activated"
  const DeactivatedLine: string := "Automatic IP rotation deactivated"
  const TerminalLine: string := "Terminal activated"
  const UnknownLine: string := "Unknown command. Type \"help\" for available commands."

  /** The log text of an added proxy: it ends with the proxy's name. */
  function AddedLine(t: ProxyType, name: string): (line: string)
    ensures |line| == 18 + |TypeName(t)| + |name|
    ensures line[|line| - |name|..] == name
  {
    "Added new " + TypeName(t) + " proxy: " + name
  }

  lemma NoBlankInTypeName(t: ProxyType)
    ensures ' ' !in TypeName(t)
  {
  }

  /** The added-proxy line determines the type and the name of the proxy. */
  lemma AddedLineInjective(t: ProxyType, n: string, u: ProxyType, m: string)
    requires AddedLine(t, n) == AddedLine(u, m)
    ensures t == u && n == m
  {
    NoBlankInTypeName(t);
    NoBlankInTypeName(u);
    AddedTextInjective(TypeName(t), n, TypeName(u), m);
    TypeNameInjective(t, u);
  }

  lemma AddedTextInjective(k1: string, n1: string, k2: string, n2: string)
    requires ' ' !in k1 && ' ' !in k2
    requires "Added new " + k1 + " proxy: " + n1 == "Added new " + k2 + " proxy: " + n2
    ensures k1 == k2 && n1 == n2
  {
    var r1, r2 := "proxy: " + n1, "proxy: " + n2;
    assert " proxy: " == " " + "proxy: ";
    assert "Added new " + k1 + " proxy: " + n1 == "Added new " + k1 + " " + r1;
    assert "Added new " + k2 + " proxy: " + n2 == "Added new " + k2 + " " + r2;
    SplitAfterPrefix("Added new ", k1, r1, k2, r2);
    assert n1 == r1[7..] && n2 == r2[7..];
  }

  /** The four lines `status` prints. */
  function StatusLines(id: Identity, rotating: bool): (lines: seq<string>)
    ensures |lines| == 4
  {
    [ "Current IP: " + id.ip,
      "Location: " + id.geo.city + ", " + id.geo.country,
      "Proxy: " + id.proxy,
      "Auto-rotation: " + if rotating then "Enabled" else "Disabled" ]
  }

  /** Lines as the terminal records them: each behind the "> " prompt. */
  function Logged(lines: seq<string>): (r: seq<string>)
    ensures |r| == |lines|
    ensures forall i :: 0 <= i < |lines| ==> r[i] == "> " + lines[i]
  {
    if lines == [] then [] else ["> " + lines[0]] + Logged(lines[1..])
  }

  lemma {:induction false} LoggedConcat(a: seq<string>, b: seq<string>)
    ensures Logged(a + b) == Logged(a) + Logged(b)
  {
    if a == [] {
      assert a + b == b;
    } else {
      assert (a + b)[1..] == a[1..] + b;
      LoggedConcat(a[1..], b);
    }
  }

  /** The dashboard page: each field is one piece of the page's state. */
  class Home {
    var currentIP: Identity
    var proxies: Table
    var isRotating: bool
    var rotationInterval: int
    var newProxyUrl: string
    var newProxyName: string
    var newProxyType: ProxyType
    var progress: real
    var lastRotation: Option<int>
    var showTerminal: bool
    var terminalOutput: seq<string>

    /** The interval is one the slider offers, the bar is in range, every proxy type has a list. */
    ghost predicate Valid()
      reads this
    {
      && MinInterval <= rotationInterval <= MaxInterval
      && 0.0 <= progress < 110.0
      && Complete(proxies)
    }

    constructor ()
      ensures Valid()
      ensures currentIP == InitialIdentity() && proxies == Initial()
      ensures !isRotating && rotationInterval == 60 && progress == 0.0 && lastRotation == None
      ensures newProxyUrl == "" && newProxyName == "" && newProxyType == Http
      ensures !showTerminal && terminalOutput == InitialLog
    {
      currentIP := InitialIdentity();
      proxies := Initial();
      isRotating := false;
      rotationInterval := 60;
      newProxyUrl := "";
      newProxyName := "";
      newProxyType := Http;
      progress := 0.0;
      lastRotation := None;
      showTerminal := false;
      terminalOutput := InitialLog;
    }

    /** Appends one prompted line; earlier lines stay as they were, in order. */
    method AddTerminalLine(line: string)
      modifies this`terminalOutput
      ensures terminalOutput == old(terminalOutput) + ["> " + line]
    {
      terminalOutput := terminalOutput + ["> " + line];
    }

    /** A rotation: a new identity, the time of it, and one log line; the countdown is not touched. */
    method RotateIP(d: Draw)
      requires ValidDraw(d)
      modifies this`currentIP, this`lastRotation, this`terminalOutput
      ensures currentIP == Rotated(old(currentIP), d)
      ensures lastRotation == Some(d.now)
      ensures terminalOutput == old(terminalOutput) + ["> " + RotationLine(d)]
      ensures isRotating == old(isRotating) && progress == old(progress)
    {
      currentIP := Rotated(currentIP, d);
      lastRotation := Some(d.now);
      AddTerminalLine(RotationLine(d));
    }

    /**
     * One tick of the one-second timer, which exists only while
     * auto-rotation is on. A full bar rotates and restarts at 0;
     * otherwise the bar grows by one share.
     */
    method Tick(d: Draw)
      requires Valid() && ValidDraw(d)
      modifies this`progress, this`currentIP, this`lastRotation, this`terminalOutput
      ensures Valid()
      ensures !old(isRotating) ==>
        progress == old(progress) && currentIP == old(currentIP)
        && lastRotation == old(lastRotation) && terminalOutput == old(terminalOutput)
      ensures old(isRotating) ==> progress == Step(old(progress), rotationInterval).progress
      ensures old(isRotating) && old(progress) >= 100.0 ==>
        currentIP == Rotated(old(currentIP), d) && lastRotation == Some(d.now)
        && terminalOutput == old(terminalOutput) + ["> " + RotationLine(d)]
      ensures old(progress) < 100.0 ==>
        currentIP == old(currentIP) && lastRotation == old(lastRotation)
        && terminalOutput == old(terminalOutput)
    {
      if isRotating {
        StepKeepsRange(progress, rotationInterval);
        if progress >= 100.0 {
          RotateIP(d);
          progress := 0.0;
        } else {
          progress := progress + 100.0 / rotationInterval as real;
        }
      }
    }

    /**
     * The auto-rotation switch. Switching on rotates at once, empties the
     * bar and logs the activation; switching off only logs.
     */
    method ToggleRotation(d: Draw)
      requires Valid() && ValidDraw(d)
      modifies this`isRotating, this`progress, this`currentIP, this`lastRotation, this`terminalOutput
      ensures Valid()
      ensures isRotating == !old(isRotating)
      ensures !old(isRotating) ==>
        currentIP == Rotated(old(currentIP), d) && lastRotation == Some(d.now) && progress == 0.0
        && terminalOutput == old(terminalOutput) + Logged([RotationLine(d), ActivatedLine])
      ensures old(isRotating) ==>
        currentIP == old(currentIP) && lastRotation == old(lastRotation) && progress == old(progress)
        && terminalOutput == old(terminalOutput) + ["> " + DeactivatedLine]
    {
      if !isRotating {
        RotateIP(d);
        progress := 0.0;
        AddTerminalLine(ActivatedLine);
      } else {
        AddTerminalLine(DeactivatedLine);
      }
      isRotating := !isRotating;
    }

    /** The interval slider: 10 to 300 seconds; the bar keeps its value. */
    method SetRotationInterval(seconds: int)
      requires Valid() && MinInterval <= seconds <= MaxInterval
      modifies this`rotationInterval
      ensures Valid() && rotationInterval == seconds
    {
      rotationInterval := seconds;
    }

    method SetNewProxyName(name: string)
      modifies this`newProxyName
      ensures newProxyName == name
    {
      newProxyName := name;
    }

    method SetNewProxyUrl(url: string)
      modifies this`newProxyUrl
      ensures newProxyUrl == url
    {
      newProxyUrl := url;
    }

    method SetNewProxyType(t: ProxyType)
      modifies this`newProxyType
      ensures newProxyType == t
    {
      newProxyType := t;
    }

    /**
     * The "add proxy" button. With a name and a URL, the proxy joins the
     * list of the chosen type as inactive, one line is logged and both
     * inputs are emptied; without either, nothing changes.
     */
    method AddProxy()
      requires Valid()
      modifies this`proxies, this`terminalOutput, this`newProxyUrl, this`newProxyName
      ensures Valid()
      ensures old(newProxyUrl) == "" || old(newProxyName) == "" ==>
        proxies == old(proxies) && terminalOutput == old(terminalOutput)
        && newProxyUrl == old(newProxyUrl) && newProxyName == old(newProxyName)
      ensures old(newProxyUrl) != "" && old(newProxyName) != "" ==>
        proxies == Appended(old(proxies), newProxyType, Proxy(old(newProxyName), old(newProxyUrl), "inactive"))
        && terminalOutput == old(terminalOutput)
             + ["> " + AddedLine(newProxyType, old(newProxyName))]
        && newProxyUrl == "" && newProxyName == ""
    {
      if newProxyUrl == "" || newProxyName == "" {
        return;
      }
      proxies := Appended(proxies, newProxyType, Proxy(newProxyName, newProxyUrl, "inactive"));
      AddTerminalLine(AddedLine(newProxyType, newProxyName));
      newProxyUrl := "";
      newProxyName := "";
    }

    /** The terminal button: shows or hides the terminal, logging only when it opens. */
    method ToggleTerminal()
      modifies this`showTerminal, this`terminalOutput
      ensures showTerminal == !old(showTerminal)
      ensures terminalOutput == old(terminalOutput) + if old(showTerminal) then [] else ["> " + TerminalLine]
    {
      var wasShown := showTerminal;
      showTerminal := !showTerminal;
      if !wasShown {
        AddTerminalLine(TerminalLine);
      }
    }

    /** The `status` command's report: its four lines, in order, each logged as a line of its own. */
    method LogStatus()
      modifies this`terminalOutput
      ensures terminalOutput == old(terminalOutput) + Logged(StatusLines(currentIP, isRotating))
    {
      var lines := StatusLines(currentIP, isRotating);
      AddTerminalLine(lines[0]);
      AddTerminalLine(lines[1]);
      AddTerminalLine(lines[2]);
      AddTerminalLine(lines[3]);
    }

    /**
     * Enter in the terminal input: the command is echoed first, then
     * acted on. `clear` empties the log, echo included.
     */
    method RunCommand(command: string, d: Draw)
      requires ValidDraw(d)
      modifies this`terminalOutput, this`currentIP, this`lastRotation, this`showTerminal
      ensures Parse(command) != Rotate ==> currentIP == old(currentIP) && lastRotation == old(lastRotation)
      ensures Parse(command) != Exit ==> showTerminal == old(showTerminal)
      ensures Parse(command) == Help ==>
        terminalOutput == old(terminalOutput) + ["> " + command, "> " + HelpLine]
      ensures Parse(command) == Rotate ==>
        currentIP == Rotated(old(currentIP), d) && lastRotation == Some(d.now)
        && terminalOutput == old(terminalOutput) + ["> " + command, "> " + RotationLine(d)]
      ensures Parse(command) == Status ==>
        terminalOutput == old(terminalOutput) + ["> " + command] + Logged(StatusLines(old(currentIP), isRotating))
      ensures Parse(command) == Clear ==> terminalOutput == []
      ensures Parse(command) == Exit ==>
        !showTerminal && terminalOutput == old(terminalOutput) + ["> " + command]
      ensures Parse(command) == Unknown ==>
        terminalOutput == old(terminalOutput) + ["> " + command, "> " + UnknownLine]
    {
      AddTerminalLine(command);
      match Parse(command)
      case Help =>
        AddTerminalLine(HelpLine);
      case Rotate =>
        RotateIP(d);
      case Status =>
        LogStatus();
      case Clear =>
        terminalOutput := [];
      case Exit =>
        showTerminal := false;
      case Unknown =>
        AddTerminalLine(UnknownLine);
    }
  }

  /** The "ACTIVE PROXIES" card and its "out of ... total" line. */
  function ProxyCounts(h: Home): (counts: (nat, nat))
    reads h
    requires h.Valid()
    ensures counts.0 == |ActivePositions(All(h.proxies))|
    ensures counts.0 <= counts.1
    ensures counts.1 == |h.proxies[Tor]| + |h.proxies[Http]| + |h.proxies[Socks]|
  {
    (ActiveCount(h.proxies), TotalCount(h.proxies))
  }

  /** The "NEXT ROTATION" label of the page. */
  function NextRotationSeconds(h: Home): (s: int)
    reads h
    requires h.Valid()
    ensures s <= h.rotationInterval
    ensures h.progress <= 100.0 ==> 0 <= s
  {
    SecondsWithinInterval(h.rotationInterval, h.progress);
    SecondsToNext(h.rotationInterval, h.progress)
  }

  /**
   * Flipping the rotation switch twice restores whether auto-rotation is
   * on, fires exactly one rotation (on the way on) and leaves the bar
   * empty, whichever state it started in. The proxies, the form and the
   * terminal's visibility are outside its frame.
   */
  method ToggleTwice(home: Home, d1: Draw, d2: Draw)
    requires home.Valid() && ValidDraw(d1) && ValidDraw(d2)
    modifies home`isRotating, home`progress, home`currentIP, home`lastRotation, home`terminalOutput
    ensures home.Valid()
    ensures home.isRotating == old(home.isRotating) && home.progress == 0.0
    ensures !old(home.isRotating) ==>
      home.currentIP == Rotated(old(home.currentIP), d1) && home.lastRotation == Some(d1.now)
      && home.terminalOutput
         == old(home.terminalOutput) + Logged([RotationLine(d1), ActivatedLine, DeactivatedLine])
    ensures old(home.isRotating) ==>
      home.currentIP == Rotated(old(home.currentIP), d2) && home.lastRotation == Some(d2.now)
      && home.terminalOutput
         == old(home.terminalOutput) + Logged([DeactivatedLine, RotationLine(d2), ActivatedLine])
  {
    home.ToggleRotation(d1);
    home.ToggleRotation(d2);
    LoggedConcat([RotationLine(d1), ActivatedLine], [DeactivatedLine]);
    LoggedConcat([DeactivatedLine], [RotationLine(d2), ActivatedLine]);
  }

  /**
   * The walk-through of the rotation switch at the default 60-second
   * interval: switching on rotates once and empties the bar, 30 ticks
   * fill it halfway without rotating, switching off logs once, and later
   * ticks change nothing.
   */
  method SwitchOnHalfwayOff(d: Draw) returns (halfway: real, rotating: bool, linesAdded: int, finalProgress: real)
    requires ValidDraw(d)
    ensures halfway == 50.0 && !rotating && finalProgress == 50.0
    ensures linesAdded == 3
  {
    var home := new Home();
    var start := |home.terminalOutput|;
    home.ToggleRotation(d);
    var i := 0;
    while i < 30
      invariant 0 <= i <= 30
      invariant home.Valid() && home.isRotating && home.rotationInterval == 60
      invariant home.progress == Filled(i, 60)
      invariant |home.terminalOutput| == start + 2
    {
      FilledFacts(i, 60);
      home.Tick(d);
      i := i + 1;
    }
    halfway := home.progress;
    home.ToggleRotation(d);
    i := 0;
    while i < 5
      invariant 0 <= i <= 5
      invariant home.Valid() && !home.isRotating && home.progress == halfway
      invariant |home.terminalOutput| == start + 3
    {
      home.Tick(d);
      i := i + 1;
    }
    rotating := home.isRotating;
    linesAdded := |home.terminalOutput| - start;
    finalProgress := home.progress;
  }
}
