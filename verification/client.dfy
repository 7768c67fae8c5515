/** The logging client: its configuration record, the builder setters that
    replace one field, and the send operations, with the transport reduced
    to the list of lines handed to it. */
module Client {
  import opened Options
  import opened Codes
  import opened Pri
  import opened LineFormat
  import Decimal

  /** Where a transport delivers: a remote datagram address or the path of
      a local stream socket. Both are opaque here. */
  datatype Endpoint = UdpPeer(remote: string) | UnixStream(path: string)

  /** A transport handle: its endpoint, and every line handed to `send`
      so far, oldest first, whatever the outcome of each send. */
  datatype Transport = Transport(endpoint: Endpoint, sent: seq<string>)

  /** The operating system's description of a failed send. */
  datatype IoError = IoError(detail: string)

  /** What `send`, and so every logging call, returns. */
  datatype SendResult = Sent | Failed(error: IoError)

  /** One client: a facility, an optional tag, and the transport it owns.
      The severity is never stored; each call supplies it. */
  datatype Syslog = Syslog(facility: Facility, tag: Option<string>, transport: Transport)

  /** The client after a logging call, and the call's result. */
  datatype Logged = Logged(client: Syslog, result: SendResult)

  /** Hands one line to the transport. Whether the operating system accepts
      it is not modelled; `outcome` is its verdict, returned unchanged. */
  function Send(t: Transport, line: string, outcome: SendResult): (r: (Transport, SendResult))
    ensures r.0.endpoint == t.endpoint
    ensures |r.0.sent| == |t.sent| + 1
    ensures r.0.sent[..|t.sent|] == t.sent && r.0.sent[|t.sent|] == line
    ensures r.1 == outcome
  {
    (t.(sent := t.sent + [line]), outcome)
  }

  /** A client sending datagrams to `remote`, with the default
      configuration: facility USER and no tag. */
  function Udp(remote: string): (c: Syslog)
    ensures c.facility == USER && c.tag == None
    ensures c.transport.endpoint == UdpPeer(remote) && c.transport.sent == []
  {
    Syslog(USER, None, Transport(UdpPeer(remote), []))
  }

  /** A client writing to the local stream socket at `path`, with the same
      defaults as `Udp`. */
  function Unix(path: string): (c: Syslog)
    ensures c.facility == USER && c.tag == None
    ensures c.transport.endpoint == UnixStream(path) && c.transport.sent == []
  {
    Syslog(USER, None, Transport(UnixStream(path), []))
  }

  /** The `tag` setter: the tag becomes `Some(t)`, nothing else changes. */
  function WithTag(c: Syslog, t: string): (r: Syslog)
    ensures r.tag == Some(t)
    ensures r.facility == c.facility && r.transport == c.transport
  {
    Syslog(c.facility, Some(t), c.transport)
  }

  /** The `facility` setter: the facility becomes `f`, nothing else changes. */
  function WithFacility(c: Syslog, f: Facility): (r: Syslog)
    ensures r.facility == f
    ensures r.tag == c.tag && r.transport == c.transport
  {
    Syslog(f, c.tag, c.transport)
  }

  /** The last line handed to the client's transport. */
  function LastSent(c: Syslog): string
    requires |c.transport.sent| > 0
  {
    c.transport.sent[|c.transport.sent| - 1]
  }

  /** Formats one message at the client's current facility and hands it to
      the transport; the transport's result is the call's result. */
  function Log(c: Syslog, severity: Severity, timestamp: string, msg: string, outcome: SendResult): (r: Logged)
    ensures r.result == outcome
    ensures r.client.facility == c.facility && r.client.tag == c.tag
    ensures r.client.transport.endpoint == c.transport.endpoint
    ensures r.client.transport.sent == c.transport.sent + [Line(c.facility, severity, timestamp, msg)]
  {
    var (t, result) := Send(c.transport, Line(c.facility, severity, timestamp, msg), outcome);
    Logged(c.(transport := t), result)
  }

  /** What a caller observes after a logging call at `severity`: the
      transport's outcome comes back, the configuration and endpoint are
      kept, the earlier lines are kept, and exactly one line is added, the
      one formatted from the client's facility, `severity`, the timestamp
      and the message, which decodes back to them when the timestamp has
      no space. */
  predicate LoggedAt(c: Syslog, r: Logged, severity: Severity, timestamp: string, msg: string, outcome: SendResult)
  {
    && r.result == outcome
    && r.client.facility == c.facility && r.client.tag == c.tag
    && r.client.transport.endpoint == c.transport.endpoint
    && |r.client.transport.sent| == |c.transport.sent| + 1
    && r.client.transport.sent[..|c.transport.sent|] == c.transport.sent
    && LastSent(r.client) == Line(c.facility, severity, timestamp, msg)
    && (' ' !in timestamp ==> DecodeLine(LastSent(r.client)) == Some(Message(c.facility, severity, timestamp, msg)))
  }

  /** The line a call sends decodes to the client's facility, the call's
      severity, the timestamp and the message (for a timestamp without
      spaces, as RFC 3339 writes them). */
  lemma LogSendsDecodableLine(c: Syslog, severity: Severity, timestamp: string, msg: string, outcome: SendResult)
    requires ' ' !in timestamp
    ensures DecodeLine(LastSent(Log(c, severity, timestamp, msg, outcome).client))
         == Some(Message(c.facility, severity, timestamp, msg))
  {
    DecodeOfLine(c.facility, severity, timestamp, msg);
  }

  /** A call to `Log` is observed as a call at its severity. */
  lemma LogIsLoggedAt(c: Syslog, severity: Severity, timestamp: string, msg: string, outcome: SendResult)
    ensures LoggedAt(c, Log(c, severity, timestamp, msg, outcome), severity, timestamp, msg, outcome)
  {
    var r := Log(c, severity, timestamp, msg, outcome);
    assert r.client.transport.sent[..|c.transport.sent|] == c.transport.sent;
    if ' ' !in timestamp {
      LogSendsDecodableLine(c, severity, timestamp, msg, outcome);
    }
  }

  /** The observation fixes the severity: no call is observed as a call at
      two different severities, so each wrapper's contract pins its own. */
  lemma LoggedAtDeterminesSeverity(c: Syslog, r: Logged, s1: Severity, s2: Severity, timestamp: string, msg: string, outcome: SendResult)
    requires LoggedAt(c, r, s1, timestamp, msg, outcome)
    requires LoggedAt(c, r, s2, timestamp, msg, outcome)
    ensures s1 == s2
  {
    var line := LastSent(r.client);
    var m1 := Message(c.facility, s1, timestamp, msg);
    var m2 := Message(c.facility, s2, timestamp, msg);
    assert Line(m1.facility, m1.severity, m1.timestamp, m1.text) == line;
    assert Line(m2.facility, m2.severity, m2.timestamp, m2.text) == line;
    LinePriorityInjective(c.facility, s1, c.facility, s2, timestamp, msg);
  }

  // The eight severity wrappers: each is `log` at one fixed severity.

  function Debug(c: Syslog, timestamp: string, msg: string, outcome: SendResult): (r: Logged)
    ensures LoggedAt(c, r, DEBUG, timestamp, msg, outcome)
  {
    LogIsLoggedAt(c, DEBUG, timestamp, msg, outcome);
    Log(c, DEBUG, timestamp, msg, outcome)
  }

  function Info(c: Syslog, timestamp: string, msg: string, outcome: SendResult): (r: Logged)
    ensures LoggedAt(c, r, INFO, timestamp, msg, outcome)
  {
    LogIsLoggedAt(c, INFO, timestamp, msg, outcome);
    Log(c, INFO, timestamp, msg, outcome)
  }

  function Notice(c: Syslog, timestamp: string, msg: string, outcome: SendResult): (r: Logged)
    ensures LoggedAt(c, r, NOTICE, timestamp, msg, outcome)
  {
    LogIsLoggedAt(c, NOTICE, timestamp, msg, outcome);
    Log(c, NOTICE, timestamp, msg, outcome)
  }

  function Warn(c: Syslog, timestamp: string, msg: string, outcome: SendResult): (r: Logged)
    ensures LoggedAt(c, r, WARNING, timestamp, msg, outcome)
  {
    LogIsLoggedAt(c, WARNING, timestamp, msg, outcome);
    Log(c, WARNING, timestamp, msg, outcome)
  }

  function Err(c: Syslog, timestamp: string, msg: string, outcome: SendResult): (r: Logged)
    ensures LoggedAt(c, r, ERROR, timestamp, msg, outcome)
  {
    LogIsLoggedAt(c, ERROR, timestamp, msg, outcome);
    Log(c, ERROR, timestamp, msg, outcome)
  }

  function Critical(c: Syslog, timestamp: string, msg: string, outcome: SendResult): (r: Logged)
    ensures LoggedAt(c, r, CRITICAL, timestamp, msg, outcome)
  {
    LogIsLoggedAt(c, CRITICAL, timestamp, msg, outcome);
    Log(c, CRITICAL, timestamp, msg, outcome)
  }

  function Alert(c: Syslog, timestamp: string, msg: string, outcome: SendResult): (r: Logged)
    ensures LoggedAt(c, r, ALERT, timestamp, msg, outcome)
  {
    LogIsLoggedAt(c, ALERT, timestamp, msg, outcome);
    Log(c, ALERT, timestamp, msg, outcome)
  }

  function Emergency(c: Syslog, timestamp: string, msg: string, outcome: SendResult): (r: Logged)
    ensures LoggedAt(c, r, EMERGENCY, timestamp, msg, outcome)
  {
    LogIsLoggedAt(c, EMERGENCY, timestamp, msg, outcome);
    Log(c, EMERGENCY, timestamp, msg, outcome)
  }

  /** The tag never reaches the wire: two clients that agree on facility
      and transport send the same lines, whatever their tags. */
  lemma LogIgnoresTag(c1: Syslog, c2: Syslog, severity: Severity, timestamp: string, msg: string, outcome: SendResult)
    requires c1.facility == c2.facility && c1.transport == c2.transport
    ensures Log(c1, severity, timestamp, msg, outcome).client.transport
         == Log(c2, severity, timestamp, msg, outcome).client.transport
  {
  }

  /** Setting the facility twice keeps only the second, setting the tag
      twice keeps only the second, and the two setters commute. */
  lemma SettersLastWriteWins(c: Syslog, f1: Facility, f2: Facility, t1: string, t2: string)
    ensures WithFacility(WithFacility(c, f1), f2) == WithFacility(c, f2)
    ensures WithTag(WithTag(c, t1), t2) == WithTag(c, t2)
    ensures WithTag(WithFacility(c, f1), t1) == WithFacility(WithTag(c, t1), f1)
    ensures WithFacility(c, c.facility) == c
  {
  }

  /** After chained facility setters, a call sends at the facility set
      last, on the same transport. */
  lemma LogUsesLastFacility(c: Syslog, f1: Facility, f2: Facility, severity: Severity, timestamp: string, msg: string, outcome: SendResult)
    requires ' ' !in timestamp
    ensures DecodeLine(LastSent(Log(WithFacility(WithFacility(c, f1), f2), severity, timestamp, msg, outcome).client))
         == Some(Message(f2, severity, timestamp, msg))
  {
    LogSendsDecodableLine(WithFacility(WithFacility(c, f1), f2), severity, timestamp, msg, outcome);
  }

  /** A freshly built client logs at facility USER: an info message goes
      out with priority 14 (8 for USER plus 6 for INFO). */
  lemma DefaultClientLine(remote: string, timestamp: string, msg: string, outcome: SendResult)
    ensures Info(Udp(remote), timestamp, msg, outcome).client.transport.sent
         == ["<14> " + timestamp + " " + msg]
  {
    assert Priority(USER, INFO) == 14;
    assert Decimal.Render(14) == "14";
    assert Line(USER, INFO, timestamp, msg) == "<14> " + timestamp + " " + msg;
  }
}
