/** The wire line the client sends: "<PRI> TIMESTAMP MSG", and a decoder
    for it that serves as the line's inverse. */
module LineFormat {
  import opened Options
  import opened Codes
  import opened Pri
  import opened Decimal

  /** What one line carries. */
  datatype Message = Message(facility: Facility, severity: Severity, timestamp: string, text: string)

  /** The fields of a line before the priority is interpreted. */
  datatype Fields = Fields(pri: nat, timestamp: string, text: string)

  /** The formatted line: the priority in decimal between angle brackets, a
      space, the timestamp, a space, then the message with no escaping. */
  function Line(f: Facility, s: Severity, timestamp: string, msg: string): (r: string)
    ensures |r| == |Render(Priority(f, s))| + |timestamp| + |msg| + 4
    ensures r[0] == '<'
    ensures r[|r| - |msg|..] == msg
  {
    "<" + Render(Priority(f, s)) + "> " + timestamp + " " + msg
  }

  /** The position of the first `c` in `s`, if any. */
  function IndexOf(s: string, c: char): (r: Option<nat>)
    ensures r.Some? ==> r.value < |s| && s[r.value] == c && c !in s[..r.value]
    ensures r.None? ==> c !in s
  {
    if |s| == 0 then None
    else if s[0] == c then Some(0)
    else match IndexOf(s[1..], c)
      case None => None
      case Some(i) =>
        assert s[..i + 1] == [s[0]] + s[1..][..i];
        Some(i + 1)
  }

  /** Splits `s` at its first occurrence of `c`, dropping that character. */
  function SplitAt(s: string, c: char): Option<(string, string)>
  {
    match IndexOf(s, c)
    case None => None
    case Some(i) => Some((s[..i], s[i + 1..]))
  }

  /** Splits "<" + digits + "> " + rest into the digits and the rest. */
  function SplitPri(l: string): Option<(string, string)>
  {
    if |l| == 0 || l[0] != '<' then None
    else
      match SplitAt(l[1..], '>')
      case None => None
      case Some((digits, after)) =>
        if |after| == 0 || after[0] != ' ' then None else Some((digits, after[1..]))
  }

  /** Splits a line into its priority, timestamp and message: the priority
      must be written as the renderer writes it, and the timestamp ends at
      the first space after it. */
  function ParseLine(l: string): Option<Fields>
  {
    match SplitPri(l)
    case None => None
    case Some((digits, body)) =>
      if !IsCanonical(digits) then None
      else
        match SplitAt(body, ' ')
        case None => None
        case Some((timestamp, msg)) => Some(Fields(Value(digits), timestamp, msg))
  }

  /** Reads a line back as the message it formats, or `None` when it is not
      a line the client could have produced. */
  function DecodeLine(l: string): Option<Message>
  {
    match ParseLine(l)
    case None => None
    case Some(fields) =>
      match DecodePriority(fields.pri)
      case None => None
      case Some(pair) => Some(Message(pair.0, pair.1, fields.timestamp, fields.text))
  }

  lemma {:induction false} IndexOfFirst(a: string, c: char, b: string)
    requires c !in a
    ensures IndexOf(a + [c] + b, c) == Some(|a|)
    decreases |a|
  {
    if |a| > 0 {
      assert (a + [c] + b)[1..] == a[1..] + [c] + b;
      IndexOfFirst(a[1..], c, b);
    }
  }

  /** Splitting at the first `c` finds the one placed after a `c`-free prefix. */
  lemma SplitAtOfJoin(a: string, c: char, b: string)
    requires c !in a
    ensures SplitAt(a + [c] + b, c) == Some((a, b))
  {
    IndexOfFirst(a, c, b);
    var s := a + [c] + b;
    assert s[..|a|] == a;
    assert s[|a| + 1..] == b;
  }

  /** A split puts back together around the character it removed, and the
      part before it is free of that character. */
  lemma JoinOfSplitAt(s: string, c: char, a: string, b: string)
    requires SplitAt(s, c) == Some((a, b))
    ensures c !in a
    ensures s == a + [c] + b
  {
    var i := IndexOf(s, c).value;
    assert s == s[..i] + [c] + s[i + 1..];
  }

  lemma SplitPriOfJoin(digits: string, body: string)
    requires '>' !in digits
    ensures SplitPri("<" + digits + "> " + body) == Some((digits, body))
  {
    var l := "<" + digits + "> " + body;
    assert l[1..] == digits + ['>'] + ([' '] + body);
    SplitAtOfJoin(digits, '>', [' '] + body);
  }

  lemma JoinOfSplitPri(l: string, digits: string, body: string)
    requires SplitPri(l) == Some((digits, body))
    ensures '>' !in digits
    ensures l == "<" + digits + "> " + body
  {
    var rest := l[1..];
    var (d, after) := SplitAt(rest, '>').value;
    assert d == digits && |after| > 0 && after[0] == ' ' && body == after[1..];
    JoinOfSplitAt(rest, '>', digits, after);
    assert after == " " + body;
    BracketJoin(l, digits, body);
  }

  lemma BracketJoin(l: string, digits: string, body: string)
    requires |l| > 0 && l[0] == '<'
    requires l[1..] == digits + ">" + (" " + body)
    ensures l == "<" + digits + "> " + body
  {
    assert l == [l[0]] + l[1..];
  }

  /** Splitting a well-formed line gives back its three fields. */
  lemma ParseOfFields(digits: string, timestamp: string, msg: string)
    requires IsCanonical(digits)
    requires ' ' !in timestamp
    ensures ParseLine("<" + digits + "> " + timestamp + " " + msg)
         == Some(Fields(Value(digits), timestamp, msg))
  {
    var body := timestamp + [' '] + msg;
    assert '>' !in digits;
    SplitPriOfJoin(digits, body);
    assert "<" + digits + "> " + body == "<" + digits + "> " + timestamp + " " + msg;
    SplitAtOfJoin(timestamp, ' ', msg);
  }

  /** Every line the splitter accepts is put back together from its fields,
      with the priority in canonical decimal and a space-free timestamp. */
  lemma LineOfParse(l: string, fields: Fields)
    requires ParseLine(l) == Some(fields)
    ensures ' ' !in fields.timestamp
    ensures l == "<" + Render(fields.pri) + "> " + fields.timestamp + " " + fields.text
  {
    var (digits, body) := SplitPri(l).value;
    JoinOfSplitPri(l, digits, body);
    JoinOfSplitAt(body, ' ', fields.timestamp, fields.text);
    RenderOfValue(digits);
    assert l == "<" + digits + "> " + (fields.timestamp + [' '] + fields.text);
  }

  /** Decoding a formatted line recovers facility, severity, timestamp and
      message, provided the timestamp has no space in it (an RFC 3339
      date-time never does). */
  lemma DecodeOfLine(f: Facility, s: Severity, timestamp: string, msg: string)
    requires ' ' !in timestamp
    ensures DecodeLine(Line(f, s, timestamp, msg)) == Some(Message(f, s, timestamp, msg))
  {
    var digits := Render(Priority(f, s));
    ParseOfFields(digits, timestamp, msg);
    ValueOfRender(Priority(f, s));
    assert DecodePriority(Priority(f, s)) == Some((f, s));
  }

  /** Every line the decoder accepts is exactly the line formatted from what
      it decodes to, and that timestamp has no space. */
  lemma LineOfDecode(l: string, m: Message)
    requires DecodeLine(l) == Some(m)
    ensures ' ' !in m.timestamp
    ensures Line(m.facility, m.severity, m.timestamp, m.text) == l
  {
    var fields := ParseLine(l).value;
    LineOfParse(l, fields);
    assert DecodePriority(fields.pri) == Some((m.facility, m.severity));
  }

  /** Whatever the timestamp, two lines that are equal were formatted at
      the same facility and severity: the priority text runs from '<' to
      the first '>', which no digit string contains. */
  lemma LinePriorityInjective(f1: Facility, s1: Severity, f2: Facility, s2: Severity, timestamp: string, msg: string)
    requires Line(f1, s1, timestamp, msg) == Line(f2, s2, timestamp, msg)
    ensures f1 == f2 && s1 == s2
  {
    SplitPriOfLine(f1, s1, timestamp, msg);
    SplitPriOfLine(f2, s2, timestamp, msg);
    RenderInjective(Priority(f1, s1), Priority(f2, s2));
    PriorityInjective(f1, s1, f2, s2);
  }

  lemma SplitPriOfLine(f: Facility, s: Severity, timestamp: string, msg: string)
    ensures SplitPri(Line(f, s, timestamp, msg)) == Some((Render(Priority(f, s)), timestamp + " " + msg))
  {
    var digits := Render(Priority(f, s));
    var body := timestamp + " " + msg;
    assert Line(f, s, timestamp, msg) == "<" + digits + "> " + body;
    assert '>' !in digits;
    SplitPriOfJoin(digits, body);
  }

  /** Lines with space-free timestamps determine their message: the
      formatter never maps two different messages to the same line. */
  lemma LineInjective(m1: Message, m2: Message)
    requires ' ' !in m1.timestamp && ' ' !in m2.timestamp
    requires Line(m1.facility, m1.severity, m1.timestamp, m1.text)
          == Line(m2.facility, m2.severity, m2.timestamp, m2.text)
    ensures m1 == m2
  {
    DecodeOfLine(m1.facility, m1.severity, m1.timestamp, m1.text);
    DecodeOfLine(m2.facility, m2.severity, m2.timestamp, m2.text);
  }

  /** The line of the crate's unit test `test_syslog_line`: LOCAL0 with INFO is "<134> ". */
  lemma Local0InfoLine(timestamp: string)
    ensures Line(LOCAL0, INFO, timestamp, "yo") == "<134> " + timestamp + " yo"
  {
    assert Code(LOCAL0) == 128 && Ordinal(INFO) == 6;
    assert Priority(LOCAL0, INFO) == 134;
    assert Render(134) == "134";
  }
}
