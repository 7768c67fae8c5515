/** The two closed enumerations of the syslog priority: where a message comes
    from (its facility) and how urgent it is (its severity). */
module Codes {
  import opened Options

  /** The twenty facilities the client knows. Slots 12 to 15 of the standard
      table have no constructor here, because the client does not name them. */
  datatype Facility =
    | KERN | USER | MAIL | DAEMON | AUTH | SYSLOG | LINEPTR | NEWS
    | UUCP | CLOCK | AUTHPRIV | FTP
    | LOCAL0 | LOCAL1 | LOCAL2 | LOCAL3 | LOCAL4 | LOCAL5 | LOCAL6 | LOCAL7

  /** The eight severities, most severe first. */
  datatype Severity =
    | EMERGENCY | ALERT | CRITICAL | ERROR | WARNING | NOTICE | INFO | DEBUG

  /** The number the enum shifts left by three bits to form its discriminant. */
  function Slot(f: Facility): nat
  {
    match f
    case KERN => 0
    case USER => 1
    case MAIL => 2
    case DAEMON => 3
    case AUTH => 4
    case SYSLOG => 5
    case LINEPTR => 6
    case NEWS => 7
    case UUCP => 8
    case CLOCK => 9
    case AUTHPRIV => 10
    case FTP => 11
    case LOCAL0 => 16
    case LOCAL1 => 17
    case LOCAL2 => 18
    case LOCAL3 => 19
    case LOCAL4 => 20
    case LOCAL5 => 21
    case LOCAL6 => 22
    case LOCAL7 => 23
  }

  /** `slot << 3`, written out on unbounded integers. */
  function ShiftLeft3(n: nat): nat
  {
    n * 8
  }

  /** The facility's discriminant, the value `facility as u8` reads. */
  function Code(f: Facility): (c: nat)
    ensures c % 8 == 0
    ensures c <= 184
    ensures c == 184 <==> f == LOCAL7
  {
    ShiftLeft3(Slot(f))
  }

  /** The severity's discriminant: its position in the declaration. */
  function Ordinal(s: Severity): (n: nat)
    ensures n <= 7
    ensures n == 0 <==> s == EMERGENCY
    ensures n == 7 <==> s == DEBUG
  {
    match s
    case EMERGENCY => 0
    case ALERT => 1
    case CRITICAL => 2
    case ERROR => 3
    case WARNING => 4
    case NOTICE => 5
    case INFO => 6
    case DEBUG => 7
  }

  /** Reads a discriminant back as a facility; `None` for any number that is
      not the code of one of the twenty facilities. */
  function FacilityOfCode(c: nat): (r: Option<Facility>)
    ensures r.Some? ==> Code(r.value) == c
    ensures forall f: Facility :: Code(f) == c ==> r == Some(f)
  {
    if c == 0 then Some(KERN)
    else if c == 8 then Some(USER)
    else if c == 16 then Some(MAIL)
    else if c == 24 then Some(DAEMON)
    else if c == 32 then Some(AUTH)
    else if c == 40 then Some(SYSLOG)
    else if c == 48 then Some(LINEPTR)
    else if c == 56 then Some(NEWS)
    else if c == 64 then Some(UUCP)
    else if c == 72 then Some(CLOCK)
    else if c == 80 then Some(AUTHPRIV)
    else if c == 88 then Some(FTP)
    else if c == 128 then Some(LOCAL0)
    else if c == 136 then Some(LOCAL1)
    else if c == 144 then Some(LOCAL2)
    else if c == 152 then Some(LOCAL3)
    else if c == 160 then Some(LOCAL4)
    else if c == 168 then Some(LOCAL5)
    else if c == 176 then Some(LOCAL6)
    else if c == 184 then Some(LOCAL7)
    else None
  }

  /** Reads an ordinal back as a severity; `None` above 7. */
  function SeverityOfOrdinal(n: nat): (r: Option<Severity>)
    ensures r.Some? <==> n <= 7
    ensures r.Some? ==> Ordinal(r.value) == n
  {
    if n == 0 then Some(EMERGENCY)
    else if n == 1 then Some(ALERT)
    else if n == 2 then Some(CRITICAL)
    else if n == 3 then Some(ERROR)
    else if n == 4 then Some(WARNING)
    else if n == 5 then Some(NOTICE)
    else if n == 6 then Some(INFO)
    else if n == 7 then Some(DEBUG)
    else None
  }

  /** Distinct facilities have distinct codes, and distinct severities
      distinct ordinals. */
  lemma CodesAreInjective(f1: Facility, f2: Facility, s1: Severity, s2: Severity)
    ensures Code(f1) == Code(f2) ==> f1 == f2
    ensures Ordinal(s1) == Ordinal(s2) ==> s1 == s2
  {
    if Code(f1) == Code(f2) {
      assert FacilityOfCode(Code(f1)) == Some(f1);
    }
    if Ordinal(s1) == Ordinal(s2) {
      assert SeverityOfOrdinal(Ordinal(s1)).value == s1;
    }
  }
}
