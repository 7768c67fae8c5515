/** The PRI value of section 6.2.1 of RFC 5424: the facility code and the
    severity ordinal combined into one byte. */
module Pri {
  import opened Options
  import opened Codes
  import opened Bits

  /** `facility as u8 | severity as u8`. A facility code has its low three
      bits clear and a severity ordinal fits in them, so the or is the sum
      of the two; it lies in [0, 191] and splits back into slot and ordinal. */
  function Priority(f: Facility, s: Severity): (p: nat)
    ensures p == Code(f) + Ordinal(s)
    ensures p <= 191
    ensures p == 191 <==> f == LOCAL7 && s == DEBUG
    ensures p == 0 <==> f == KERN && s == EMERGENCY
    ensures p / 8 == Slot(f) && p % 8 == Ordinal(s)
  {
    assert Code(f) == Slot(f) * Pow2(3);
    OrOfDisjointIsSum(Slot(f), Ordinal(s), 3);
    Or(AsU8(Code(f)), AsU8(Ordinal(s)))
  }

  /** Reads a PRI value back as the facility and severity it encodes:
      exactly the pair whose priority it is, and `None` when there is no
      such pair (the high bits name no facility of the client, or the value
      does not fit a byte). */
  function DecodePriority(p: nat): (r: Option<(Facility, Severity)>)
    ensures r.Some? ==> Priority(r.value.0, r.value.1) == p
    ensures forall f, s :: Priority(f, s) == p ==> r == Some((f, s))
  {
    if p >= 256 then None
    else
      match (FacilityOfCode(p - p % 8), SeverityOfOrdinal(p % 8))
      case (Some(f), Some(s)) => Some((f, s))
      case _ => None
  }

  /** Distinct facility/severity pairs never share a priority. */
  lemma PriorityInjective(f1: Facility, s1: Severity, f2: Facility, s2: Severity)
    requires Priority(f1, s1) == Priority(f2, s2)
    ensures f1 == f2 && s1 == s2
  {
    assert DecodePriority(Priority(f1, s1)) == Some((f1, s1));
  }
}
