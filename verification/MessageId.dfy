/** The identity string of a message, and the parser of the ids a broker sends back. */
module MessageId {
  import opened Telemetry
  import Strings

  /** The largest integer a JavaScript number represents together with all smaller ones. */
  const MAX_SAFE_INTEGER := 9_007_199_254_740_991

  function Signed(n: int): string {
    if n < 0 then "-" + Strings.Decimal(-n) else Strings.Decimal(n)
  }

  /** `deviceId:sessionId:seq`. */
  function MessageIdentity(id: Identity): string {
    id.deviceId + ":" + Signed(id.key.sessionId) + ":" + Signed(id.key.seqNo)
  }

  /**
   * A message id as it comes back from the broker: any value, `None` when it is not a string. The
   * number of a digit string is exact up to `MAX_SAFE_INTEGER`, and rounding never brings a larger
   * one below it, so the safety test is a test of the exact value.
   */
  function ParseMessageId(messageId: Option<string>): Option<Identity> {
    if messageId.None? then None
    else
      var parts := Strings.Split(messageId.value, ':');
      if |parts| != 3 then None
      else if parts[0] == "" || !IsNumber(parts[1]) || !IsNumber(parts[2]) then None
      else
        var sessionId, seqNo := Strings.DecimalValue(parts[1]), Strings.DecimalValue(parts[2]);
        if sessionId > MAX_SAFE_INTEGER || seqNo > MAX_SAFE_INTEGER then None
        else Some(Identity(parts[0], OrderKey(sessionId, seqNo)))
  }

  predicate IsNumber(text: string) {
    text != "" && Strings.AllDigits(text)
  }

  /** The identities whose string can be read back: every validated message has one. */
  predicate Parseable(id: Identity) {
    && id.deviceId != "" && ':' !in id.deviceId
    && 0 <= id.key.sessionId <= 9_007_199_254_740_991
    && 0 <= id.key.seqNo <= 9_007_199_254_740_991
  }

  lemma SignedIsNumber(n: int)
    ensures ':' !in Signed(n)
    ensures IsNumber(Signed(n)) <==> n >= 0
    ensures n >= 0 ==> Strings.DecimalValue(Signed(n)) == n
  {
    if n >= 0 {
      Strings.DecimalRoundTrip(n);
    } else {
      assert Signed(n)[0] == '-';
      assert !Strings.AllDigits(Signed(n));
    }
  }

  lemma SplitIdentity(id: Identity)
    requires ':' !in id.deviceId
    ensures Strings.Split(MessageIdentity(id), ':') == [id.deviceId, Signed(id.key.sessionId), Signed(id.key.seqNo)]
  {
    var session, seqNo := Signed(id.key.sessionId), Signed(id.key.seqNo);
    SignedIsNumber(id.key.sessionId);
    SignedIsNumber(id.key.seqNo);
    assert MessageIdentity(id) == id.deviceId + [':'] + (session + [':'] + seqNo);
    Strings.SplitAtFirst(id.deviceId, session + [':'] + seqNo, ':');
    Strings.SplitAtFirst(session, seqNo, ':');
    Strings.SplitWithoutSeparator(seqNo, ':');
  }

  lemma ColonNeverParses(id: Identity)
    requires ':' in id.deviceId
    ensures ParseMessageId(Some(MessageIdentity(id))) == None
  {
    var tail := ":" + Signed(id.key.sessionId) + ":" + Signed(id.key.seqNo);
    assert MessageIdentity(id) == id.deviceId + tail;
    Strings.OccurrencesConcat(id.deviceId, tail, ':');
    Strings.OccursWhenPresent(id.deviceId, ':');
    assert tail == ":" + (Signed(id.key.sessionId) + (":" + Signed(id.key.seqNo)));
    Strings.OccurrencesConcat(":", Signed(id.key.sessionId) + (":" + Signed(id.key.seqNo)), ':');
    Strings.OccurrencesConcat(Signed(id.key.sessionId), ":" + Signed(id.key.seqNo), ':');
    Strings.OccurrencesConcat(":", Signed(id.key.seqNo), ':');
    Strings.OccursWhenPresent(":", ':');
    Strings.SplitCount(MessageIdentity(id), ':');
  }

  /** The parser reads back exactly the identities a validated message can have. */
  lemma ParseReadsBack(id: Identity)
    ensures ParseMessageId(Some(MessageIdentity(id))) == Some(id) <==> Parseable(id)
  {
    if ':' in id.deviceId {
      ColonNeverParses(id);
    } else {
      SplitIdentity(id);
      SignedIsNumber(id.key.sessionId);
      SignedIsNumber(id.key.seqNo);
    }
  }

  /** No two of those identities share a string. */
  lemma IdentityStringInjective(a: Identity, b: Identity)
    requires Parseable(a) && Parseable(b)
    requires MessageIdentity(a) == MessageIdentity(b)
    ensures a == b
  {
    ParseReadsBack(a);
    ParseReadsBack(b);
  }
}
