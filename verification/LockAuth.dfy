/** The bearer credential of the conditional-lock probe (conformance/functions/conditional-lock-auth.js). */
module LockAuth {
  import opened Common
  import opened Texts

  const PREFIX := "Bearer "

  /** Thirty-two lower-case hexadecimal digits and nothing else. */
  predicate WellFormed(token: string) {
    HexText(token, 32)
  }

  /** The token of an exact `Bearer <token>` header. */
  function BearerToken(header: Option<string>): (r: Option<string>)
    ensures forall t :: r == Some(t) <==> header == Some(PREFIX + t) && WellFormed(t)
  {
    if header.None? then None
    else
      var h := header.value;
      if |h| == 39 && h[..7] == PREFIX && WellFormed(h[7..]) then
        assert h == PREFIX + h[7..];
        Some(h[7..])
      else
        assert forall t :: h == PREFIX + t ==> h[..7] == PREFIX && h[7..] == t;
        None
  }

  /** Byte by byte over two buffers of one length. */
  predicate SameBytes(a: string, b: string)
    requires |a| == |b|
  {
    forall i :: 0 <= i < |a| ==> a[i] == b[i]
  }

  predicate TokenMatches(presented: string, expected: string) {
    WellFormed(presented) && WellFormed(expected) && SameBytes(presented, expected)
  }

  /** Two tokens match exactly when they are one well-formed token. */
  lemma MatchIsEquality(presented: string, expected: string)
    ensures TokenMatches(presented, expected) <==> presented == expected && WellFormed(presented)
  {
    if TokenMatches(presented, expected) { assert presented == expected; }
  }
}
