/** The text handling the chat controller relies on: JavaScript's
    String.prototype.trim, which drops leading and trailing white space, and
    the send gate built on it. */
module ChatText {

  /** White space as trim sees it: the ASCII space and control separators,
      the no-break space, the byte-order mark, and the Unicode space,
      line and paragraph separators. */
  predicate IsWhiteSpace(c: char) {
    c == ' ' || c == '\t' || c == '\n' || c == '\r' || c == '\U{000B}' || c == '\U{000C}' ||
    c == '\U{00A0}' || c == '\U{FEFF}' || c == '\U{1680}' ||
    ('\U{2000}' <= c <= '\U{200A}') || c == '\U{2028}' || c == '\U{2029}' ||
    c == '\U{202F}' || c == '\U{205F}' || c == '\U{3000}'
  }

  /** Drops the leading white space: what is left is a suffix of s that is
      empty or starts with a non-space, and everything dropped is white space. */
  function TrimStart(s: string): (r: string)
    ensures |r| <= |s| && r == s[|s| - |r|..]
    ensures r == [] || !IsWhiteSpace(r[0])
    ensures forall i :: 0 <= i < |s| - |r| ==> IsWhiteSpace(s[i])
  {
    if |s| > 0 && IsWhiteSpace(s[0]) then TrimStart(s[1..]) else s
  }

  /** Drops the trailing white space: what is left is a prefix of s that is
      empty or ends with a non-space, and everything dropped is white space. */
  function TrimEnd(s: string): (r: string)
    ensures |r| <= |s| && r == s[..|r|]
    ensures r == [] || !IsWhiteSpace(r[|r| - 1])
    ensures forall i :: |r| <= i < |s| ==> IsWhiteSpace(s[i])
  {
    if |s| > 0 && IsWhiteSpace(s[|s| - 1]) then TrimEnd(s[..|s| - 1]) else s
  }

  /** String.prototype.trim. */
  function Trim(s: string): (r: string)
    ensures r == [] || (!IsWhiteSpace(r[0]) && !IsWhiteSpace(r[|r| - 1]))
  {
    TrimEnd(TrimStart(s))
  }

  predicate AllWhiteSpace(s: string) {
    forall i :: 0 <= i < |s| ==> IsWhiteSpace(s[i])
  }

  /** Trim yields the empty string exactly when the input is all white space. */
  lemma TrimEmptyIffBlank(s: string)
    ensures Trim(s) == [] <==> AllWhiteSpace(s)
  {
    var t := TrimStart(s);
    if !AllWhiteSpace(s) {
      var j :| 0 <= j < |s| && !IsWhiteSpace(s[j]);
      var k := j - (|s| - |t|);
      assert 0 <= k < |t| && t[k] == s[j];
      assert |TrimEnd(t)| > k by {
        assert !IsWhiteSpace(t[k]);
      }
    }
  }

  /** Trim is idempotent. */
  lemma TrimIdempotent(s: string)
    ensures Trim(Trim(s)) == Trim(s)
  {
    var r := Trim(s);
    assert TrimStart(r) == r;
    assert TrimEnd(r) == r;
  }

  /** Trim removes white space from the two ends and nothing else: the result
      is the infix of s that the white-space prefix and suffix enclose. */
  lemma TrimRemovesOnlyEnds(s: string)
    ensures exists i :: 0 <= i <= |s| - |Trim(s)| &&
              Trim(s) == s[i..i + |Trim(s)|] &&
              AllWhiteSpace(s[..i]) && AllWhiteSpace(s[i + |Trim(s)|..])
  {
    var t := TrimStart(s);
    var r := TrimEnd(t);
    var i := |s| - |t|;
    assert t == s[i..];
    assert r == t[..|r|];
    assert r == s[i..i + |r|];
    assert AllWhiteSpace(s[..i]);
    var tail := s[i + |r|..];
    assert tail == t[|r|..];
    assert AllWhiteSpace(tail);
    assert 0 <= i <= |s| - |r| && r == s[i..i + |r|] && AllWhiteSpace(s[..i]) && AllWhiteSpace(s[i + |r|..]);
  }

  /** handleSend's gate: the trimmed input is non-empty and no request is in
      flight. Equivalently, nothing is in flight and the input holds a
      character that is not white space. */
  predicate AcceptsSend(input: string, isProcessing: bool): (ok: bool)
    ensures ok <==> !isProcessing && exists i :: 0 <= i < |input| && !IsWhiteSpace(input[i])
  {
    TrimEmptyIffBlank(input);
    Trim(input) != [] && !isProcessing
  }
}
