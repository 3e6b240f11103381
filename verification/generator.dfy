/** generate_response of app.py, reduced to what it does with the outcome of
    the external text-generation call: a reply is whitespace-stripped, and any
    failure is turned into ordinary reply text starting with "Error: ". */
module Generator {

  /** The outcome of the external call: the generated text, or the
      description of whatever exception the call raised. */
  datatype Outcome = Generated(text: string) | Failed(description: string)

  /** What a failure's description is prefixed with. */
  const ErrorPrefix: string := "Error: "

  /** The characters Python's str.isspace accepts, which str.strip removes. */
  predicate IsSpace(c: char) {
    var n := c as int;
    || 0x09 <= n <= 0x0D
    || 0x1C <= n <= 0x20
    || n == 0x85 || n == 0xA0 || n == 0x1680
    || 0x2000 <= n <= 0x200A
    || n == 0x2028 || n == 0x2029 || n == 0x202F || n == 0x205F || n == 0x3000
  }

  predicate AllSpace(s: string) {
    forall i :: 0 <= i < |s| ==> IsSpace(s[i])
  }

  /** Neither end of s is whitespace. */
  predicate Trimmed(s: string) {
    s == [] || (!IsSpace(s[0]) && !IsSpace(s[|s| - 1]))
  }

  /** s is r with only whitespace before it (the first i characters) and only
      whitespace after it. */
  predicate PaddedAt(s: string, r: string, i: nat) {
    && i + |r| <= |s|
    && s[i..i + |r|] == r
    && AllSpace(s[..i])
    && AllSpace(s[i + |r|..])
  }

  /** The length of the longest all-whitespace prefix of s. */
  function LeadingSpaces(s: string): (k: nat)
    ensures k <= |s|
    ensures AllSpace(s[..k])
    ensures k < |s| ==> !IsSpace(s[k])
  {
    if |s| > 0 && IsSpace(s[0]) then 1 + LeadingSpaces(s[1..]) else 0
  }

  /** The length of the longest all-whitespace suffix of s. */
  function TrailingSpaces(s: string): (k: nat)
    ensures k <= |s|
    ensures AllSpace(s[|s| - k..])
    ensures k < |s| ==> !IsSpace(s[|s| - k - 1])
  {
    if |s| > 0 && IsSpace(s[|s| - 1]) then 1 + TrailingSpaces(s[..|s| - 1]) else 0
  }

  /** Python's str.strip() with no argument: s without its leading and
      trailing whitespace. */
  function Strip(s: string): (r: string)
    ensures Trimmed(r)
    ensures PaddedAt(s, r, LeadingSpaces(s))
  {
    var k := LeadingSpaces(s);
    var t := s[k..];
    var r := t[..|t| - TrailingSpaces(t)];
    StripPadded(s, k, t, r);
    r
  }

  /** The proof of Strip's contract: cutting the leading whitespace and then
      the trailing whitespace leaves a trimmed core that s pads. */
  lemma StripPadded(s: string, k: nat, t: string, r: string)
    requires k == LeadingSpaces(s) && t == s[k..] && r == t[..|t| - TrailingSpaces(t)]
    ensures Trimmed(r)
    ensures PaddedAt(s, r, k)
  {
    var j := TrailingSpaces(t);
    assert s[k..k + |r|] == r;
    assert s[k + |r|..] == t[|t| - j..];
    assert AllSpace(s[k + |r|..]);
    assert r != [] ==> r[0] == t[0] == s[k];
    assert r != [] ==> r[|r| - 1] == t[|t| - j - 1];
  }

  /** Strip's result is the only trimmed string that s pads with whitespace,
      so the two clauses of its contract pin it down completely. */
  lemma StripUnique(s: string, r: string, i: nat)
    requires Trimmed(r)
    requires PaddedAt(s, r, i)
    ensures r == Strip(s)
  {
    var k := LeadingSpaces(s);
    if r == [] {
      assert forall j :: 0 <= j < |s| ==> IsSpace(s[j]) by {
        forall j | 0 <= j < |s| ensures IsSpace(s[j]) {
          if j < i {
            assert s[..i][j] == s[j];
          } else {
            assert s[i..][j - i] == s[j];
          }
        }
      }
      assert k == |s|;
    } else {
      assert s[i] == r[0];
      assert k == i;
      assert |Strip(s)| == |r|;
    }
  }

  /** Stripping twice is stripping once. */
  lemma StripIdempotent(s: string)
    ensures Strip(Strip(s)) == Strip(s)
  {
  }

  /** generate_response: the stripped text on success, and on failure the
      description behind "Error: "; there is no separate error channel. */
  function GenerateResponse(outcome: Outcome): (reply: string)
    ensures outcome.Generated? ==> Trimmed(reply) && PaddedAt(outcome.text, reply, LeadingSpaces(outcome.text))
    ensures outcome.Failed? ==> |reply| == |ErrorPrefix| + |outcome.description|
    ensures outcome.Failed? ==> reply[..|ErrorPrefix|] == ErrorPrefix && reply[|ErrorPrefix|..] == outcome.description
  {
    match outcome
    case Generated(text) => Strip(text)
    case Failed(description) => ErrorPrefix + description
  }

  /** A caller cannot tell a failure from a successful reply that happens to
      read "Error: " followed by the same description: both produce the same
      reply text. (An empty description is the exception: stripping the
      successful reply would remove the space after the colon.) */
  lemma FailureIndistinguishable(description: string)
    requires |description| > 0 && !IsSpace(description[|description| - 1])
    ensures GenerateResponse(Failed(description)) == GenerateResponse(Generated(ErrorPrefix + description))
  {
    var m := ErrorPrefix + description;
    assert m[0] == 'E';
    assert m[|m| - 1] == description[|description| - 1];
    assert m[0..|m|] == m;
    StripUnique(m, m, 0);
  }
}
