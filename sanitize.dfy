/**
 * Neutralising identifiers before they reach a log line or a comparison:
 * the character class `[\r\n\t]` is either replaced by spaces (for logs)
 * or removed (for the checkpoint anchor).
 */
module LogSanitizer {

  /** The characters of the class `[\r\n\t]`. */
  predicate IsControl(c: char) {
    c == '\r' || c == '\n' || c == '\t'
  }

  predicate NoControl(s: string) {
    forall i :: 0 <= i < |s| ==> !IsControl(s[i])
  }

  /** How many characters of an identifier a log line may carry. */
  const MaxLogInput: nat := 100

  /** Global replacement of every control character by one space. */
  function ReplaceControl(s: string): (r: string)
    ensures |r| == |s|
    ensures NoControl(r)
    ensures forall i :: 0 <= i < |s| && !IsControl(s[i]) ==> r[i] == s[i]
    ensures forall i :: 0 <= i < |s| && IsControl(s[i]) ==> r[i] == ' '
  {
    if s == [] then []
    else [if IsControl(s[0]) then ' ' else s[0]] + ReplaceControl(s[1..])
  }

  /**
   * `sanitizeLogInput`: replacement is one for one, so the result is the
   * first min(|input|, 100) characters with each control character turned
   * into a space.
   */
  function SanitizeLogInput(input: string): (r: string)
    ensures |r| == if |input| < MaxLogInput then |input| else MaxLogInput
    ensures NoControl(r)
    ensures forall i :: 0 <= i < |r| && !IsControl(input[i]) ==> r[i] == input[i]
    ensures forall i :: 0 <= i < |r| && IsControl(input[i]) ==> r[i] == ' '
  {
    var replaced := ReplaceControl(input);
    if |replaced| <= MaxLogInput then replaced else replaced[..MaxLogInput]
  }

  /** Sanitising a log input twice is the same as sanitising it once: the first pass leaves nothing to replace. */
  lemma SanitizeLogInputIdempotent(input: string)
    ensures SanitizeLogInput(SanitizeLogInput(input)) == SanitizeLogInput(input)
  {
  }

  /**
   * Global removal of every control character (`replace(/[\r\n\t]/g, '')`):
   * `StripControlCounts` and `StripControlAppend` show that every other
   * character is kept, as often as it occurs and in order.
   */
  function StripControl(s: string): (r: string)
    ensures NoControl(r)
    ensures |r| <= |s|
    ensures NoControl(s) ==> r == s
  {
    if s == [] then []
    else if IsControl(s[0]) then StripControl(s[1..])
    else [s[0]] + StripControl(s[1..])
  }

  /** A character survives removal exactly when it occurs in the input and is not a control character. */
  lemma StripControlMembers(s: string)
    ensures forall c :: c in StripControl(s) <==> c in s && !IsControl(c)
  {
  }

  /** Removal drops every control character and keeps each other character exactly as often as it occurs. */
  lemma {:induction false} StripControlCounts(s: string)
    ensures forall c :: multiset(StripControl(s))[c] == if IsControl(c) then 0 else multiset(s)[c]
    decreases |s|
  {
    if s != [] {
      assert s == [s[0]] + s[1..];
      StripControlCounts(s[1..]);
    }
  }

  /** Removal works piece by piece: it distributes over concatenation. */
  lemma {:induction false} StripControlAppend(a: string, b: string)
    ensures StripControl(a + b) == StripControl(a) + StripControl(b)
    decreases |a|
  {
    if a == [] {
      assert a + b == b;
    } else {
      assert (a + b)[0] == a[0];
      assert (a + b)[1..] == a[1..] + b;
      StripControlAppend(a[1..], b);
    }
  }

  /** Removal leaves a string unchanged exactly when it holds no control character. */
  lemma StripControlIdentityIff(s: string)
    ensures StripControl(s) == s <==> NoControl(s)
  {
  }
}
