/**
 * Removal of reasoning spans from assistant turns. A global, non-greedy,
 * dot-all replacement of `OPEN.*?CLOSE` by the empty string scans from a
 * position: it finds the leftmost OPEN, matches it to the nearest CLOSE that
 * starts after it, deletes that span and resumes scanning after the deleted
 * CLOSE. When the leftmost OPEN has no CLOSE after it, no later OPEN has one
 * either, so the scan stops and the rest of the text stays as it is.
 */
module Markup {
  import opened Wrappers

  /** `pat` occurs in `s` starting at position `i`. */
  predicate OccursAt(s: string, pat: string, i: nat) {
    i + |pat| <= |s| && s[i..i + |pat|] == pat
  }

  /** The first occurrence of `pat` in `s` at or after `from`; `IndexOfIsFirst` states what it finds. */
  function IndexOf(s: string, pat: string, from: nat): (r: Option<nat>)
    requires from <= |s|
    ensures r.Some? ==> from <= r.value && r.value + |pat| <= |s|
    decreases |s| - from
  {
    if |s| < from + |pat| then None
    else if OccursAt(s, pat, from) then Some(from)
    else IndexOf(s, pat, from + 1)
  }

  /** `IndexOf` finds an occurrence, the first at or after `from`, and `None` exactly when there is none. */
  lemma {:induction false} IndexOfIsFirst(s: string, pat: string, from: nat)
    requires from <= |s|
    ensures var r := IndexOf(s, pat, from);
            && (r.Some? ==> OccursAt(s, pat, r.value) && forall j :: from <= j < r.value ==> !OccursAt(s, pat, j))
            && (r.None? ==> forall j :: from <= j ==> !OccursAt(s, pat, j))
    decreases |s| - from
  {
    if from + |pat| <= |s| && !OccursAt(s, pat, from) {
      IndexOfIsFirst(s, pat, from + 1);
    }
  }

  /** `IndexOf` returns the first occurrence at or after `from`, whichever that is. */
  lemma IndexOfFinds(s: string, pat: string, from: nat, i: nat)
    requires from <= i && OccursAt(s, pat, i)
    requires forall j :: from <= j < i ==> !OccursAt(s, pat, j)
    ensures IndexOf(s, pat, from) == Some(i)
  {
    IndexOfIsFirst(s, pat, from);
  }

  /** With no occurrence at or after `from`, `IndexOf` finds nothing. */
  lemma IndexOfMisses(s: string, pat: string, from: nat)
    requires from <= |s|
    requires forall j :: from <= j ==> !OccursAt(s, pat, j)
    ensures IndexOf(s, pat, from) == None
  {
    IndexOfIsFirst(s, pat, from);
  }

  /** What the global replacement yields for `s[from..]` when its scan resumes at `from`. */
  function RemoveSpansFrom(s: string, open: string, close: string, from: nat): (r: string)
    requires open != [] && close != [] && from <= |s|
    ensures |r| <= |s| - from
    decreases |s| - from
  {
    var i := IndexOf(s, open, from);
    if i.None? then s[from..]
    else
      var k := IndexOf(s, close, i.value + |open|);
      if k.None? then s[from..]
      else s[from..i.value] + RemoveSpansFrom(s, open, close, k.value + |close|)
  }

  /** `s.replace(/OPEN.*?CLOSE/gs, '')` for literal markers OPEN and CLOSE. */
  function RemoveSpans(s: string, open: string, close: string): (r: string)
    requires open != [] && close != []
    ensures |r| <= |s|
  {
    RemoveSpansFrom(s, open, close, 0)
  }

  /**
   * One match: when OPEN first occurs at `i` (counting from `from`) and the
   * first CLOSE starting after that OPEN is at `k`, the text from `i` to the
   * end of that CLOSE is deleted and the scan resumes after it.
   */
  lemma RemoveSpansMatch(s: string, open: string, close: string, from: nat, i: nat, k: nat)
    requires open != [] && close != []
    requires from <= i && OccursAt(s, open, i)
    requires forall j :: from <= j < i ==> !OccursAt(s, open, j)
    requires i + |open| <= k && OccursAt(s, close, k)
    requires forall j :: i + |open| <= j < k ==> !OccursAt(s, close, j)
    ensures RemoveSpansFrom(s, open, close, from) == s[from..i] + RemoveSpansFrom(s, open, close, k + |close|)
  {
    IndexOfFinds(s, open, from, i);
    IndexOfFinds(s, close, i + |open|, k);
    RemoveSpansStep(s, open, close, from, i, k);
  }

  /** One unfolding of the scan, once both searches are known. */
  lemma RemoveSpansStep(s: string, open: string, close: string, from: nat, i: nat, k: nat)
    requires open != [] && close != [] && from <= |s|
    requires IndexOf(s, open, from) == Some(i)
    requires IndexOf(s, close, i + |open|) == Some(k)
    ensures RemoveSpansFrom(s, open, close, from) == s[from..i] + RemoveSpansFrom(s, open, close, k + |close|)
  {
  }

  /** Text with no opening marker after the scan position is kept as it is. */
  lemma RemoveSpansNoOpen(s: string, open: string, close: string, from: nat)
    requires open != [] && close != [] && from <= |s|
    requires forall j :: from <= j ==> !OccursAt(s, open, j)
    ensures RemoveSpansFrom(s, open, close, from) == s[from..]
  {
    IndexOfMisses(s, open, from);
  }

  /** An unterminated span: if the first OPEN has no CLOSE after it, the rest of the text is kept as it is. */
  lemma RemoveSpansUnterminated(s: string, open: string, close: string, from: nat, i: nat)
    requires open != [] && close != []
    requires from <= i && OccursAt(s, open, i)
    requires forall j :: from <= j < i ==> !OccursAt(s, open, j)
    requires forall j :: i + |open| <= j ==> !OccursAt(s, close, j)
    ensures RemoveSpansFrom(s, open, close, from) == s[from..]
  {
    IndexOfFinds(s, open, from, i);
    IndexOfMisses(s, close, i + |open|);
  }

  /** Whenever some OPEN is followed by some CLOSE, at least the two markers are deleted. */
  lemma RemoveSpansShrinks(s: string, open: string, close: string, i: nat, k: nat)
    requires open != [] && close != []
    requires OccursAt(s, open, i) && i + |open| <= k && OccursAt(s, close, k)
    ensures |RemoveSpans(s, open, close)| <= |s| - |open| - |close|
  {
    IndexOfIsFirst(s, open, 0);
    var first := IndexOf(s, open, 0);
    assert first.Some? && first.value <= i;
    IndexOfIsFirst(s, close, first.value + |open|);
    var last := IndexOf(s, close, first.value + |open|);
    assert last.Some?;
    RemoveSpansStep(s, open, close, 0, first.value, last.value);
    var rest := RemoveSpansFrom(s, open, close, last.value + |close|);
    assert |rest| <= |s| - last.value - |close|;
  }

  /** The reasoning-block markers, exactly as the two regular expressions spell them. */
  const ThoughtOpen := "<div class=\\\"__boltThought__\\\">"
  const ThoughtClose := "</div>"
  const ThinkOpen := "<think>"
  const ThinkClose := "</think>"

  /** Both reasoning-block passes, the `__boltThought__` one first. */
  function StripThoughts(content: string): (r: string)
    ensures |r| <= |content|
  {
    RemoveSpans(RemoveSpans(content, ThoughtOpen, ThoughtClose), ThinkOpen, ThinkClose)
  }

  /** Text with neither opening marker passes both passes unchanged. */
  lemma StripThoughtsNoMarkers(content: string)
    requires forall j :: !OccursAt(content, ThoughtOpen, j) && !OccursAt(content, ThinkOpen, j)
    ensures StripThoughts(content) == content
  {
    RemoveSpansNoOpen(content, ThoughtOpen, ThoughtClose, 0);
    RemoveSpansNoOpen(content, ThinkOpen, ThinkClose, 0);
  }

  /** Text shorter than the `__boltThought__` opening marker passes the first pass unchanged. */
  lemma ShortTextHasNoThoughtBlock(s: string)
    requires |s| < |ThoughtOpen|
    ensures RemoveSpans(s, ThoughtOpen, ThoughtClose) == s
  {
    RemoveSpansNoOpen(s, ThoughtOpen, ThoughtClose, 0);
  }

  /** Where the markers sit in the example below: `<think>` at 1, not at 0, and `</think>` at 8. */
  lemma ExampleMarkers(s: string)
    requires s == "<<think></think>think></think>"
    ensures !OccursAt(s, ThinkOpen, 0) && OccursAt(s, ThinkOpen, 1) && OccursAt(s, ThinkClose, 8)
  {
    assert s[0..7][1] == s[1];
    assert forall n :: 0 <= n < 7 ==> s[1..8][n] == s[1 + n] == ThinkOpen[n];
    assert forall n :: 0 <= n < 8 ==> s[8..16][n] == s[8 + n] == ThinkClose[n];
  }

  /** The scan of the example below, resumed at 16, finds no `<think>` and keeps the tail. */
  lemma ExampleTail(s: string)
    requires s == "<<think></think>think></think>"
    ensures RemoveSpansFrom(s, ThinkOpen, ThinkClose, 16) == "think></think>"
  {
    forall j: nat | 16 <= j ensures !OccursAt(s, ThinkOpen, j) {
      if j + 7 <= |s| {
        assert s[j..j + 7][0] == s[j] && s[j..j + 7][1] == s[j + 1];
      }
    }
    RemoveSpansNoOpen(s, ThinkOpen, ThinkClose, 16);
  }

  /** The first `<think>` pass over the example below deletes the inner span at 1..16 and keeps the rest. */
  lemma ExampleFirstPass(s: string)
    requires s == "<<think></think>think></think>"
    ensures RemoveSpans(s, ThinkOpen, ThinkClose) == "<think></think>"
  {
    ExampleMarkers(s);
    assert forall j :: 0 <= j < 1 ==> !OccursAt(s, ThinkOpen, j);
    RemoveSpansMatch(s, ThinkOpen, ThinkClose, 0, 1, 8);
    ExampleTail(s);
    var head := s[0..1];
    assert head == "<" by { assert head[0] == s[0]; }
    assert RemoveSpans(s, ThinkOpen, ThinkClose) == head + "think></think>";
    JoinExample(head);
  }

  /**
   * Proof helper for `ExampleFirstPass`: the literal join, kept apart so that
   * the solver proves it without the scan's definitions in view.
   */
  lemma JoinExample(head: string)
    requires head == "<"
    ensures head + "think></think>" == "<think></think>"
  {
  }

  /** The text joined by the first pass is itself one complete span. */
  lemma ExampleSecondPass(t: string)
    requires t == "<think></think>"
    ensures RemoveSpans(t, ThinkOpen, ThinkClose) == ""
  {
    assert OccursAt(t, ThinkOpen, 0) by {
      assert forall n :: 0 <= n < 7 ==> t[0..7][n] == t[n] == ThinkOpen[n];
    }
    assert OccursAt(t, ThinkClose, 7) by {
      assert forall n :: 0 <= n < 8 ==> t[7..15][n] == t[7 + n] == ThinkClose[n];
    }
    RemoveSpansMatch(t, ThinkOpen, ThinkClose, 0, 0, 7);
    RemoveSpansNoOpen(t, ThinkOpen, ThinkClose, 15);
  }

  /**
   * Stripping is not idempotent: in `<<think></think>think></think>` the
   * first pass deletes the inner span and joins `<` with `think>`, leaving
   * `<think></think>`, which only a second pass removes.
   */
  lemma StripThoughtsNotIdempotent(s: string)
    requires s == "<<think></think>think></think>"
    ensures StripThoughts(s) == "<think></think>"
    ensures StripThoughts(StripThoughts(s)) == ""
  {
    ShortTextHasNoThoughtBlock(s);
    ExampleFirstPass(s);
    ShortTextHasNoThoughtBlock("<think></think>");
    ExampleSecondPass("<think></think>");
  }

  /** A reasoning block at the head of a reply is removed and the reply itself kept. */
  lemma LeadingThinkBlockRemoved(s: string)
    requires s == "<think>x</think>hello"
    ensures StripThoughts(s) == "hello"
  {
    ShortTextHasNoThoughtBlock(s);
    assert OccursAt(s, ThinkOpen, 0) by {
      assert forall n :: 0 <= n < 7 ==> s[0..7][n] == s[n] == ThinkOpen[n];
    }
    assert OccursAt(s, ThinkClose, 8) by {
      assert forall n :: 0 <= n < 8 ==> s[8..16][n] == s[8 + n] == ThinkClose[n];
    }
    assert !OccursAt(s, ThinkClose, 7) by {
      assert s[7..15][0] == s[7] == 'x';
    }
    RemoveSpansMatch(s, ThinkOpen, ThinkClose, 0, 0, 8);
    RemoveSpansNoOpen(s, ThinkOpen, ThinkClose, 16);
    assert s[0..0] + s[16..] == "hello";
  }
}
