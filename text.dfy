/**
 * The two string operations the severity classifier relies on:
 * lowercasing (`str.lower()`) and substring search (`term in text`).
 * Lowercasing is modelled on ASCII letters only.
 */
module Text {

  predicate IsUpper(c: char) {
    'A' <= c <= 'Z'
  }

  /** No ASCII upper-case letter occurs in `s`. */
  predicate IsLowerCase(s: string) {
    forall i :: 0 <= i < |s| ==> !IsUpper(s[i])
  }

  /** One character lowercased: an ASCII capital becomes the small letter at the same alphabet position. */
  function LowerChar(c: char): (d: char)
    ensures !IsUpper(d)
    ensures !IsUpper(c) ==> d == c
    ensures IsUpper(c) ==> 'a' <= d <= 'z' && d as int - 'a' as int == c as int - 'A' as int
  {
    if IsUpper(c) then (c as int - 'A' as int + 'a' as int) as char else c
  }

  /** `s.lower()`, restricted to ASCII letters. */
  function Lower(s: string): (r: string)
    ensures |r| == |s|
    ensures IsLowerCase(r)
    ensures forall i :: 0 <= i < |s| && IsUpper(s[i]) ==> r[i] as int == s[i] as int - 'A' as int + 'a' as int
    ensures forall i :: 0 <= i < |s| && !IsUpper(s[i]) ==> r[i] == s[i]
  {
    seq(|s|, i requires 0 <= i < |s| => LowerChar(s[i]))
  }

  /** Lowercasing is idempotent. */
  lemma LowerIdempotent(s: string)
    ensures Lower(Lower(s)) == Lower(s)
  {
  }

  /** Lowercasing works character by character, so it distributes over concatenation. */
  lemma LowerConcat(s: string, t: string)
    ensures Lower(s + t) == Lower(s) + Lower(t)
  {
  }

  /** `pat` occurs in `text` starting at offset `i`. */
  ghost predicate OccursAt(text: string, pat: string, i: int) {
    0 <= i && i + |pat| <= |text| && text[i..i + |pat|] == pat
  }

  /** `pat` occurs somewhere in `text` as a contiguous block (Python's `pat in text`). */
  ghost predicate Occurs(text: string, pat: string) {
    exists i :: OccursAt(text, pat, i)
  }

  /** Dropping the first character of `text` shifts every occurrence one place to the left. */
  lemma OccursShift(text: string, pat: string)
    requires |text| >= 1
    ensures forall k :: OccursAt(text[1..], pat, k) ==> OccursAt(text, pat, k + 1)
    ensures forall k :: 1 <= k && OccursAt(text, pat, k) ==> OccursAt(text[1..], pat, k - 1)
  {
  }

  /** Substring search, scanning `text` from the left. */
  function Contains(text: string, pat: string): (b: bool)
    ensures b <==> Occurs(text, pat)
    decreases |text|
  {
    if |pat| > |text| then false
    else if text[..|pat|] == pat then
      assert OccursAt(text, pat, 0);
      true
    else
      OccursShift(text, pat);
      Contains(text[1..], pat)
  }

  /** Python's `any(term in text for term in terms)`. */
  function AnyContains(text: string, terms: seq<string>): (b: bool)
    ensures b <==> exists t :: t in terms && Occurs(text, t)
  {
    if terms == [] then false
    else Contains(text, terms[0]) || AnyContains(text, terms[1..])
  }

  /** An occurrence survives appending more text. */
  lemma OccursInExtension(text: string, more: string, pat: string)
    requires Occurs(text, pat)
    ensures Occurs(text + more, pat)
  {
    var i :| OccursAt(text, pat, i);
    assert (text + more)[i..i + |pat|] == text[i..i + |pat|];
    assert OccursAt(text + more, pat, i);
  }

  /** A string occurs in any text that has it as a middle part. */
  lemma OccursInMiddle(head: string, pat: string, tail: string)
    ensures Occurs(head + pat + tail, pat)
  {
    assert (head + pat + tail)[|head|..|head| + |pat|] == pat;
    assert OccursAt(head + pat + tail, pat, |head|);
  }

  /** A pattern that holds a character absent from `text` cannot occur in it. */
  lemma AbsentCharBlocks(text: string, pat: string, k: nat)
    requires k < |pat| && pat[k] !in text
    ensures !Occurs(text, pat)
  {
  }

  /** A pattern longer than `text` cannot occur in it. */
  lemma LongPatternAbsent(text: string, pat: string)
    requires |pat| > |text|
    ensures !Occurs(text, pat)
  {
  }
}
