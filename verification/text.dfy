/**
 The few pieces of Python string behaviour the broker relies on: what
 `str.strip()` removes, what `hmac.compare_digest` accepts, and what it means
 for a message to mention a run identifier.
 */
module Text {

  /** Python's `str.isspace()` for a single character: the characters `str.strip()` removes. */
  predicate IsSpace(c: char) {
    || c == ' '
    || ('\t' <= c <= '\r')            // tab, line feed, vertical tab, form feed, carriage return
    || ('\U{1C}' <= c <= '\U{1F}')    // file, group, record and unit separators
    || c == '\U{85}' || c == '\U{A0}' || c == '\U{1680}'
    || ('\U{2000}' <= c <= '\U{200A}')
    || c == '\U{2028}' || c == '\U{2029}' || c == '\U{202F}' || c == '\U{205F}' || c == '\U{3000}'
  }

  /** Length of the longest all-whitespace prefix of `s`. */
  function LeadingSpace(s: string): (n: nat)
    ensures n <= |s|
    ensures forall k :: 0 <= k < n ==> IsSpace(s[k])
    ensures n < |s| ==> !IsSpace(s[n])
  {
    if |s| > 0 && IsSpace(s[0]) then 1 + LeadingSpace(s[1..]) else 0
  }

  /** Length of the longest all-whitespace suffix of `s`. */
  function TrailingSpace(s: string): (n: nat)
    ensures n <= |s|
    ensures forall k :: |s| - n <= k < |s| ==> IsSpace(s[k])
    ensures n < |s| ==> !IsSpace(s[|s| - 1 - n])
  {
    if |s| > 0 && IsSpace(s[|s| - 1]) then 1 + TrailingSpace(s[..|s| - 1]) else 0
  }

  /**
   Cutting `s` to `s[i..j]` removes only whitespace, and leaves no whitespace
   at either end of the slice.
   */
  ghost predicate StripAt(s: string, i: int, j: int) {
    && 0 <= i <= j <= |s|
    && (forall k :: 0 <= k < i ==> IsSpace(s[k]))
    && (forall k :: j <= k < |s| ==> IsSpace(s[k]))
    && (i < j ==> !IsSpace(s[i]) && !IsSpace(s[j - 1]))
  }

  /** `r` is what remains of `s` once leading and trailing whitespace is cut. */
  ghost predicate IsStripOf(r: string, s: string) {
    exists i, j :: StripAt(s, i, j) && r == s[i..j]
  }

  /** Python's `s.strip()` with no argument. */
  function Strip(s: string): (r: string)
    ensures IsStripOf(r, s)
  {
    var i := LeadingSpace(s);
    var t := TrailingSpace(s[i..]);
    var j := |s| - t;
    assert forall k :: j <= k < |s| ==> IsSpace(s[k]) by {
      forall k | j <= k < |s| ensures IsSpace(s[k]) {
        assert s[k] == s[i..][k - i];
      }
    }
    assert i < j ==> s[j - 1] == s[i..][|s[i..]| - 1 - t];
    assert StripAt(s, i, j);
    s[i..j]
  }

  /** Every way of cutting `s` that `StripAt` allows yields the same slice. */
  lemma StripAtCanonical(s: string, i: int, j: int)
    requires StripAt(s, i, j)
    ensures s[i..j] == Strip(s)
  {
    var r := Strip(s);
    var i', j' :| StripAt(s, i', j') && r == s[i'..j'];
    if i < j {
      assert !(i' < i) && !(i < i');
      assert !(j' < j) && !(j < j');
    } else {
      assert forall k :: 0 <= k < |s| ==> IsSpace(s[k]);
      assert !(i' < j');
    }
  }

  /** At most one string is the stripped form of `s`, so `IsStripOf` pins `Strip` down exactly. */
  lemma StripUnique(r1: string, r2: string, s: string)
    requires IsStripOf(r1, s) && IsStripOf(r2, s)
    ensures r1 == r2
  {
    var i1, j1 :| StripAt(s, i1, j1) && r1 == s[i1..j1];
    var i2, j2 :| StripAt(s, i2, j2) && r2 == s[i2..j2];
    StripAtCanonical(s, i1, j1);
    StripAtCanonical(s, i2, j2);
  }

  /** Stripping twice is stripping once. */
  lemma StripIdempotent(s: string)
    ensures Strip(Strip(s)) == Strip(s)
  {
    var r := Strip(s);
    var i, j :| StripAt(s, i, j) && r == s[i..j];
    assert StripAt(r, 0, |r|);
    assert r == r[0..|r|];
    StripAtCanonical(r, 0, |r|);
  }

  /** A header made only of whitespace strips to the empty string. */
  lemma StripBlank(s: string)
    requires forall k :: 0 <= k < |s| ==> IsSpace(s[k])
    ensures Strip(s) == ""
  {
    assert StripAt(s, 0, 0);
    StripAtCanonical(s, 0, 0);
  }

  /** Every character is ASCII: the only strings `hmac.compare_digest` compares without raising. */
  predicate IsAscii(s: string) {
    forall k :: 0 <= k < |s| ==> s[k] < '\U{80}'
  }

  /** `needle` occurs in `text` as a contiguous slice. */
  ghost predicate Mentions(text: string, needle: string) {
    exists i, j :: 0 <= i <= j <= |text| && text[i..j] == needle
  }
}
