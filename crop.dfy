/** `crop_string`: shortens a label to at most N characters, marking the cut with an ellipsis. */
module Crop {

  /** The one-character ellipsis the program uses by default. */
  const Ellipsis: string := "…"

  /** Python's `s[i:]` for any integer i: a negative i counts from the end, and both ends are clamped. */
  function SliceFrom(s: string, i: int): (r: string)
    ensures |r| <= |s| && r == s[|s| - |r|..]
    ensures |r| == (if i >= 0 then (if i <= |s| then |s| - i else 0) else (if -i <= |s| then -i else |s|))
  {
    var start := if i < 0 then (if i + |s| < 0 then 0 else i + |s|) else (if i > |s| then |s| else i);
    s[start..]
  }

  /** `crop_string(s, N, ellipsis, end)` exactly as written: when s is longer than
      `N - len(ellipsis)` it keeps `s[-(N - len(ellipsis)):]`, with the ellipsis at the back
      (`end` true) or at the front. */
  function CropString(s: string, n: int, ellipsis: string, atEnd: bool): string
  {
    var keep := n - |ellipsis|;
    if |s| > keep then
      var tail := SliceFrom(s, -keep);
      if atEnd then tail + ellipsis else ellipsis + tail
    else s
  }

  /** A string that already fits is returned unchanged. */
  lemma CropFits(s: string, n: int, ellipsis: string, atEnd: bool)
    requires |s| <= n - |ellipsis|
    ensures CropString(s, n, ellipsis, atEnd) == s
  {
  }

  /** When there is room for at least one character beside the ellipsis, a long string keeps
      exactly its last `N - len(ellipsis)` characters and the result is exactly N long. */
  lemma CropKeepsSuffix(s: string, n: int, ellipsis: string, atEnd: bool)
    requires 0 < n - |ellipsis| < |s|
    ensures var r := CropString(s, n, ellipsis, atEnd);
      && |r| == n
      && r == (if atEnd then s[|s| - (n - |ellipsis|)..] + ellipsis else ellipsis + s[|s| - (n - |ellipsis|)..])
  {
  }

  /** Whenever N exceeds the ellipsis width, the result is at most N long. */
  lemma CropBounded(s: string, n: int, ellipsis: string, atEnd: bool)
    requires n > |ellipsis|
    ensures |CropString(s, n, ellipsis, atEnd)| <= n
  {
  }

  /** When N equals the ellipsis width, `s[-0:]` is the whole string: a non-empty s comes back
      whole, with the ellipsis added. */
  lemma CropAtEllipsisWidth(s: string, ellipsis: string, atEnd: bool)
    requires |s| > 0
    ensures CropString(s, |ellipsis|, ellipsis, atEnd) == if atEnd then s + ellipsis else ellipsis + s
  {
  }

  /** When N is below the ellipsis width, the slice start is positive and the FIRST characters
      are dropped instead of the last ones kept. */
  lemma CropBelowEllipsisWidth(s: string, n: int, ellipsis: string, atEnd: bool)
    requires n < |ellipsis|
    ensures var drop := |ellipsis| - n;
      var tail := if drop <= |s| then s[drop..] else [];
      CropString(s, n, ellipsis, atEnd) == if atEnd then tail + ellipsis else ellipsis + tail
  {
  }

  /** The discrepancy made concrete: asked to crop "abcdef" to one character, the program
      returns all seven characters of "…abcdef". */
  lemma CropOverflowExample()
    ensures CropString("abcdef", 1, Ellipsis, false) == "…abcdef"
    ensures |CropString("abcdef", 1, Ellipsis, false)| == 7
  {
    assert |Ellipsis| == 1;
    assert SliceFrom("abcdef", 0) == "abcdef";
  }

  /** The last k characters of s, or all of s when it is shorter. */
  function Last(s: string, k: nat): string
  {
    if |s| <= k then s else Last(s[1..], k)
  }

  /** `Last` is the suffix of length `min(k, |s|)`. */
  lemma {:induction false} LastIsSuffix(s: string, k: nat)
    ensures |s| <= k ==> Last(s, k) == s
    ensures |s| > k ==> Last(s, k) == s[|s| - k..]
  {
    if |s| > k {
      LastIsSuffix(s[1..], k);
      assert s[1..][|s| - 1 - k..] == s[|s| - k..];
    }
  }

  /** The evidently intended crop: keep the last `max(N - len(ellipsis), 0)` characters. */
  function CropStringClamped(s: string, n: int, ellipsis: string, atEnd: bool): string
  {
    var keep := n - |ellipsis|;
    if |s| > keep then
      var tail := Last(s, if keep > 0 then keep else 0);
      if atEnd then tail + ellipsis else ellipsis + tail
    else s
  }

  /** The clamped crop never exceeds N once N leaves room for the ellipsis, returns a string
      that fits unchanged, and otherwise keeps exactly the last `max(N - len(ellipsis), 0)`
      characters next to the ellipsis. */
  lemma ClampedCrop(s: string, n: int, ellipsis: string, atEnd: bool)
    ensures var r := CropStringClamped(s, n, ellipsis, atEnd);
      && (n >= |ellipsis| ==> |r| <= n)
      && (|s| <= n - |ellipsis| ==> r == s)
      && (|s| > n - |ellipsis| ==>
            var keep := if n - |ellipsis| > 0 then n - |ellipsis| else 0;
            r == (if atEnd then s[|s| - keep..] + ellipsis else ellipsis + s[|s| - keep..]))
  {
    var keep := if n - |ellipsis| > 0 then n - |ellipsis| else 0;
    LastIsSuffix(s, keep);
  }

  /** Wherever the program's crop is well behaved (N above the ellipsis width, as at its only
      call site, N = 20), the clamped crop gives the same string. */
  lemma ClampedAgrees(s: string, n: int, ellipsis: string, atEnd: bool)
    requires n > |ellipsis|
    ensures CropStringClamped(s, n, ellipsis, atEnd) == CropString(s, n, ellipsis, atEnd)
  {
    ClampedCrop(s, n, ellipsis, atEnd);
  }
}
