/** String operations of Python's str used by the model: prefix and substring tests, find/rfind,
    slicing with Python's index rules, lower-casing, strip and the regex word-character class. */
module Text {
  import opened Wrappers

  /** Python truthiness of an optional string: present and not empty. */
  predicate NonEmpty(s: Option<string>) {
    s.Some? && s.value != ""
  }

  predicate StartsWith(s: string, p: string) {
    |p| <= |s| && s[..|p|] == p
  }

  /** p occurs in s starting at index i. */
  predicate OccursAt(s: string, p: string, i: int) {
    0 <= i <= |s| - |p| && s[i..i + |p|] == p
  }

  /** Python's `p in s`. */
  predicate Contains(s: string, p: string) {
    exists i | 0 <= i <= |s| :: OccursAt(s, p, i)
  }

  lemma ContainsAt(s: string, p: string, i: int)
    requires OccursAt(s, p, i)
    ensures Contains(s, p)
  {
  }

  lemma PrefixOfConcat(x: string, y: string)
    ensures StartsWith(x + y, x)
  {
    assert (x + y)[..|x|] == x;
  }

  lemma StartsWithTrans(s: string, p: string, q: string)
    requires StartsWith(s, p) && StartsWith(p, q)
    ensures StartsWith(s, q)
  {
    assert s[..|q|] == s[..|p|][..|q|];
  }

  lemma StartsWithContains(s: string, p: string)
    requires StartsWith(s, p)
    ensures Contains(s, p)
  {
    ContainsAt(s, p, 0);
  }

  /** Every character of a pattern that occurs in s occurs in s itself. */
  lemma ContainedChars(s: string, p: string, k: int)
    requires 0 <= k < |p|
    ensures Contains(s, p) ==> p[k] in s
  {
    if Contains(s, p) {
      var i :| 0 <= i <= |s| && OccursAt(s, p, i);
      assert s[i + k] == s[i..i + |p|][k] == p[k];
    }
  }

  /** A one-character pattern occurs exactly when the character does. */
  lemma ContainsChar(s: string, c: char)
    ensures Contains(s, [c]) <==> c in s
  {
    ContainedChars(s, [c], 0);
    if c in s {
      var i :| 0 <= i < |s| && s[i] == c;
      assert OccursAt(s, [c], i);
    }
  }

  /** The first occurrence of a one-character pattern is the first index holding the character. */
  lemma FirstChar(s: string, c: char, k: int)
    requires 0 <= k < |s| && s[k] == c && forall j :: 0 <= j < k ==> !OccursAt(s, [c], j)
    ensures c !in s[..k]
  {
    forall j | 0 <= j < k
      ensures s[j] != c
    {
      assert !OccursAt(s, [c], j);
      assert s[j..j + 1] == [s[j]];
    }
  }

  /** Python's `s.find(p, start)`: the first index k >= start with p at k, or -1. */
  function FindFrom(s: string, p: string, start: nat): (k: int)
    decreases |s| - start
    ensures k == -1 || (start <= k && OccursAt(s, p, k))
    ensures k == -1 ==> forall j :: start <= j ==> !OccursAt(s, p, j)
    ensures k != -1 ==> forall j :: start <= j < k ==> !OccursAt(s, p, j)
  {
    if start + |p| > |s| then -1
    else if s[start..start + |p|] == p then start
    else FindFrom(s, p, start + 1)
  }

  /** find returns the first occurrence at or after start. */
  lemma FindFromAt(s: string, p: string, start: nat, e: int)
    requires start <= e && OccursAt(s, p, e)
    requires forall j :: start <= j < e ==> !OccursAt(s, p, j)
    ensures FindFrom(s, p, start) == e
  {
  }

  /** find gives -1 when the pattern's first character does not occur from start on. */
  lemma FindFromNone(s: string, p: string, start: nat)
    requires p != [] && forall j :: start <= j < |s| ==> s[j] != p[0]
    ensures FindFrom(s, p, start) == -1
  {
    forall j | start <= j
      ensures !OccursAt(s, p, j)
    {
      if j < |s| && j + |p| <= |s| {
        assert s[j..j + |p|][0] == s[j];
      }
    }
  }

  /** Python's `s.find(p)`. */
  function Find(s: string, p: string): (k: int)
    ensures k == -1 <==> !Contains(s, p)
    ensures k != -1 ==> OccursAt(s, p, k)
    ensures k != -1 ==> forall j :: 0 <= j < k ==> !OccursAt(s, p, j)
  {
    FindFrom(s, p, 0)
  }

  /** Python's `s.rfind(c)` for a one-character needle: the last index holding c, or -1. */
  function RFindChar(s: string, c: char): (k: int)
    ensures -1 <= k < |s|
    ensures k != -1 ==> s[k] == c
    ensures forall j :: k < j < |s| ==> s[j] != c
  {
    if |s| == 0 then -1
    else if s[|s| - 1] == c then |s| - 1
    else RFindChar(s[..|s| - 1], c)
  }

  /** Normalises one slice bound the way Python does: negative counts from the end, then clamp. */
  function SliceBound(i: int, n: nat): (b: nat)
    ensures b <= n
  {
    if i < 0 then (if i + n < 0 then 0 else i + n)
    else if i > n then n
    else i
  }

  /** Python's `s[i:j]`. */
  function Slice(s: string, i: int, j: int): (r: string)
    ensures |r| <= |s|
  {
    var lo := SliceBound(i, |s|);
    var hi := SliceBound(j, |s|);
    if lo < hi then s[lo..hi] else ""
  }

  /** Lower-casing of one character: ASCII A-Z and the Russian alphabet (including Ё). */
  function LowerChar(c: char): char {
    if 'A' <= c <= 'Z' then (c as int + 32) as char
    else if 'А' <= c <= 'Я' then (c as int + 32) as char
    else if c == 'Ё' then 'ё'
    else c
  }

  function Lower(s: string): (r: string)
    ensures |r| == |s|
    ensures forall i :: 0 <= i < |s| ==> r[i] == LowerChar(s[i])
  {
    if s == [] then [] else [LowerChar(s[0])] + Lower(s[1..])
  }

  /** The whitespace that Python's str.strip removes (ASCII whitespace and the common Unicode spaces). */
  predicate IsSpace(c: char) {
    ('\t' <= c <= '\r') || ('\U{1C}' <= c <= ' ') || c == '\U{85}' || c == '\U{A0}' || c == '\U{1680}'
    || ('\U{2000}' <= c <= '\U{200A}') || c == '\U{2028}' || c == '\U{2029}' || c == '\U{202F}'
    || c == '\U{205F}' || c == '\U{3000}'
  }

  function StripLeft(s: string): (r: string)
    ensures |r| <= |s| && r == s[|s| - |r|..]
    ensures r == [] || !IsSpace(r[0])
    ensures forall i :: 0 <= i < |s| - |r| ==> IsSpace(s[i])
  {
    if s != [] && IsSpace(s[0]) then StripLeft(s[1..]) else s
  }

  function StripRight(s: string): (r: string)
    ensures |r| <= |s| && r == s[..|r|]
    ensures r == [] || !IsSpace(r[|r| - 1])
    ensures forall i :: |r| <= i < |s| ==> IsSpace(s[i])
  {
    if s != [] && IsSpace(s[|s| - 1]) then StripRight(s[..|s| - 1]) else s
  }

  /** Python's `s.strip()`. */
  function Strip(s: string): (r: string) {
    StripRight(StripLeft(s))
  }

  /** A character that is not whitespace survives strip, so the result is non-empty. */
  lemma StripKeeps(s: string, i: nat)
    requires i < |s| && !IsSpace(s[i])
    ensures Strip(s) != []
  {
    var l := StripLeft(s);
    assert |s| - |l| <= i;
    assert l[i - (|s| - |l|)] == s[i];
    assert !IsSpace(l[i - (|s| - |l|)]);
  }

  /** Text that neither starts nor ends with whitespace is left as it is by strip. */
  lemma StripNoSpace(s: string)
    requires s != [] && !IsSpace(s[0]) && !IsSpace(s[|s| - 1])
    ensures Strip(s) == s
  {
  }

  /** Python's `s.rstrip(c)` for one character. */
  function RStripChar(s: string, c: char): (r: string)
    ensures |r| <= |s| && r == s[..|r|]
    ensures r == [] || r[|r| - 1] != c
    ensures forall i :: |r| <= i < |s| ==> s[i] == c
  {
    if s != [] && s[|s| - 1] == c then RStripChar(s[..|s| - 1], c) else s
  }

  /** The word characters the model gives `\b`: ASCII letters and digits, the underscore and the
      Russian alphabet with Ё/ё. Python's `\w` for str patterns is every Unicode letter and
      digit; the two agree on Latin and Russian text only. */
  predicate IsWordChar(c: char) {
    ('a' <= c <= 'z') || ('A' <= c <= 'Z') || ('0' <= c <= '9') || c == '_'
    || ('А' <= c <= 'я') || c == 'Ё' || c == 'ё'
  }

  /** Python's `\b` at position k of t: a word character on exactly one side. */
  predicate WordBoundary(t: string, k: nat)
    requires k <= |t|
  {
    (k > 0 && IsWordChar(t[k - 1])) != (k < |t| && IsWordChar(t[k]))
  }

  /** `re.search(r'\b' + re.escape(w) + r'\b', t)`: w occurs in t with a boundary on both sides. */
  predicate WholeWordIn(t: string, w: string) {
    exists i | 0 <= i <= |t| :: OccursAt(t, w, i) && WordBoundary(t, i) && WordBoundary(t, i + |w|)
  }
}
