/** String helpers shared by the adapters: ASCII case mapping (Ruby's
    `downcase`, `upcase` and `casecmp?` on the ASCII range), substring search,
    `Array#join`, and the blank-stripping and first-separator split used by the
    raw header parser. */
module Text {

  import opened Wrappers

  function LowerChar(c: char): char {
    if 'A' <= c <= 'Z' then (c as int + 32) as char else c
  }

  function UpperChar(c: char): char {
    if 'a' <= c <= 'z' then (c as int - 32) as char else c
  }

  /** `String#downcase`, ASCII range. */
  function Lower(s: string): (r: string)
    ensures |r| == |s|
  {
    if s == [] then [] else [LowerChar(s[0])] + Lower(s[1..])
  }

  /** Each character is mapped to its ASCII lower case. */
  lemma {:induction false} LowerAt(s: string, i: nat)
    requires i < |s|
    ensures Lower(s)[i] == LowerChar(s[i])
  {
    if i > 0 {
      LowerAt(s[1..], i - 1);
    }
  }

  /** `String#upcase`, ASCII range. */
  function Upper(s: string): (r: string)
    ensures |r| == |s|
    ensures forall i :: 0 <= i < |s| ==> r[i] == UpperChar(s[i])
  {
    seq(|s|, i requires 0 <= i < |s| => UpperChar(s[i]))
  }

  /** `a.casecmp?(b)`: equal once both sides are folded to lower case. */
  predicate SameIgnoringCase(a: string, b: string) {
    Lower(a) == Lower(b)
  }

  lemma {:induction false} LowerAppend(a: string, b: string)
    ensures Lower(a + b) == Lower(a) + Lower(b)
  {
    if a == [] {
      assert a + b == b;
    } else {
      assert (a + b)[1..] == a[1..] + b;
      LowerAppend(a[1..], b);
    }
  }

  /** Upper-casing an already upper-cased verb changes nothing. */
  lemma {:induction false} UpperIdempotent(s: string)
    ensures Upper(Upper(s)) == Upper(s)
  {
    var u := Upper(s);
    forall i | 0 <= i < |s| ensures UpperChar(u[i]) == u[i] {
      assert u[i] == UpperChar(s[i]);
    }
  }

  /** `s.include?(sub)`. */
  predicate Contains(s: string, sub: string) {
    exists i :: 0 <= i <= |s| - |sub| && OccursAt(s, sub, i)
  }

  predicate OccursAt(s: string, sub: string, i: int) {
    0 <= i <= |s| - |sub| && s[i..i + |sub|] == sub
  }

  lemma ContainsMiddle(pre: string, mid: string, post: string)
    ensures Contains(pre + mid + post, mid)
  {
    var s := pre + mid + post;
    assert OccursAt(s, mid, |pre|);
  }

  /** `parts.join(sep)`. */
  function Join(parts: seq<string>, sep: string): (r: string)
    ensures |parts| == 1 ==> r == parts[0]
    ensures |parts| == 0 ==> r == []
    decreases |parts|
  {
    if |parts| == 0 then []
    else if |parts| == 1 then parts[0]
    else Join(parts[..|parts| - 1], sep) + sep + parts[|parts| - 1]
  }

  /** Joining one more part appends the separator and the part. */
  lemma JoinSnoc(parts: seq<string>, sep: string, p: string)
    requires |parts| > 0
    ensures Join(parts + [p], sep) == Join(parts, sep) + sep + p
  {
    assert (parts + [p])[..|parts|] == parts;
  }

  /** Space and horizontal tab, the characters `[ \t]` of the value pattern. */
  predicate Blank(c: char) {
    c == ' ' || c == '\t'
  }

  predicate AllBlank(s: string) {
    forall i :: 0 <= i < |s| ==> Blank(s[i])
  }

  /** Number of leading blanks. */
  function LeadingBlanks(s: string): (n: nat)
    ensures n <= |s|
    ensures AllBlank(s[..n])
    ensures n < |s| ==> !Blank(s[n])
  {
    if |s| == 0 || !Blank(s[0]) then 0
    else
      var n := 1 + LeadingBlanks(s[1..]);
      assert s[..n] == [s[0]] + s[1..][..n - 1];
      n
  }

  /** Length of `s` without its trailing blanks. */
  function BlankFreeEnd(s: string): (n: nat)
    ensures n <= |s|
    ensures AllBlank(s[n..])
    ensures n > 0 ==> !Blank(s[n - 1])
  {
    if |s| == 0 || !Blank(s[|s| - 1]) then |s|
    else
      var n := BlankFreeEnd(s[..|s| - 1]);
      assert s[n..] == s[..|s| - 1][n..] + [s[|s| - 1]];
      n
  }

  /** Strips leading and trailing spaces and tabs (`[ \t]*` on both sides
      of the value pattern). */
  function StripBlanks(s: string): string {
    var i := LeadingBlanks(s);
    s[i..i + BlankFreeEnd(s[i..])]
  }

  /** `StripBlanks` cuts off blanks only, and all of them: the result is a
      slice of `s` with only blanks around it, and it neither starts nor ends
      with a blank. */
  lemma StripBlanksSpec(s: string)
    ensures exists i, j :: 0 <= i <= j <= |s| && StripBlanks(s) == s[i..j] && AllBlank(s[..i]) && AllBlank(s[j..])
    ensures |StripBlanks(s)| > 0 ==> !Blank(StripBlanks(s)[0]) && !Blank(StripBlanks(s)[|StripBlanks(s)| - 1])
  {
    var i := LeadingBlanks(s);
    var n := BlankFreeEnd(s[i..]);
    var j := i + n;
    assert StripBlanks(s) == s[i..j];
    assert AllBlank(s[j..]) by {
      assert s[i..][n..] == s[j..];
    }
    assert |s[i..j]| > 0 ==> !Blank(s[i..j][|s[i..j]| - 1]) by {
      assert s[i..][..n] == s[i..j];
    }
  }

  /** Splits `s` at the first occurrence of `c`, like Ruby's
      `s.split(c, 2)`; `None` when `c` does not occur. */
  function SplitFirst(s: string, c: char): (r: Option<(string, string)>)
    ensures r.Some? <==> c in s
    ensures r.Some? ==> c !in r.value.0 && s == r.value.0 + [c] + r.value.1
  {
    if |s| == 0 then None
    else if s[0] == c then Some(([], s[1..]))
    else match SplitFirst(s[1..], c)
      case None => None
      case Some((a, b)) => Some(([s[0]] + a, b))
  }

  /** The characters before the first line feed (where Ruby's `$` anchor
      stops a match). */
  function FirstLine(s: string): (r: string)
    ensures '\n' !in r
    ensures r == s || (|r| < |s| && s[..|r|] == r && s[|r|] == '\n')
  {
    match SplitFirst(s, '\n')
    case None => s
    case Some((a, _)) => a
  }
}
