/** Text primitives shared by every module: substring containment (JavaScript
    `String.prototype.includes`), prefixes (`startsWith`, `substring(0, n)`),
    lower-casing (`toLowerCase`) and whitespace trimming (`trim`). */
module Text {

  /** `sub` occurs in `s` starting at position `i`. */
  predicate OccursAt(s: string, sub: string, i: int)
  {
    0 <= i && i + |sub| <= |s| && s[i..i + |sub|] == sub
  }

  /** `s.includes(sub)`. */
  predicate Contains(s: string, sub: string)
  {
    exists i | 0 <= i <= |s| - |sub| :: OccursAt(s, sub, i)
  }

  /** `words.some(w => s.includes(w))`. */
  predicate ContainsAny(s: string, words: seq<string>)
  {
    exists k | 0 <= k < |words| :: Contains(s, words[k])
  }

  /** `s.startsWith(p)`. */
  predicate StartsWith(s: string, p: string)
  {
    |p| <= |s| && s[..|p|] == p
  }

  /** `s.substring(0, n)` for a non-negative `n`. */
  function Prefix(s: string, n: nat): (r: string)
    ensures |r| == if |s| <= n then |s| else n
    ensures StartsWith(s, r)
    ensures |s| <= n ==> r == s
  {
    if |s| <= n then s else s[..n]
  }

  /** A witness position is enough to show containment. */
  lemma ContainsAt(s: string, sub: string, i: int)
    requires OccursAt(s, sub, i)
    ensures Contains(s, sub)
  {
  }

  /** Containment survives putting more text around. */
  lemma {:induction false} ContainsInContext(s: string, sub: string, pre: string, post: string)
    requires Contains(s, sub)
    ensures Contains(pre + s + post, sub)
  {
    var i :| 0 <= i <= |s| - |sub| && OccursAt(s, sub, i);
    var t := pre + s + post;
    assert t[|pre| + i..|pre| + i + |sub|] == s[i..i + |sub|];
    assert OccursAt(t, sub, |pre| + i);
  }

  /** A string that lacks one of the characters of `sub` cannot contain it. */
  lemma AbsentChar(s: string, sub: string, k: int)
    requires 0 <= k < |sub| && sub[k] !in s
    ensures !Contains(s, sub)
  {
  }

  /** A string containing `sub` is at least as long as `sub`. */
  lemma ContainsLength(s: string, sub: string)
    requires Contains(s, sub)
    ensures |sub| <= |s|
  {
  }

  // ---------------------------------------------------------------
  // Lower-casing
  // ---------------------------------------------------------------

  /** The upper-case letters whose lower-case form is 32 code points up:
      ASCII A-Z and the Latin-1 letters U+00C0..U+00DE except U+00D7 (the
      multiplication sign). */
  predicate IsUpper(c: char)
  {
    ('A' <= c <= 'Z') || (0xC0 <= c as int <= 0xDE && c as int != 0xD7)
  }

  function LowerChar(c: char): (r: char)
    ensures !IsUpper(r)
    ensures IsUpper(c) ==> r as int == c as int + 32
    ensures !IsUpper(c) ==> r == c
  {
    if IsUpper(c) then (c as int + 32) as char else c
  }

  /** `s.toLowerCase()`, restricted to the letters of `IsUpper`. */
  function Lower(s: string): (r: string)
    ensures |r| == |s|
    ensures forall i | 0 <= i < |s| :: r[i] == LowerChar(s[i])
  {
    seq(|s|, i requires 0 <= i < |s| => LowerChar(s[i]))
  }

  /** A string without upper-case letters is its own lower-case form. */
  predicate IsLower(s: string)
  {
    forall i | 0 <= i < |s| :: !IsUpper(s[i])
  }

  lemma LowerIsLower(s: string)
    ensures IsLower(Lower(s))
  {
  }

  lemma {:induction false} LowerOfLower(s: string)
    requires IsLower(s)
    ensures Lower(s) == s
  {
    assert forall i | 0 <= i < |s| :: Lower(s)[i] == s[i];
  }

  /** Lower-casing is idempotent. */
  lemma LowerIdempotent(s: string)
    ensures Lower(Lower(s)) == Lower(s)
  {
    LowerIsLower(s);
    LowerOfLower(Lower(s));
  }

  /** Lower-casing commutes with slicing. */
  lemma LowerSlice(s: string, i: int, j: int)
    requires 0 <= i <= j <= |s|
    ensures Lower(s[i..j]) == Lower(s)[i..j]
  {
  }

  /** Lower-casing commutes with concatenation. */
  lemma LowerConcat(s: string, t: string)
    ensures Lower(s + t) == Lower(s) + Lower(t)
  {
  }

  /** A lower-case word of a list, placed anywhere in a text, is found in the
      text's lower-case form, whatever surrounds it. */
  lemma WordInContext(before: string, words: seq<string>, k: int, after: string)
    requires 0 <= k < |words| && IsLower(words[k])
    ensures ContainsAny(Lower(before + words[k] + after), words)
  {
    var w := words[k];
    var s := before + w + after;
    LowerConcat(before + w, after);
    LowerConcat(before, w);
    LowerOfLower(w);
    assert Lower(s) == Lower(before) + w + Lower(after);
    assert OccursAt(Lower(s), w, |before|);
  }

  // ---------------------------------------------------------------
  // Whitespace and trimming
  // ---------------------------------------------------------------

  /** The characters that JavaScript's `trim` and the regular-expression
      class `\s` treat as white space: the line terminators, the ASCII
      blanks, U+00A0, U+FEFF and the Unicode space separators. */
  predicate IsSpace(c: char)
  {
    var n := c as int;
    n == 0x09 || n == 0x0A || n == 0x0B || n == 0x0C || n == 0x0D || n == 0x20
    || n == 0xA0 || n == 0x1680 || (0x2000 <= n <= 0x200A) || n == 0x2028
    || n == 0x2029 || n == 0x202F || n == 0x205F || n == 0x3000 || n == 0xFEFF
  }

  predicate AllSpace(s: string)
  {
    forall i | 0 <= i < |s| :: IsSpace(s[i])
  }

  /** The index of the first non-space character at or after `i`, or `|s|`. */
  function StartIndex(s: string, i: nat): (k: nat)
    requires i <= |s|
    ensures i <= k <= |s|
    ensures forall j | i <= j < k :: IsSpace(s[j])
    ensures k == |s| || !IsSpace(s[k])
    decreases |s| - i
  {
    if i == |s| || !IsSpace(s[i]) then i else StartIndex(s, i + 1)
  }

  /** The index just past the last non-space character before `j` and not
      before `lo`, or `lo`. */
  function EndIndex(s: string, lo: nat, j: nat): (k: nat)
    requires lo <= j <= |s|
    ensures lo <= k <= j
    ensures forall m | k <= m < j :: IsSpace(s[m])
    ensures k == lo || !IsSpace(s[k - 1])
    decreases j - lo
  {
    if j == lo || !IsSpace(s[j - 1]) then j else EndIndex(s, lo, j - 1)
  }

  /** `s.trim()`: the longest middle part with no white space at either end. */
  function Trim(s: string): (r: string)
  {
    var i := StartIndex(s, 0);
    s[i..EndIndex(s, i, |s|)]
  }

  /** What trimming keeps and what it drops: the result is a slice of the
      input that starts and ends with non-space characters, and everything
      dropped around it is white space. */
  lemma TrimSpec(s: string)
    ensures var r := Trim(s);
      exists i | 0 <= i <= |s| - |r| ::
        s[i..i + |r|] == r && AllSpace(s[..i]) && AllSpace(s[i + |r|..])
    ensures Trim(s) == [] || (!IsSpace(Trim(s)[0]) && !IsSpace(Trim(s)[|Trim(s)| - 1]))
  {
    var i := StartIndex(s, 0);
    var k := EndIndex(s, i, |s|);
    SpaceRange(s, 0, i);
    SpaceRange(s, k, |s|);
    assert s[i..i + (k - i)] == Trim(s);
    if k > i {
      assert Trim(s)[0] == s[i] && Trim(s)[k - i - 1] == s[k - 1];
    }
  }

  /** White space at every index of a range is white space of its slice. */
  lemma SpaceRange(s: string, i: int, k: int)
    requires 0 <= i <= k <= |s| && forall j | i <= j < k :: IsSpace(s[j])
    ensures AllSpace(s[i..k])
  {
  }

  /** A string trims to nothing exactly when it is all white space. */
  lemma TrimEmptyIff(s: string)
    ensures Trim(s) == [] <==> AllSpace(s)
  {
    var i := StartIndex(s, 0);
    if !AllSpace(s) {
      var k :| 0 <= k < |s| && !IsSpace(s[k]);
      assert i <= k;
      assert EndIndex(s, i, |s|) > i;
    }
  }

  /** A string with nothing to strip is its own trimmed form. */
  lemma TrimNoSpaceEnds(s: string)
    requires s != [] ==> !IsSpace(s[0]) && !IsSpace(s[|s| - 1])
    ensures Trim(s) == s
  {
    assert s[0..|s|] == s;
  }

  // ---------------------------------------------------------------
  // Numbers as text
  // ---------------------------------------------------------------

  function DigitChar(d: nat): (c: char)
    requires d < 10
    ensures '0' <= c <= '9'
  {
    ('0' as int + d) as char
  }

  /** The decimal form of a natural number, as `String(n)` writes it. */
  function NatToString(n: nat): (r: string)
    ensures |r| >= 1
    ensures forall i | 0 <= i < |r| :: '0' <= r[i] <= '9'
  {
    if n < 10 then [DigitChar(n)] else NatToString(n / 10) + [DigitChar(n % 10)]
  }

  // ---------------------------------------------------------------
  // Multi-line text
  // ---------------------------------------------------------------

  /** The lines of `lines` joined by line feeds, as a literal spanning several
      lines reads. */
  function JoinLines(lines: seq<string>): string
  {
    if lines == [] then [] else if |lines| == 1 then lines[0] else lines[0] + "\n" + JoinLines(lines[1..])
  }

  /** Every line of a joined text occurs in it. */
  lemma {:induction false} JoinLinesContains(lines: seq<string>, k: int)
    requires 0 <= k < |lines|
    ensures Contains(JoinLines(lines), lines[k])
  {
    if |lines| == 1 {
      assert OccursAt(lines[0], lines[0], 0);
    } else if k == 0 {
      assert OccursAt(JoinLines(lines), lines[0], 0);
    } else {
      JoinLinesContains(lines[1..], k - 1);
      ContainsInContext(JoinLines(lines[1..]), lines[k], lines[0] + "\n", []);
      assert lines[0] + "\n" + JoinLines(lines[1..]) + [] == JoinLines(lines);
    }
  }
}
