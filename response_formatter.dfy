/** The reply formatter (`MeshResponseFormatter`). Formal phrases are removed
    or simplified, case-insensitively, and the text is trimmed; on Teams,
    money amounts and percentages are then set in bold and a text over 4000
    characters is cut to 3900 and marked as truncated. */
module ResponseFormatter {
  import opened Text
  import opened Results

  // ---------------------------------------------------------------
  // Case-insensitive replacement (`s.replace(new RegExp(p, 'gi'), q)`)
  // ---------------------------------------------------------------

  /** The pattern matches `s` at position `i`, ignoring case. */
  predicate MatchAt(s: string, p: string, i: int)
  {
    0 <= i && i + |p| <= |s| && Lower(s[i..i + |p|]) == Lower(p)
  }

  predicate MatchesSomewhere(s: string, p: string)
  {
    exists i | 0 <= i <= |s| - |p| :: MatchAt(s, p, i)
  }

  /** Every match, left to right and without overlap, replaced by `q`. */
  function ReplaceAll(s: string, p: string, q: string): string
    requires p != []
    decreases |s|
  {
    if |s| < |p| then s
    else if Lower(s[..|p|]) == Lower(p) then q + ReplaceAll(s[|p|..], p, q)
    else [s[0]] + ReplaceAll(s[1..], p, q)
  }

  /** A text without a match is left as it is. */
  lemma {:induction false} ReplaceNoMatch(s: string, p: string, q: string)
    requires p != [] && !MatchesSomewhere(s, p)
    ensures ReplaceAll(s, p, q) == s
    decreases |s|
  {
    if |s| >= |p| {
      assert !MatchAt(s, p, 0);
      assert s[0..|p|] == s[..|p|];
      assert !MatchesSomewhere(s[1..], p) by {
        forall i | 0 <= i <= |s[1..]| - |p|
          ensures !MatchAt(s[1..], p, i)
        {
          assert s[1..][i..i + |p|] == s[i + 1..i + 1 + |p|];
          assert !MatchAt(s, p, i + 1);
        }
      }
      ReplaceNoMatch(s[1..], p, q);
    }
  }

  /** A replacement no longer than its pattern never lengthens the text. */
  lemma {:induction false} ReplaceShrinks(s: string, p: string, q: string)
    requires p != [] && |q| <= |p|
    ensures |ReplaceAll(s, p, q)| <= |s|
    decreases |s|
  {
    if |s| >= |p| {
      if Lower(s[..|p|]) == Lower(p) {
        ReplaceShrinks(s[|p|..], p, q);
      } else {
        ReplaceShrinks(s[1..], p, q);
      }
    }
  }

  /** A text that is the pattern, in any case, becomes the replacement. */
  lemma ReplaceWhole(s: string, p: string, q: string)
    requires p != [] && Lower(s) == Lower(p)
    ensures ReplaceAll(s, p, q) == q
  {
    assert s[..|p|] == s;
    assert s[|p|..] == [];
  }

  /** A text lacking, in lower case, one letter of the lower-cased pattern
      has no match of it. */
  lemma NoMatchWithout(s: string, p: string, k: int)
    requires 0 <= k < |p| && LowerChar(p[k]) !in Lower(s)
    ensures !MatchesSomewhere(s, p)
  {
    forall i | 0 <= i <= |s| - |p|
      ensures !MatchAt(s, p, i)
    {
      LowerSlice(s, i, i + |p|);
      assert Lower(s)[i + k] in Lower(s);
      assert Lower(s[i..i + |p|])[k] == Lower(s)[i + k];
    }
  }

  // ---------------------------------------------------------------
  // Formality
  // ---------------------------------------------------------------

  /** The replacement table in its iteration order. The first key,
      `Prezado(a)`, is a regular expression in which `(a)` is a group, so it
      matches the text `Prezadoa`; it is written here as that text. */
  const FormalityRules: seq<(string, string)> := [
    ("Prezadoa", ""),
    ("Cordialmente", ""),
    ("Atenciosamente", ""),
    ("Venho por meio desta", "Informo que")]

  predicate RulesWellFormed(rules: seq<(string, string)>)
  {
    forall k | 0 <= k < |rules| :: rules[k].0 != [] && |rules[k].1| <= |rules[k].0|
  }

  /** The replacements applied one after another, in table order. */
  function ApplyRules(s: string, rules: seq<(string, string)>): string
    requires RulesWellFormed(rules)
    decreases |rules|
  {
    if rules == [] then s else ApplyRules(ReplaceAll(s, rules[0].0, rules[0].1), rules[1..])
  }

  /** What `adjustFormality` returns. */
  function AdjustedText(response: string): string
  {
    Trim(ApplyRules(response, FormalityRules))
  }

  /** `adjustFormality(response)`: the loop over the replacement table, then
      `trim`. */
  method AdjustFormality(response: string) returns (adjusted: string)
    ensures adjusted == AdjustedText(response)
    ensures |adjusted| <= |response|
    ensures adjusted == [] || (!IsSpace(adjusted[0]) && !IsSpace(adjusted[|adjusted| - 1]))
  {
    var rules := FormalityRules;
    adjusted := response;
    for k := 0 to |rules|
      invariant ApplyRules(adjusted, rules[k..]) == ApplyRules(response, rules)
      invariant |adjusted| <= |response|
    {
      assert rules[k..][1..] == rules[k + 1..];
      ReplaceShrinks(adjusted, rules[k].0, rules[k].1);
      adjusted := ReplaceAll(adjusted, rules[k].0, rules[k].1);
    }
    assert rules[|rules|..] == [];
    TrimSpec(adjusted);
    adjusted := Trim(adjusted);
  }

  lemma {:induction false} ApplyRulesShrinks(s: string, rules: seq<(string, string)>)
    requires RulesWellFormed(rules)
    ensures |ApplyRules(s, rules)| <= |s|
    decreases |rules|
  {
    if rules != [] {
      ReplaceShrinks(s, rules[0].0, rules[0].1);
      ApplyRulesShrinks(ReplaceAll(s, rules[0].0, rules[0].1), rules[1..]);
    }
  }

  lemma {:induction false} ApplyRulesNoMatch(s: string, rules: seq<(string, string)>)
    requires RulesWellFormed(rules)
    requires forall k | 0 <= k < |rules| :: !MatchesSomewhere(s, rules[k].0)
    ensures ApplyRules(s, rules) == s
    decreases |rules|
  {
    if rules != [] {
      ReplaceNoMatch(s, rules[0].0, rules[0].1);
      ApplyRulesNoMatch(s, rules[1..]);
    }
  }

  /** Adjusting never makes a reply longer, and the result has no white space
      at either end. */
  lemma AdjustedShape(response: string)
    ensures |AdjustedText(response)| <= |response|
    ensures var r := AdjustedText(response); r == [] || (!IsSpace(r[0]) && !IsSpace(r[|r| - 1]))
  {
    ApplyRulesShrinks(response, FormalityRules);
    TrimSpec(ApplyRules(response, FormalityRules));
  }

  /** A reply without formal phrases is only trimmed. */
  lemma InformalOnlyTrimmed(response: string)
    requires forall k | 0 <= k < |FormalityRules| :: !MatchesSomewhere(response, FormalityRules[k].0)
    ensures AdjustedText(response) == Trim(response)
  {
    ApplyRulesNoMatch(response, FormalityRules);
  }

  /** The literal salutation "Prezado(a)" is not matched by its own rule,
      which looks for "prezadoa", so that rule leaves it in place. */
  lemma PrezadoLiteralKept()
    ensures !MatchesSomewhere("Prezado(a)", FormalityRules[0].0)
    ensures ReplaceAll("Prezado(a)", FormalityRules[0].0, "") == "Prezado(a)"
  {
    var s := "Prezado(a)";
    var p := FormalityRules[0].0;
    assert !MatchAt(s, p, 0) by { assert Lower(s[0..8])[7] == '('; }
    assert !MatchAt(s, p, 1) by { assert Lower(s[1..9])[0] == 'r'; }
    assert !MatchAt(s, p, 2) by { assert Lower(s[2..10])[0] == 'e'; }
    ReplaceNoMatch(s, p, "");
  }

  /** A rule that does not match leaves the rest of the table to run on the
      same text. */
  lemma SkipRule(s: string, rules: seq<(string, string)>, k: int)
    requires RulesWellFormed(rules) && 0 <= k < |rules|
    requires !MatchesSomewhere(s, rules[k].0)
    ensures ApplyRules(s, rules[k..]) == ApplyRules(s, rules[k + 1..])
  {
    ReplaceNoMatch(s, rules[k].0, rules[k].1);
    assert rules[k..][0] == rules[k] && rules[k..][1..] == rules[k + 1..];
  }

  /** A rule whose pattern is the whole text hands its replacement on. */
  lemma WholeRule(s: string, rules: seq<(string, string)>, k: int)
    requires RulesWellFormed(rules) && 0 <= k < |rules|
    requires Lower(s) == Lower(rules[k].0)
    ensures ApplyRules(s, rules[k..]) == ApplyRules(rules[k].1, rules[k + 1..])
  {
    ReplaceWhole(s, rules[k].0, rules[k].1);
    assert rules[k..][0] == rules[k] && rules[k..][1..] == rules[k + 1..];
  }

  /** A reply that is the closing "Atenciosamente", in any case, is removed
      entirely. */
  lemma ClosingRemoved(response: string)
    requires Lower(response) == "atenciosamente"
    ensures AdjustedText(response) == ""
  {
    ClosingPattern();
    ClosingLetters();
    FirstTwoSkipped(response);
    ClosingTail(response);
  }

  /** A text without a 'z' or an 'r', in any case, passes the first two
      rules untouched. */
  lemma FirstTwoSkipped(response: string)
    requires 'z' !in Lower(response) && 'r' !in Lower(response)
    ensures ApplyRules(response, FormalityRules) == ApplyRules(response, FormalityRules[2..])
  {
    assert FormalityRules[0..] == FormalityRules;
    assert FormalityRules[0].0[3] == 'z' && FormalityRules[1].0[2] == 'r';
    SkipWithout(response, 0, 3);
    SkipWithout(response, 1, 2);
  }

  lemma ClosingTail(response: string)
    requires Lower(response) == Lower(FormalityRules[2].0)
    ensures ApplyRules(response, FormalityRules[2..]) == ""
  {
    WholeRule(response, FormalityRules, 2);
    SkipRule("", FormalityRules, 3);
    assert FormalityRules[4..] == [];
  }

  lemma ClosingPattern()
    ensures Lower(FormalityRules[2].0) == "atenciosamente"
  {
    assert forall i | 0 <= i < 14 :: Lower(FormalityRules[2].0)[i] == "atenciosamente"[i];
  }

  lemma ClosingLetters()
    ensures 'z' !in "atenciosamente" && 'r' !in "atenciosamente"
  {
    var lower := "atenciosamente";
    assert forall i | 0 <= i < |lower| :: lower[i] != 'z' && lower[i] != 'r';
  }

  /** The opening "Venho por meio desta", in any case, becomes "Informo que". */
  lemma OpeningSimplified(response: string)
    requires Lower(response) == "venho por meio desta"
    ensures AdjustedText(response) == "Informo que"
  {
    OpeningRewritten(response);
    TrimNoSpaceEnds("Informo que");
  }

  lemma OpeningRewritten(response: string)
    requires Lower(response) == "venho por meio desta"
    ensures ApplyRules(response, FormalityRules) == "Informo que"
  {
    OpeningPattern();
    OpeningLetters();
    FirstThreeSkipped(response);
    FormalityRulesWellFormed();
    assert Lower(response) == Lower(FormalityRules[3].0);
    WholeRule(response, FormalityRules, 3);
    assert FormalityRules[4..] == [];
  }

  lemma FormalityRulesWellFormed()
    ensures RulesWellFormed(FormalityRules)
  {
  }

  lemma OpeningPattern()
    ensures Lower(FormalityRules[3].0) == "venho por meio desta"
  {
    assert forall i | 0 <= i < 20 :: Lower(FormalityRules[3].0)[i] == "venho por meio desta"[i];
  }

  lemma OpeningLetters()
    ensures 'z' !in "venho por meio desta" && 'c' !in "venho por meio desta"
  {
    var lower := "venho por meio desta";
    assert forall i | 0 <= i < |lower| :: lower[i] != 'z' && lower[i] != 'c';
  }

  /** A text without a 'z' or a 'c', in any case, passes the first three
      rules untouched. */
  lemma FirstThreeSkipped(s: string)
    requires 'z' !in Lower(s) && 'c' !in Lower(s)
    ensures ApplyRules(s, FormalityRules) == ApplyRules(s, FormalityRules[3..])
  {
    assert FormalityRules[0..] == FormalityRules;
    assert FormalityRules[0].0[3] == 'z' && FormalityRules[1].0[0] == 'C' && FormalityRules[2].0[4] == 'c';
    SkipWithout(s, 0, 3);
    SkipWithout(s, 1, 0);
    SkipWithout(s, 2, 4);
  }

  /** A text lacking the `j`-th letter of the `k`-th pattern passes that rule. */
  lemma SkipWithout(s: string, k: int, j: int)
    requires 0 <= k < |FormalityRules| && 0 <= j < |FormalityRules[k].0|
    requires LowerChar(FormalityRules[k].0[j]) !in Lower(s)
    ensures ApplyRules(s, FormalityRules[k..]) == ApplyRules(s, FormalityRules[k + 1..])
  {
    NoMatchWithout(s, FormalityRules[k].0, j);
    SkipRule(s, FormalityRules, k);
  }

  // ---------------------------------------------------------------
  // Teams
  // ---------------------------------------------------------------

  const TeamsLimit := 4000
  const TruncatedLength := 3900
  const TruncationMarker := "\n\n[Mensagem truncada]"

  /** `\d` in a JavaScript regular expression: the ASCII digits. */
  predicate IsDigit(c: char)
  {
    '0' <= c <= '9'
  }

  predicate IsAmountChar(c: char)
  {
    IsDigit(c) || c == '.' || c == ','
  }

  /** The length of the run of `[\d.,]` at the start of `s`. */
  function AmountRun(s: string): (n: nat)
    ensures n <= |s|
    ensures forall i | 0 <= i < n :: IsAmountChar(s[i])
    ensures n == |s| || !IsAmountChar(s[n])
  {
    if s != [] && IsAmountChar(s[0]) then 1 + AmountRun(s[1..]) else 0
  }

  /** The length of the run of `\d` at the start of `s`. */
  function DigitRun(s: string): (n: nat)
    ensures n <= |s|
    ensures forall i | 0 <= i < n :: IsDigit(s[i])
    ensures n == |s| || !IsDigit(s[n])
  {
    if s != [] && IsDigit(s[0]) then 1 + DigitRun(s[1..]) else 0
  }

  /** The length of the match of `R\$\s?[\d.,]+` at the start of `s`, or 0.
      The optional blank is taken only when amount characters follow it. */
  function MoneyMatch(s: string): (n: nat)
    ensures n <= |s|
    ensures n > 0 ==> n >= 3 && s[..2] == "R$"
  {
    if |s| >= 2 && s[0] == 'R' && s[1] == '$' then
      if |s| >= 4 && IsSpace(s[2]) && IsAmountChar(s[3]) then 3 + AmountRun(s[3..])
      else if |s| >= 3 && IsAmountChar(s[2]) then 2 + AmountRun(s[2..])
      else 0
    else 0
  }

  /** The length of the match of `\d+%` at the start of `s`, or 0. */
  function PercentMatch(s: string): (n: nat)
    ensures n <= |s|
    ensures n > 0 ==> n >= 2 && s[n - 1] == '%'
  {
    var d := DigitRun(s);
    if d > 0 && d < |s| && s[d] == '%' then d + 1 else 0
  }

  /** `s.replace(/R\$\s?[\d.,]+/g, m => '**' + m + '**')`. */
  function BoldMoney(s: string): string
    decreases |s|
  {
    if s == [] then []
    else
      var n := MoneyMatch(s);
      if n > 0 then "**" + s[..n] + "**" + BoldMoney(s[n..]) else [s[0]] + BoldMoney(s[1..])
  }

  /** `s.replace(/\d+%/g, m => '**' + m + '**')`. */
  function BoldPercent(s: string): string
    decreases |s|
  {
    if s == [] then []
    else
      var n := PercentMatch(s);
      if n > 0 then "**" + s[..n] + "**" + BoldPercent(s[n..]) else [s[0]] + BoldPercent(s[1..])
  }

  /** The length limit: a text over 4000 characters keeps its first 3900 and
      gets the truncation marker. */
  function Truncate(t: string): (r: string)
    ensures |r| <= TeamsLimit
    ensures |t| <= TeamsLimit ==> r == t
    ensures |t| > TeamsLimit ==> r == t[..TruncatedLength] + TruncationMarker
  {
    if |t| > TeamsLimit then t[..TruncatedLength] + TruncationMarker else t
  }

  /** `formatForTeams(response)`. */
  function FormatForTeams(response: string): (r: string)
    ensures |r| <= TeamsLimit
  {
    Truncate(BoldPercent(BoldMoney(response)))
  }

  /** The text with every asterisk dropped. */
  function Unstarred(s: string): string
  {
    if s == [] then [] else (if s[0] == '*' then [] else [s[0]]) + Unstarred(s[1..])
  }

  lemma {:induction false} UnstarredConcat(a: string, b: string)
    ensures Unstarred(a + b) == Unstarred(a) + Unstarred(b)
  {
    if a != [] {
      assert (a + b)[1..] == a[1..] + b;
      UnstarredConcat(a[1..], b);
    } else {
      assert a + b == b;
    }
  }

  lemma StarsVanish(x: string)
    ensures Unstarred("**" + x) == Unstarred(x)
  {
    assert ("**" + x)[1..] == "*" + x;
    assert ("*" + x)[1..] == x;
  }

  /** Wrapping a piece in asterisks adds only asterisks. */
  lemma WrappedUnstarred(piece: string, rest: string, restDone: string)
    requires Unstarred(restDone) == Unstarred(rest)
    ensures Unstarred("**" + piece + "**" + restDone) == Unstarred(piece + rest)
  {
    assert "**" + piece + "**" + restDone == "**" + (piece + ("**" + restDone));
    StarsVanish(piece + ("**" + restDone));
    UnstarredConcat(piece, "**" + restDone);
    StarsVanish(restDone);
    UnstarredConcat(piece, rest);
  }

  /** Wrapping the first `n` characters in asterisks adds only asterisks. */
  lemma WrappedPrefix(s: string, n: int, done: string)
    requires 0 < n <= |s| && Unstarred(done) == Unstarred(s[n..])
    ensures Unstarred("**" + s[..n] + "**" + done) == Unstarred(s)
  {
    WrappedUnstarred(s[..n], s[n..], done);
    assert s[..n] + s[n..] == s;
  }

  /** Keeping the first character as it is adds nothing. */
  lemma KeptFirst(s: string, done: string)
    requires s != [] && Unstarred(done) == Unstarred(s[1..])
    ensures Unstarred([s[0]] + done) == Unstarred(s)
  {
    UnstarredConcat([s[0]], done);
    UnstarredConcat([s[0]], s[1..]);
    assert [s[0]] + s[1..] == s;
  }

  /** Bolding money only inserts asterisks: dropping them gives back the
      text without its own asterisks. */
  lemma {:induction false} BoldMoneyAddsOnlyStars(s: string)
    ensures Unstarred(BoldMoney(s)) == Unstarred(s)
    decreases |s|
  {
    if s != [] {
      var n := MoneyMatch(s);
      if n > 0 {
        BoldMoneyAddsOnlyStars(s[n..]);
        WrappedPrefix(s, n, BoldMoney(s[n..]));
      } else {
        BoldMoneyAddsOnlyStars(s[1..]);
        KeptFirst(s, BoldMoney(s[1..]));
      }
    }
  }

  /** Bolding percentages only inserts asterisks. */
  lemma {:induction false} BoldPercentAddsOnlyStars(s: string)
    ensures Unstarred(BoldPercent(s)) == Unstarred(s)
    decreases |s|
  {
    if s != [] {
      var n := PercentMatch(s);
      if n > 0 {
        BoldPercentAddsOnlyStars(s[n..]);
        WrappedPrefix(s, n, BoldPercent(s[n..]));
      } else {
        BoldPercentAddsOnlyStars(s[1..]);
        KeptFirst(s, BoldPercent(s[1..]));
      }
    }
  }

  /** Within the length limit, Teams formatting changes nothing but the
      asterisks. */
  lemma TeamsKeepsText(response: string)
    requires |BoldPercent(BoldMoney(response))| <= TeamsLimit
    ensures Unstarred(FormatForTeams(response)) == Unstarred(response)
  {
    BoldMoneyAddsOnlyStars(response);
    BoldPercentAddsOnlyStars(BoldMoney(response));
  }

  /** An amount after "R$", with or without one blank, is set in bold whole. */
  lemma MoneyBolded(blank: string, amount: string)
    requires blank == [] || (|blank| == 1 && IsSpace(blank[0]))
    requires amount != [] && forall i | 0 <= i < |amount| :: IsAmountChar(amount[i])
    ensures BoldMoney("R$" + blank + amount) == "**" + ("R$" + blank + amount) + "**"
  {
    MoneyMatchWhole(blank, amount);
    BoldWholeMatch("R$" + blank + amount);
  }

  lemma BoldWholeMatch(s: string)
    requires s != [] && MoneyMatch(s) == |s|
    ensures BoldMoney(s) == "**" + s + "**"
  {
    assert s[..|s|] == s && s[|s|..] == [];
    assert BoldMoney(s) == "**" + s + "**" + BoldMoney([]);
    assert "**" + s + "**" + [] == "**" + s + "**";
  }

  lemma MoneyMatchWhole(blank: string, amount: string)
    requires blank == [] || (|blank| == 1 && IsSpace(blank[0]))
    requires amount != [] && forall i | 0 <= i < |amount| :: IsAmountChar(amount[i])
    ensures MoneyMatch("R$" + blank + amount) == |"R$" + blank + amount|
  {
    var s := "R$" + blank + amount;
    assert s[0] == 'R' && s[1] == '$';
    AmountRunAll(amount);
    if blank == [] {
      assert s[2..] == amount;
      assert !IsSpace(s[2]);
      assert MoneyMatch(s) == 2 + |amount|;
    } else {
      assert s[3..] == amount;
      assert IsSpace(s[2]) && IsAmountChar(s[3]);
      assert MoneyMatch(s) == 3 + |amount|;
    }
  }

  lemma {:induction false} AmountRunAll(s: string)
    requires forall i | 0 <= i < |s| :: IsAmountChar(s[i])
    ensures AmountRun(s) == |s|
  {
    if s != [] {
      AmountRunAll(s[1..]);
    }
  }

  /** A text without a dollar sign has no amount to bold. */
  lemma {:induction false} NoMoneyUnchanged(s: string)
    requires '$' !in s
    ensures BoldMoney(s) == s
    decreases |s|
  {
    if s != [] {
      assert MoneyMatch(s) == 0 by {
        if |s| >= 2 {
          assert s[1] in s;
        }
      }
      assert forall c | c in s[1..] :: c in s;
      NoMoneyUnchanged(s[1..]);
    }
  }

  /** A text without a percent sign has no percentage to bold. */
  lemma {:induction false} NoPercentUnchanged(s: string)
    requires '%' !in s
    ensures BoldPercent(s) == s
    decreases |s|
  {
    if s != [] {
      var d := DigitRun(s);
      assert PercentMatch(s) == 0 by {
        if 0 < d < |s| {
          assert s[d] in s;
        }
      }
      assert forall c | c in s[1..] :: c in s;
      NoPercentUnchanged(s[1..]);
    }
  }

  /** A text without an 'R' before the rest has no amount starting in it:
      bolding passes it over and carries on with the rest. */
  lemma {:induction false} MoneyPrefixKept(a: string, s: string)
    requires 'R' !in a
    ensures BoldMoney(a + s) == a + BoldMoney(s)
    decreases |a|
  {
    if a == [] {
      assert a + s == s;
    } else {
      assert a[0] in a;
      BoldMoneySkip(a + s);
      assert (a + s)[1..] == a[1..] + s;
      assert forall c | c in a[1..] :: c in a;
      MoneyPrefixKept(a[1..], s);
      ConsStep(a, BoldMoney(a + s), BoldMoney(a[1..] + s), BoldMoney(s));
    }
  }

  /** Putting back the first character of `a` in front of `a[1..] + z`. */
  lemma ConsStep(a: string, x: string, y: string, z: string)
    requires a != [] && x == [a[0]] + y && y == a[1..] + z
    ensures x == a + z
  {
    assert [a[0]] + a[1..] == a;
  }

  /** A text that does not start with 'R' keeps its first character. */
  lemma BoldMoneySkip(t: string)
    requires t != [] && t[0] != 'R'
    ensures BoldMoney(t) == [t[0]] + BoldMoney(t[1..])
  {
    assert MoneyMatch(t) == 0;
  }

  /** A match of length `n` at the start is wrapped whole. */
  lemma BoldMoneyTake(t: string, n: nat)
    requires t != [] && MoneyMatch(t) == n > 0
    ensures BoldMoney(t) == "**" + t[..n] + "**" + BoldMoney(t[n..])
  {
  }

  /** The run of amount characters stops where the amount does. */
  lemma {:induction false} AmountRunPrefix(amount: string, rest: string)
    requires forall i | 0 <= i < |amount| :: IsAmountChar(amount[i])
    requires rest == [] || !IsAmountChar(rest[0])
    ensures AmountRun(amount + rest) == |amount|
  {
    if amount == [] {
      assert amount + rest == rest;
    } else {
      assert (amount + rest)[1..] == amount[1..] + rest;
      AmountRunPrefix(amount[1..], rest);
    }
  }

  /** An amount after "R$", with or without one blank, is bolded whole, and
      bolding goes on after it. */
  lemma MoneyBoldedBefore(blank: string, amount: string, rest: string)
    requires blank == [] || (|blank| == 1 && IsSpace(blank[0]))
    requires amount != [] && forall i | 0 <= i < |amount| :: IsAmountChar(amount[i])
    requires rest == [] || !IsAmountChar(rest[0])
    ensures BoldMoney("R$" + blank + amount + rest) == "**" + ("R$" + blank + amount) + "**" + BoldMoney(rest)
  {
    var m := "R$" + blank + amount;
    var s := m + rest;
    assert "R$" + blank + amount + rest == s;
    MoneyMatchBefore(blank, amount, rest);
    BoldMoneyTake(s, |m|);
    assert s[..|m|] == m && s[|m|..] == rest;
  }

  lemma MoneyMatchBefore(blank: string, amount: string, rest: string)
    requires blank == [] || (|blank| == 1 && IsSpace(blank[0]))
    requires amount != [] && forall i | 0 <= i < |amount| :: IsAmountChar(amount[i])
    requires rest == [] || !IsAmountChar(rest[0])
    ensures MoneyMatch("R$" + blank + amount + rest) == |"R$" + blank + amount|
  {
    var s := "R$" + blank + amount + rest;
    assert s[0] == 'R' && s[1] == '$';
    AmountRunPrefix(amount, rest);
    if blank == [] {
      assert s[2..] == amount + rest;
      assert IsAmountChar(s[2]);
      assert !IsSpace(s[2]) by { AmountNotSpace(s[2]); }
    } else {
      assert s[3..] == amount + rest;
      assert IsSpace(s[2]) && IsAmountChar(s[3]);
    }
  }

  lemma AmountNotSpace(c: char)
    requires IsAmountChar(c)
    ensures !IsSpace(c)
  {
  }

  /** An amount inside a text is bolded, and the text around it is kept. */
  lemma MoneyInText(before: string, blank: string, amount: string, after: string)
    requires 'R' !in before && '$' !in after
    requires blank == [] || (|blank| == 1 && IsSpace(blank[0]))
    requires amount != [] && forall i | 0 <= i < |amount| :: IsAmountChar(amount[i])
    requires after == [] || !IsAmountChar(after[0])
    ensures BoldMoney(before + "R$" + blank + amount + after)
      == before + "**" + ("R$" + blank + amount) + "**" + after
  {
    MoneyPrefixKept(before, "R$" + blank + amount + after);
    MoneyBoldedBefore(blank, amount, after);
    NoMoneyUnchanged(after);
    Regroup(before, "R$", blank, amount, after);
    Wrapped(before, "R$" + blank + amount, after);
  }

  lemma Regroup(a: string, b: string, c: string, d: string, e: string)
    ensures a + b + c + d + e == a + (b + c + d + e)
  {
  }

  lemma Regroup4(a: string, b: string, c: string, d: string)
    ensures a + b + c + d == a + (b + c + d)
  {
  }

  lemma Wrapped(a: string, m: string, e: string)
    ensures a + ("**" + m + "**" + e) == a + "**" + m + "**" + e
  {
  }

  /** A text with no '%' that does not end in a digit has no percentage
      starting in it: bolding passes it over and carries on with the rest. */
  lemma {:induction false} PercentPrefixKept(a: string, s: string)
    requires '%' !in a && (a == [] || !IsDigit(a[|a| - 1]))
    ensures BoldPercent(a + s) == a + BoldPercent(s)
    decreases |a|
  {
    if a == [] {
      assert a + s == s;
    } else {
      NoPercentAt(a, s);
      assert (a + s)[1..] == a[1..] + s;
      assert forall c | c in a[1..] :: c in a;
      PercentPrefixKept(a[1..], s);
      ConsStep(a, BoldPercent(a + s), BoldPercent(a[1..] + s), BoldPercent(s));
    }
  }

  /** No percentage starts inside such a text, so its first character is
      kept. */
  lemma NoPercentAt(a: string, s: string)
    requires a != [] && '%' !in a && !IsDigit(a[|a| - 1])
    ensures BoldPercent(a + s) == [a[0]] + BoldPercent((a + s)[1..])
  {
    var t := a + s;
    var d := DigitRun(t);
    assert !IsDigit(t[|a| - 1]) by { assert t[|a| - 1] == a[|a| - 1]; }
    assert d < |a| && t[d] == a[d] && a[d] in a;
    assert PercentMatch(t) == 0;
  }

  /** The run of digits stops where the digits do. */
  lemma {:induction false} DigitRunPrefix(digits: string, rest: string)
    requires forall i | 0 <= i < |digits| :: IsDigit(digits[i])
    requires rest == [] || !IsDigit(rest[0])
    ensures DigitRun(digits + rest) == |digits|
  {
    if digits == [] {
      assert digits + rest == rest;
    } else {
      assert (digits + rest)[1..] == digits[1..] + rest;
      DigitRunPrefix(digits[1..], rest);
    }
  }

  /** Digits followed by '%' are bolded together with the sign, and bolding
      goes on after it. */
  lemma PercentBoldedBefore(digits: string, rest: string)
    requires digits != [] && forall i | 0 <= i < |digits| :: IsDigit(digits[i])
    ensures BoldPercent(digits + "%" + rest) == "**" + digits + "%**" + BoldPercent(rest)
  {
    var t := digits + ("%" + rest);
    assert digits + "%" + rest == t;
    PercentMatchDigits(digits, rest);
    BoldPercentTake(t, |digits| + 1);
    assert t[..|digits| + 1] == digits + "%" && t[|digits| + 1..] == rest;
    PercentWrap(digits, BoldPercent(rest));
  }

  lemma PercentMatchDigits(digits: string, rest: string)
    requires digits != [] && forall i | 0 <= i < |digits| :: IsDigit(digits[i])
    ensures PercentMatch(digits + ("%" + rest)) == |digits| + 1
  {
    var t := digits + ("%" + rest);
    DigitRunPrefix(digits, "%" + rest);
    assert t[|digits|] == '%';
  }

  /** A match of length `n` at the start is wrapped whole. */
  lemma BoldPercentTake(t: string, n: nat)
    requires t != [] && PercentMatch(t) == n > 0
    ensures BoldPercent(t) == "**" + t[..n] + "**" + BoldPercent(t[n..])
  {
  }

  lemma PercentWrap(d: string, x: string)
    ensures "**" + (d + "%") + "**" + x == "**" + d + "%**" + x
  {
  }

  /** A percentage on its own is bolded whole. */
  lemma PercentBolded(digits: string)
    requires digits != [] && forall i | 0 <= i < |digits| :: IsDigit(digits[i])
    ensures BoldPercent(digits + "%") == "**" + digits + "%**"
  {
    PercentBoldedBefore(digits, "");
    assert digits + "%" + "" == digits + "%";
  }

  /** A percentage inside a text is bolded, and the text around it is kept. */
  lemma PercentInText(before: string, digits: string, after: string)
    requires '%' !in before && (before == [] || !IsDigit(before[|before| - 1]))
    requires digits != [] && forall i | 0 <= i < |digits| :: IsDigit(digits[i])
    requires '%' !in after
    ensures BoldPercent(before + digits + "%" + after) == before + "**" + digits + "%**" + after
  {
    PercentPrefixKept(before, digits + "%" + after);
    PercentBoldedBefore(digits, after);
    NoPercentUnchanged(after);
    Regroup4(before, digits, "%", after);
    Regroup(before, "**", digits, "%**", after);
  }

  /** A reply with an amount and a percentage gets both set in bold. */
  lemma TeamsBoldsAmountAndPercentage()
    ensures FormatForTeams("Saldo R$ 1.000,00 e 15%") == "Saldo **R$ 1.000,00** e **15%**"
  {
    ExampleMoney();
    ExamplePercent();
  }

  lemma ExampleMoney()
    ensures BoldMoney("Saldo R$ 1.000,00 e 15%") == "Saldo **R$ 1.000,00** e 15%"
  {
    MoneyInText("Saldo ", " ", "1.000,00", " e 15%");
    ExampleMoneyPieces();
  }

  lemma ExamplePercent()
    ensures BoldPercent("Saldo **R$ 1.000,00** e 15%") == "Saldo **R$ 1.000,00** e **15%**"
  {
    PercentInText("Saldo **R$ 1.000,00** e ", "15", "");
    ExamplePercentPieces();
  }

  lemma ExampleMoneyPieces()
    ensures "Saldo " + "R$" + " " + "1.000,00" + " e 15%" == "Saldo R$ 1.000,00 e 15%"
    ensures "Saldo " + "**" + ("R$" + " " + "1.000,00") + "**" + " e 15%" == "Saldo **R$ 1.000,00** e 15%"
  {
  }

  lemma ExamplePercentPieces()
    ensures "Saldo **R$ 1.000,00** e " + "15" + "%" + "" == "Saldo **R$ 1.000,00** e 15%"
    ensures "Saldo **R$ 1.000,00** e " + "**" + "15" + "%**" + "" == "Saldo **R$ 1.000,00** e **15%**"
  {
  }

  // ---------------------------------------------------------------
  // Entry points
  // ---------------------------------------------------------------

  /** The channel flags of `formatResponse`'s context. */
  datatype FormatContext = FormatContext(isTeams: bool, isWebChat: bool)

  /** `formatResponse(response, context)`: formality first, then Teams
      formatting when the context says Teams. */
  method FormatResponse(response: string, context: FormatContext) returns (formatted: string)
    ensures !context.isTeams ==> formatted == AdjustedText(response)
    ensures context.isTeams ==> formatted == FormatForTeams(AdjustedText(response))
    ensures context.isTeams ==> |formatted| <= TeamsLimit
    ensures !context.isTeams ==> |formatted| <= |response|
  {
    formatted := AdjustFormality(response);
    if context.isTeams {
      formatted := FormatForTeams(formatted);
    }
  }

  /** `formatForCurrentSystem(response, context)`: a missing context means
      neither Teams nor web chat, so only formality is adjusted. */
  method FormatForCurrentSystem(response: string, context: Option<FormatContext>) returns (formatted: string)
    ensures context.None? ==> formatted == AdjustedText(response)
    ensures context.Some? && context.value.isTeams ==> formatted == FormatForTeams(AdjustedText(response))
    ensures context.Some? && !context.value.isTeams ==> formatted == AdjustedText(response)
  {
    var meshContext := match context
      case None => FormatContext(false, false)
      case Some(c) => FormatContext(c.isTeams, c.isWebChat);
    formatted := FormatResponse(response, meshContext);
  }
}
