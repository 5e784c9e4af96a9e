/**
 * The five fixed line patterns of parse.go, matched by hand instead of by a regular
 * expression engine:
 *
 *   name   `### (.+)`           class  `# Class: (.+)`      format `# Format: (.+)`
 *   card   `# (\d)x \((\d+)\) (.+)`                          code   `(.+)`
 *
 * The patterns are unanchored and `FindStringSubmatch` reports the leftmost match, as a
 * sequence holding the whole match followed by one string per group. `.` matches any
 * character except a newline and `\d` is an ASCII digit. At a fixed start every pattern has
 * at most one match: `.+` is greedy and runs to the end of the line (or to a newline), and
 * `\d+` must be the maximal digit run because a `)` has to follow it.
 */
module Patterns {
  import opened Wrappers
  import opened Text

  datatype Pattern = NamePattern | ClassPattern | FormatPattern | CardPattern | CodePattern

  /** The number of parenthesised groups (regexp.NumSubexp). */
  function NumSubexp(p: Pattern): nat {
    if p.CardPattern? then 3 else 1
  }

  /** The literal text before the `(.+)` group of the patterns that have only that group. */
  function Literal(p: Pattern): string
    requires !p.CardPattern?
  {
    match p
    case NamePattern => "### "
    case ClassPattern => "# Class: "
    case FormatPattern => "# Format: "
    case CodePattern => ""
  }

  /** The end of the run of characters matched by `.*` from position k. */
  function DotRunEnd(s: string, k: nat): (e: nat)
    requires k <= |s|
    ensures k <= e <= |s|
    ensures forall j :: k <= j < e ==> s[j] != '\n'
    ensures e == |s| || s[e] == '\n'
    decreases |s| - k
  {
    if k == |s| || s[k] == '\n' then k else DotRunEnd(s, k + 1)
  }

  /** The end of the run of characters matched by `\d*` from position k. */
  function DigitRunEnd(s: string, k: nat): (e: nat)
    requires k <= |s|
    ensures k <= e <= |s|
    ensures forall j :: k <= j < e ==> IsDigit(s[j])
    ensures e == |s| || !IsDigit(s[e])
    decreases |s| - k
  {
    if k == |s| || !IsDigit(s[k]) then k else DigitRunEnd(s, k + 1)
  }

  /** `lit(.+)` matched at position k. */
  function MatchRestAt(lit: string, line: string, k: nat): (r: Option<seq<string>>)
    requires k <= |line|
    ensures r.Some? ==> |r.value| == 2 && r.value[1] != [] && '\n' !in r.value[1]
    ensures r.Some? ==> r.value[0] == lit + r.value[1] && r.value[0] <= line[k..]
  {
    if k + |lit| <= |line| && line[k..k + |lit|] == lit then
      var e := DotRunEnd(line, k + |lit|);
      if e > k + |lit| then
        assert line[k..e] == lit + line[k + |lit|..e];
        assert line[k..e] == line[k..][..e - k];
        Some([line[k..e], line[k + |lit|..e]])
      else None
    else None
  }

  /** `# (\d)x \((\d+)\) (.+)` matched at position k. */
  function MatchCardAt(line: string, k: nat): (r: Option<seq<string>>)
    requires k <= |line|
    ensures r.Some? ==> CardGroups(r.value)
  {
    if k + 6 <= |line| && line[k] == '#' && line[k + 1] == ' ' && IsDigit(line[k + 2])
       && line[k + 3] == 'x' && line[k + 4] == ' ' && line[k + 5] == '(' then
      var e := DigitRunEnd(line, k + 6);
      if e > k + 6 && e + 1 < |line| && line[e] == ')' && line[e + 1] == ' ' then
        var n := DotRunEnd(line, e + 2);
        if n > e + 2 then Some([line[k..n], line[k + 2..k + 3], line[k + 6..e], line[e + 2..n]]) else None
      else None
    else None
  }

  /** The groups of a card match: one digit, a non-empty digit run and a non-empty name. */
  predicate CardGroups(m: seq<string>) {
    |m| == 4 && |m[1]| == 1 && IsDigit(m[1][0]) && m[2] != [] && AllDigits(m[2]) && m[3] != []
  }

  /** The match of pattern p that starts at position k, if there is one. */
  function MatchAt(p: Pattern, line: string, k: nat): (r: Option<seq<string>>)
    requires k <= |line|
    ensures r.Some? ==> |r.value| == NumSubexp(p) + 1
    ensures r.Some? && p.CardPattern? ==> CardGroups(r.value)
  {
    if p.CardPattern? then MatchCardAt(line, k) else MatchRestAt(Literal(p), line, k)
  }

  /** The outcome of trying p at every start position of the line, 0 to |line|. */
  function Attempts(p: Pattern, line: string): (ms: seq<Option<seq<string>>>)
    ensures |ms| == |line| + 1
  {
    seq(|line| + 1, j requires 0 <= j <= |line| => MatchAt(p, line, j))
  }

  /** The first outcome from position k on that found something. */
  function FirstFrom<T>(ms: seq<Option<T>>, k: nat): Option<T>
    requires k <= |ms|
    decreases |ms| - k
  {
    if k == |ms| then None else if ms[k].Some? then ms[k] else FirstFrom(ms, k + 1)
  }

  /** What the search finds is one of the outcomes. */
  lemma {:induction false} FirstFound<T>(ms: seq<Option<T>>, k: nat)
    requires k <= |ms|
    ensures FirstFrom(ms, k).Some? ==> exists j :: k <= j < |ms| && ms[j] == FirstFrom(ms, k)
    decreases |ms| - k
  {
    if k < |ms| && ms[k].None? {
      FirstFound(ms, k + 1);
    }
  }

  /** regexp.FindStringSubmatch: the leftmost match, whole match first, then the groups. */
  function FindStringSubmatch(p: Pattern, line: string): (r: Option<seq<string>>)
    ensures r.Some? ==> |r.value| == NumSubexp(p) + 1
    ensures r.Some? && p.CardPattern? ==> CardGroups(r.value)
  {
    FirstFound(Attempts(p, line), 0);
    FirstFrom(Attempts(p, line), 0)
  }

  /** The search finds nothing exactly when every outcome from k on is empty. */
  lemma {:induction false} FirstNone<T>(ms: seq<Option<T>>, k: nat)
    requires k <= |ms|
    ensures FirstFrom(ms, k).None? <==> forall j :: k <= j < |ms| ==> ms[j].None?
    decreases |ms| - k
  {
    if k < |ms| && ms[k].None? {
      FirstNone(ms, k + 1);
    }
  }

  /** Empty outcomes before position i are skipped. */
  lemma {:induction false} FirstSkip<T>(ms: seq<Option<T>>, k: nat, i: nat)
    requires k <= i <= |ms|
    requires forall j :: k <= j < i ==> ms[j].None?
    ensures FirstFrom(ms, k) == FirstFrom(ms, i)
    decreases i - k
  {
    if k < i {
      FirstSkip(ms, k + 1, i);
    }
  }

  /** The search fails exactly when p matches at no start. */
  lemma LeftmostNone(p: Pattern, line: string)
    ensures FindStringSubmatch(p, line).None? <==> forall j :: 0 <= j <= |line| ==> MatchAt(p, line, j).None?
  {
    var ms := Attempts(p, line);
    FirstNone(ms, 0);
    assert forall j :: 0 <= j <= |line| ==> ms[j] == MatchAt(p, line, j);
  }

  /** When p matches at i and at no earlier start, the search reports the match at i. */
  lemma LeftmostAt(p: Pattern, line: string, i: nat)
    requires i <= |line| && MatchAt(p, line, i).Some?
    requires forall j :: 0 <= j < i ==> MatchAt(p, line, j).None?
    ensures FindStringSubmatch(p, line) == MatchAt(p, line, i)
  {
    var ms := Attempts(p, line);
    assert forall j :: 0 <= j <= |line| ==> ms[j] == MatchAt(p, line, j);
    FirstSkip(ms, 0, i);
  }

  // ---- what the matchers mean, for lines without a newline (the lines a scanner yields) ----

  /** lit occurs at position i of line and at least one character follows it. */
  predicate FollowedAt(lit: string, line: string, i: nat) {
    i + |lit| < |line| && line[i..i + |lit|] == lit
  }

  /**
   * A pattern `lit(.+)` matches a line exactly when lit occurs with at least one character
   * after it, and its group is then the rest of the line after the leftmost such occurrence.
   */
  lemma PrefixPatternSemantics(p: Pattern, line: string, i: nat)
    requires !p.CardPattern? && '\n' !in line
    requires FollowedAt(Literal(p), line, i)
    requires forall j :: 0 <= j < i ==> !FollowedAt(Literal(p), line, j)
    ensures FindStringSubmatch(p, line) == Some([line[i..], line[i + |Literal(p)|..]])
  {
    var lit := Literal(p);
    forall j | 0 <= j <= |line|
      ensures MatchAt(p, line, j).Some? <==> FollowedAt(lit, line, j)
    {
      MatchRestAtMeaning(lit, line, j);
    }
    MatchRestAtMeaning(lit, line, i);
    LeftmostAt(p, line, i);
  }

  /** A pattern `lit(.+)` fails on a line exactly when lit never occurs with a character after it. */
  lemma PrefixPatternFails(p: Pattern, line: string)
    requires !p.CardPattern? && '\n' !in line
    ensures FindStringSubmatch(p, line).None? <==> forall j :: 0 <= j <= |line| ==> !FollowedAt(Literal(p), line, j)
  {
    var lit := Literal(p);
    forall j | 0 <= j <= |line|
      ensures MatchAt(p, line, j).Some? <==> FollowedAt(lit, line, j)
    {
      MatchRestAtMeaning(lit, line, j);
    }
    LeftmostNone(p, line);
  }

  lemma MatchRestAtMeaning(lit: string, line: string, k: nat)
    requires k <= |line| && '\n' !in line
    ensures MatchRestAt(lit, line, k).Some? <==> FollowedAt(lit, line, k)
    ensures FollowedAt(lit, line, k) ==> MatchRestAt(lit, line, k) == Some([line[k..], line[k + |lit|..]])
  {
    if k + |lit| <= |line| {
      DotRunToEnd(line, k + |lit|);
      assert line[k..|line|] == line[k..] && line[k + |lit|..|line|] == line[k + |lit|..];
    }
  }

  lemma {:induction false} DotRunToEnd(s: string, k: nat)
    requires k <= |s| && '\n' !in s
    ensures DotRunEnd(s, k) == |s|
    decreases |s| - k
  {
    if k < |s| {
      assert s[k] in s;
      DotRunToEnd(s, k + 1);
    }
  }

  /** The code pattern `(.+)` accepts exactly the non-empty lines and captures all of it. */
  lemma CodePatternSemantics(line: string)
    requires '\n' !in line
    ensures FindStringSubmatch(CodePattern, line) == if line == [] then None else Some([line, line])
  {
    if line == [] {
      PrefixPatternFails(CodePattern, line);
    } else {
      assert FollowedAt("", line, 0);
      PrefixPatternSemantics(CodePattern, line, 0);
    }
  }

  /** The shape a card line has from where the card pattern matches: `# <d>x (<ds>) <nm>`. */
  predicate CardShape(s: string, d: char, ds: string, nm: string) {
    s == "# " + [d] + "x (" + ds + ") " + nm && IsDigit(d) && ds != [] && AllDigits(ds) && nm != []
  }

  /** Where the card pattern matches, the text from there on has the card shape, group by group. */
  lemma CardMatchShape(line: string, k: nat)
    requires k <= |line| && MatchCardAt(line, k).Some?
    ensures var m := MatchCardAt(line, k).value;
            |m[1]| == 1 && m[0] == line[k..k + |m[0]|] && CardShape(m[0], m[1][0], m[2], m[3])
  {
    var e := DigitRunEnd(line, k + 6);
    var n := DotRunEnd(line, e + 2);
    var m := MatchCardAt(line, k).value;
    assert m == [line[k..n], line[k + 2..k + 3], line[k + 6..e], line[e + 2..n]];
    var d := line[k + 2];
    assert line[k..k + 2] == "# " && line[k + 2..k + 3] == [d];
    assert line[k + 3..k + 6] == "x (" && line[e..e + 2] == ") ";
    SliceSplit(line, k, k + 2, k + 3);
    SliceSplit(line, k, k + 3, k + 6);
    SliceSplit(line, k, k + 6, e);
    SliceSplit(line, k, e, e + 2);
    SliceSplit(line, k, e + 2, n);
    assert line[k..n] == "# " + [d] + "x (" + m[2] + ") " + m[3];
  }

  /** A slice is the two slices it splits into. */
  lemma SliceSplit(s: string, i: nat, j: nat, k: nat)
    requires i <= j <= k <= |s|
    ensures s[i..k] == s[i..j] + s[j..k]
  {
  }

  /** Conversely, a text with the card shape is matched with exactly those groups. */
  lemma CardShapeMatches(line: string, k: nat, d: char, ds: string, nm: string)
    requires k <= |line| && '\n' !in line
    requires CardShape(line[k..], d, ds, nm)
    ensures MatchCardAt(line, k) == Some([line[k..], [d], ds, nm])
  {
    var e := k + 6 + |ds|;
    CardShapeAt(line, k, d, ds, nm);
    forall j | k + 6 <= j < e
      ensures IsDigit(line[j])
    {
      assert line[j] == line[k + 6..e][j - (k + 6)];
    }
    DigitRunOver(line, k + 6, e);
    DotRunToEnd(line, e + 2);
    assert line[k..|line|] == line[k..];
    assert line[e + 2..|line|] == line[e + 2..];
  }

  /** The characters of a line whose text from k on has the card shape. */
  lemma CardShapeAt(line: string, k: nat, d: char, ds: string, nm: string)
    requires k <= |line| && CardShape(line[k..], d, ds, nm)
    ensures var e := k + 6 + |ds|;
            |line| == e + 2 + |nm| && line[e] == ')' && line[e + 1] == ' '
            && line[k + 6..e] == ds && line[e + 2..] == nm
    ensures line[k] == '#' && line[k + 1] == ' ' && line[k + 2] == d && line[k + 2..k + 3] == [d]
            && line[k + 3] == 'x' && line[k + 4] == ' ' && line[k + 5] == '('
  {
    var s := line[k..];
    var e := k + 6 + |ds|;
    CardShapeParts(s, d, ds, nm);
    assert line[k] == s[0] && line[k + 1] == s[1] && line[k + 2] == s[2] && line[k + 3] == s[3];
    assert line[k + 4] == s[4] && line[k + 5] == s[5] && line[e] == s[6 + |ds|] && line[e + 1] == s[7 + |ds|];
    assert line[k + 6..e] == s[6..6 + |ds|] && line[e + 2..] == s[8 + |ds|..] && line[k + 2..k + 3] == s[2..3];
  }

  /** On a line without newlines, a card match runs to the end of the line, so the name is the rest of it. */
  lemma CardNameIsRest(line: string, k: nat)
    requires k <= |line| && '\n' !in line && MatchCardAt(line, k).Some?
    ensures var m := MatchCardAt(line, k).value;
            m[0] == line[k..] && line[|line| - |m[3]|..] == m[3]
  {
    var m := MatchCardAt(line, k).value;
    CardMatchShape(line, k);
    var rest := line[k + |m[0]|..];
    assert line[k..] == m[0] + rest;
    assert CardShape(line[k..], m[1][0], m[2], m[3] + rest);
    CardShapeMatches(line, k, m[1][0], m[2], m[3] + rest);
  }

  /** The characters of a text with the card shape, position by position. */
  lemma CardShapeParts(s: string, d: char, ds: string, nm: string)
    requires CardShape(s, d, ds, nm)
    ensures |s| == 8 + |ds| + |nm|
    ensures s[0] == '#' && s[1] == ' ' && s[2..3] == [d] && s[3] == 'x' && s[4] == ' ' && s[5] == '('
    ensures s[6..6 + |ds|] == ds && s[6 + |ds|] == ')' && s[7 + |ds|] == ' ' && s[8 + |ds|..] == nm
  {
    assert s == "# " + [d] + "x (" + ds + ") " + nm;
  }

  lemma {:induction false} DigitRunOver(s: string, k: nat, e: nat)
    requires k <= e < |s| && (forall j :: k <= j < e ==> IsDigit(s[j])) && !IsDigit(s[e])
    ensures DigitRunEnd(s, k) == e
    decreases e - k
  {
    if k < e {
      DigitRunOver(s, k + 1, e);
    }
  }
}
