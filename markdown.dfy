/**
 * format_markdown: the response is split into paragraphs on "\n\n", each
 * paragraph is passed through four `re.sub` calls, and the paragraphs are
 * joined again with "\n\n".
 *
 * Each `re.sub` is modelled as Python's scan: at each position, try the
 * pattern. On a match, emit the replacement and resume after the match.
 * Otherwise, copy one character and move on. The four patterns are:
 *   Header    `###\s+(.+)`       -> `### \1`
 *   Bullet    `^\*\s+(.+)`       -> `* \1`   (MULTILINE)
 *   Numbered  `^\d+\.\s+(.+)`    -> `1. \1`  (MULTILINE)
 *   Bold      `\*\*(.+?)\*\*`    -> `**\1**`
 * `\s` is IsSpace (newlines included), `.` is any character but '\n', and
 * MULTILINE `^` holds at position 0 and right after a '\n'.
 */
module Markdown {
  import opened Wrappers
  import opened Text

  datatype Rule = Header | Bullet | Numbered | Bold

  /** A match that ends before index `end`, and the text that replaces it. */
  datatype Match = Match(end: nat, replacement: string)

  predicate IsDigit(c: char) {
    '0' <= c <= '9'
  }

  /** `^` under MULTILINE. */
  predicate AtLineStart(s: string, p: nat) {
    p == 0 || (p <= |s| && s[p - 1] == '\n')
  }

  /** Every character of s[lo..hi] is whitespace. */
  predicate AllSpace(s: string, lo: nat, hi: nat)
    requires lo <= hi <= |s|
  {
    forall i :: lo <= i < hi ==> IsSpace(s[i])
  }

  /** Every character of s[lo..hi] is an ASCII digit. */
  predicate AllDigit(s: string, lo: nat, hi: nat)
    requires lo <= hi <= |s|
  {
    forall i :: lo <= i < hi ==> IsDigit(s[i])
  }

  /** Length of the longest run of whitespace starting at q. */
  function SpaceRun(s: string, q: nat): (k: nat)
    requires q <= |s|
    ensures q + k <= |s|
    ensures q + k == |s| || !IsSpace(s[q + k])
    decreases |s| - q
  {
    if q < |s| && IsSpace(s[q]) then 1 + SpaceRun(s, q + 1) else 0
  }

  /** Length of the longest run of digits starting at p. */
  function DigitRun(s: string, p: nat): (d: nat)
    requires p <= |s|
    ensures p + d <= |s|
    ensures forall i :: p <= i < p + d ==> IsDigit(s[i])
    ensures p + d == |s| || !IsDigit(s[p + d])
    decreases |s| - p
  {
    if p < |s| && IsDigit(s[p]) then 1 + DigitRun(s, p + 1) else 0
  }

  /** Index of the first '\n' at or after i, or |s|: where a greedy `.+` from i stops. */
  function LineEnd(s: string, i: nat): (e: nat)
    requires i <= |s|
    ensures i <= e <= |s|
    ensures forall j :: i <= j < e ==> s[j] != '\n'
    ensures e == |s| || s[e] == '\n'
    decreases |s| - i
  {
    if i == |s| || s[i] == '\n' then i else LineEnd(s, i + 1)
  }

  /**
   * The greedy `\s+` gives characters back one at a time until the `.+` after it can start.
   * This returns the start q + j of the group for the largest j in 1..jmax with
   * s[q + j] != '\n', or None when there is no such j.
   */
  function GiveBack(s: string, q: nat, jmax: nat): (g: Option<nat>)
    requires q + jmax < |s|
    ensures g.Some? ==> q < g.value <= q + jmax && s[g.value] != '\n'
    ensures g.None? ==> forall i :: q < i <= q + jmax ==> s[i] == '\n'
    decreases jmax
  {
    if jmax == 0 then None
    else if s[q + jmax] != '\n' then Some(q + jmax)
    else GiveBack(s, q, jmax - 1)
  }

  /** Where the group `(.+)` starts when `\s+(.+)` is matched from q, or None when it does not match there. */
  function SpaceThenRest(s: string, q: nat): (g: Option<nat>)
    requires q <= |s|
    ensures g.Some? ==> q < g.value < |s| && s[g.value] != '\n'
  {
    var k := SpaceRun(s, q);
    if k == 0 then None
    else if q + k < |s| then Some(q + k)
    else GiveBack(s, q, k - 1)
  }

  /** `\s+(.+)` from q, with the match replaced by lead followed by the group. */
  function Rewrite(s: string, q: nat, lead: string): (m: Option<Match>)
    requires q <= |s|
    ensures m.Some? ==> q < m.value.end <= |s|
  {
    match SpaceThenRest(s, q)
    case None => None
    case Some(g) =>
      var e := LineEnd(s, g);
      Some(Match(e, lead + s[g..e]))
  }

  /**
   * The lazy `(.+?)\*\*` of the bold pattern, with its group already holding s[start..j]:
   * the end of the first closing "**", if the group can reach it without crossing a newline.
   */
  function BoldClose(s: string, j: nat): (e: Option<nat>)
    requires j <= |s|
    ensures e.Some? ==> j + 2 <= e.value <= |s| && s[e.value - 2] == '*' && s[e.value - 1] == '*'
    ensures e.Some? ==> forall i :: j <= i < e.value - 2 ==> s[i] != '\n'
    decreases |s| - j
  {
    if j + 2 <= |s| && s[j] == '*' && s[j + 1] == '*' then Some(j + 2)
    else if j < |s| && s[j] != '\n' then BoldClose(s, j + 1)
    else None
  }

  /** `###\s+(.+)` at p. */
  function MatchHeader(s: string, p: nat): (m: Option<Match>)
    requires p < |s|
    ensures m.Some? ==> p < m.value.end <= |s|
  {
    if p + 3 <= |s| && s[p] == '#' && s[p + 1] == '#' && s[p + 2] == '#' then Rewrite(s, p + 3, "### ")
    else None
  }

  /** `^\*\s+(.+)` at p. */
  function MatchBullet(s: string, p: nat): (m: Option<Match>)
    requires p < |s|
    ensures m.Some? ==> p < m.value.end <= |s|
  {
    if AtLineStart(s, p) && s[p] == '*' then Rewrite(s, p + 1, "* ") else None
  }

  /** `^\d+\.\s+(.+)` at p. */
  function MatchNumbered(s: string, p: nat): (m: Option<Match>)
    requires p < |s|
    ensures m.Some? ==> p < m.value.end <= |s|
  {
    var d := DigitRun(s, p);
    if AtLineStart(s, p) && d > 0 && p + d < |s| && s[p + d] == '.' then Rewrite(s, p + d + 1, "1. ")
    else None
  }

  /** `\*\*(.+?)\*\*` at p. */
  function MatchBold(s: string, p: nat): (m: Option<Match>)
    requires p < |s|
    ensures m.Some? ==> p < m.value.end <= |s|
  {
    if p + 2 < |s| && s[p] == '*' && s[p + 1] == '*' && s[p + 2] != '\n' then
      match BoldClose(s, p + 3)
      case Some(e) => Some(Match(e, "**" + s[p + 2..e - 2] + "**"))
      case None => None
    else None
  }

  /** The outcome of trying one pattern at position p. */
  function MatchAt(rule: Rule, s: string, p: nat): (m: Option<Match>)
    requires p < |s|
    ensures m.Some? ==> p < m.value.end <= |s|
  {
    match rule
    case Header => MatchHeader(s, p)
    case Bullet => MatchBullet(s, p)
    case Numbered => MatchNumbered(s, p)
    case Bold => MatchBold(s, p)
  }

  /** What Rewrite puts in place of a match: the lead, then a non-empty group that stays on one line. */
  lemma RewriteClean(s: string, q: nat, lead: string)
    requires q <= |s|
    requires NoNewline(lead) && lead != []
    ensures Rewrite(s, q, lead).Some? ==> NoNewline(Rewrite(s, q, lead).value.replacement) && Rewrite(s, q, lead).value.replacement != []
  {
    match SpaceThenRest(s, q)
    case None =>
    case Some(g) =>
      var e := LineEnd(s, g);
      var r := lead + s[g..e];
      forall i | 0 <= i < |r| ensures r[i] != '\n' {
        if i >= |lead| {
          assert r[i] == s[g + i - |lead|];
        }
      }
  }

  /** No replacement contains a newline, and none is empty. */
  lemma ReplacementClean(rule: Rule, s: string, p: nat)
    requires p < |s|
    ensures MatchAt(rule, s, p).Some? ==> NoNewline(MatchAt(rule, s, p).value.replacement)
    ensures MatchAt(rule, s, p).Some? ==> MatchAt(rule, s, p).value.replacement != []
  {
    LeadsClean();
    match rule
    case Header =>
      if p + 3 <= |s| {
        RewriteClean(s, p + 3, "### ");
      }
    case Bullet => RewriteClean(s, p + 1, "* ");
    case Numbered =>
      var d := DigitRun(s, p);
      if p + d + 1 <= |s| {
        RewriteClean(s, p + d + 1, "1. ");
      }
    case Bold =>
      match MatchBold(s, p)
      case None =>
      case Some(m) =>
        var e := BoldClose(s, p + 3).value;
        var r := "**" + s[p + 2..e - 2] + "**";
        assert m.replacement == r;
        forall i | 0 <= i < |r| ensures r[i] != '\n' {
          if 2 <= i < |r| - 2 {
            assert r[i] == s[p + i];
          }
        }
  }

  /** `re.sub(pattern, replacement, s)` for one rule, from position pos on. */
  function SubFrom(rule: Rule, s: string, pos: nat): string
    requires pos <= |s|
    decreases |s| - pos
  {
    if pos == |s| then []
    else
      match MatchAt(rule, s, pos)
      case Some(m) => m.replacement + SubFrom(rule, s, m.end)
      case None => [s[pos]] + SubFrom(rule, s, pos + 1)
  }

  /** One step of the scan where the pattern matches. */
  lemma SubStepMatch(rule: Rule, s: string, pos: nat, m: Match)
    requires pos < |s| && MatchAt(rule, s, pos) == Some(m)
    ensures SubFrom(rule, s, pos) == m.replacement + SubFrom(rule, s, m.end)
  {
  }

  function Sub(rule: Rule, s: string): string {
    SubFrom(rule, s, 0)
  }

  /** The four rewrites of one paragraph, in the source's order. */
  function FormatParagraph(para: string): string {
    Sub(Bold, Sub(Numbered, Sub(Bullet, Sub(Header, para))))
  }

  /** The loop of format_markdown: each paragraph rewritten, in order. */
  function FormatAll(paras: seq<string>): seq<string> {
    seq(|paras|, i requires 0 <= i < |paras| => FormatParagraph(paras[i]))
  }

  function FormatMarkdown(text: string): string {
    Join(FormatAll(Split(text, Break)), Break)
  }

  /** One step of the scan where the pattern does not match. */
  lemma SubStepCopy(rule: Rule, s: string, pos: nat)
    requires pos < |s| && MatchAt(rule, s, pos).None?
    ensures SubFrom(rule, s, pos) == [s[pos]] + SubFrom(rule, s, pos + 1)
  {
  }

  /** `**\1**` rebuilds the matched text. */
  lemma BoldMatchIsText(s: string, pos: nat, m: Match)
    requires pos < |s| && MatchAt(Bold, s, pos) == Some(m)
    ensures m.replacement == s[pos..m.end]
  {
    var e := BoldClose(s, pos + 3).value;
    assert m == Match(e, "**" + s[pos + 2..e - 2] + "**");
    assert s[pos..pos + 2] == "**";
    assert s[e - 2..e] == "**";
    assert s[pos..e] == s[pos..pos + 2] + s[pos + 2..e - 2] + s[e - 2..e];
  }

  /** A suffix is a slice followed by the suffix after it. */
  lemma SuffixSplit(s: string, i: nat, j: nat)
    requires i <= j <= |s|
    ensures s[i..] == s[i..j] + s[j..]
  {
  }

  /** The bold rewrite puts back exactly the text it matched, so it changes nothing. */
  lemma {:induction false} BoldIsIdentity(s: string, pos: nat)
    requires pos <= |s|
    ensures SubFrom(Bold, s, pos) == s[pos..]
    decreases |s| - pos
  {
    if pos < |s| {
      match MatchAt(Bold, s, pos)
      case Some(m) =>
        BoldIsIdentity(s, m.end);
        BoldMatchIsText(s, pos, m);
        SubStepMatch(Bold, s, pos, m);
        SuffixSplit(s, pos, m.end);
      case None =>
        BoldIsIdentity(s, pos + 1);
        SubStepCopy(Bold, s, pos);
        SuffixSplit(s, pos, pos + 1);
    }
  }

  /** Concatenating two strings creates no separator when the seam has no two newlines. */
  lemma NoBlankLineConcat(a: string, b: string)
    requires NoBlankLine(a) && NoBlankLine(b)
    requires !(EndsWithNewline(a) && b != [] && b[0] == '\n')
    ensures NoBlankLine(a + b)
  {
    var ab := a + b;
    forall i | 0 <= i < |ab| ensures !BlankAt(ab, i) {
      if i + 1 < |a| {
        assert !BlankAt(a, i);
      } else if i >= |a| {
        assert !BlankAt(b, i - |a|);
      }
    }
  }

  /**
   * What a rewrite does to paragraph structure from position pos on: it never creates
   * a paragraph separator (the replacements hold no newline), it is empty only at the
   * end, it starts with a newline only where the input does, and it ends with one
   * only if the input does.
   */
  ghost predicate KeepsParagraph(rule: Rule, s: string, pos: nat)
    requires pos <= |s|
  {
    var out := SubFrom(rule, s, pos);
    && NoBlankLine(out)
    && (out == [] <==> pos == |s|)
    && (out != [] && out[0] == '\n' ==> s[pos] == '\n')
    && (EndsWithNewline(out) ==> EndsWithNewline(s))
  }

  lemma KeepsParagraphAfterMatch(rule: Rule, s: string, pos: nat, m: Match)
    requires pos < |s| && MatchAt(rule, s, pos) == Some(m)
    requires KeepsParagraph(rule, s, m.end)
    ensures KeepsParagraph(rule, s, pos)
  {
    var rest := SubFrom(rule, s, m.end);
    var out := m.replacement + rest;
    SubStepMatch(rule, s, pos, m);
    ReplacementClean(rule, s, pos);
    assert NoBlankLine(m.replacement) by {
      forall i | 0 <= i < |m.replacement| ensures !BlankAt(m.replacement, i) {
      }
    }
    NoBlankLineConcat(m.replacement, rest);
    assert out[0] == m.replacement[0];
    if rest == [] {
      assert out[|out| - 1] == m.replacement[|m.replacement| - 1];
    } else {
      assert out[|out| - 1] == rest[|rest| - 1];
    }
  }

  lemma KeepsParagraphAfterCopy(rule: Rule, s: string, pos: nat)
    requires pos < |s| && MatchAt(rule, s, pos).None?
    requires NoBlankLine(s)
    requires KeepsParagraph(rule, s, pos + 1)
    ensures KeepsParagraph(rule, s, pos)
  {
    var rest := SubFrom(rule, s, pos + 1);
    var out := [s[pos]] + rest;
    assert SubFrom(rule, s, pos) == out;
    if rest != [] && rest[0] == '\n' {
      assert s[pos + 1] == '\n';
      assert !BlankAt(s, pos);
      assert s[pos] != '\n';
    }
    NoBlankLineConcat([s[pos]], rest);
    if rest != [] {
      assert out[|out| - 1] == rest[|rest| - 1];
    }
  }

  /** Every rewrite keeps a paragraph one paragraph, by induction over the scan. */
  lemma {:induction false} SubKeepsParagraph(rule: Rule, s: string, pos: nat)
    requires pos <= |s|
    requires NoBlankLine(s)
    ensures KeepsParagraph(rule, s, pos)
    decreases |s| - pos
  {
    if pos < |s| {
      match MatchAt(rule, s, pos)
      case Some(m) =>
        SubKeepsParagraph(rule, s, m.end);
        KeepsParagraphAfterMatch(rule, s, pos, m);
      case None =>
        SubKeepsParagraph(rule, s, pos + 1);
        KeepsParagraphAfterCopy(rule, s, pos);
    }
  }

  /** The four rewrites of a paragraph keep it one paragraph, and add no trailing newline. */
  lemma FormatParagraphKeepsParagraph(para: string)
    requires NoBlankLine(para)
    ensures NoBlankLine(FormatParagraph(para))
    ensures EndsWithNewline(FormatParagraph(para)) ==> EndsWithNewline(para)
  {
    var h := Sub(Header, para);
    SubKeepsParagraph(Header, para, 0);
    var b := Sub(Bullet, h);
    SubKeepsParagraph(Bullet, h, 0);
    var n := Sub(Numbered, b);
    SubKeepsParagraph(Numbered, b, 0);
    SubKeepsParagraph(Bold, n, 0);
  }

  /**
   * Splitting the formatted text on "\n\n" gives back exactly the formatted
   * paragraphs of the input: as many paragraphs as the input had, the i-th being
   * the rewrite of the input's i-th.
   */
  lemma FormatMarkdownParagraphs(text: string)
    ensures Split(FormatMarkdown(text), Break) == FormatAll(Split(text, Break))
    ensures |Split(FormatMarkdown(text), Break)| == |Split(text, Break)|
  {
    var paras := Split(text, Break);
    var formatted := FormatAll(paras);
    SplitParagraphs(text);
    forall i | 0 <= i < |paras|
      ensures NoBlankLine(formatted[i])
      ensures i < |paras| - 1 ==> !EndsWithNewline(formatted[i])
    {
      FormatParagraphKeepsParagraph(paras[i]);
    }
    SplitJoin(formatted);
  }

  /** The bold rewrite can be dropped: a paragraph is formatted by the other three. */
  lemma FormatParagraphWithoutBold(para: string)
    ensures FormatParagraph(para) == Sub(Numbered, Sub(Bullet, Sub(Header, para)))
  {
    BoldIsIdentity(Sub(Numbered, Sub(Bullet, Sub(Header, para))), 0);
  }

  /** A run of whitespace that ends at a non-space (or the end) is exactly what SpaceRun measures. */
  lemma {:induction false} SpaceRunIs(s: string, q: nat, g: nat)
    requires q <= g <= |s|
    requires q <= g && AllSpace(s, q, g)
    requires g == |s| || !IsSpace(s[g])
    ensures SpaceRun(s, q) == g - q
    decreases g - q
  {
    if q < g {
      SpaceRunIs(s, q + 1, g);
    }
  }

  /** A run of digits that ends at a non-digit is exactly what DigitRun measures. */
  lemma {:induction false} DigitRunIs(s: string, p: nat, e: nat)
    requires p <= e <= |s|
    requires AllDigit(s, p, e)
    requires e == |s| || !IsDigit(s[e])
    ensures DigitRun(s, p) == e - p
    decreases e - p
  {
    if p < e {
      DigitRunIs(s, p + 1, e);
    }
  }

  /** When a run of whitespace from q is followed by a non-space, `\s+(.+)` takes the whole run and the rest of that line. */
  lemma RewriteAfterSpaces(s: string, q: nat, g: nat, lead: string)
    requires q < g < |s|
    requires q <= g && AllSpace(s, q, g)
    requires !IsSpace(s[g])
    ensures Rewrite(s, q, lead) == Some(Match(LineEnd(s, g), lead + s[g..LineEnd(s, g)]))
  {
    SpaceThenRestAt(s, q, g);
  }

  /** A run of whitespace from q that stops at a non-space g: the group of `\s+(.+)` starts at g. */
  lemma SpaceThenRestAt(s: string, q: nat, g: nat)
    requires q < g < |s|
    requires q <= g && AllSpace(s, q, g)
    requires !IsSpace(s[g])
    ensures SpaceThenRest(s, q) == Some(g)
  {
    SpaceRunIs(s, q, g);
  }

  /** The replacement prefixes hold no newline. */
  lemma LeadsClean()
    ensures NoNewline("* ") && NoNewline("### ") && NoNewline("1. ")
  {
  }

  /** `### <spaces>rest` becomes `### rest`: the whitespace after the hashes collapses to one space. */
  lemma HeaderCollapsesSpace(s: string, p: nat, g: nat)
    requires p + 3 < g < |s|
    requires s[p] == '#' && s[p + 1] == '#' && s[p + 2] == '#'
    requires p + 3 <= g && AllSpace(s, p + 3, g)
    requires !IsSpace(s[g])
    ensures SubFrom(Header, s, p) == "### " + s[g..LineEnd(s, g)] + SubFrom(Header, s, LineEnd(s, g))
  {
    var e := LineEnd(s, g);
    var m := Match(e, "### " + s[g..e]);
    HeaderMatch(s, p, g);
    SubStepMatch(Header, s, p, m);
  }

  /** The header pattern on `###<spaces>rest` matches up to the end of that line. */
  lemma HeaderMatch(s: string, p: nat, g: nat)
    requires p + 3 < g < |s|
    requires s[p] == '#' && s[p + 1] == '#' && s[p + 2] == '#'
    requires p + 3 <= g && AllSpace(s, p + 3, g)
    requires !IsSpace(s[g])
    ensures MatchAt(Header, s, p) == Some(Match(LineEnd(s, g), "### " + s[g..LineEnd(s, g)]))
  {
    RewriteAfterSpaces(s, p + 3, g, "### ");
    assert MatchHeader(s, p) == Rewrite(s, p + 3, "### ");
  }

  /** A line `*<spaces>rest` becomes `* rest`. */
  lemma BulletNormalised(s: string, p: nat, g: nat)
    requires p + 1 < g < |s|
    requires AtLineStart(s, p) && s[p] == '*'
    requires p + 1 <= g && AllSpace(s, p + 1, g)
    requires !IsSpace(s[g])
    ensures SubFrom(Bullet, s, p) == "* " + s[g..LineEnd(s, g)] + SubFrom(Bullet, s, LineEnd(s, g))
  {
    var e := LineEnd(s, g);
    var m := Match(e, "* " + s[g..e]);
    BulletMatch(s, p, g);
    SubStepMatch(Bullet, s, p, m);
  }

  /** The bullet pattern at the start of a line `*<spaces>rest` matches up to the end of that line. */
  lemma BulletMatch(s: string, p: nat, g: nat)
    requires p + 1 < g < |s|
    requires AtLineStart(s, p) && s[p] == '*'
    requires p + 1 <= g && AllSpace(s, p + 1, g)
    requires !IsSpace(s[g])
    ensures MatchAt(Bullet, s, p) == Some(Match(LineEnd(s, g), "* " + s[g..LineEnd(s, g)]))
  {
    RewriteAfterSpaces(s, p + 1, g, "* ");
    assert MatchBullet(s, p) == Rewrite(s, p + 1, "* ");
  }

  /** A line `<digits>.<spaces>rest` becomes `1. rest`, whatever the number was. */
  lemma NumberedRenumbered(s: string, p: nat, d: nat, g: nat)
    requires 0 < d && p + d + 1 < g < |s|
    requires AtLineStart(s, p)
    requires AllDigit(s, p, p + d)
    requires s[p + d] == '.'
    requires p + d + 1 <= g && AllSpace(s, p + d + 1, g)
    requires !IsSpace(s[g])
    ensures SubFrom(Numbered, s, p) == "1. " + s[g..LineEnd(s, g)] + SubFrom(Numbered, s, LineEnd(s, g))
  {
    var e := LineEnd(s, g);
    var m := Match(e, "1. " + s[g..e]);
    NumberedMatch(s, p, d, g);
    SubStepMatch(Numbered, s, p, m);
  }

  /** The numbered pattern on `<digits>.<spaces>rest` at the start of a line matches up to the end of that line. */
  lemma NumberedMatch(s: string, p: nat, d: nat, g: nat)
    requires 0 < d && p + d + 1 < g < |s|
    requires AtLineStart(s, p)
    requires AllDigit(s, p, p + d)
    requires s[p + d] == '.'
    requires p + d + 1 <= g && AllSpace(s, p + d + 1, g)
    requires !IsSpace(s[g])
    ensures MatchAt(Numbered, s, p) == Some(Match(LineEnd(s, g), "1. " + s[g..LineEnd(s, g)]))
  {
    NumberedLead(s, p, d);
    RewriteAfterSpaces(s, p + d + 1, g, "1. ");
  }

  /** A line opening with digits and a dot: the numbered pattern goes on with `\s+(.+)` after the dot. */
  lemma NumberedLead(s: string, p: nat, d: nat)
    requires 0 < d && p + d < |s|
    requires AtLineStart(s, p)
    requires AllDigit(s, p, p + d)
    requires s[p + d] == '.'
    ensures MatchAt(Numbered, s, p) == Rewrite(s, p + d + 1, "1. ")
  {
    DigitRunIs(s, p, p + d);
  }
}
