/**
 * The parts of Python's `str` that the application relies on:
 * `split(sep)` with an explicit separator, `sep.join(parts)`, `rstrip()`,
 * and the whitespace class that both `rstrip()` and the `re` module's `\s` use.
 */
module Text {

  /** The paragraph separator of format_markdown and stream_response. */
  const Break: string := "\n\n"

  /** Python's `str.isspace()` on one character, which is also what `\s` matches in a str pattern. */
  predicate IsSpace(c: char) {
    var n := c as int;
    (0x09 <= n <= 0x0D) || (0x1C <= n <= 0x20) || n == 0x85 || n == 0xA0 || n == 0x1680
    || (0x2000 <= n <= 0x200A) || n == 0x2028 || n == 0x2029 || n == 0x202F || n == 0x205F
    || n == 0x3000
  }

  predicate NoNewline(s: string) {
    forall i :: 0 <= i < |s| ==> s[i] != '\n'
  }

  predicate EndsWithNewline(s: string) {
    |s| > 0 && s[|s| - 1] == '\n'
  }

  /** Position i starts an occurrence of "\n\n" in s. */
  predicate BlankAt(s: string, i: int) {
    0 <= i && i + 1 < |s| && s[i] == '\n' && s[i + 1] == '\n'
  }

  /** s contains no paragraph separator. */
  predicate NoBlankLine(s: string) {
    forall i :: 0 <= i < |s| ==> !BlankAt(s, i)
  }

  /**
   * Python's `s.split(sep)` for a non-empty separator: the pieces between the
   * leftmost non-overlapping occurrences of sep, scanning from the left.
   */
  function Split(s: string, sep: string): (parts: seq<string>)
    requires sep != []
    ensures |parts| >= 1
    ensures |parts| == 1 ==> parts[0] == s
    ensures |parts| > 1 ==> parts[0] + sep <= s
    decreases |s|
  {
    if |s| < |sep| then [s]
    else if s[..|sep|] == sep then [[]] + Split(s[|sep|..], sep)
    else
      var rest := Split(s[1..], sep);
      [[s[0]] + rest[0]] + rest[1..]
  }

  /** Python's `sep.join(parts)`. */
  function Join(parts: seq<string>, sep: string): string {
    if |parts| == 0 then []
    else if |parts| == 1 then parts[0]
    else parts[0] + sep + Join(parts[1..], sep)
  }

  /** Python's `s.rstrip()`: drop every trailing whitespace character. */
  function RStrip(s: string): (r: string)
    ensures r <= s
    ensures r == [] || !IsSpace(r[|r| - 1])
    ensures forall i :: |r| <= i < |s| ==> IsSpace(s[i])
  {
    if s == [] || !IsSpace(s[|s| - 1]) then s else RStrip(s[..|s| - 1])
  }

  /** Joining after growing the first part by one leading character. */
  lemma JoinConsFirst(c: char, parts: seq<string>, sep: string)
    requires |parts| >= 1
    ensures Join([[c] + parts[0]] + parts[1..], sep) == [c] + Join(parts, sep)
  {
    var grown := [[c] + parts[0]] + parts[1..];
    if |parts| > 1 {
      assert grown[1..] == parts[1..];
    }
  }

  /** Joining what was split gives the string back. */
  lemma {:induction false} JoinSplit(s: string, sep: string)
    requires sep != []
    ensures Join(Split(s, sep), sep) == s
    decreases |s|
  {
    if |s| < |sep| {
    } else if s[..|sep|] == sep {
      var rest := Split(s[|sep|..], sep);
      JoinSplit(s[|sep|..], sep);
      assert ([[]] + rest)[1..] == rest;
      assert s == sep + s[|sep|..];
    } else {
      var rest := Split(s[1..], sep);
      JoinSplit(s[1..], sep);
      JoinConsFirst(s[0], rest, sep);
      assert [s[0]] + s[1..] == s;
    }
  }

  /** Joining one more part at the end. */
  lemma {:induction false} JoinSnoc(parts: seq<string>, p: string, sep: string)
    requires |parts| >= 1
    ensures Join(parts + [p], sep) == Join(parts, sep) + sep + p
    decreases |parts|
  {
    if |parts| == 1 {
      assert parts + [p] == [parts[0], p];
      assert [parts[0], p][1..] == [p];
    } else {
      assert (parts + [p])[1..] == parts[1..] + [p];
      JoinSnoc(parts[1..], p, sep);
    }
  }

  /** Trailing whitespace added to a string is removed again by rstrip. */
  lemma {:induction false} RStripIgnoresTrailingSpace(s: string, w: string)
    requires forall i :: 0 <= i < |w| ==> IsSpace(w[i])
    ensures RStrip(s + w) == RStrip(s)
    decreases |w|
  {
    if w != [] {
      assert (s + w)[..|s + w| - 1] == s + w[..|w| - 1];
      RStripIgnoresTrailingSpace(s, w[..|w| - 1]);
    } else {
      assert s + w == s;
    }
  }

  /** A string without a paragraph separator is one paragraph. */
  lemma {:induction false} SplitWhole(p: string)
    requires NoBlankLine(p)
    ensures Split(p, Break) == [p]
    decreases |p|
  {
    if |p| >= 2 {
      assert !BlankAt(p, 0);
      assert p[..2] != Break;
      forall i ensures !BlankAt(p[1..], i) {
        assert !BlankAt(p, i + 1);
      }
      SplitWhole(p[1..]);
      assert [p[0]] + p[1..] == p;
    }
  }

  /** The first paragraph ends at the first separator when it neither contains one nor ends in a newline. */
  lemma {:induction false} SplitAtFirstBreak(p: string, t: string)
    requires NoBlankLine(p)
    requires !EndsWithNewline(p)
    ensures Split(p + Break + t, Break) == [p] + Split(t, Break)
    decreases |p|
  {
    var s := p + Break + t;
    if p == [] {
      assert s[..2] == Break;
      assert s[2..] == t;
    } else {
      if |p| >= 2 {
        assert !BlankAt(p, 0);
        assert s[..2] == p[..2];
      } else {
        assert s[1] == '\n' && s[0] == p[0] && p[0] != '\n';
      }
      assert s[..2] != Break;
      forall i ensures !BlankAt(p[1..], i) {
        assert !BlankAt(p, i + 1);
      }
      assert s[1..] == p[1..] + Break + t;
      SplitAtFirstBreak(p[1..], t);
      assert [p[0]] + p[1..] == p;
    }
  }

  /** Splitting the join of paragraphs gives the paragraphs back, when none contains a separator and none but the last ends in a newline. */
  lemma {:induction false} SplitJoin(ps: seq<string>)
    requires |ps| >= 1
    requires forall i :: 0 <= i < |ps| ==> NoBlankLine(ps[i])
    requires forall i :: 0 <= i < |ps| - 1 ==> !EndsWithNewline(ps[i])
    ensures Split(Join(ps, Break), Break) == ps
    decreases |ps|
  {
    if |ps| == 1 {
      SplitWhole(ps[0]);
    } else {
      SplitJoin(ps[1..]);
      SplitAtFirstBreak(ps[0], Join(ps[1..], Break));
      assert [ps[0]] + ps[1..] == ps;
    }
  }

  /** The paragraphs that split produces contain no separator, and all but the last do not end in a newline. */
  lemma {:induction false} SplitParagraphs(s: string)
    ensures forall i :: 0 <= i < |Split(s, Break)| ==> NoBlankLine(Split(s, Break)[i])
    ensures forall i :: 0 <= i < |Split(s, Break)| - 1 ==> !EndsWithNewline(Split(s, Break)[i])
    decreases |s|
  {
    var parts := Split(s, Break);
    if |s| < 2 {
      forall j ensures !BlankAt(s, j) { }
    } else if s[..2] == Break {
      SplitParagraphs(s[2..]);
      var rest := Split(s[2..], Break);
      assert parts == [[]] + rest;
      forall i | 0 <= i < |parts| ensures NoBlankLine(parts[i]) {
        if i > 0 { assert parts[i] == rest[i - 1]; }
      }
      forall i | 0 <= i < |parts| - 1 ensures !EndsWithNewline(parts[i]) {
        if i > 0 { assert parts[i] == rest[i - 1]; }
      }
    } else {
      SplitParagraphs(s[1..]);
      var rest := Split(s[1..], Break);
      var head := [s[0]] + rest[0];
      assert parts == [head] + rest[1..];
      assert rest[0] <= s[1..];
      forall j ensures !BlankAt(head, j) {
        if j == 0 && |head| >= 2 {
          assert head[1] == s[1];
          assert s[..2] == [s[0], s[1]];
        } else if j > 0 {
          assert !BlankAt(rest[0], j - 1);
        }
      }
      if |parts| > 1 {
        if rest[0] == [] {
          assert Break <= s[1..];
          assert s[1] == '\n' && s[2] == '\n';
          assert s[..2] == [s[0], s[1]];
          assert s[0] != '\n';
        } else {
          assert !EndsWithNewline(rest[0]);
        }
        assert !EndsWithNewline(head);
      }
      forall i | 0 <= i < |parts| ensures NoBlankLine(parts[i]) {
        if i > 0 { assert parts[i] == rest[i]; }
      }
      forall i | 0 <= i < |parts| - 1 ensures !EndsWithNewline(parts[i]) {
        if i > 0 { assert parts[i] == rest[i]; }
      }
    }
  }
}
