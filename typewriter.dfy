/**
 * stream_response: the typewriter effect. The formatted response is cut into
 * paragraphs and each paragraph into words on single spaces. `current_text`
 * only ever grows: by each word and a space, then by "\n\n" after each
 * paragraph. The text returned, and stored as the assistant's message, is the
 * right-stripped final `current_text`.
 *
 * Each value that the placeholder shows is recorded as a frame. The cursor
 * glyph appended for display and the pauses between frames are not part of the
 * model.
 */
module Typewriter {
  import opened Text
  import opened Markdown

  /** What the inner loop appends for one paragraph: each word followed by one space. */
  function TypedWords(words: seq<string>): string {
    if words == [] then [] else TypedWords(words[..|words| - 1]) + words[|words| - 1] + " "
  }

  /** current_text after the outer loop has handled the paragraphs paras. */
  function Typed(paras: seq<string>): string {
    if paras == [] then []
    else Typed(paras[..|paras| - 1]) + TypedWords(Split(paras[|paras| - 1], " ")) + Break
  }

  /** The text stream_response returns for a response. */
  function StreamedText(response: string): string {
    RStrip(Typed(Split(FormatMarkdown(response), Break)))
  }

  /** Every frame shown is a prefix of every later one: the display only ever grows. */
  predicate Growing(frames: seq<string>) {
    forall i, j :: 0 <= i <= j < |frames| ==> frames[i] <= frames[j]
  }

  /** Every frame is a prefix of current. */
  predicate AllPrefixOf(frames: seq<string>, current: string) {
    forall i :: 0 <= i < |frames| ==> frames[i] <= current
  }

  /** Growing a string keeps every prefix of it a prefix. */
  lemma PrefixGrows(a: string, b: string, x: string)
    requires a <= b
    ensures a <= b + x
  {
    assert (b + x)[..|b|] == b;
  }

  /** Appending to current_text and showing it keeps the frames growing. */
  lemma ShowGrown(frames: seq<string>, current: string, x: string)
    requires Growing(frames) && AllPrefixOf(frames, current)
    ensures Growing(frames + [current + x]) && AllPrefixOf(frames + [current + x], current + x)
  {
    forall i | 0 <= i < |frames| ensures frames[i] <= current + x {
      PrefixGrows(frames[i], current, x);
    }
  }

  /** One more word typed. */
  lemma TypedWordsStep(before: string, words: seq<string>, w: nat)
    requires w < |words|
    ensures before + TypedWords(words[..w + 1]) == before + TypedWords(words[..w]) + (words[w] + " ")
  {
    assert words[..w + 1][..w] == words[..w];
  }

  /** One more paragraph typed. */
  lemma TypedStep(paras: seq<string>, p: nat)
    requires p < |paras|
    ensures Typed(paras[..p + 1]) == Typed(paras[..p]) + TypedWords(Split(paras[p], " ")) + Break
  {
    assert paras[..p + 1][..p] == paras[..p];
  }

  /**
   * The inner loop of stream_response: each word and a space are appended to
   * current_text, which is shown after every word.
   */
  method TypeWords(start: string, shown: seq<string>, words: seq<string>) returns (current: string, frames: seq<string>)
    requires Growing(shown) && AllPrefixOf(shown, start)
    ensures current == start + TypedWords(words)
    ensures Growing(frames) && AllPrefixOf(frames, current)
    ensures words != [] ==> frames != [] && frames[|frames| - 1] == current
    ensures words == [] ==> frames == shown
  {
    current, frames := start, shown;
    var w := 0;
    while w < |words|
      invariant w <= |words|
      invariant current == start + TypedWords(words[..w])
      invariant Growing(frames) && AllPrefixOf(frames, current)
      invariant w > 0 ==> frames != [] && frames[|frames| - 1] == current
      invariant w == 0 ==> frames == shown
    {
      ShowGrown(frames, current, words[w] + " ");
      TypedWordsStep(start, words, w);
      current := current + (words[w] + " ");
      frames := frames + [current];
      w := w + 1;
    }
    assert words[..w] == words;
  }

  /**
   * stream_response with the widget calls recorded as frames: returns the
   * final text and the successive values of current_text that were displayed.
   */
  method StreamResponse(response: string) returns (text: string, frames: seq<string>)
    ensures text == StreamedText(response)
    ensures frames != [] && text == RStrip(frames[|frames| - 1])
    ensures Growing(frames)
  {
    var formatted := FormatMarkdown(response);
    var paragraphs := Split(formatted, Break);
    var current := "";
    frames := [];
    var p := 0;
    while p < |paragraphs|
      invariant p <= |paragraphs|
      invariant current == Typed(paragraphs[..p])
      invariant p == 0 ==> frames == []
      invariant p > 0 ==> frames != [] && frames[|frames| - 1] == current
      invariant Growing(frames) && AllPrefixOf(frames, current)
    {
      current, frames := TypeWords(current, frames, Split(paragraphs[p], " "));
      ShowGrown(frames, current, Break);
      TypedStep(paragraphs, p);
      current := current + Break;
      frames := frames + [current];
      p := p + 1;
    }
    assert paragraphs[..p] == paragraphs;
    text := RStrip(current);
  }

  /** The inner loop's text is the words joined by spaces, plus one space. */
  lemma {:induction false} TypedWordsJoin(words: seq<string>)
    requires |words| >= 1
    ensures TypedWords(words) == Join(words, " ") + " "
    decreases |words|
  {
    if |words| > 1 {
      var init := words[..|words| - 1];
      TypedWordsJoin(init);
      JoinSnoc(init, words[|words| - 1], " ");
      assert init + [words[|words| - 1]] == words;
    } else {
      assert words[..0] == [];
    }
  }

  /** Typing out a paragraph word by word gives the paragraph and one space. */
  lemma TypedParagraph(para: string)
    ensures TypedWords(Split(para, " ")) == para + " "
  {
    TypedWordsJoin(Split(para, " "));
    JoinSplit(para, " ");
  }

  /** Each paragraph with one space appended. */
  function WithSpace(paras: seq<string>): (r: seq<string>)
    ensures |r| == |paras|
    ensures forall i :: 0 <= i < |paras| ==> r[i] == paras[i] + " "
  {
    seq(|paras|, i requires 0 <= i < |paras| => paras[i] + " ")
  }

  /** current_text at the end: every paragraph followed by " \n\n". */
  lemma {:induction false} TypedIsJoin(paras: seq<string>)
    requires |paras| >= 1
    ensures Typed(paras) == Join(WithSpace(paras), Break) + Break
    decreases |paras|
  {
    var last := paras[|paras| - 1];
    TypedParagraph(last);
    if |paras| == 1 {
      assert paras[..0] == [];
      assert WithSpace(paras) == [last + " "];
    } else {
      var init := paras[..|paras| - 1];
      TypedIsJoin(init);
      JoinSnoc(WithSpace(init), last + " ", Break);
      assert WithSpace(init) + [last + " "] == WithSpace(paras);
    }
  }

  /** The separator is whitespace throughout. */
  lemma BreakIsSpace()
    ensures forall i :: 0 <= i < |Break| ==> IsSpace(Break[i])
  {
    assert Break[0] == '\n' && Break[1] == '\n';
  }

  /**
   * The returned text: each formatted paragraph followed by one space, the
   * paragraphs joined by "\n\n", and trailing whitespace stripped. It is not
   * the formatted text itself: a space comes before every paragraph break.
   */
  lemma StreamedShape(response: string)
    ensures StreamedText(response) == RStrip(Join(WithSpace(FormatAll(Split(response, Break))), Break))
  {
    var paras := Split(FormatMarkdown(response), Break);
    FormatMarkdownParagraphs(response);
    TypedIsJoin(paras);
    BreakIsSpace();
    RStripIgnoresTrailingSpace(Join(WithSpace(paras), Break), Break);
  }

  /** Trailing whitespace after one paragraph's space is stripped too. */
  lemma {:induction false} RStripSpaceAfter(s: string)
    ensures RStrip(s + " ") == RStrip(s)
  {
    RStripIgnoresTrailingSpace(s, " ");
  }

  /** A response of one paragraph streams to its formatted text, right-stripped. */
  lemma StreamedSingle(response: string)
    requires NoBlankLine(response)
    ensures StreamedText(response) == RStrip(FormatMarkdown(response))
  {
    SplitWhole(response);
    StreamedShape(response);
    var formatted := FormatParagraph(response);
    assert FormatAll([response]) == [formatted];
    assert FormatMarkdown(response) == formatted;
    assert WithSpace([formatted]) == [formatted + " "];
    RStripSpaceAfter(formatted);
  }

  /** An empty response streams to the empty text. */
  lemma StreamedEmpty()
    ensures StreamedText("") == ""
  {
    StreamedSingle("");
    assert Sub(Header, "") == [];
    assert Sub(Bullet, "") == [];
    assert Sub(Numbered, "") == [];
    assert Sub(Bold, "") == [];
  }

  /** A rewrite that does not match a one-letter string leaves it alone. */
  lemma SubLetter(rule: Rule, c: char)
    requires MatchAt(rule, [c], 0).None?
    ensures Sub(rule, [c]) == [c]
  {
    SubStepCopy(rule, [c], 0);
  }

  /** A one-letter paragraph is left alone by every rewrite. */
  lemma FormatLetter(c: char)
    requires c != '*' && c != '#' && !IsDigit(c)
    ensures FormatParagraph([c]) == [c]
  {
    var s := [c];
    assert DigitRun(s, 0) == 0;
    SubLetter(Header, c);
    SubLetter(Bullet, c);
    SubLetter(Numbered, c);
    SubLetter(Bold, c);
  }

  /** "a\n\nb" is the two paragraphs "a" and "b". */
  lemma SplitTwoLetters()
    ensures Split("a\n\nb", Break) == ["a", "b"]
  {
    var ps := ["a", "b"];
    assert ps[1..] == ["b"];
    assert Join(ps, Break) == "a\n\nb";
    assert !BlankAt("a", 0) && !BlankAt("b", 0);
    SplitJoin(ps);
  }

  /** Both paragraphs stream with a trailing space before the break. */
  lemma StreamTwoLetters()
    ensures RStrip(Join(WithSpace(["a", "b"]), Break)) == "a \n\nb"
  {
    var spaced := WithSpace(["a", "b"]);
    assert spaced[0] == "a" + " " == "a ";
    assert spaced[1] == "b" + " " == "b ";
    assert spaced == ["a ", "b "];
    assert spaced[1..] == ["b "];
    assert Join(spaced, Break) == "a \n\nb" + " ";
    RStripSpaceAfter("a \n\nb");
    assert RStrip("a \n\nb") == "a \n\nb";
  }

  /**
   * The streamed text is not the formatted text: "a\n\nb" is formatted to
   * itself but streams as "a \n\nb", with a space before the paragraph break.
   */
  lemma StreamedAddsSpace()
    ensures FormatMarkdown("a\n\nb") == "a\n\nb"
    ensures StreamedText("a\n\nb") == "a \n\nb"
  {
    SplitTwoLetters();
    FormatLetter('a');
    FormatLetter('b');
    assert FormatAll(["a", "b"]) == ["a", "b"];
    assert ["a", "b"][1..] == ["b"];
    StreamedShape("a\n\nb");
    StreamTwoLetters();
  }
}
