/**
 * create_prompt and answer_question: the business context lines, the fixed
 * prompt template, and the fallback that turns any failure into an apology.
 *
 * The two remote services and Python's list repr are parameters (Services):
 * retrieve stands for get_similar_chunks followed by DataFrame.to_string,
 * complete for the Cortex Complete call.
 */
module Prompt {
  import opened Wrappers
  import opened Text
  import opened Conversation

  /** MODEL_NAME, the model that answer_question asks for. */
  const ModelName: string := "mistral-large2"

  /**
   * The calls the application makes into code it does not own. An Err is the
   * text of an exception that escapes the call.
   */
  datatype Services = Services(
    retrieve: string -> Result<string, string>,
    complete: (string, string) -> Result<string, string>,
    showHistory: seq<Message> -> string)

  /** Python truthiness of an optional string: None and "" are false. */
  predicate Truthy(v: Option<string>) {
    v.Some? && v.value != []
  }

  /** `f"{caption}{v}" if v else ""`. */
  function Labelled(caption: string, v: Option<string>): string {
    if Truthy(v) then caption + v.value else ""
  }

  /** `filter(None, lines)`: the non-empty strings, in order. */
  function NonEmpty(lines: seq<string>): (r: seq<string>)
    ensures forall i :: 0 <= i < |r| ==> r[i] != []
    ensures forall x :: x in r <==> x in lines && x != []
    ensures |r| <= |lines|
  {
    if lines == [] then []
    else if lines[0] == [] then NonEmpty(lines[1..])
    else [lines[0]] + NonEmpty(lines[1..])
  }

  /** Filtering a concatenation filters each part and keeps their order. */
  lemma {:induction false} NonEmptyConcat(a: seq<string>, b: seq<string>)
    ensures NonEmpty(a + b) == NonEmpty(a) + NonEmpty(b)
    decreases |a|
  {
    if a != [] {
      assert (a + b)[0] == a[0];
      assert (a + b)[1..] == a[1..] + b;
      NonEmptyConcat(a[1..], b);
    } else {
      assert a + b == b;
    }
  }

  /** filter(None, ...) on the two context lines. */
  lemma NonEmptyPair(a: string, b: string)
    ensures NonEmpty([a, b]) == (if a != [] then [a] else []) + (if b != [] then [b] else [])
  {
    assert [a, b][1..] == [b];
    assert [b][1..] == [];
  }

  /** Joining at most two lines with "\n". */
  lemma JoinPair(a: string, b: string)
    ensures Join([a, b], "\n") == a + "\n" + b
  {
    assert [a, b][1..] == [b];
  }

  /** The context_info block: a "Country:" line and a "Business Type:" line, each present only when its value is truthy. */
  function ContextInfo(country: Option<string>, businessType: Option<string>): (info: string)
    ensures Truthy(country) && Truthy(businessType) ==>
      info == "Country: " + country.value + "\n" + "Business Type: " + businessType.value
    ensures Truthy(country) && !Truthy(businessType) ==> info == "Country: " + country.value
    ensures !Truthy(country) && Truthy(businessType) ==> info == "Business Type: " + businessType.value
    ensures !Truthy(country) && !Truthy(businessType) ==> info == ""
  {
    var a := Labelled("Country: ", country);
    var b := Labelled("Business Type: ", businessType);
    NonEmptyPair(a, b);
    JoinPair(a, b);
    Join(NonEmpty([a, b]), "\n")
  }

  /** Concatenation of a list of pieces. */
  function Concat(pieces: seq<string>): string {
    if pieces == [] then [] else pieces[0] + Concat(pieces[1..])
  }

  /** Where piece k starts in Concat(pieces). */
  function Offset(pieces: seq<string>, k: nat): nat
    requires k <= |pieces|
  {
    |Concat(pieces[..k])|
  }

  /** x occurs in p starting at index i. */
  predicate OccursAt(p: string, x: string, i: int) {
    0 <= i && i + |x| <= |p| && p[i..i + |x|] == x
  }

  /** A line break and the four spaces that indent every line of the template. */
  const Indent: string := "\n    "

  /** The first line of the template. */
  const Preamble: string :=
    "You are a highly intelligent " + "business assistant specializing " + "in providing concise and "
    + "accurate answers about setting " + "up businesses internationally."

  /** The three instruction lines between context_info and the chat history. */
  const Guidance: string :=
    "Use the information between " + "<context> tags to address " + "the user's question and offer "
    + "actionable insights." + Indent
    + "If the information isn't in " + "the context, you can provide " + "general guidance based on "
    + "common business practices." + Indent
    + "Focus on practical, " + "step-by-step advice " + "when applicable."

  /**
   * The f-string of create_prompt, cut at each interpolated value and around
   * each tag, with its two blocks of fixed prose as parameters. A blank line
   * of the template is "\n" followed by Indent.
   */
  function Layout(opening: string, guidance: string,
                  info: string, history: string, context: string, question: string): (pieces: seq<string>)
    ensures |pieces| == 23
  {
    [ opening, info, guidance,
      "<chat_history>", Indent, history, Indent, "</chat_history>", "\n" + Indent,
      "<context>", Indent, context, Indent, "</context>", "\n" + Indent,
      "<question>", Indent, question, Indent, "</question>", "\n" + Indent,
      "Answer:", Indent ]
  }

  /** The prompt text of create_prompt. */
  function Template(info: string, history: string, context: string, question: string): string {
    Concat(Layout(Indent + Preamble + Indent, "\n" + Indent + Guidance + "\n" + Indent, info, history, context, question))
  }

  /** Concatenation splits around any one piece. */
  lemma {:induction false} ConcatAround(pieces: seq<string>, k: nat)
    requires k < |pieces|
    ensures Concat(pieces) == Concat(pieces[..k]) + pieces[k] + Concat(pieces[k + 1..])
    decreases k
  {
    if k == 0 {
      assert pieces[..0] == [];
    } else {
      var tail := pieces[1..];
      ConcatAround(tail, k - 1);
      assert tail[..k - 1] == pieces[1..k];
      assert tail[k..] == pieces[k + 1..];
      assert pieces[..k] == [pieces[0]] + pieces[1..k];
      assert Concat(pieces[..k]) == pieces[0] + Concat(pieces[1..k]) by {
        assert pieces[..k][1..] == pieces[1..k];
      }
    }
  }

  /** Piece k occurs in the concatenation at its offset. */
  lemma PieceOccurs(pieces: seq<string>, k: nat)
    requires k < |pieces|
    ensures OccursAt(Concat(pieces), pieces[k], Offset(pieces, k))
  {
    ConcatAround(pieces, k);
    var a := Concat(pieces[..k]);
    var b := Concat(pieces[k + 1..]);
    assert (a + pieces[k] + b)[|a|..|a| + |pieces[k]|] == pieces[k];
  }

  /** Pieces appear in list order: piece j ends no later than piece k starts. */
  lemma {:induction false} OffsetsOrdered(pieces: seq<string>, j: nat, k: nat)
    requires j < k <= |pieces|
    ensures Offset(pieces, j) + |pieces[j]| <= Offset(pieces, k)
    decreases k - j
  {
    if k == j + 1 {
      ConcatAround(pieces[..k], j);
      assert pieces[..k][..j] == pieces[..j];
    } else {
      OffsetsOrdered(pieces, j, k - 1);
      ConcatAround(pieces[..k], k - 1);
      assert pieces[..k][..k - 1] == pieces[..k - 1];
    }
  }

  /** The sections xs occur in p at the offsets at, one after the other without overlapping. */
  predicate InOrder(p: string, xs: seq<string>, at: seq<int>) {
    && |at| == |xs|
    && (forall k :: 0 <= k < |xs| ==> OccursAt(p, xs[k], at[k]))
    && (forall k :: 0 <= k < |xs| - 1 ==> at[k] + |xs[k]| <= at[k + 1])
  }

  /** Pieces picked in increasing list order occur in the concatenation, at their offsets, in that order. */
  lemma PicksInOrder(ps: seq<string>, ks: seq<nat>, xs: seq<string>, at: seq<int>)
    requires |xs| == |ks| == |at|
    requires forall k :: 0 <= k < |ks| ==> ks[k] < |ps| && ps[ks[k]] == xs[k] && at[k] == Offset(ps, ks[k])
    requires forall k :: 0 <= k < |ks| - 1 ==> ks[k] < ks[k + 1]
    ensures InOrder(Concat(ps), xs, at)
  {
    forall k | 0 <= k < |ks| ensures OccursAt(Concat(ps), xs[k], at[k]) {
      PieceOccurs(ps, ks[k]);
    }
    forall k | 0 <= k < |ks| - 1 ensures at[k] + |xs[k]| <= at[k + 1] {
      OffsetsOrdered(ps, ks[k], ks[k + 1]);
    }
  }

  /** Whatever the fixed prose, the sections of the layout occur in order. */
  lemma LayoutOrder(opening: string, guidance: string,
                    info: string, history: string, context: string, question: string)
    ensures exists at :: InOrder(Concat(Layout(opening, guidance, info, history, context, question)),
      [info, "<chat_history>", history, "<context>", context, "<question>", question, "Answer:"], at)
  {
    var ps := Layout(opening, guidance, info, history, context, question);
    var ks: seq<nat> := [1, 3, 5, 9, 11, 15, 17, 21];
    var xs := [info, "<chat_history>", history, "<context>", context, "<question>", question, "Answer:"];
    var at := [Offset(ps, 1), Offset(ps, 3), Offset(ps, 5), Offset(ps, 9),
               Offset(ps, 11), Offset(ps, 15), Offset(ps, 17), Offset(ps, 21)];
    PicksInOrder(ps, ks, xs, at);
  }

  /**
   * The prompt carries the business context, the chat history, the retrieved
   * context, the question verbatim and the "Answer:" cue, in that order, each
   * behind its tag.
   */
  lemma PromptOrder(info: string, history: string, context: string, question: string)
    ensures exists at :: InOrder(Template(info, history, context, question),
      [info, "<chat_history>", history, "<context>", context, "<question>", question, "Answer:"], at)
  {
    var opening, guidance := Indent + Preamble + Indent, "\n" + Indent + Guidance + "\n" + Indent;
    LayoutOrder(opening, guidance, info, history, context, question);
    assert Template(info, history, context, question) == Concat(Layout(opening, guidance, info, history, context, question));
  }

  /**
   * create_prompt: the window of the chat log and the retrieved context are put
   * into the template. Retrieval is outside any `try`, so its failure escapes.
   */
  function CreatePrompt(question: string, country: Option<string>, businessType: Option<string>,
                        messages: seq<Message>, services: Services): (r: Result<string, string>)
    ensures r.Err? <==> services.retrieve(question).Err?
    ensures r.Err? ==> r.error == services.retrieve(question).error
  {
    match services.retrieve(question)
    case Err(e) => Err(e)
    case Ok(context) =>
      Ok(Template(ContextInfo(country, businessType), services.showHistory(ChatHistory(messages)), context, question))
  }

  const ApologyHead: string := "I apologize, but I encountered an error: "
  const ApologyTail: string := ". Please try rephrasing your question."

  /** The text answer_question returns in place of a raised exception. */
  function Apology(detail: string): string {
    ApologyHead + detail + ApologyTail
  }

  /** The exception text inside an apology, or None for any other text. */
  function ApologyDetail(text: string): (d: Option<string>)
    ensures d.Some? ==> Apology(d.value) == text
  {
    if |text| >= |ApologyHead| + |ApologyTail| && text[..|ApologyHead|] == ApologyHead
       && text[|text| - |ApologyTail|..] == ApologyTail
    then
      var d := text[|ApologyHead|..|text| - |ApologyTail|];
      assert text == text[..|ApologyHead|] + d + text[|text| - |ApologyTail|..];
      Some(d)
    else None
  }

  /** The exception text can be read back out of the apology. */
  lemma ApologyRoundTrip(detail: string)
    ensures ApologyDetail(Apology(detail)) == Some(detail)
  {
    var t := Apology(detail);
    assert t[..|ApologyHead|] == ApologyHead;
    assert t[|t| - |ApologyTail|..] == ApologyTail;
    assert t[|ApologyHead|..|t| - |ApologyTail|] == detail;
  }

  /**
   * answer_question: the prompt is built and sent to the model inside one
   * `try`. It never fails: a failure of either step becomes the apology.
   */
  function AnswerQuestion(question: string, country: Option<string>, businessType: Option<string>,
                          messages: seq<Message>, services: Services): (answer: string)
  {
    match CreatePrompt(question, country, businessType, messages, services)
    case Err(e) => Apology(e)
    case Ok(prompt) =>
      match services.complete(ModelName, prompt)
      case Ok(response) => response
      case Err(e) => Apology(e)
  }

  /** A successful completion is returned unchanged; a failure of retrieval or completion gives the apology carrying its text. */
  lemma AnswerOutcome(question: string, country: Option<string>, businessType: Option<string>,
                      messages: seq<Message>, services: Services)
    ensures var answer := AnswerQuestion(question, country, businessType, messages, services);
      && (services.retrieve(question).Err? ==> answer == Apology(services.retrieve(question).error))
      && (services.retrieve(question).Ok? ==>
            var prompt := Template(ContextInfo(country, businessType), services.showHistory(ChatHistory(messages)),
                                   services.retrieve(question).value, question);
            && (services.complete(ModelName, prompt).Ok? ==> answer == services.complete(ModelName, prompt).value)
            && (services.complete(ModelName, prompt).Err? ==> answer == Apology(services.complete(ModelName, prompt).error)))
  {
  }

  /**
   * In the application the country and business type always come from the
   * sidebar's option lists, whose entries are non-empty: both lines are present.
   */
  lemma ContextInfoFromSidebar(country: string, businessType: string)
    requires country != [] && businessType != []
    ensures ContextInfo(Some(country), Some(businessType)) == "Country: " + country + "\nBusiness Type: " + businessType
  {
  }
}
