# Business Setup Assistant: a Dafny model of its logic

The application is a Streamlit chat page. A user picks a country and a
business type in the sidebar, then asks questions about setting up a
business there. Each question goes through these steps:

1. The question is appended to the chat log in `st.session_state`.
2. A prompt is built from the sidebar context, a sliding window of the log,
   and document chunks retrieved from a Snowflake table.
3. The prompt is sent to a hosted language model. An exception that escapes
   retrieval, or one raised by the model call, becomes an apology text. A
   failing table query is not such an exception. `get_similar_chunks` catches
   it (`streamlit_app.py:65-67`), shows an inline error and returns an empty
   frame, so the turn goes on with that empty frame's text as its context.
4. The answer is normalised as Markdown, paragraph by paragraph.
5. The answer is typed out word by word, and the typed text is appended to the
   log as the assistant's message.

Thumbs-up and thumbs-down buttons under each assistant message record ratings
by message index. A clear button empties the log.

The model covers the logic of `streamlit_app.py` around those two remote
services:

| Module | What it models |
|---|---|
| `Text` | The parts of Python's `str` that the application uses: `split`, `join`, `rstrip`, and the whitespace class. |
| `Markdown` | `format_markdown`. Each of its four `re.sub` calls is a left-to-right scan with the pattern's exact matching rules: greedy `\s+` and `.+` with backtracking, the lazy `.+?`, and MULTILINE `^`. |
| `Conversation` | The message record and the sliding window of `get_chat_history`. |
| `Prompt` | `context_info`, the prompt template, `create_prompt`, and the fallback in `answer_question`. The retrieval service, the model service and the list repr of the history are function parameters. |
| `Typewriter` | `stream_response` as a method with the same nested loops. It returns the text and every value the placeholder showed. |
| `Session` | `st.session_state` as a map from key to value. There is one function per state change, and a `SessionState` class whose methods make the change in place the way `main` does. |

Every method is proved against a function that states its result. The
properties below are proved about those functions.

In three places the code does something other than what the assistant is
meant to do. The model follows the code:

- **Clear keeps feedback.** Clearing the conversation is meant to reset the
  ratings along with the messages. The handler at `streamlit_app.py:246-249`
  only resets `messages` and `conversation_id`. Ratings therefore survive a
  clear and refer to messages that no longer exist
  (`Session.ClearLeavesStaleFeedback`).
- **The history window holds six messages, not seven.** The prompt is meant
  to carry the last `min(7, n - 1)` messages before the question, with
  `SLIDE_WINDOW = 7`. The range at `streamlit_app.py:73-74` starts at
  `n - 7` and stops before `n - 1`, so it carries at most six
  (`Conversation.HistoryBound`).
- **The stored answer differs from the formatted answer.** The typewriter
  effect is meant to leave exactly the formatted text behind. The code
  appends `" "` after every word, including the last word of each
  paragraph. The text returned is
  therefore each formatted paragraph followed by one space, the paragraphs
  joined by `"\n\n"`, and trailing whitespace stripped
  (`Typewriter.StreamedShape`). For example, `"a\n\nb"` is stored as
  `"a \n\nb"` (`Typewriter.StreamedAddsSpace`).

## Model

| member | source | states |
|---|---|---|
| Conversation.GetChatHistory | streamlit_app.py:70-76 | The loop over `range(max(0, n - 7), n - 1)` returns `ChatHistory`: the newest `SLIDE_WINDOW - 1` messages before the last one, in log order. For an empty log the range is empty. |
| Conversation.HistoryBound | streamlit_app.py:73-75 | The window holds at most 6 messages. It holds exactly `n - 1` when `1 <= n <= 7`, and exactly 6 when `n >= 7`. |
| Conversation.HistoryEmpty | streamlit_app.py:73-75 | The window is empty if and only if the log has at most one message. |
| Conversation.HistoryIsSlice | streamlit_app.py:73-75 | The window is the contiguous slice of the log that ends just before the newest message. The newest message is never in it. |
| Conversation.HistoryBeforeQuestion | streamlit_app.py:276-280 | After the question is appended, the window is the newest six messages that came before the question. |
| Prompt.NonEmpty | streamlit_app.py:84-87 | `filter(None, ...)` yields exactly the non-empty strings of its input: a string is in the result if and only if it is in the input and non-empty. |
| Prompt.NonEmptyConcat | streamlit_app.py:84-87 | Filtering a concatenation is the concatenation of the filtered parts, so the kept strings stay in input order. |
| Prompt.ContextInfo | streamlit_app.py:84-87 | In all four cases of which value is truthy: the result is `"Country: c"` and `"Business Type: b"` joined by one `"\n"`, or the single line whose value is truthy, or `""` when neither is. |
| Prompt.ContextInfoFromSidebar | streamlit_app.py:224-243 | With values taken from the sidebar lists, which are non-empty, both lines are present. |
| Prompt.PromptOrder | streamlit_app.py:89-110 | The prompt contains context_info, `<chat_history>`, the history, `<context>`, the retrieved context, `<question>`, the question verbatim, and `Answer:`, in that order and without overlapping. |
| Prompt.CreatePrompt | streamlit_app.py:79-111 | Building the prompt fails exactly when an exception escapes retrieval, and then with that exception's text. A table query that `get_similar_chunks` catches itself is a successful retrieval of the empty frame's text. |
| Prompt.ApologyDetail | streamlit_app.py:168 | When it reads an exception text out of an answer, the apology for that text is exactly the answer. |
| Prompt.ApologyRoundTrip | streamlit_app.py:168 | The exception text can always be read back out of the apology. The apology is the fixed head, the text, and the fixed tail. |
| Prompt.AnswerOutcome | streamlit_app.py:161-169 | `answer_question` always returns a string. An exception escaping retrieval gives the apology with that exception's text. A successful completion of the template prompt with `mistral-large2` is returned unchanged. A failed completion gives the apology with the completion's error. |
| Markdown.FormatMarkdownParagraphs | streamlit_app.py:117-132 | Splitting the output on `"\n\n"` gives the input's paragraphs, each rewritten by the loop and in their order. So the output has exactly as many paragraphs as the input. |
| Markdown.FormatParagraphKeepsParagraph | streamlit_app.py:122-128 | The rewrites never create a `"\n\n"` inside a paragraph. They never make a paragraph end with a newline that it did not already end with. |
| Markdown.SubKeepsParagraph | streamlit_app.py:122-128 | One rewrite applied from any position keeps a paragraph free of `"\n\n"`. It is the inductive step of the paragraph count. |
| Markdown.ReplacementClean | streamlit_app.py:122-128 | Every replacement is non-empty and contains no newline, because `.` never matches `'\n'`. |
| Markdown.HeaderMatch | streamlit_app.py:122 | `###`, whitespace, and then a character that is not whitespace: the pattern matches up to the end of the line, with replacement `"### "` and the rest of the line. |
| Markdown.HeaderCollapsesSpace | streamlit_app.py:122 | The same case, for the whole `re.sub` from that position: it emits `"### "` and the line's rest, then continues after the line. |
| Markdown.BulletMatch | streamlit_app.py:124 | At a line start, `*`, whitespace, and then a character that is not whitespace: the match is rewritten to `"* "` and the rest of the line. |
| Markdown.BulletNormalised | streamlit_app.py:124 | The same case, for the whole `re.sub` from that position. |
| Markdown.NumberedLead | streamlit_app.py:126 | At a line start, after one or more digits and a `.`, the numbered pattern behaves exactly like a rewrite to `"1. "` of what follows the dot. |
| Markdown.NumberedMatch | streamlit_app.py:126 | A line of the form `<digits>.<whitespace><rest>` is matched up to its end and rewritten to `"1. <rest>"`. |
| Markdown.NumberedRenumbered | streamlit_app.py:126 | The same case, for the whole `re.sub` from that position. |
| Markdown.BoldMatchIsText | streamlit_app.py:128 | Every bold match is replaced by exactly the text it matched. |
| Markdown.BoldIsIdentity | streamlit_app.py:128 | The bold rewrite leaves every text unchanged. |
| Markdown.FormatParagraphWithoutBold | streamlit_app.py:122-128 | Formatting a paragraph is the header, bullet and numbered rewrites alone. |
| Text.JoinSplit | streamlit_app.py:117-132 | Joining the pieces of a split with the same separator gives back the text. |
| Text.SplitJoin | streamlit_app.py:117-132 | Splitting a join on `"\n\n"` gives back the pieces, when no piece contains `"\n\n"` and no piece but the last ends with a newline. |
| Text.SplitParagraphs | streamlit_app.py:117 | The pieces of a split on `"\n\n"` contain no `"\n\n"`, and every piece but the last does not end with a newline. |
| Text.RStrip | streamlit_app.py:158-159 | `rstrip()` returns a prefix of its input. It does not end in whitespace, and everything it removed is whitespace. |
| Text.RStripIgnoresTrailingSpace | streamlit_app.py:158-159 | Appending whitespace does not change the result of `rstrip()`. |
| Typewriter.StreamResponse | streamlit_app.py:135-159 | The nested loops return `StreamedText(response)`, the right-stripped accumulated text. The last frame shown, right-stripped, is that text. Every frame shown is a prefix of every later frame. |
| Typewriter.TypeWords | streamlit_app.py:145-149 | The inner loop appends each word followed by a space and shows the text after every word. The text grows by exactly `TypedWords(words)`, the frames stay growing, and the last frame is the current text. |
| Typewriter.TypedWordsJoin | streamlit_app.py:145-147 | The inner loop appends the words joined by single spaces, plus one trailing space. |
| Typewriter.TypedParagraph | streamlit_app.py:145-147 | Typing a paragraph word by word gives the paragraph followed by one space. |
| Typewriter.TypedIsJoin | streamlit_app.py:144-155 | After the outer loop, the text is every paragraph followed by `" "`, joined by `"\n\n"`, with a final `"\n\n"`. |
| Typewriter.StreamedShape | streamlit_app.py:138-159 | The returned text is the formatted paragraphs, each followed by one space, joined by `"\n\n"`, and right-stripped. |
| Typewriter.StreamedSingle | streamlit_app.py:138-159 | A response without `"\n\n"` streams to its formatted text, right-stripped. |
| Typewriter.StreamedEmpty | streamlit_app.py:138-159 | The empty response streams to the empty text. |
| Typewriter.StreamedAddsSpace | streamlit_app.py:138-159 | `"a\n\nb"` formats to itself but streams to `"a \n\nb"`, so the stored text is not the formatted text. |
| Session.InitKeepsExisting | streamlit_app.py:46-48 | Init never overwrites or removes a key that is present. |
| Session.InitAddsDefaults | streamlit_app.py:37-48 | After init all six default keys are present. Every key init adds is a default key and holds its default. |
| Session.InitIdempotent | streamlit_app.py:46-48 | Running init twice, even at different times, leaves the same state as running it once. |
| Session.InitReady | streamlit_app.py:37-48 | Starting from values of the right kinds, init leaves a chat log under `messages` and a rating map under `feedback`. |
| Session.ClearFrame | streamlit_app.py:246-249 | Clearing sets `messages` to `[]` and `conversation_id` to the new time. Every other key, including `feedback`, the sidebar keys and `theme`, keeps its value. |
| Session.TurnInTwoSteps | streamlit_app.py:276-302 | Appending the question and then the reply, in two separate writes, gives the state of the turn. |
| Session.TurnAppends | streamlit_app.py:276-302 | A chat turn adds exactly two messages: the user's question and then the assistant's reply. Earlier messages and every other key are unchanged. |
| Session.FreshSessionConsistent | streamlit_app.py:37-48 | In a fresh session, every rating is under an assistant message, because there are none. |
| Session.ClickKeepsFeedbackOnAssistant | streamlit_app.py:190-201 | Recording a click keeps every rating under an assistant message, because buttons appear only under assistant messages. |
| Session.TurnKeepsFeedbackOnAssistant | streamlit_app.py:276-302 | A chat turn keeps every rating under an assistant message, because it only appends. |
| Session.ClearLeavesStaleFeedback | streamlit_app.py:246-249 | Once any answer has been rated, clearing leaves a rating that refers to no message. |
| Session.SelectIndex | streamlit_app.py:231-232 | The default index is the first position of the stored value when the value is in the list, and 0 otherwise. |
| Session.FirstIndex | streamlit_app.py:231-232 | `list.index(v)` gives the first position at which `v` occurs. |
| Session.SidebarDefaults | streamlit_app.py:228-243 | While neither sidebar key holds a value, init leaves `None` in both, and both selectboxes open at index 0. |
| Session.RunKeepsSidebar | streamlit_app.py:204-302 | A run of `main` writes only `messages`, `conversation_id` and `feedback`. It leaves `selected_country`, `business_type` and `theme` as init left them. |
| Session.Runs | streamlit_app.py:204-302 | A session of reruns, one per input. After at least one run, the state holds a chat log and a rating map. |
| Session.RunsKeepSidebarUnset | streamlit_app.py:204-302 | However many runs follow, no run gives either sidebar key a value. |
| Session.SidebarDefaultsEveryRun | streamlit_app.py:228-243 | In every run of a session that started empty, however many runs came before, both selectboxes open at index 0. |
| Session.RunReady | streamlit_app.py:204-302 | Every run leaves a chat log under `messages` and a rating map under `feedback`, whichever branch it takes. |
| Session.ChatStoreFrame | streamlit_app.py:274-302 | The chat-input branch changes only the chat log. |
| Session.RunKeepsFeedbackOnAssistant | streamlit_app.py:204-302 | A run without the clear button keeps every rating under an assistant message. Init keeps the log and the ratings, and the click and the turn each keep the invariant. |
| Session.SessionState.InitSessionState | streamlit_app.py:35-48 | The loop over the defaults leaves `InitStore` of the old state. |
| Session.SessionState.ClearConversation | streamlit_app.py:246-249 | The handler leaves `ClearStore` of the old state. |
| Session.SessionState.DisplayFeedbackButtons | streamlit_app.py:172-187 | A click on this message's button records its rating at this index. Without such a click nothing changes. |
| Session.SessionState.DisplayChatInterface | streamlit_app.py:190-201 | The loop over the log leaves `RecordClick` of the old state. A click is recorded only when it is under an assistant message. |
| Session.SessionState.ChatTurn | streamlit_app.py:274-302 | A falsy input changes nothing. Otherwise the turn appends the question, then the streamed form of the answer to the log that already holds the question. |
| Session.SessionState.Run | streamlit_app.py:204-302 | One run of `main`: init, then either the clear, or the feedback buttons followed by the chat input. The result is `RunStore` of the old state. |

## Left out

- `get_similar_chunks` (`streamlit_app.py:51-67`) is the `retrieve` service parameter, together with `DataFrame.to_string`. This covers the Snowpark query, its `LIKE` filter built from the question, `NUM_CHUNKS`, the `st.cache_data` memoisation, and its own fallback to an empty frame. A caught query failure is an `Ok` of the empty frame's text. Only an exception that escapes, such as one from `conn.session()` at `streamlit_app.py:54`, is an `Err`. It is remote I/O.
- The `Complete` call is the `complete` service parameter. It is a hosted model.
- The Python `repr` of the history list is the `showHistory` parameter. It is library formatting.
- `datetime.now()` readings are string parameters: `now`, `clearTime`, `userTime` and `assistantTime`. They are clock readings.
- Rendering is not modelled: page config, CSS, chat bubbles, captions, the welcome text, toasts, the spinner and `st.error`. It does not change the state. `st.rerun()` after a clear is modelled as the end of the run.
- The pauses in `stream_response` and the `"▌"` cursor are not modelled. The frames are the successive values of `current_text` without the cursor.
- The selectbox widgets are not modelled. Their current values are inputs of a run. Only the default-index rule is modelled.
- Only one feedback click per run is modelled. Streamlit reports at most one button press per rerun.
- Markdown.IsDigit: `\d` is restricted to ASCII digits. Python also matches other Unicode decimal digits.
- Exceptions other than those of the two services are not modelled: a missing session key, or a failure of the widgets. The script never handles them.
- Python's `str.split(' ')`, `join` and `rstrip` are modelled on `seq<char>`. There is no Unicode normalisation.
