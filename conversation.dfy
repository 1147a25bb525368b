/**
 * The chat log kept in `st.session_state.messages`, and the sliding window
 * of it that get_chat_history hands to the prompt.
 */
module Conversation {

  datatype Role = User | Assistant

  /** One entry of the chat log: the dict with keys "role", "content" and "timestamp". */
  datatype Message = Message(role: Role, content: string, timestamp: string)

  /** SLIDE_WINDOW: the window spans this many messages, the newest of which is left out. */
  const SlideWindow: nat := 7

  /** The log without its newest message (the question that was just appended). */
  function Prior(messages: seq<Message>): (r: seq<Message>)
    ensures |messages| == 0 ==> r == []
    ensures |messages| > 0 ==> |r| == |messages| - 1 && r + [messages[|messages| - 1]] == messages
  {
    if |messages| == 0 then [] else messages[..|messages| - 1]
  }

  /** The newest n entries of a log, or the whole log when it is shorter. */
  function LastN(log: seq<Message>, n: nat): (r: seq<Message>)
    ensures |r| == if |log| < n then |log| else n
    ensures r == log[|log| - |r|..]
  {
    if |log| <= n then log else log[|log| - n..]
  }

  /**
   * What get_chat_history returns, stated independently of its loop: the newest
   * SlideWindow - 1 messages before the question.
   */
  function ChatHistory(messages: seq<Message>): seq<Message> {
    LastN(Prior(messages), SlideWindow - 1)
  }

  /**
   * get_chat_history: collect messages[i] for i in range(max(0, n - SLIDE_WINDOW), n - 1).
   * A `range` whose stop lies below its start is empty, which is what happens for n == 0.
   */
  method GetChatHistory(messages: seq<Message>) returns (history: seq<Message>)
    ensures history == ChatHistory(messages)
  {
    history := [];
    var n := |messages|;
    var start := if n - SlideWindow > 0 then n - SlideWindow else 0;
    var stop := n - 1;
    var i := start;
    while i < stop
      invariant start <= i
      invariant i <= stop || i == start
      invariant history == messages[start..i]
      decreases stop - i
    {
      history := history + [messages[i]];
      i := i + 1;
    }
    if n > 0 {
      assert i == stop;
    }
  }

  /** The window holds at most SLIDE_WINDOW - 1 = 6 messages, and exactly n - 1 of them while the log is short. */
  lemma HistoryBound(messages: seq<Message>)
    ensures |ChatHistory(messages)| <= SlideWindow - 1
    ensures 1 <= |messages| <= SlideWindow ==> |ChatHistory(messages)| == |messages| - 1
    ensures |messages| >= SlideWindow ==> |ChatHistory(messages)| == SlideWindow - 1
  {
  }

  /** With no earlier message, the window is empty. */
  lemma HistoryEmpty(messages: seq<Message>)
    ensures |messages| <= 1 <==> ChatHistory(messages) == []
  {
    if |messages| > 1 {
      assert |ChatHistory(messages)| >= 1;
    }
  }

  /**
   * The window is a contiguous run of the log, in the log's order, ending just
   * before the newest message: the newest message is never part of it.
   */
  lemma HistoryIsSlice(messages: seq<Message>)
    requires |messages| >= 1
    ensures var h := ChatHistory(messages);
      h == messages[|messages| - 1 - |h|..|messages| - 1]
  {
    var p := Prior(messages);
    assert p == messages[..|messages| - 1];
  }

  /**
   * The turn appends the question q to the log and then builds the window: the
   * window is the newest six messages that came before q.
   */
  lemma HistoryBeforeQuestion(log: seq<Message>, q: Message)
    ensures ChatHistory(log + [q]) == LastN(log, SlideWindow - 1)
  {
    assert Prior(log + [q]) == log;
  }
}
