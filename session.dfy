/**
 * `st.session_state` and the changes the application makes to it: the
 * defaults set on every run, the clear button, the feedback buttons under
 * assistant messages, and a chat turn that appends a question and its answer.
 *
 * Each change is a function on the key-value store, and the SessionState
 * class applies it in place the way the script does.
 */
module Session {
  import opened Wrappers
  import opened Conversation
  import opened Prompt
  import opened Typewriter

  /** A feedback value: "positive" from the thumbs-up button, "negative" from thumbs-down. */
  datatype Rating = Positive | Negative

  /** A value the application keeps in session state. */
  datatype Value =
    | Log(messages: seq<Message>)
    | Str(text: string)
    | Ratings(ratings: map<nat, Rating>)
    | Nothing

  type Store = map<string, Value>

  /** The keys of init_session_state's defaults, in the order it visits them. */
  const DefaultKeys: seq<string> :=
    ["messages", "conversation_id", "feedback", "selected_country", "business_type", "theme"]

  /** The default for a key; `now` is the formatted time that becomes the conversation id. */
  function Default(key: string, now: string): Value {
    if key == "messages" then Log([])
    else if key == "conversation_id" then Str(now)
    else if key == "feedback" then Ratings(map[])
    else if key == "theme" then Str("light")
    else Nothing
  }

  /** What init_session_state leaves: the old values, plus a default for each default key that was missing. */
  function InitStore(store: Store, now: string): Store {
    map k | k in store.Keys + (set d | d in DefaultKeys) :: if k in store then store[k] else Default(k, now)
  }

  /** A store with exactly init's keys and values is InitStore. */
  lemma InitStoreIs(result: Store, store: Store, now: string)
    requires forall k :: k in result <==> k in store || k in DefaultKeys
    requires forall k :: k in result ==> result[k] == if k in store then store[k] else Default(k, now)
    ensures result == InitStore(store, now)
  {
    assert result.Keys == InitStore(store, now).Keys;
  }

  /** Init never changes a value that is already there. */
  lemma InitKeepsExisting(store: Store, now: string)
    ensures forall k :: k in store ==> k in InitStore(store, now) && InitStore(store, now)[k] == store[k]
  {
  }

  /** After init every default key is present, holding its default when it was missing; no other key appears. */
  lemma InitAddsDefaults(store: Store, now: string)
    ensures forall i :: 0 <= i < |DefaultKeys| ==> DefaultKeys[i] in InitStore(store, now)
    ensures forall k :: k in InitStore(store, now) && k !in store ==> k in DefaultKeys && InitStore(store, now)[k] == Default(k, now)
  {
  }

  /** Running init again changes nothing, whatever the time. */
  lemma InitIdempotent(store: Store, now: string, later: string)
    ensures InitStore(InitStore(store, now), later) == InitStore(store, now)
  {
    var once := InitStore(store, now);
    assert InitStore(once, later).Keys == once.Keys;
  }

  /** The keys hold values of the types the application gives them. */
  predicate WellTyped(store: Store) {
    && ("messages" in store ==> store["messages"].Log?)
    && ("feedback" in store ==> store["feedback"].Ratings?)
  }

  /** The chat log and the feedback dict are there: the state main works on after init. */
  predicate Ready(store: Store) {
    && "messages" in store && store["messages"].Log?
    && "feedback" in store && store["feedback"].Ratings?
  }

  /** Init makes a well-typed state ready for the rest of main. */
  lemma InitReady(store: Store, now: string)
    requires WellTyped(store)
    ensures Ready(InitStore(store, now))
  {
    assert DefaultKeys[0] == "messages" && DefaultKeys[2] == "feedback";
  }

  function Messages(store: Store): seq<Message>
    requires Ready(store)
  {
    store["messages"].messages
  }

  function Feedback(store: Store): map<nat, Rating>
    requires Ready(store)
  {
    store["feedback"].ratings
  }

  /** The clear button: an empty chat log and a new conversation id; nothing else is touched. */
  function ClearStore(store: Store, now: string): Store {
    store["messages" := Log([])]["conversation_id" := Str(now)]
  }

  /**
   * Clearing empties the log and renews the id; feedback, the country and
   * business type, and the theme keep their values, and so does every other key.
   */
  lemma ClearFrame(store: Store, now: string)
    ensures var c := ClearStore(store, now);
      && c.Keys == store.Keys + {"messages", "conversation_id"}
      && c["messages"] == Log([]) && c["conversation_id"] == Str(now)
      && (forall k :: k in store && k != "messages" && k != "conversation_id" ==> c[k] == store[k])
  {
  }

  /** A press of one feedback button: the message index it sits under and the rating it records. */
  datatype Click = Click(index: nat, rating: Rating)

  /** Buttons are shown only under assistant messages, so only a click there records anything. */
  predicate OnAssistant(log: seq<Message>, index: nat) {
    index < |log| && log[index].role == Assistant
  }

  /** display_chat_interface with the click of this run, if any. */
  function RecordClick(store: Store, click: Option<Click>): Store
    requires Ready(store)
  {
    if click.Some? && OnAssistant(Messages(store), click.value.index) then
      store["feedback" := Ratings(Feedback(store)[click.value.index := click.value.rating])]
    else store
  }

  /** The content of the assistant message for a question: the streamed form of answer_question's reply. */
  function Reply(question: string, country: string, businessType: string, log: seq<Message>, services: Services): string {
    StreamedText(AnswerQuestion(question, Some(country), Some(businessType), log, services))
  }

  /** A chat turn: the user's question, then the assistant's reply, appended to the log. */
  function TurnStore(store: Store, question: string, reply: string, userTime: string, assistantTime: string): Store
    requires Ready(store)
  {
    store["messages" := Log(Messages(store) + [Message(User, question, userTime), Message(Assistant, reply, assistantTime)])]
  }

  /** Appending the question and then the reply, as main does, is the turn. */
  lemma TurnInTwoSteps(store: Store, question: string, reply: string, userTime: string, assistantTime: string)
    requires Ready(store)
    ensures var asked := store["messages" := Log(Messages(store) + [Message(User, question, userTime)])];
      asked["messages" := Log(Messages(asked) + [Message(Assistant, reply, assistantTime)])]
        == TurnStore(store, question, reply, userTime, assistantTime)
  {
    var u, a := Message(User, question, userTime), Message(Assistant, reply, assistantTime);
    assert Messages(store) + [u] + [a] == Messages(store) + [u, a];
  }

  /**
   * A turn adds exactly two messages, the question and then the reply, and
   * keeps the earlier ones and every other key as they were.
   */
  lemma TurnAppends(store: Store, question: string, reply: string, userTime: string, assistantTime: string)
    requires Ready(store)
    ensures var t := TurnStore(store, question, reply, userTime, assistantTime);
      && Ready(t)
      && |Messages(t)| == |Messages(store)| + 2
      && Messages(t)[..|Messages(store)|] == Messages(store)
      && Messages(t)[|Messages(store)|] == Message(User, question, userTime)
      && Messages(t)[|Messages(store)| + 1] == Message(Assistant, reply, assistantTime)
      && t.Keys == store.Keys
      && (forall k :: k in store && k != "messages" ==> t[k] == store[k])
  {
  }

  /** Every feedback entry sits under an assistant message of the log. */
  predicate FeedbackOnAssistant(store: Store) {
    Ready(store) && forall i :: i in Feedback(store) ==> OnAssistant(Messages(store), i)
  }

  /** A fresh session satisfies it. */
  lemma FreshSessionConsistent(now: string)
    ensures FeedbackOnAssistant(InitStore(map[], now))
  {
    InitReady(map[], now);
    assert Feedback(InitStore(map[], now)) == map[];
  }

  /** Recording a click keeps it. */
  lemma ClickKeepsFeedbackOnAssistant(store: Store, click: Option<Click>)
    requires FeedbackOnAssistant(store)
    ensures FeedbackOnAssistant(RecordClick(store, click))
  {
  }

  /** A chat turn keeps it: it only appends messages. */
  lemma TurnKeepsFeedbackOnAssistant(store: Store, question: string, reply: string, userTime: string, assistantTime: string)
    requires FeedbackOnAssistant(store)
    ensures FeedbackOnAssistant(TurnStore(store, question, reply, userTime, assistantTime))
  {
    var t := TurnStore(store, question, reply, userTime, assistantTime);
    assert Feedback(t) == Feedback(store);
    forall i | i in Feedback(t) ensures OnAssistant(Messages(t), i) {
      assert OnAssistant(Messages(store), i);
      assert Messages(t)[i] == Messages(store)[i];
    }
  }

  /**
   * Clearing breaks it: feedback survives the clear, so as soon as any answer
   * was rated, the ratings point past the end of the emptied log.
   */
  lemma ClearLeavesStaleFeedback(store: Store, now: string)
    requires FeedbackOnAssistant(store) && Feedback(store) != map[]
    ensures Ready(ClearStore(store, now)) && !FeedbackOnAssistant(ClearStore(store, now))
  {
    var i :| i in Feedback(store);
    assert i in Feedback(ClearStore(store, now));
  }

  /** The sidebar's country options. */
  const Countries: seq<string> :=
    ["India", "United States", "United Kingdom", "Singapore", "Spain", "Philippines", "Russia", "Other"]

  /** The sidebar's business type options. */
  const BusinessTypes: seq<string> := ["LLC", "Corporation", "Sole Proprietorship", "Partnership", "Other"]

  /** `options.index(v) if v in options else 0`: the selectbox's preselected entry. */
  function SelectIndex(options: seq<string>, current: Value): (i: nat)
    ensures current.Str? && current.text in options ==>
      i < |options| && options[i] == current.text && forall j :: 0 <= j < i ==> options[j] != current.text
    ensures !(current.Str? && current.text in options) ==> i == 0
  {
    if current.Str? && current.text in options then FirstIndex(options, current.text) else 0
  }

  /** `list.index(v)`: the first position of v. */
  function FirstIndex(options: seq<string>, v: string): (i: nat)
    requires v in options
    ensures i < |options| && options[i] == v && forall j :: 0 <= j < i ==> options[j] != v
  {
    if options[0] == v then 0 else 1 + FirstIndex(options[1..], v)
  }

  /** Neither sidebar key holds a value: each is missing or holds None. */
  predicate SidebarUnset(store: Store) {
    && ("selected_country" !in store || store["selected_country"] == Nothing)
    && ("business_type" !in store || store["business_type"] == Nothing)
  }

  /**
   * While neither sidebar key holds a value, init leaves None in both and
   * both selectboxes preselect their first entry.
   */
  lemma SidebarDefaults(store: Store, now: string)
    requires SidebarUnset(store)
    ensures "selected_country" in InitStore(store, now) && "business_type" in InitStore(store, now)
    ensures SelectIndex(Countries, InitStore(store, now)["selected_country"]) == 0
    ensures SelectIndex(BusinessTypes, InitStore(store, now)["business_type"]) == 0
  {
    assert DefaultKeys[3] == "selected_country" && DefaultKeys[4] == "business_type";
  }

  /** What one run of main receives from outside: the widgets' values and the clock readings. */
  datatype RunInput = RunInput(
    now: string,
    clearPressed: bool,
    clearTime: string,
    click: Option<Click>,
    chat: Option<string>,
    country: string,
    businessType: string,
    userTime: string,
    assistantTime: string)

  /** The state after one run of main. */
  function RunStore(store: Store, input: RunInput, services: Services): Store
    requires WellTyped(store)
  {
    InitReady(store, input.now);
    var s := InitStore(store, input.now);
    if input.clearPressed then ClearStore(s, input.clearTime)
    else ChatStore(RecordClick(s, input.click), input, services)
  }

  /** The chat-input branch of a run: a truthy input is asked and answered. */
  function ChatStore(store: Store, input: RunInput, services: Services): Store
    requires Ready(store)
  {
    if Truthy(input.chat) then
      var q := input.chat.value;
      var log := Messages(store) + [Message(User, q, input.userTime)];
      TurnStore(store, q, Reply(q, input.country, input.businessType, log, services), input.userTime, input.assistantTime)
    else store
  }

  /** The chat-input branch changes only the chat log. */
  lemma ChatStoreFrame(store: Store, input: RunInput, services: Services)
    requires Ready(store)
    ensures var c := ChatStore(store, input, services);
      && Ready(c) && c.Keys == store.Keys
      && (forall k :: k in store && k != "messages" ==> c[k] == store[k])
  {
  }

  /** A run leaves a chat log and a feedback dict behind, whichever branch it takes. */
  lemma RunReady(store: Store, input: RunInput, services: Services)
    requires WellTyped(store)
    ensures Ready(RunStore(store, input, services))
  {
    InitReady(store, input.now);
    var s := InitStore(store, input.now);
    if input.clearPressed {
      ClearFrame(s, input.clearTime);
    } else {
      ChatStoreFrame(RecordClick(s, input.click), input, services);
    }
  }

  /**
   * The script writes only "messages", "conversation_id" and "feedback": a
   * run leaves the sidebar keys and the theme as init left them.
   */
  lemma RunKeepsSidebar(store: Store, input: RunInput, services: Services)
    requires WellTyped(store)
    ensures var s, r := InitStore(store, input.now), RunStore(store, input, services);
      && "selected_country" in s && "business_type" in s && "theme" in s
      && "selected_country" in r && "business_type" in r && "theme" in r
      && r["selected_country"] == s["selected_country"]
      && r["business_type"] == s["business_type"]
      && r["theme"] == s["theme"]
  {
    assert DefaultKeys[3] == "selected_country" && DefaultKeys[4] == "business_type" && DefaultKeys[5] == "theme";
    InitReady(store, input.now);
    var s := InitStore(store, input.now);
    if input.clearPressed {
      ClearFrame(s, input.clearTime);
    } else {
      var c := RecordClick(s, input.click);
      assert c.Keys == s.Keys && forall k :: k in s && k != "feedback" ==> c[k] == s[k];
      ChatStoreFrame(c, input, services);
    }
  }

  /** The state after a sequence of runs of main, one per input. */
  function Runs(store: Store, inputs: seq<RunInput>, services: Services): (r: Store)
    requires WellTyped(store)
    ensures Ready(r) || (inputs == [] && r == store)
    decreases |inputs|
  {
    if inputs == [] then store
    else
      RunReady(store, inputs[0], services);
      Runs(RunStore(store, inputs[0], services), inputs[1..], services)
  }

  /** No run ever gives the sidebar keys a value. */
  lemma {:induction false} RunsKeepSidebarUnset(store: Store, inputs: seq<RunInput>, services: Services)
    requires WellTyped(store) && SidebarUnset(store)
    ensures SidebarUnset(Runs(store, inputs, services))
    decreases |inputs|
  {
    if inputs != [] {
      var input := inputs[0];
      RunKeepsSidebar(store, input, services);
      RunReady(store, input, services);
      assert DefaultKeys[3] == "selected_country" && DefaultKeys[4] == "business_type";
      RunsKeepSidebarUnset(RunStore(store, input, services), inputs[1..], services);
    }
  }

  /**
   * In every run of a session, however many runs came before, both
   * selectboxes preselect their first entry.
   */
  lemma SidebarDefaultsEveryRun(inputs: seq<RunInput>, services: Services, now: string)
    ensures var s := InitStore(Runs(map[], inputs, services), now);
      && "selected_country" in s && "business_type" in s
      && SelectIndex(Countries, s["selected_country"]) == 0
      && SelectIndex(BusinessTypes, s["business_type"]) == 0
  {
    RunsKeepSidebarUnset(map[], inputs, services);
    SidebarDefaults(Runs(map[], inputs, services), now);
  }

  /**
   * A run without the clear button keeps every rating under an assistant
   * message: init keeps the log and the ratings, and the click and the turn
   * keep the invariant.
   */
  lemma RunKeepsFeedbackOnAssistant(store: Store, input: RunInput, services: Services)
    requires FeedbackOnAssistant(store) && !input.clearPressed
    ensures FeedbackOnAssistant(RunStore(store, input, services))
  {
    var s := InitStore(store, input.now);
    InitKeepsExisting(store, input.now);
    assert Messages(s) == Messages(store) && Feedback(s) == Feedback(store);
    var s' := RecordClick(s, input.click);
    ClickKeepsFeedbackOnAssistant(s, input.click);
    if Truthy(input.chat) {
      var q := input.chat.value;
      var log := Messages(s') + [Message(User, q, input.userTime)];
      TurnKeepsFeedbackOnAssistant(s', q, Reply(q, input.country, input.businessType, log, services),
                                   input.userTime, input.assistantTime);
    }
    assert RunStore(store, input, services) == ChatStore(s', input, services);
  }

  class SessionState {
    var store: Store

    /** A new browser session starts with an empty state. */
    constructor ()
      ensures store == map[]
    {
      store := map[];
    }

    /** init_session_state: set the default of each missing key. */
    method InitSessionState(now: string)
      modifies this
      ensures store == InitStore(old(store), now)
    {
      var i := 0;
      while i < |DefaultKeys|
        invariant i <= |DefaultKeys|
        invariant forall k :: k in store <==> k in old(store) || k in DefaultKeys[..i]
        invariant forall k :: k in store ==> store[k] == if k in old(store) then old(store)[k] else Default(k, now)
      {
        var key := DefaultKeys[i];
        if key !in store {
          store := store[key := Default(key, now)];
        }
        assert DefaultKeys[..i + 1] == DefaultKeys[..i] + [key];
        i := i + 1;
      }
      assert DefaultKeys[..i] == DefaultKeys;
      InitStoreIs(store, old(store), now);
    }

    /** The clear button's handler, before st.rerun() ends the run. */
    method ClearConversation(now: string)
      modifies this
      ensures store == ClearStore(old(store), now)
    {
      store := store["messages" := Log([])];
      store := store["conversation_id" := Str(now)];
    }

    /** display_feedback_buttons for the message at index: a click on either button records its rating. */
    method DisplayFeedbackButtons(index: nat, click: Option<Click>)
      requires Ready(store)
      modifies this
      ensures click.Some? && click.value.index == index ==>
        store == old(store)["feedback" := Ratings(Feedback(old(store))[index := click.value.rating])]
      ensures !(click.Some? && click.value.index == index) ==> store == old(store)
    {
      if click.Some? && click.value.index == index {
        var ratings := Feedback(store);
        store := store["feedback" := Ratings(ratings[index := click.value.rating])];
      }
    }

    /** display_chat_interface: walk the log and show the feedback buttons under each assistant message. */
    method DisplayChatInterface(click: Option<Click>)
      requires Ready(store)
      modifies this
      ensures store == RecordClick(old(store), click)
    {
      var log := Messages(store);
      var idx := 0;
      while idx < |log|
        invariant idx <= |log|
        invariant log == Messages(old(store))
        invariant store == if click.Some? && click.value.index < idx && OnAssistant(log, click.value.index)
                           then RecordClick(old(store), click) else old(store)
      {
        if log[idx].role == Assistant {
          DisplayFeedbackButtons(idx, click);
        }
        idx := idx + 1;
      }
    }

    /**
     * The chat-input branch of main: append the question, answer it, stream the
     * answer and append what was streamed. A falsy input does nothing.
     */
    method ChatTurn(chat: Option<string>, country: string, businessType: string, services: Services,
                    userTime: string, assistantTime: string)
      requires Ready(store)
      modifies this
      ensures !Truthy(chat) ==> store == old(store)
      ensures Truthy(chat) ==>
        var log := Messages(old(store)) + [Message(User, chat.value, userTime)];
        store == TurnStore(old(store), chat.value, Reply(chat.value, country, businessType, log, services), userTime, assistantTime)
    {
      if Truthy(chat) {
        var question := chat.value;
        ghost var before := store;
        var log := Messages(store) + [Message(User, question, userTime)];
        store := store["messages" := Log(log)];
        var response := AnswerQuestion(question, Some(country), Some(businessType), log, services);
        var reply, frames := StreamResponse(response);
        assert reply == Reply(question, country, businessType, log, services);
        TurnInTwoSteps(before, question, reply, userTime, assistantTime);
        store := store["messages" := Log(Messages(store) + [Message(Assistant, reply, assistantTime)])];
      }
    }

    /** One run of main: init, then either the clear button or the feedback buttons and the chat input. */
    method Run(input: RunInput, services: Services)
      requires WellTyped(store)
      modifies this
      ensures store == RunStore(old(store), input, services)
    {
      InitSessionState(input.now);
      InitReady(old(store), input.now);
      if input.clearPressed {
        ClearConversation(input.clearTime);
        return;
      }
      DisplayChatInterface(input.click);
      ChatTurn(input.chat, input.country, input.businessType, services, input.userTime, input.assistantTime);
    }
  }
}
