/**
 * The widget and the route together, handlers running one after the other: each client request is
 * answered by the store, and the answer is read back the way the widget reads it.
 */
module Scenarios {
  import opened Wrappers
  import opened Text
  import opened Messages
  import opened MessagesRoute
  import opened ChatModal
  import opened MessageInput
  import Gemini

  /** How the widget reads a POST answer: 400 and 500 bodies carry neither record, a greeting answer only `botMessage`. */
  function SendOutcomeOf(resp: PostResponse): (o: SendOutcome)
    ensures o.Answered?
    ensures (o.userMessage.Some? && o.botMessage.Some?) <==> resp.TurnSaved?
  {
    match resp
    case TurnSaved(user, bot) => Answered(Some(user), Some(bot))
    case GreetingSaved(bot) => Answered(None, Some(bot))
    case _ => Answered(None, None)
  }

  /**
   * Opening the widget on whatever the store holds: a fresh view loads the listed records. With two or more
   * documents stored, the view shows those records, in some timestamp order, and hides the prebuilt questions.
   */
  method Reopen(store: TranscriptStore, now: nat) returns (shown: bool, messages: seq<Record>)
    requires store.Valid()
    ensures |store.msgs| >= 2 ==> !shown && multiset(messages) == multiset(Records(store.msgs))
  {
    var view := new ChatView();
    var listed := store.Get(NoFault);
    var _ := view.FetchMessages(Fetched(listed.records), Delivered(200), now, now);
    shown := view.showPrebuiltQuestions;
    messages := view.messages;
  }

  /**
   * Opening the widget on an empty store: the view shows the greeting with the prebuilt questions and
   * posts it, and the route stores the greeting twice, as user and as bot, with one timestamp.
   */
  method Bootstrap(now: nat, retryNow: nat, greetingTime: nat, upstream: Gemini.Upstream)
    returns (store: TranscriptStore, shown: bool)
    ensures store.Valid()
    ensures shown
    ensures store.msgs == [Msg(0, GreetingText, User, greetingTime), Msg(1, GreetingText, Bot, greetingTime)]
  {
    store := new TranscriptStore();
    var view := new ChatView();
    var listed := store.Get(NoFault);
    assert listed.records == [];
    var requests := view.FetchMessages(Fetched([]), Delivered(200), now, retryNow);
    var _, _ := store.Post(requests[1].body, upstream, NoFault, greetingTime, greetingTime, greetingTime);
    shown := view.showPrebuiltQuestions;
  }

  /**
   * A fresh bootstrap leaves two documents in the store, so reopening the widget loads two records, both
   * carrying the greeting text, and the prebuilt questions stay hidden.
   */
  method BootstrapThenReload(now: nat, retryNow: nat, greetingTime: nat, reloadNow: nat, upstream: Gemini.Upstream)
    returns (shownAtFirst: bool, storedAfter: nat, shownOnReload: bool, reloaded: seq<Record>)
    ensures shownAtFirst
    ensures storedAfter == 2
    ensures !shownOnReload
    ensures multiset(reloaded) ==
              multiset{Record(IdText(0), GreetingText, User, greetingTime), Record(IdText(1), GreetingText, Bot, greetingTime)}
  {
    var store;
    store, shownAtFirst := Bootstrap(now, retryNow, greetingTime, upstream);
    storedAfter := store.Count();
    ghost var m0, m1 := store.msgs[0], store.msgs[1];
    assert store.msgs == [m0] + [m1];
    RecordsAppend([m0], [m1]);
    shownOnReload, reloaded := Reopen(store, reloadNow);
  }

  /**
   * A send from the widget answered by a healthy route: the widget ends with its old list followed by the
   * stored user record and the returned bot record, and the store grows by those two documents whatever
   * its size. A blank text changes nothing.
   */
  method SendTurn(store: TranscriptStore, view: ChatView, content: string, now: nat, upstream: Gemini.Upstream,
                  userTime: nat, botTime: nat, replyTime: nat)
    requires store.Valid()
    modifies store, view
    ensures store.Valid()
    ensures IsBlank(content) ==> store.msgs == old(store.msgs) && view.messages == old(view.messages)
    ensures !IsBlank(content) ==>
              var reply := Gemini.GenerateReply(content, upstream).reply;
              |store.msgs| == |old(store.msgs)| + 2 &&
              store.msgs[..|old(store.msgs)|] == old(store.msgs) &&
              store.msgs[|store.msgs| - 2].content == content && store.msgs[|store.msgs| - 1].content == reply &&
              view.messages == old(view.messages) + [ToRecord(store.msgs[|store.msgs| - 2]),
                                                     Record(IdText(store.msgs[|store.msgs| - 1].id), reply, Bot, replyTime)]
    ensures !view.loading || IsBlank(content)
  {
    var requests := view.BeginSend(content, now);
    if requests == [] {
      return;
    }
    SentBodyAccepted(content);
    assert requests[0].body == SendPost(content);
    var resp := PostTurn(store, content, upstream, userTime, botTime, replyTime);
    view.FinishSend(SendOutcomeOf(resp));
  }

  /** The route's answer to the POST of a non-blank message when the store is healthy. */
  method PostTurn(store: TranscriptStore, content: string, upstream: Gemini.Upstream,
                  userTime: nat, botTime: nat, replyTime: nat) returns (resp: PostResponse)
    requires store.Valid() && content != []
    modifies store
    ensures store.Valid()
    ensures var reply := Gemini.GenerateReply(content, upstream).reply;
            var user := Msg(old(store.nextId), content, User, userTime);
            var bot := Msg(old(store.nextId) + 1, reply, Bot, botTime);
            store.msgs == old(store.msgs) + [user, bot] &&
            resp == TurnSaved(ToRecord(user), Record(IdText(bot.id), reply, Bot, replyTime))
  {
    var prompt;
    resp, prompt := store.Post(SendPost(content), upstream, NoFault, userTime, botTime, replyTime);
  }

  /**
   * A send whose user document cannot be written (no connection, or the insert fails): the route answers
   * 500, the store is unchanged, and the temporary message stays on screen.
   */
  method SendTurnUnsaved(store: TranscriptStore, view: ChatView, content: string, now: nat, upstream: Gemini.Upstream,
                         fault: DbFault, userTime: nat, botTime: nat, replyTime: nat)
    requires store.Valid()
    requires fault == ConnectFails || fault == FirstWriteFails
    modifies store, view
    ensures store.Valid() && store.msgs == old(store.msgs)
    ensures IsBlank(content) ==> view.messages == old(view.messages)
    ensures !IsBlank(content) ==> view.messages == old(view.messages) + [TemporaryMessage(content, now)]
    ensures !view.loading || IsBlank(content)
  {
    var requests := view.BeginSend(content, now);
    if requests == [] {
      return;
    }
    SentBodyAccepted(content);
    var body := requests[0].body;
    assert body == SendPost(content) && Accepts(body);
    var resp, _ := store.Post(body, upstream, fault, userTime, botTime, replyTime);
    view.FinishSend(SendOutcomeOf(resp));
  }

  /**
   * "New chat" on a store that already holds ten or more documents: the route refuses the DELETE, yet the
   * widget shows only the greeting and posts it, so the store ends up two documents larger while the
   * screen shows a fresh conversation.
   */
  method NewChatAtLimit(store: TranscriptStore, view: ChatView, now: nat, greetingTime: nat, upstream: Gemini.Upstream)
    requires store.Valid() && store.Count() >= ResetLimit
    modifies store, view
    ensures store.Valid()
    ensures view.messages == [GreetingMessage(now)] && view.showPrebuiltQuestions
    ensures store.msgs == old(store.msgs) + [Msg(old(store.nextId), GreetingText, User, greetingTime),
                                             Msg(old(store.nextId) + 1, GreetingText, Bot, greetingTime)]
  {
    var deleted := store.Delete(NoFault);
    assert deleted == LimitReached;
    var requests := view.HandleNewChat(Delivered(400), now);
    var _, _ := store.Post(requests[1].body, upstream, NoFault, greetingTime, greetingTime, greetingTime);
  }

  /**
   * The widget passes `disabled` once it shows ten or more messages, but the input does not take that
   * prop: a non-blank text is still sent while no send is in flight.
   */
  method SubmitWhileDisabled(field: InputField, view: ChatView) returns (sent: Option<string>)
    requires InputDisabled(view.messages)
    requires WouldSend(field.message, view.loading)
    modifies field
    ensures sent == Some(old(field.message)) && field.message == ""
  {
    sent := field.HandleSubmit(view.loading);
  }

  /**
   * Reaching ten messages does not lock the input either: while no send is in flight the text box stays
   * enabled, and for a non-blank text the send button too, so that text is sent.
   */
  lemma InputOpenAtLimit(field: InputField, messages: seq<Record>)
    requires InputDisabled(messages)
    ensures !field.TextBoxDisabled(false)
    ensures !IsBlank(field.message) ==> !field.SendButtonDisabled(false) && WouldSend(field.message, false)
  {
  }
}
