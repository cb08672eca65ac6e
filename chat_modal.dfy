/**
 * The chat widget's conversation view (`ChatModal`): the `messages` list, the `loading` flag and the
 * visibility of the prebuilt questions, changed by three handlers: loading the transcript when the widget
 * opens, sending a message (optimistically: a temporary message first, then the server's records) and
 * starting a new chat. Each handler returns the requests it issues, in order; how each awaited request
 * ended is a parameter.
 */
module ChatModal {
  import opened Wrappers
  import opened Text
  import opened Messages
  import MessagesRoute

  /** The requests the widget makes of `/api/messages`. */
  datatype Request = ListMessages | PostMessage(body: MessagesRoute.PostBody) | DeleteMessages

  /** How the GET of the transcript ended: a list of records, or `fetch` or `response.json()` threw. */
  datatype LoadOutcome = Fetched(data: seq<Record>) | LoadThrew

  /** How a request whose answer the widget does not read ended: some HTTP status, or a thrown error. */
  datatype Delivery = Delivered(status: nat) | NetworkError

  /** A POST answer as the widget reads it: the `userMessage` and `botMessage` fields, if present, or a thrown error. */
  datatype SendOutcome = Answered(userMessage: Option<Record>, botMessage: Option<Record>) | SendThrew

  /** The input is meant to be disabled from this many messages on. */
  const InputLimit: nat := 10

  /**
   * The greeting the widget makes up locally, its id and timestamp taken from the clock reading `now`.
   * Shown alone, it brings up the prebuilt questions.
   */
  function GreetingMessage(now: nat): (g: Record)
    ensures g.content == GreetingText && g.sender == Bot && g.timestamp == now
    ensures ShowSuggestions([g])
  {
    var g := Record("greeting-" + NatToString(now), GreetingText, Bot, now);
    GreetingAloneShowsSuggestions(g);
    g
  }

  /** The temporary message shown while a send is in flight. */
  function TemporaryMessage(content: string, now: nat): (t: Record)
    ensures t.content == content && t.sender == User && t.timestamp == now
  {
    Record(NatToString(now), content, User, now)
  }

  /** Greetings made at different clock readings carry different ids. */
  lemma GreetingIdsDistinct(a: nat, b: nat)
    requires a != b
    ensures GreetingMessage(a).id != GreetingMessage(b).id
  {
    var prefix := "greeting-";
    NatToStringInjective(a, b);
    assert (prefix + NatToString(a))[|prefix|..] == NatToString(a);
    assert (prefix + NatToString(b))[|prefix|..] == NatToString(b);
  }

  /** Temporary messages made at different clock readings carry different ids, whatever their texts. */
  lemma TemporaryIdsDistinct(a: nat, b: nat, contentA: string, contentB: string)
    requires a != b
    ensures TemporaryMessage(contentA, a).id != TemporaryMessage(contentB, b).id
  {
    NatToStringInjective(a, b);
  }

  /**
   * A greeting's id is never the id of a temporary message nor the rendering of a stored document's id:
   * it starts with a letter, theirs are all digits.
   */
  lemma GreetingIdIsItsOwn(now: nat, content: string, clock: nat, id: nat)
    ensures GreetingMessage(now).id != TemporaryMessage(content, clock).id
    ensures GreetingMessage(now).id != IdText(id)
  {
    assert GreetingMessage(now).id[0] == 'g';
    assert !IsDigit('g');
  }

  /** The body of the POST that stores the greeting. */
  const GreetingPost: MessagesRoute.PostBody := MessagesRoute.PostBody(MessagesRoute.Str(GreetingText), true)

  /** The body of the POST for a user's message (`isGreeting` absent, hence false). */
  function SendPost(content: string): MessagesRoute.PostBody {
    MessagesRoute.PostBody(MessagesRoute.Str(content), false)
  }

  /** `slice(0, -1)`: everything but the last element; the empty list stays empty. */
  function DropLast(s: seq<Record>): (r: seq<Record>)
    ensures s != [] ==> r + [s[|s| - 1]] == s
    ensures s == [] ==> r == []
  {
    if s == [] then [] else s[..|s| - 1]
  }

  /**
   * Whether a loaded, non-empty transcript shows the prebuilt questions: exactly one message, sent by the
   * bot, whose text contains the greeting marker.
   */
  function ShowSuggestions(data: seq<Record>): (visible: bool)
    ensures visible <==> |data| == 1 && data[0].sender == Bot && exists i :: OccursAt(data[0].content, GreetingMarker, i)
  {
    if data == [] then false
    else
      var last := data[|data| - 1];
      ContainsIff(last.content, GreetingMarker);
      |data| == 1 && last.sender == Bot && Contains(last.content, GreetingMarker)
  }

  /** A transcript holding just the greeting shows the prebuilt questions. */
  lemma GreetingAloneShowsSuggestions(g: Record)
    requires g.content == GreetingText && g.sender == Bot
    ensures ShowSuggestions([g])
  {
    GreetingHasMarker();
    ContainsIff(GreetingText, GreetingMarker);
  }

  /** The value the widget passes as the input's `disabled` prop. */
  function InputDisabled(messages: seq<Record>): (disabled: bool)
    ensures disabled <==> |messages| >= InputLimit
  {
    |messages| >= 10
  }

  class ChatView {
    var messages: seq<Record>
    var loading: bool
    var showPrebuiltQuestions: bool

    constructor ()
      ensures messages == [] && !loading && !showPrebuiltQuestions
    {
      messages := [];
      loading := false;
      showPrebuiltQuestions := false;
    }

    /**
     * `fetchMessages`, run when the widget opens. An empty transcript is replaced by the local greeting,
     * which is then posted; a non-empty one is shown as loaded; a failed load shows the greeting and
     * posts nothing. `now` is the clock reading for the greeting, `retryNow` the one taken when the
     * greeting POST throws and the greeting is set again.
     */
    method FetchMessages(outcome: LoadOutcome, greetingDelivery: Delivery, now: nat, retryNow: nat)
      returns (requests: seq<Request>)
      modifies this
      ensures loading == old(loading)
      ensures outcome == Fetched([]) ==>
                requests == [ListMessages, PostMessage(GreetingPost)] && showPrebuiltQuestions &&
                messages == [GreetingMessage(if greetingDelivery.NetworkError? then retryNow else now)]
      ensures outcome.Fetched? && outcome.data != [] ==>
                requests == [ListMessages] && messages == outcome.data &&
                showPrebuiltQuestions == ShowSuggestions(outcome.data)
      ensures outcome.LoadThrew? ==>
                requests == [ListMessages] && messages == [GreetingMessage(now)] && showPrebuiltQuestions
    {
      requests := [ListMessages];
      if outcome.LoadThrew? {
        messages := [GreetingMessage(now)];
        showPrebuiltQuestions := true;
        return;
      }
      var data := outcome.data;
      if |data| == 0 {
        messages := [GreetingMessage(now)];
        showPrebuiltQuestions := true;
        requests := requests + [PostMessage(GreetingPost)];
        if greetingDelivery.NetworkError? {
          messages := [GreetingMessage(retryNow)];
          showPrebuiltQuestions := true;
        }
      } else {
        messages := data;
        showPrebuiltQuestions := ShowSuggestions(data);
      }
    }

    /**
     * The part of `handleSendMessage` before its request is answered. Blank content changes nothing and
     * sends nothing; otherwise the prebuilt questions are hidden, a temporary message is appended and
     * `loading` is set before the POST goes out.
     */
    method BeginSend(content: string, now: nat) returns (requests: seq<Request>)
      modifies this
      ensures IsBlank(content) ==>
                requests == [] && messages == old(messages) && loading == old(loading) &&
                showPrebuiltQuestions == old(showPrebuiltQuestions)
      ensures !IsBlank(content) ==>
                requests == [PostMessage(SendPost(content))] && !showPrebuiltQuestions && loading &&
                messages == old(messages) + [TemporaryMessage(content, now)]
    {
      if IsBlank(content) {
        return [];
      }
      showPrebuiltQuestions := false;
      messages := messages + [TemporaryMessage(content, now)];
      loading := true;
      requests := [PostMessage(SendPost(content))];
    }

    /**
     * The part of `handleSendMessage` after the POST: with both records in the answer the last message is
     * replaced by them; when the request throws the last message is removed; an answer lacking either
     * record leaves the list alone. `loading` is cleared in every case.
     */
    method FinishSend(outcome: SendOutcome)
      modifies this
      ensures !loading && showPrebuiltQuestions == old(showPrebuiltQuestions)
      ensures outcome.Answered? && outcome.userMessage.Some? && outcome.botMessage.Some? ==>
                messages == DropLast(old(messages)) + [outcome.userMessage.value, outcome.botMessage.value]
      ensures outcome.Answered? && !(outcome.userMessage.Some? && outcome.botMessage.Some?) ==>
                messages == old(messages)
      ensures outcome.SendThrew? ==> messages == DropLast(old(messages))
    {
      if outcome.SendThrew? {
        messages := DropLast(messages);
      } else if outcome.userMessage.Some? && outcome.botMessage.Some? {
        messages := DropLast(messages) + [outcome.userMessage.value, outcome.botMessage.value];
      }
      loading := false;
    }

    /**
     * `handleSendMessage` as a whole, handlers running one at a time: a successful send ends with the
     * pre-send list followed by the two stored records; a thrown request ends with the pre-send list;
     * an answer without both records leaves the temporary message in place.
     */
    method HandleSendMessage(content: string, now: nat, outcome: SendOutcome) returns (requests: seq<Request>)
      modifies this
      ensures IsBlank(content) ==>
                requests == [] && messages == old(messages) && loading == old(loading) &&
                showPrebuiltQuestions == old(showPrebuiltQuestions)
      ensures !IsBlank(content) ==> requests == [PostMessage(SendPost(content))] && !showPrebuiltQuestions && !loading
      ensures !IsBlank(content) && outcome.Answered? && outcome.userMessage.Some? && outcome.botMessage.Some? ==>
                messages == old(messages) + [outcome.userMessage.value, outcome.botMessage.value]
      ensures !IsBlank(content) && outcome.Answered? && !(outcome.userMessage.Some? && outcome.botMessage.Some?) ==>
                messages == old(messages) + [TemporaryMessage(content, now)]
      ensures !IsBlank(content) && outcome.SendThrew? ==> messages == old(messages)
    {
      requests := BeginSend(content, now);
      if requests != [] {
        assert DropLast(messages) == old(messages);
        FinishSend(outcome);
      }
    }

    /**
     * `handleNewChat`: once the DELETE has been answered, whatever its status, the view is reset to the
     * local greeting with the prebuilt questions shown and the greeting is posted. Only a DELETE that
     * throws leaves the view as it was.
     */
    method HandleNewChat(deletion: Delivery, now: nat) returns (requests: seq<Request>)
      modifies this
      ensures loading == old(loading)
      ensures deletion.Delivered? ==>
                requests == [DeleteMessages, PostMessage(GreetingPost)] &&
                messages == [GreetingMessage(now)] && showPrebuiltQuestions
      ensures deletion.NetworkError? ==>
                requests == [DeleteMessages] && messages == old(messages) &&
                showPrebuiltQuestions == old(showPrebuiltQuestions)
    {
      requests := [DeleteMessages];
      if deletion.NetworkError? {
        return;
      }
      messages := [GreetingMessage(now)];
      showPrebuiltQuestions := true;
      requests := requests + [PostMessage(GreetingPost)];
    }
  }

  /** The body the widget posts for a message passes the route's validation, since the message is not blank. */
  lemma {:induction false} SentBodyAccepted(content: string)
    requires !IsBlank(content)
    ensures MessagesRoute.Accepts(SendPost(content))
  {
    BlankIffAllWhitespace(content);
  }
}
