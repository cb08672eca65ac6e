/**
 * The `/api/messages` route: one global transcript kept in the `messages` collection.
 * POST stores a user document and then a bot document (the generated reply, or for a greeting the same
 * text again), DELETE clears the collection unless it already holds ten or more documents, and GET lists
 * every document ordered by timestamp. The collection is the `msgs` field, in insertion order; the id
 * generator is the `nextId` counter; clock readings, the completion call's outcome and storage faults are
 * parameters of the handlers.
 */
module MessagesRoute {
  import opened Wrappers
  import opened Text
  import opened Messages
  import Gemini

  /** DELETE is refused once the collection holds this many documents. */
  const ResetLimit: nat := 10

  /** The `content` field of a POST body: absent or `null`, a string, or a value of some other type. */
  datatype Field = Missing | Str(s: string) | NotString

  /** A POST body: not parseable as JSON, or an object with `content` and the truth value of `isGreeting`. */
  datatype PostBody = Unparsable | PostBody(content: Field, isGreeting: bool)

  /**
   * What goes wrong with the database during one request: nothing, the connection, or the first or
   * second write the handler attempts (POST writes twice, DELETE once).
   */
  datatype DbFault = NoFault | ConnectFails | FirstWriteFails | SecondWriteFails

  datatype PostResponse =
    | BadRequest                                        // 400
    | ServerError                                       // 500
    | GreetingSaved(botMessage: Record)                 // 200 `{ botMessage }`
    | TurnSaved(userMessage: Record, botMessage: Record) // 200 `{ userMessage, botMessage }`

  datatype DeleteResponse = LimitReached | DeleteFailed | Cleared

  datatype GetResponse = GetFailed | Listed(records: seq<Record>)

  /** POST's validation: `content` must be truthy and a string, that is, a non-empty string. */
  predicate Accepts(body: PostBody) {
    body.PostBody? && body.content.Str? && body.content.s != []
  }

  predicate SortedByTime(s: seq<Msg>) {
    forall i, j :: 0 <= i < j < |s| ==> s[i].timestamp <= s[j].timestamp
  }

  predicate RecordsSortedByTime(s: seq<Record>) {
    forall i, j :: 0 <= i < j < |s| ==> s[i].timestamp <= s[j].timestamp
  }

  /**
   * Places `m` before the first document of `s` whose timestamp is not earlier than its own, so before any
   * document with an equal timestamp: `SortByTime` inserts the later documents first, so it keeps documents
   * with equal timestamps in their original order.
   */
  function InsertByTime(m: Msg, s: seq<Msg>): (r: seq<Msg>)
    requires SortedByTime(s)
    ensures |r| == |s| + 1 && SortedByTime(r)
    ensures r[0] == m || (s != [] && r[0] == s[0])
  {
    if s == [] || m.timestamp <= s[0].timestamp then [m] + s
    else
      var rest := InsertByTime(m, s[1..]);
      assert forall j :: 0 <= j < |rest| ==> s[0].timestamp <= rest[0].timestamp <= rest[j].timestamp;
      [s[0]] + rest
  }

  /** Inserting adds exactly the one document to the list. */
  lemma {:induction false} InsertAddsOne(m: Msg, s: seq<Msg>)
    requires SortedByTime(s)
    ensures multiset(InsertByTime(m, s)) == multiset(s) + multiset{m}
  {
    if s != [] && m.timestamp > s[0].timestamp {
      InsertAddsOne(m, s[1..]);
      assert s == [s[0]] + s[1..];
    }
  }

  /** `sort({ timestamp: 1 })`: the same documents, in non-decreasing timestamp order. */
  function SortByTime(s: seq<Msg>): (r: seq<Msg>)
    ensures SortedByTime(r)
    ensures multiset(r) == multiset(s)
  {
    if s == [] then []
    else
      assert s == [s[0]] + s[1..];
      InsertAddsOne(s[0], SortByTime(s[1..]));
      InsertByTime(s[0], SortByTime(s[1..]))
  }

  /** The ids carried by a list of documents. */
  function Ids(s: seq<Msg>): set<nat> {
    if s == [] then {} else {s[0].id} + Ids(s[1..])
  }

  /** No id occurs twice in the list. */
  predicate DistinctIds(s: seq<Msg>) {
    forall i, j :: 0 <= i < j < |s| ==> s[i].id != s[j].id
  }

  lemma {:induction false} IdsMembership(s: seq<Msg>, x: nat)
    ensures x in Ids(s) <==> exists k :: 0 <= k < |s| && s[k].id == x
  {
    if s != [] {
      IdsMembership(s[1..], x);
      if exists k :: 0 <= k < |s[1..]| && s[1..][k].id == x {
        var k :| 0 <= k < |s[1..]| && s[1..][k].id == x;
        assert s[k + 1].id == x;
      }
      if exists k :: 0 <= k < |s| && s[k].id == x {
        var k :| 0 <= k < |s| && s[k].id == x;
        if k > 0 {
          assert s[1..][k - 1].id == x;
        }
      }
    }
  }

  /** A list has distinct ids exactly when its head's id is not in its tail and its tail has distinct ids. */
  lemma {:induction false} DistinctIdsCons(s: seq<Msg>)
    requires s != []
    ensures DistinctIds(s) <==> s[0].id !in Ids(s[1..]) && DistinctIds(s[1..])
  {
    IdsMembership(s[1..], s[0].id);
    if DistinctIds(s) {
      forall k | 0 <= k < |s[1..]|
        ensures s[1..][k].id != s[0].id
      {
        assert s[1..][k] == s[k + 1];
      }
    }
    if s[0].id !in Ids(s[1..]) && DistinctIds(s[1..]) {
      forall i, j | 0 <= i < j < |s|
        ensures s[i].id != s[j].id
      {
        assert s[j] == s[1..][j - 1];
        if i > 0 {
          assert s[i] == s[1..][i - 1];
        }
      }
    }
  }

  /** Inserting a document adds its id to the list's ids, and keeps them distinct when its id is new. */
  lemma {:induction false} InsertKeepsIdsDistinct(m: Msg, s: seq<Msg>)
    requires SortedByTime(s)
    ensures Ids(InsertByTime(m, s)) == Ids(s) + {m.id}
    ensures DistinctIds(s) && m.id !in Ids(s) ==> DistinctIds(InsertByTime(m, s))
  {
    var r := InsertByTime(m, s);
    if s == [] || m.timestamp <= s[0].timestamp {
      assert r == [m] + s && r[1..] == s;
      assert Ids(r) == {m.id} + Ids(s);
      if DistinctIds(s) && m.id !in Ids(s) {
        DistinctIdsCons(r);
      }
    } else {
      var rest := InsertByTime(m, s[1..]);
      assert r == [s[0]] + rest && r[1..] == rest;
      InsertKeepsIdsDistinct(m, s[1..]);
      assert Ids(r) == {s[0].id} + Ids(rest);
      assert Ids(s) == {s[0].id} + Ids(s[1..]);
      if DistinctIds(s) && m.id !in Ids(s) {
        DistinctIdsCons(s);
        assert s[0].id !in Ids(rest);
        DistinctIdsCons(r);
      }
    }
  }

  /** Sorting keeps the set of ids, and keeps them distinct. */
  lemma {:induction false} SortKeepsIdsDistinct(s: seq<Msg>)
    ensures Ids(SortByTime(s)) == Ids(s)
    ensures DistinctIds(s) ==> DistinctIds(SortByTime(s))
  {
    if s != [] {
      var t := SortByTime(s[1..]);
      SortKeepsIdsDistinct(s[1..]);
      InsertKeepsIdsDistinct(s[0], t);
      DistinctIdsCons(s);
    }
  }

  /** `messages.map(msg => ({ ...msg, _id: msg._id.toString() }))` */
  function Records(s: seq<Msg>): (r: seq<Record>)
    ensures |r| == |s|
  {
    if s == [] then [] else [ToRecord(s[0])] + Records(s[1..])
  }

  /** The formatting serialises each document in place. */
  lemma {:induction false} RecordsAt(s: seq<Msg>)
    ensures forall i :: 0 <= i < |s| ==> Records(s)[i] == ToRecord(s[i])
  {
    if s != [] {
      RecordsAt(s[1..]);
    }
  }

  lemma {:induction false} RecordsAppend(a: seq<Msg>, b: seq<Msg>)
    ensures Records(a + b) == Records(a) + Records(b)
  {
    RecordsAt(a + b);
    RecordsAt(a);
    RecordsAt(b);
    forall i | 0 <= i < |a + b| ensures Records(a + b)[i] == (Records(a) + Records(b))[i] {
      if i < |a| { assert (a + b)[i] == a[i]; } else { assert (a + b)[i] == b[i - |a|]; }
    }
  }

  /** Taking the document at `i` out of a list takes one copy of it out of the list's multiset. */
  lemma RemoveAt(b: seq<Msg>, i: nat)
    requires i < |b|
    ensures multiset(b) == multiset(b[..i] + b[i + 1..]) + multiset{b[i]}
  {
    assert b == b[..i] + [b[i]] + b[i + 1..];
  }

  /** The same for the serialised list. */
  lemma {:induction false} RecordsRemoveAt(b: seq<Msg>, i: nat)
    requires i < |b|
    ensures multiset(Records(b)) == multiset(Records(b[..i] + b[i + 1..])) + multiset{ToRecord(b[i])}
  {
    assert b == b[..i] + [b[i]] + b[i + 1..];
    RecordsAppend(b[..i] + [b[i]], b[i + 1..]);
    RecordsAppend(b[..i], [b[i]]);
    RecordsAppend(b[..i], b[i + 1..]);
  }

  /** In a permutation of a non-empty list, the first document of the one sits somewhere in the other. */
  lemma MatchFirst(a: seq<Msg>, b: seq<Msg>) returns (i: nat)
    requires a != [] && multiset(a) == multiset(b)
    ensures i < |b| && b[i] == a[0]
    ensures multiset(a[1..]) == multiset(b[..i] + b[i + 1..])
  {
    assert a == [a[0]] + a[1..];
    assert multiset(a) == multiset{a[0]} + multiset(a[1..]);
    assert a[0] in multiset(b);
    i :| 0 <= i < |b| && b[i] == a[0];
    RemoveAt(b, i);
    assert multiset(a[1..]) == multiset(a) - multiset{a[0]};
    assert multiset(b[..i] + b[i + 1..]) == multiset(b) - multiset{a[0]};
  }

  lemma RecordsFirst(a: seq<Msg>)
    requires a != []
    ensures multiset(Records(a)) == multiset{ToRecord(a[0])} + multiset(Records(a[1..]))
  {
    assert Records(a) == [ToRecord(a[0])] + Records(a[1..]);
  }

  /** Serialising two orderings of the same documents gives two orderings of the same records. */
  lemma {:induction false} RecordsPreservePermutation(a: seq<Msg>, b: seq<Msg>)
    requires multiset(a) == multiset(b)
    ensures multiset(Records(a)) == multiset(Records(b))
    decreases |a|
  {
    if a != [] {
      var i := MatchFirst(a, b);
      RecordsPreservePermutation(a[1..], b[..i] + b[i + 1..]);
      RecordsRemoveAt(b, i);
      RecordsFirst(a);
    }
  }

  /** The order of a sorted list of documents survives serialisation. */
  lemma RecordsKeepOrder(s: seq<Msg>)
    requires SortedByTime(s)
    ensures RecordsSortedByTime(Records(s))
  {
    RecordsAt(s);
  }

  class TranscriptStore {
    /** The documents of the collection, in insertion order. */
    var msgs: seq<Msg>
    /** The id the next inserted document receives. */
    var nextId: nat

    /** Ids are assigned in increasing order and never reused. */
    ghost predicate Valid()
      reads this
    {
      (forall i :: 0 <= i < |msgs| ==> msgs[i].id < nextId) &&
      (forall i, j :: 0 <= i < j < |msgs| ==> msgs[i].id < msgs[j].id)
    }

    constructor ()
      ensures Valid() && msgs == [] && nextId == 0
    {
      msgs := [];
      nextId := 0;
    }

    /** `countDocuments()` */
    function Count(): nat
      reads this
    {
      |msgs|
    }

    /** `insertOne`: appends a document with a fresh id and returns that id. */
    method InsertOne(content: string, sender: Sender, timestamp: nat) returns (id: nat)
      requires Valid()
      modifies this
      ensures Valid()
      ensures id == old(nextId) && nextId == old(nextId) + 1
      ensures msgs == old(msgs) + [Msg(id, content, sender, timestamp)]
    {
      id := nextId;
      msgs := msgs + [Msg(id, content, sender, timestamp)];
      nextId := nextId + 1;
    }

    /**
     * POST. `userTime` is the clock reading shared by the user document and, for a greeting, the bot
     * document; `botTime` is the reading stored with a generated reply and `replyTime` the separate
     * reading put into the returned `botMessage`. `upstream` is how the completion call ends, and
     * `sentPrompt` the prompt the call sends upstream, `None` when no call is made.
     */
    method Post(body: PostBody, upstream: Gemini.Upstream, fault: DbFault, userTime: nat, botTime: nat, replyTime: nat)
      returns (resp: PostResponse, sentPrompt: Option<string>)
      requires Valid()
      modifies this
      ensures Valid()
      // the body cannot be read: 500, nothing stored
      ensures body.Unparsable? ==> resp == ServerError && msgs == old(msgs) && nextId == old(nextId)
      // `content` missing, empty or not a string: 400, nothing stored
      ensures body.PostBody? && !Accepts(body) ==> resp == BadRequest && msgs == old(msgs) && nextId == old(nextId)
      // no connection, or the user document is not written: 500, nothing stored
      ensures Accepts(body) && (fault == ConnectFails || fault == FirstWriteFails) ==>
                resp == ServerError && msgs == old(msgs) && nextId == old(nextId)
      // the bot document is not written: 500, and the user document stays
      ensures Accepts(body) && fault == SecondWriteFails ==>
                resp == ServerError && nextId == old(nextId) + 1 &&
                msgs == old(msgs) + [Msg(old(nextId), body.content.s, User, userTime)]
      // a greeting: the text is stored twice, as user and as bot, with one timestamp; only the bot record is returned
      ensures Accepts(body) && fault == NoFault && body.isGreeting ==>
                var c := body.content.s;
                nextId == old(nextId) + 2 &&
                msgs == old(msgs) + [Msg(old(nextId), c, User, userTime), Msg(old(nextId) + 1, c, Bot, userTime)] &&
                resp == GreetingSaved(ToRecord(msgs[|msgs| - 1]))
      // the provider is called only for an ordinary turn whose user document was written, with the user's text
      ensures sentPrompt.Some? <==> Accepts(body) && !body.isGreeting && (fault == NoFault || fault == SecondWriteFails)
      ensures sentPrompt.Some? ==> sentPrompt.value == Gemini.Prompt(body.content.s)
      // an ordinary turn: the user's text, then the generated reply; both returned
      ensures Accepts(body) && fault == NoFault && !body.isGreeting ==>
                var c := body.content.s;
                var reply := Gemini.GenerateReply(c, upstream).reply;
                nextId == old(nextId) + 2 &&
                msgs == old(msgs) + [Msg(old(nextId), c, User, userTime), Msg(old(nextId) + 1, reply, Bot, botTime)] &&
                resp == TurnSaved(ToRecord(msgs[|msgs| - 2]), Record(IdText(old(nextId) + 1), reply, Bot, replyTime))
    {
      sentPrompt := None;
      if body.Unparsable? {
        return ServerError, None;
      }
      if !Accepts(body) {
        return BadRequest, None;
      }
      if fault == ConnectFails || fault == FirstWriteFails {
        return ServerError, None;
      }
      var content := body.content.s;
      var userId := InsertOne(content, User, userTime);
      var userMessage := Record(IdText(userId), content, User, userTime);
      if body.isGreeting {
        if fault == SecondWriteFails {
          return ServerError, None;
        }
        var botId := InsertOne(content, Bot, userTime);
        assert msgs[|msgs| - 1] == Msg(botId, content, Bot, userTime);
        return GreetingSaved(Record(IdText(botId), content, Bot, userTime)), None;
      }
      var exchange := Gemini.GenerateReply(content, upstream);
      sentPrompt := Some(exchange.prompt);
      var reply := exchange.reply;
      if fault == SecondWriteFails {
        return ServerError, sentPrompt;
      }
      var botId := InsertOne(reply, Bot, botTime);
      assert msgs[|msgs| - 2] == Msg(userId, content, User, userTime);
      resp := TurnSaved(userMessage, Record(IdText(botId), reply, Bot, replyTime));
    }

    /** DELETE: refused from ten documents on; otherwise the collection is emptied. */
    method Delete(fault: DbFault) returns (resp: DeleteResponse)
      requires Valid()
      modifies this
      ensures Valid() && nextId == old(nextId)
      ensures fault == ConnectFails ==> resp == DeleteFailed && msgs == old(msgs)
      ensures fault != ConnectFails && |old(msgs)| >= ResetLimit ==> resp == LimitReached && msgs == old(msgs)
      ensures fault == FirstWriteFails && |old(msgs)| < ResetLimit ==> resp == DeleteFailed && msgs == old(msgs)
      ensures (fault == NoFault || fault == SecondWriteFails) && |old(msgs)| < ResetLimit ==> resp == Cleared && msgs == []
    {
      if fault == ConnectFails {
        return DeleteFailed;
      }
      var count := Count();
      if count >= ResetLimit {
        return LimitReached;
      }
      if fault == FirstWriteFails {
        return DeleteFailed;
      }
      msgs := [];
      resp := Cleared;
    }

    /**
     * GET: every document, serialised, in non-decreasing timestamp order, no id listed twice; an empty list
     * for an empty store.
     */
    method Get(fault: DbFault) returns (resp: GetResponse)
      requires Valid()
      ensures resp.GetFailed? <==> fault == ConnectFails
      ensures resp.Listed? ==> RecordsSortedByTime(resp.records)
      ensures resp.Listed? ==> multiset(resp.records) == multiset(Records(msgs))
      ensures resp.Listed? ==> |resp.records| == |msgs|
      ensures resp.Listed? ==> forall i, j :: 0 <= i < j < |resp.records| ==> resp.records[i].id != resp.records[j].id
    {
      if fault == ConnectFails {
        return GetFailed;
      }
      var sorted := SortByTime(msgs);
      RecordsPreservePermutation(sorted, msgs);
      RecordsKeepOrder(sorted);
      assert |multiset(sorted)| == |multiset(msgs)|;
      SortKeepsIdsDistinct(msgs);
      RecordsAt(sorted);
      forall i, j | 0 <= i < j < |sorted|
        ensures Records(sorted)[i].id != Records(sorted)[j].id
      {
        ToRecordIdsDistinct(sorted[i], sorted[j]);
      }
      resp := Listed(Records(sorted));
    }
  }

}
