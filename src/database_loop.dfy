/**
 * The query/answer dialogue of the database exercise (go/s0303/main.go).
 *
 * The model is asked a question over a growing conversation. While its reply
 * contains "query:", the text after the marker is run against the database
 * endpoint and the endpoint's body is appended to the conversation as a new
 * user message. The first reply without "query:" ends the loop: with
 * "answer:" in it, its remainder split on commas is the answer; otherwise the
 * run aborts.
 *
 * The source loop has no bound and trusts the model to stop. Here the model's
 * replies are a finite script, one per call; running out of script is the
 * outcome `RepliesExhausted`, which the source never reaches on its own.
 */
module DatabaseLoop {
  import opened Wrappers
  import opened Strings
  import opened Chat
  import opened Seqs

  /** What the database endpoint answered: HTTP status and raw body. */
  datatype DbResponse = DbResponse(status: int, body: GoString)

  const QueryMarker: GoString := "query:"
  const AnswerMarker: GoString := "answer:"
  const DataPrefix: GoString := "Additional Data: "

  /**
   * `callDbApi` after the POST: the body when the status is 200, an error
   * for any other status.
   */
  function CallDbApi(r: DbResponse): (body: Option<GoString>)
    ensures body.Some? <==> r.status == 200
    ensures body.Some? ==> body.value == r.body
  {
    if r.status != 200 then None else Some(r.body)
  }

  /** A reply asks for a query when "query:" occurs anywhere in it. */
  predicate IsQuery(reply: GoString) {
    Contains(reply, QueryMarker)
  }

  /** The query sent to the database: "query:" removed only as a prefix, then trimmed. */
  function QueryText(reply: GoString): GoString {
    TrimSpace(TrimPrefix(reply, QueryMarker))
  }

  /**
   * A leading "query:" is dropped before trimming; a reply that has the
   * marker only further in is sent whole, trimmed.
   */
  lemma QueryTextCases(q: GoString, reply: GoString)
    ensures QueryText(QueryMarker + q) == TrimSpace(q)
    ensures !HasPrefix(reply, QueryMarker) ==> QueryText(reply) == TrimSpace(reply)
  {
    var s := QueryMarker + q;
    assert s[..|QueryMarker|] == QueryMarker;
    assert s[|QueryMarker|..] == q;
  }

  /** The user message that carries a database body back to the model. */
  function DataMessage(body: GoString): ChatMessage {
    ChatMessage(User, DataPrefix + body)
  }

  /**
   * The handling of the final reply: with "answer:" anywhere in it, the reply
   * with "answer:" removed as a prefix, trimmed and split on every comma (the
   * pieces are not trimmed); without it, no answer.
   */
  function AnswerIds(reply: GoString): (ids: Option<seq<GoString>>)
    ensures ids.Some? <==> Contains(reply, AnswerMarker)
  {
    if Contains(reply, AnswerMarker) then Some(Split(TrimSpace(TrimPrefix(reply, AnswerMarker)), ",")) else None
  }

  /**
   * The answer has one piece per comma plus one, the pieces joined with
   * commas give back the trimmed text, and no piece holds a comma.
   */
  lemma AnswerPieces(reply: GoString)
    requires Contains(reply, AnswerMarker)
    ensures var text := TrimSpace(TrimPrefix(reply, AnswerMarker));
      var ids := AnswerIds(reply).value;
      |ids| == CountOf(text, ',') + 1 &&
      Join(ids, ",") == text &&
      forall k :: 0 <= k < |ids| ==> ',' !in ids[k]
  {
    var text := TrimSpace(TrimPrefix(reply, AnswerMarker));
    SplitJoin(text, ",");
    SplitCount(text, ',');
    SplitPiecesLackSeparator(text, ",");
    var parts := Split(text, ",");
    forall k | 0 <= k < |parts| ensures ',' !in parts[k] {
      ContainsSingle(parts[k], ',');
    }
  }

  /** How a run ends. */
  datatype Outcome =
    | Answered(ids: seq<GoString>)      // the answer that is then reported
    | UnknownResponse(reply: GoString)  // fatal: "unknown response type"
    | DbFailed(query: GoString)         // fatal: "call DB API failed"
    | RepliesExhausted                  // the script ended while the model still asked queries

  /** The end of a run, the conversation at that point and the queries issued. */
  datatype Transcript = Transcript(outcome: Outcome, messages: seq<ChatMessage>, queries: seq<GoString>)

  /** The outcome of the reply that ended the loop. */
  function Final(reply: GoString): Outcome {
    match AnswerIds(reply)
    case Some(ids) => Answered(ids)
    case None => UnknownResponse(reply)
  }

  /**
   * The dialogue, one model reply at a time, from the conversation
   * `messages`: the reference the imperative loop is proved against.
   */
  function Dialogue(messages: seq<ChatMessage>, replies: seq<GoString>, db: GoString -> DbResponse): Transcript
    decreases |replies|
  {
    if replies == [] then Transcript(RepliesExhausted, messages, [])
    else if !IsQuery(replies[0]) then Transcript(Final(replies[0]), messages, [])
    else
      var q := QueryText(replies[0]);
      match CallDbApi(db(q))
      case None => Transcript(DbFailed(q), messages, [q])
      case Some(body) =>
        var t := Dialogue(messages + [DataMessage(body)], replies[1..], db);
        t.(queries := [q] + t.queries)
  }

  /**
   * The loop of `main`: call the model (here: take the next scripted reply),
   * and while the reply is a query, run it and append the database body to
   * the conversation. `db` is the database endpoint, a function of the query.
   */
  method Converse(initial: seq<ChatMessage>, replies: seq<GoString>, db: GoString -> DbResponse)
    returns (outcome: Outcome, messages: seq<ChatMessage>, queries: seq<GoString>)
    ensures Transcript(outcome, messages, queries) == Dialogue(initial, replies, db)
  {
    messages := initial;
    queries := [];
    var finalResp: GoString := "";
    var i := 0;
    var stopped := false;
    while i < |replies|
      invariant 0 <= i <= |replies|
      invariant !stopped
      invariant var t := Dialogue(messages, replies[i..], db);
                Dialogue(initial, replies, db) == t.(queries := queries + t.queries)
    {
      finalResp := replies[i];
      assert replies[i..][0] == finalResp && replies[i..][1..] == replies[i + 1..];
      if IsQuery(finalResp) {
        var sqlQuery := QueryText(finalResp);
        var dbResponse := CallDbApi(db(sqlQuery));
        if dbResponse.None? {
          outcome := DbFailed(sqlQuery);
          queries := queries + [sqlQuery];
          return;
        }
        messages := messages + [DataMessage(dbResponse.value)];
        queries := queries + [sqlQuery];
        i := i + 1;
      } else {
        stopped := true;
        break;
      }
    }
    if !stopped {
      outcome := RepliesExhausted;
      return;
    }
    var result := AnswerIds(finalResp);
    if result.Some? {
      outcome := Answered(result.value);
    } else {
      outcome := UnknownResponse(finalResp);
    }
  }

  /** The queries issued are those of the leading query replies, in order. */
  lemma {:induction false} DialogueQueries(msgs: seq<ChatMessage>, replies: seq<GoString>, db: GoString -> DbResponse)
    ensures var t := Dialogue(msgs, replies, db);
      |t.queries| <= |replies| &&
      forall k :: 0 <= k < |t.queries| ==> IsQuery(replies[k]) && t.queries[k] == QueryText(replies[k])
    decreases |replies|
  {
    if replies == [] {
    } else if !IsQuery(replies[0]) {
      assert Dialogue(msgs, replies, db).queries == [];
    } else if db(QueryText(replies[0])).status != 200 {
      assert Dialogue(msgs, replies, db).queries == [QueryText(replies[0])];
    } else {
      var q := QueryText(replies[0]);
      var m := msgs + [DataMessage(db(q).body)];
      var u := Dialogue(m, replies[1..], db);
      DialogueStep(msgs, replies, db);
      DialogueQueries(m, replies[1..], db);
      MappedPrefixCons(u.queries, replies, IsQuery, QueryText);
      assert MappedPrefix(Dialogue(msgs, replies, db).queries, replies, IsQuery, QueryText);
    }
  }

  /** One successful query step of the dialogue. */
  lemma DialogueStep(msgs: seq<ChatMessage>, replies: seq<GoString>, db: GoString -> DbResponse)
    requires replies != [] && IsQuery(replies[0]) && db(QueryText(replies[0])).status == 200
    ensures var q := QueryText(replies[0]);
      var t := Dialogue(msgs + [DataMessage(db(q).body)], replies[1..], db);
      Dialogue(msgs, replies, db) == t.(queries := [q] + t.queries)
  {
  }

  /** The "Additional Data" messages for the bodies of the queries `qs`, in order. */
  function DataMessages(qs: seq<GoString>, db: GoString -> DbResponse): (ms: seq<ChatMessage>)
    ensures |ms| == |qs|
    ensures forall k :: 0 <= k < |qs| ==> ms[k] == DataMessage(db(qs[k]).body)
  {
    if qs == [] then [] else [DataMessage(db(qs[0]).body)] + DataMessages(qs[1..], db)
  }

  /** The queries of a run that the database answered: all but a failed last one. */
  function Served(t: Transcript): seq<GoString> {
    if t.outcome.DbFailed? && |t.queries| >= 1 then t.queries[..|t.queries| - 1] else t.queries
  }

  lemma ServedStep(t: Transcript, u: Transcript, q: GoString)
    requires t == u.(queries := [q] + u.queries)
    requires u.outcome.DbFailed? ==> |u.queries| >= 1
    ensures Served(t) == [q] + Served(u)
  {
  }

  lemma DataMessagesStep(q: GoString, qs: seq<GoString>, db: GoString -> DbResponse)
    ensures DataMessages([q] + qs, db) == [DataMessage(db(q).body)] + DataMessages(qs, db)
  {
    assert ([q] + qs)[1..] == qs;
  }

  /**
   * The conversation at the end of a run is the starting conversation
   * followed by one "Additional Data" message per served query.
   */
  lemma {:induction false} DialogueDataMessages(msgs: seq<ChatMessage>, replies: seq<GoString>, db: GoString -> DbResponse)
    ensures Dialogue(msgs, replies, db).messages == msgs + DataMessages(Served(Dialogue(msgs, replies, db)), db)
    decreases |replies|
  {
    if replies != [] && IsQuery(replies[0]) && db(QueryText(replies[0])).status == 200 {
      var q := QueryText(replies[0]);
      var m := msgs + [DataMessage(db(q).body)];
      var t := Dialogue(msgs, replies, db);
      var u := Dialogue(m, replies[1..], db);
      DialogueStep(msgs, replies, db);
      DialogueDataMessages(m, replies[1..], db);
      DialogueFailedLast(m, replies[1..], db);
      ServedStep(t, u, q);
      DataMessagesStep(q, Served(u), db);
      assert t.messages == u.messages == m + DataMessages(Served(u), db);
      assert msgs + DataMessages(Served(t), db) == msgs + ([DataMessage(db(q).body)] + DataMessages(Served(u), db));
    }
  }

  /** Every served query was answered with status 200. */
  lemma {:induction false} DialogueServedOk(msgs: seq<ChatMessage>, replies: seq<GoString>, db: GoString -> DbResponse)
    ensures forall k :: 0 <= k < |Served(Dialogue(msgs, replies, db))| ==>
              db(Served(Dialogue(msgs, replies, db))[k]).status == 200
    decreases |replies|
  {
    if replies != [] && IsQuery(replies[0]) && db(QueryText(replies[0])).status == 200 {
      var q := QueryText(replies[0]);
      var m := msgs + [DataMessage(db(q).body)];
      var t := Dialogue(msgs, replies, db);
      var u := Dialogue(m, replies[1..], db);
      DialogueStep(msgs, replies, db);
      DialogueServedOk(m, replies[1..], db);
      DialogueFailedLast(m, replies[1..], db);
      ServedStep(t, u, q);
      assert Served(t) == [q] + Served(u);
    }
  }

  /** A failed query is the last one issued, and its status was not 200. */
  lemma {:induction false} DialogueFailedLast(msgs: seq<ChatMessage>, replies: seq<GoString>, db: GoString -> DbResponse)
    ensures var t := Dialogue(msgs, replies, db);
      t.outcome.DbFailed? ==>
        1 <= |t.queries| && t.outcome.query == t.queries[|t.queries| - 1] &&
        db(t.outcome.query).status != 200
    decreases |replies|
  {
    if replies == [] {
    } else if !IsQuery(replies[0]) {
      assert Dialogue(msgs, replies, db).outcome == Final(replies[0]);
      assert !Final(replies[0]).DbFailed?;
    } else if db(QueryText(replies[0])).status != 200 {
      var q := QueryText(replies[0]);
      assert CallDbApi(db(q)).None?;
      assert Dialogue(msgs, replies, db) == Transcript(DbFailed(q), msgs, [q]);
    } else {
      var q := QueryText(replies[0]);
      var m := msgs + [DataMessage(db(q).body)];
      var u := Dialogue(m, replies[1..], db);
      DialogueStep(msgs, replies, db);
      DialogueFailedLast(m, replies[1..], db);
      FailedLastStep(Dialogue(msgs, replies, db), u, q);
    }
  }

  lemma FailedLastStep(t: Transcript, u: Transcript, q: GoString)
    requires t == u.(queries := [q] + u.queries)
    requires u.outcome.DbFailed? ==> 1 <= |u.queries| && u.outcome.query == u.queries[|u.queries| - 1]
    ensures t.outcome.DbFailed? ==> 1 <= |t.queries| && t.outcome.query == t.queries[|t.queries| - 1]
  {
    if u.outcome.DbFailed? {
      assert t.queries[|t.queries| - 1] == u.queries[|u.queries| - 1];
    }
  }

  /**
   * How the loop stops otherwise: the script runs out only after every reply
   * was a query; else the reply right after the queries is the first
   * non-query reply and decides the outcome.
   */
  lemma {:induction false} DialogueEnd(msgs: seq<ChatMessage>, replies: seq<GoString>, db: GoString -> DbResponse)
    ensures var t := Dialogue(msgs, replies, db);
      (t.outcome.RepliesExhausted? ==> |t.queries| == |replies|) &&
      ((t.outcome.Answered? || t.outcome.UnknownResponse?) ==>
         |t.queries| < |replies| && !IsQuery(replies[|t.queries|]) &&
         t.outcome == Final(replies[|t.queries|]))
    decreases |replies|
  {
    if replies == [] {
    } else if !IsQuery(replies[0]) {
      assert Dialogue(msgs, replies, db) == Transcript(Final(replies[0]), msgs, []);
    } else if db(QueryText(replies[0])).status != 200 {
      assert Dialogue(msgs, replies, db).outcome.DbFailed?;
    } else {
      var q := QueryText(replies[0]);
      var m := msgs + [DataMessage(db(q).body)];
      var u := Dialogue(m, replies[1..], db);
      DialogueStep(msgs, replies, db);
      DialogueEnd(m, replies[1..], db);
      assert |u.queries| < |replies[1..]| ==> replies[1..][|u.queries|] == replies[|u.queries| + 1];
    }
  }

  /** The final reply is answered exactly when it contains "answer:". */
  lemma FinalAnswered(reply: GoString)
    ensures Final(reply).Answered? <==> Contains(reply, AnswerMarker)
    ensures Final(reply).Answered? ==> Some(Final(reply).ids) == AnswerIds(reply)
  {
  }

  /**
   * The pieces of the answer keep the space after each comma: the reply
   * "answer: 123, 321" yields "123" and " 321".
   */
  lemma AnswerKeepsInnerSpaces()
    ensures AnswerIds("answer: 123, 321") == Some(["123", " 321"])
  {
    ExampleTrimmed();
    ExampleSplit();
  }

  lemma ExampleTrimmed()
    ensures Contains("answer: 123, 321", AnswerMarker)
    ensures TrimSpace(TrimPrefix("answer: 123, 321", AnswerMarker)) == "123, 321"
  {
    ExampleStripped();
    ExampleSpaceTrimmed();
  }

  lemma ExampleStripped()
    ensures Contains("answer: 123, 321", AnswerMarker)
    ensures TrimPrefix("answer: 123, 321", AnswerMarker) == " 123, 321"
  {
    var reply: GoString := "answer: 123, 321";
    var rest: GoString := " 123, 321";
    assert reply == [] + AnswerMarker + rest;
    FirstOccurrenceAfter([], AnswerMarker, rest);
    assert reply[..|AnswerMarker|] == AnswerMarker;
  }

  lemma ExampleSpaceTrimmed()
    ensures TrimSpace(" 123, 321") == "123, 321"
  {
    assert " 123, 321" == [' '] + "123, 321";
    TrimLeadingSpace(' ', "123, 321", IsGoSpace);
    TrimOfTrimmed("123, 321", IsGoSpace);
  }

  lemma ExampleSplit()
    ensures Split("123, 321", ",") == ["123", " 321"]
  {
    var a: GoString, b: GoString := "123", " 321";
    assert "123, 321" == a + "," + b;
    assert ',' !in a;
    SplitAround(a, ",", b);
    assert ',' !in b;
    ContainsSingle(b, ',');
    SplitWithoutSeparator(b, ",");
  }
}
