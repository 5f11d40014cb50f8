/**
 * The admin dashboard's chat listing (pages/api/dashboard/chats.ts): the
 * projection of a stored chat record onto a dashboard row, the handler's
 * map/filter over the query result and its status mapping.
 *
 * Date formatting is a parameter: `isoOfMillis` turns milliseconds since the
 * epoch into ISO 8601 text, and `now` is the current time as ISO 8601 text.
 */
module Dashboard {
  import opened Wrappers
  import opened Json
  import opened Identities
  import Chat

  /** Longest answer excerpt shown on a row. */
  const SnippetLength: nat := 500

  datatype ChatItem = ChatItem(
    id: Value,
    createdAt: string,
    userName: Option<string>,
    userId: Option<string>,
    identityProvider: Option<string>,
    modelId: Option<string>,
    modelName: Option<string>,
    question: string,
    answerSnippet: string)

  /** The entry is an object whose `who` object has the given `kind` string. */
  predicate HasKind(x: Value, kind: string) {
    Prop(Prop(Some(x), "who"), "kind") == Some(JStr(kind))
  }

  /** The index the search for an entry of a kind stops at: the first entry of the given kind, or `|qa|` when there is none. */
  function FirstOfKind(qa: seq<Value>, kind: string): (i: nat)
    ensures i <= |qa|
    ensures i < |qa| ==> HasKind(qa[i], kind)
    ensures forall j :: 0 <= j < i ==> !HasKind(qa[j], kind)
  {
    if qa == [] then 0
    else if HasKind(qa[0], kind) then 0
    else 1 + FirstOfKind(qa[1..], kind)
  }

  /** The first entry of the given kind, if there is one. */
  function Find(qa: seq<Value>, kind: string): Option<Value> {
    var i := FirstOfKind(qa, kind);
    if i < |qa| then Some(qa[i]) else None
  }

  /** The value when it is a string, else the empty string. */
  function TextOrEmpty(o: Option<Value>): string {
    if IsString(o) then o.value.s else ""
  }

  /** The first 500 characters of the answer, or all of it when it is shorter. */
  function Snippet(answer: string): (r: string)
    ensures |r| <= SnippetLength
    ensures |r| == if |answer| <= SnippetLength then |answer| else SnippetLength
    ensures r == answer[..|r|]
  {
    if |answer| <= SnippetLength then answer else answer[..SnippetLength]
  }

  /** The row's timestamp: from a non-zero numeric `_ts` (seconds), else now. */
  function CreatedAt(doc: Value, now: string, isoOfMillis: real -> string): string {
    var ts := Prop(Some(doc), "_ts");
    if IsNumber(ts) && ts.value.n != 0.0 then isoOfMillis(ts.value.n * 1000.0) else now
  }

  /**
   * The dashboard row for a stored chat record, or `None` (null) for a
   * record without a truthy `id` or without a `questionAnswerTuple` array.
   */
  function ToItem(doc: Value, now: string, isoOfMillis: real -> string): (r: Option<ChatItem>)
    ensures r.None? <==> !Truthy(Prop(Some(doc), "id")) || !IsArray(Prop(Some(doc), "questionAnswerTuple"))
    ensures r.Some? ==> Some(r.value.id) == Prop(Some(doc), "id")
    // the row is dated by a non-zero numeric store timestamp `_ts` (seconds), else by now
    ensures r.Some? ==>
              var ts := Prop(Some(doc), "_ts");
              r.value.createdAt == if IsNumber(ts) && ts.value.n != 0.0 then isoOfMillis(ts.value.n * 1000.0) else now
    ensures r.Some? ==>
              var qa := Prop(Some(doc), "questionAnswerTuple").value.items;
              var u := FirstOfKind(qa, "user");
              var l := FirstOfKind(qa, "llm");
              var userInfo := if u < |qa| then Prop(Prop(Some(qa[u]), "who"), "info") else None;
              var llmInfo := if l < |qa| then Prop(Prop(Some(qa[l]), "who"), "info") else None;
              var answer := if l < |qa| then TextOrEmpty(Prop(Some(qa[l]), "message")) else "";
              // the question is the first user entry's string message, else empty
              && r.value.question == (if u < |qa| then TextOrEmpty(Prop(Some(qa[u]), "message")) else "")
              // the snippet is the first 500 characters of the first llm entry's string message
              && |r.value.answerSnippet| == (if |answer| <= SnippetLength then |answer| else SnippetLength)
              && r.value.answerSnippet == answer[..|r.value.answerSnippet|]
              // optional fields are kept only when they hold strings
              && r.value.userName == StringOrUndefined(Prop(userInfo, "userName"))
              && r.value.userId == StringOrUndefined(Prop(userInfo, "userId"))
              && r.value.identityProvider == StringOrUndefined(Prop(userInfo, "identityProvider"))
              && r.value.modelId == StringOrUndefined(Prop(llmInfo, "id"))
              && r.value.modelName == StringOrUndefined(Prop(llmInfo, "name"))
  {
    var id := Prop(Some(doc), "id");
    var tuple := Prop(Some(doc), "questionAnswerTuple");
    if !Truthy(id) || !IsArray(tuple) then None
    else
      var qa := tuple.value.items;
      var user := Find(qa, "user");
      var llm := Find(qa, "llm");
      var userInfo := Prop(Prop(user, "who"), "info");
      var llmInfo := Prop(Prop(llm, "who"), "info");
      Some(ChatItem(
        id := id.value,
        createdAt := CreatedAt(doc, now, isoOfMillis),
        userName := StringOrUndefined(Prop(userInfo, "userName")),
        userId := StringOrUndefined(Prop(userInfo, "userId")),
        identityProvider := StringOrUndefined(Prop(userInfo, "identityProvider")),
        modelId := StringOrUndefined(Prop(llmInfo, "id")),
        modelName := StringOrUndefined(Prop(llmInfo, "name")),
        question := TextOrEmpty(Prop(user, "message")),
        answerSnippet := Snippet(TextOrEmpty(Prop(llm, "message")))))
  }

  /** The rows of the records that project, in query order, with the others dropped. */
  function ProjectAll(docs: seq<Value>, now: string, isoOfMillis: real -> string): (items: seq<ChatItem>)
    ensures |items| <= |docs|
    ensures (forall j :: 0 <= j < |docs| ==> ToItem(docs[j], now, isoOfMillis).None?) ==> items == []
  {
    if docs == [] then []
    else
      var rest := ProjectAll(docs[1..], now, isoOfMillis);
      match ToItem(docs[0], now, isoOfMillis)
      case Some(item) => [item] + rest
      case None => rest
  }

  /** The filter keeps query order: projecting two batches is projecting each in turn. */
  lemma {:induction false} ProjectAllAppend(a: seq<Value>, b: seq<Value>, now: string, isoOfMillis: real -> string)
    ensures ProjectAll(a + b, now, isoOfMillis) == ProjectAll(a, now, isoOfMillis) + ProjectAll(b, now, isoOfMillis)
  {
    if a == [] {
      assert a + b == b;
    } else {
      assert (a + b)[0] == a[0];
      assert (a + b)[1..] == a[1..] + b;
      ProjectAllAppend(a[1..], b, now, isoOfMillis);
    }
  }

  /** Exactly the records that project appear, each once and in query order. */
  lemma ProjectAllSingle(doc: Value, now: string, isoOfMillis: real -> string)
    ensures ProjectAll([doc], now, isoOfMillis) ==
              if ToItem(doc, now, isoOfMillis).Some? then [ToItem(doc, now, isoOfMillis).value] else []
  {
    assert [doc][1..] == [];
  }

  /** What the store query produced: its resources (possibly `undefined`), or the value thrown. */
  datatype Outcome = Listed(resources: Option<seq<Value>>) | Thrown(error: Value)

  datatype Body = Chats(chats: seq<ChatItem>) | Error(error: Option<Value>)

  datatype Response = Response(status: real, body: Body)

  const InternalServerError: string := "Internal Server Error"

  /** The catch block: a numeric `statusCode` on the error, else 500; 500 hides the message. */
  function ErrorResponse(e: Value): (r: Response)
    ensures r.body.Error?
    ensures IsNumber(Prop(Some(e), "statusCode")) ==> r.status == Prop(Some(e), "statusCode").value.n
    ensures !IsNumber(Prop(Some(e), "statusCode")) ==> r.status == 500.0
    ensures r.status == 500.0 ==> r.body.error == Some(JStr(InternalServerError))
    ensures r.status != 500.0 ==> r.body.error == Prop(Some(e), "message")
  {
    var code := Prop(Some(e), "statusCode");
    var status := if IsNumber(code) then code.value.n else 500.0;
    Response(status, Error(if status == 500.0 then Some(JStr(InternalServerError)) else Prop(Some(e), "message")))
  }

  /** The handler: 405 for anything but GET, the projected rows on success, the error mapping otherwise. */
  function Handle(httpMethod: string, outcome: Outcome, now: string, isoOfMillis: real -> string): (r: Response)
    ensures httpMethod != "GET" ==> r == Response(405.0, Error(Some(JStr("Method Not Allowed"))))
    ensures httpMethod == "GET" && outcome.Listed? ==>
              r.status == 200.0 && r.body == Chats(ProjectAll(outcome.resources.GetOr([]), now, isoOfMillis))
    ensures httpMethod == "GET" && outcome.Thrown? ==> r == ErrorResponse(outcome.error)
  {
    if httpMethod != "GET" then Response(405.0, Error(Some(JStr("Method Not Allowed"))))
    else
      match outcome
      case Listed(resources) => Response(200.0, Chats(ProjectAll(resources.GetOr([]), now, isoOfMillis)))
      case Thrown(e) => ErrorResponse(e)
  }

  /** The parts of a logged entry that the projection reads. */
  lemma EntryReadsBack(kind: string, other: string, info: Value, message: string)
    requires kind != other
    ensures HasKind(Chat.Entry(kind, info, message), kind)
    ensures !HasKind(Chat.Entry(kind, info, message), other)
    ensures Prop(Some(Chat.Entry(kind, info, message)), "message") == Some(JStr(message))
    ensures Prop(Prop(Some(Chat.Entry(kind, info, message)), "who"), "info") == Some(info)
  {
    var who := JObj(map["kind" := JStr(kind), "info" := info]);
    assert Prop(Some(Chat.Entry(kind, info, message)), "who") == Some(who);
  }

  /** The fields of a logged record that the projection reads. */
  lemma LogDocumentReadsBack(uuid: string, identity: Option<Identity>, model: Chat.Model,
                             messages: seq<Chat.Message>, answer: string)
    requires messages != []
    ensures var doc := Chat.LogDocument(uuid, identity, model, messages, answer).value;
            var userInfo := if identity.Some? then InfoJson(identity.value) else JNull;
            && Prop(Some(doc), "id") == Some(JStr(uuid))
            && Prop(Some(doc), "questionAnswerTuple") ==
                 Some(JArr([Chat.Entry("user", userInfo, messages[|messages| - 1].content),
                            Chat.Entry("llm", Chat.ModelJson(model), answer)]))
  {
  }

  /** The identity and model stored in a logged record read back as the row's optional fields. */
  lemma InfoReadsBack(identity: Option<Identity>, model: Chat.Model)
    ensures var userInfo := Some(if identity.Some? then InfoJson(identity.value) else JNull);
            && StringOrUndefined(Prop(userInfo, "userId")) ==
                 (if identity.Some? then Some(identity.value.userId) else None)
            && StringOrUndefined(Prop(userInfo, "userName")) ==
                 (if identity.Some? then Some(identity.value.userName) else None)
            && StringOrUndefined(Prop(userInfo, "identityProvider")) ==
                 (if identity.Some? then Some(identity.value.identityProvider) else None)
            && StringOrUndefined(Prop(Some(Chat.ModelJson(model)), "id")) == Some(model.id)
            && StringOrUndefined(Prop(Some(Chat.ModelJson(model)), "name")) == Some(model.name)
  {
  }

  /**
   * What the relay logs is what the dashboard shows: the row for a logged
   * exchange carries the record's id, the last message (whatever its role) as
   * the question,
   * the first 500 characters of the answer, the caller's identity and the model.
   */
  lemma LoggedExchangeRow(uuid: string, identity: Option<Identity>, model: Chat.Model,
                          messages: seq<Chat.Message>, answer: string,
                          now: string, isoOfMillis: real -> string)
    requires uuid != "" && messages != []
    ensures var item := ToItem(Chat.LogDocument(uuid, identity, model, messages, answer).value, now, isoOfMillis);
            && item.Some?
            && item.value.id == JStr(uuid)
            && item.value.question == messages[|messages| - 1].content
            && item.value.answerSnippet == Snippet(answer)
            && item.value.modelId == Some(model.id)
            && item.value.modelName == Some(model.name)
            && item.value.userId == (if identity.Some? then Some(identity.value.userId) else None)
            && item.value.userName == (if identity.Some? then Some(identity.value.userName) else None)
            && item.value.identityProvider ==
                 (if identity.Some? then Some(identity.value.identityProvider) else None)
  {
    var last := messages[|messages| - 1].content;
    var userInfo := if identity.Some? then InfoJson(identity.value) else JNull;
    var user := Chat.Entry("user", userInfo, last);
    var llm := Chat.Entry("llm", Chat.ModelJson(model), answer);
    var qa := [user, llm];
    LogDocumentReadsBack(uuid, identity, model, messages, answer);
    EntryReadsBack("user", "llm", userInfo, last);
    EntryReadsBack("llm", "user", Chat.ModelJson(model), answer);
    assert FirstOfKind(qa, "user") == 0;
    assert FirstOfKind(qa, "llm") == 1;
    assert Find(qa, "user") == Some(user) && Find(qa, "llm") == Some(llm);
    InfoReadsBack(identity, model);
  }
}
