/**
 * The usage ledger (pages/api/usage.ts): field-by-field validation of a usage
 * submission, the deterministic document ids, the idempotent creation of the
 * usage event and the per-user running summary.
 *
 * The document store is a map from document id to document held by a `Ledger`
 * object; its failures are parameters of each call. JavaScript numbers are
 * `real`s, added exactly.
 */
module Usage {
  import opened Wrappers
  import opened Json
  import opened Identities

  // ---------------------------------------------------------------------------
  // The request handler's validation
  // ---------------------------------------------------------------------------

  /** A submission that passed validation, as handed to the persistence step. */
  datatype UsageInput = UsageInput(
    conversationId: string,
    assistantMessageIndex: real,
    modelId: Option<string>,
    pricingModelId: Option<string>,
    priced: bool,
    inputTokens: real,
    outputTokens: real,
    totalCostUSD: real)

  /** The outcome of reading the body: accepted, rejected with a 400 message, or a thrown TypeError. */
  datatype Validation = Accepted(input: UsageInput) | Rejected(message: string) | Threw

  const MissingConversationId: string := "Missing conversationId"
  const MissingAssistantMessageIndex: string := "Missing assistantMessageIndex"
  const MissingTokenCounts: string := "Missing token counts"
  const MissingTotalCostUSD: string := "Missing totalCostUSD"
  const MissingPriced: string := "Missing priced"

  predicate ConversationIdOk(body: Value) {
    Truthy(Prop(Some(body), "conversationId")) && IsString(Prop(Some(body), "conversationId"))
  }

  predicate IndexOk(body: Value) {
    IsNumber(Prop(Some(body), "assistantMessageIndex"))
  }

  predicate TokenCountsOk(body: Value) {
    IsNumber(Prop(Some(body), "inputTokens")) && IsNumber(Prop(Some(body), "outputTokens"))
  }

  predicate CostOk(body: Value) {
    IsNumber(Prop(Some(body), "totalCostUSD"))
  }

  predicate PricedOk(body: Value) {
    IsBoolean(Prop(Some(body), "priced"))
  }

  /**
   * The checks in their fixed order; the first that fails decides the message.
   * Reading a field of an `undefined` or `null` body throws.
   */
  function Validate(body: Option<Value>): (v: Validation)
    ensures v.Threw? <==> body.None? || body.value.JNull?
    ensures v == Rejected(MissingConversationId) <==> !v.Threw? && !ConversationIdOk(body.value)
    ensures v == Rejected(MissingAssistantMessageIndex) <==>
              !v.Threw? && ConversationIdOk(body.value) && !IndexOk(body.value)
    ensures v == Rejected(MissingTokenCounts) <==>
              !v.Threw? && ConversationIdOk(body.value) && IndexOk(body.value) && !TokenCountsOk(body.value)
    ensures v == Rejected(MissingTotalCostUSD) <==>
              !v.Threw? && ConversationIdOk(body.value) && IndexOk(body.value) && TokenCountsOk(body.value)
              && !CostOk(body.value)
    ensures v == Rejected(MissingPriced) <==>
              !v.Threw? && ConversationIdOk(body.value) && IndexOk(body.value) && TokenCountsOk(body.value)
              && CostOk(body.value) && !PricedOk(body.value)
    ensures v.Accepted? <==>
              !v.Threw? && ConversationIdOk(body.value) && IndexOk(body.value) && TokenCountsOk(body.value)
              && CostOk(body.value) && PricedOk(body.value)
    // the accepted input carries the body's fields; model ids only when they are strings
    ensures v.Accepted? ==>
              && Prop(body, "conversationId") == Some(JStr(v.input.conversationId))
              && v.input.conversationId != ""
              && Prop(body, "assistantMessageIndex") == Some(JNum(v.input.assistantMessageIndex))
              && Prop(body, "inputTokens") == Some(JNum(v.input.inputTokens))
              && Prop(body, "outputTokens") == Some(JNum(v.input.outputTokens))
              && Prop(body, "totalCostUSD") == Some(JNum(v.input.totalCostUSD))
              && Prop(body, "priced") == Some(JBool(v.input.priced))
              && v.input.modelId == StringOrUndefined(Prop(body, "modelId"))
              && v.input.pricingModelId == StringOrUndefined(Prop(body, "pricingModelId"))
  {
    if body.None? || body.value.JNull? then Threw
    else
      var b := body.value;
      if !ConversationIdOk(b) then Rejected(MissingConversationId)
      else if !IndexOk(b) then Rejected(MissingAssistantMessageIndex)
      else if !TokenCountsOk(b) then Rejected(MissingTokenCounts)
      else if !CostOk(b) then Rejected(MissingTotalCostUSD)
      else if !PricedOk(b) then Rejected(MissingPriced)
      else
        Accepted(UsageInput(
          conversationId := Prop(body, "conversationId").value.s,
          assistantMessageIndex := Prop(body, "assistantMessageIndex").value.n,
          modelId := StringOrUndefined(Prop(body, "modelId")),
          pricingModelId := StringOrUndefined(Prop(body, "pricingModelId")),
          priced := Prop(body, "priced").value.b,
          inputTokens := Prop(body, "inputTokens").value.n,
          outputTokens := Prop(body, "outputTokens").value.n,
          totalCostUSD := Prop(body, "totalCostUSD").value.n))
  }

  // ---------------------------------------------------------------------------
  // The user key and the deterministic document ids
  // ---------------------------------------------------------------------------

  /** The characters `String.prototype.trim` removes: white space and line terminators. */
  predicate IsTrimmable(c: char) {
    c as int in TrimmableCodes
  }

  const TrimmableCodes: set<int> := {
    0x09, 0x0A, 0x0B, 0x0C, 0x0D, 0x20, 0xA0, 0x1680,
    0x2000, 0x2001, 0x2002, 0x2003, 0x2004, 0x2005, 0x2006, 0x2007, 0x2008, 0x2009, 0x200A,
    0x2028, 0x2029, 0x202F, 0x205F, 0x3000, 0xFEFF }

  /** The index of the first character of `s` at or after `i` that trim keeps, or `|s|`. */
  function TrimStartIndex(s: string, i: nat): (j: nat)
    requires i <= |s|
    ensures i <= j <= |s|
    ensures forall k :: i <= k < j ==> IsTrimmable(s[k])
    ensures j < |s| ==> !IsTrimmable(s[j])
    decreases |s| - i
  {
    if i < |s| && IsTrimmable(s[i]) then TrimStartIndex(s, i + 1) else i
  }

  /** The end of `s[lo..hi]` once trimmable characters are dropped from its right. */
  function TrimEndIndex(s: string, lo: nat, hi: nat): (j: nat)
    requires lo <= hi <= |s|
    ensures lo <= j <= hi
    ensures forall k :: j <= k < hi ==> IsTrimmable(s[k])
    ensures lo < j ==> !IsTrimmable(s[j - 1])
  {
    if lo < hi && IsTrimmable(s[hi - 1]) then TrimEndIndex(s, lo, hi - 1) else hi
  }

  /** `r` occurs in `s` at index `i`. */
  predicate OccursAt(r: string, s: string, i: int) {
    0 <= i && i + |r| <= |s| && r == s[i..i + |r|]
  }

  /** Trimming: the substring left after dropping trimmable characters at both ends. */
  function Trim(s: string): (r: string)
    ensures exists i :: OccursAt(r, s, i)
                        && (forall k :: 0 <= k < i ==> IsTrimmable(s[k]))
                        && (forall k :: i + |r| <= k < |s| ==> IsTrimmable(s[k]))
    ensures r != [] ==> !IsTrimmable(r[0]) && !IsTrimmable(r[|r| - 1])
    ensures r == [] <==> forall i :: 0 <= i < |s| ==> IsTrimmable(s[i])
  {
    var lo := TrimStartIndex(s, 0);
    var hi := TrimEndIndex(s, lo, |s|);
    assert OccursAt(s[lo..hi], s, lo) && lo + |s[lo..hi]| == hi;
    assert forall k :: hi <= k < |s| ==> IsTrimmable(s[k]);
    assert lo < hi ==> s[lo..hi][0] == s[lo] && s[lo..hi][hi - lo - 1] == s[hi - 1];
    s[lo..hi]
  }

  const Anonymous: string := "anonymous"

  /** The key a caller's usage is filed under: the trimmed identity user id, or `anonymous` when that is missing or blank. */
  function UserKey(identity: Option<Identity>): (u: string)
    ensures u != ""
    ensures identity.Some? && Trim(identity.value.userId) != "" ==> u == Trim(identity.value.userId)
    ensures identity.None? || Trim(identity.value.userId) == "" ==> u == Anonymous
  {
    if identity.Some? && Trim(identity.value.userId) != "" then Trim(identity.value.userId) else Anonymous
  }

  const EventPrefix: string := "usageEvent|"
  const SummaryPrefix: string := "usageSummary|"

  /** The id of one usage event: the event prefix, the user key, the conversation id and the message index, joined by `|`. */
  function EventId(userId: string, conversationId: string, indexText: string): string {
    EventPrefix + userId + "|" + conversationId + "|" + indexText
  }

  /** The id of a user's running summary: the summary prefix followed by the user key. */
  function SummaryId(userId: string): string {
    SummaryPrefix + userId
  }

  /** Each user has a summary id of their own. */
  lemma SummaryIdInjective(u: string, v: string)
    requires SummaryId(u) == SummaryId(v)
    ensures u == v
  {
    assert u == SummaryId(u)[|SummaryPrefix|..];
    assert v == SummaryId(v)[|SummaryPrefix|..];
  }

  /** The two kinds of ids never meet: they differ at their sixth character. */
  lemma SummaryIdIsNoEventId(u: string, id: string)
    requires |id| >= |EventPrefix| && id[..|EventPrefix|] == EventPrefix
    ensures SummaryId(u) != id
  {
    assert SummaryId(u)[5] == 'S';
    assert id[5] == EventPrefix[5] == 'E';
  }

  lemma EventIdHasPrefix(userId: string, conversationId: string, indexText: string)
    ensures var id := EventId(userId, conversationId, indexText);
            |id| >= |EventPrefix| && id[..|EventPrefix|] == EventPrefix
  {
    var id := EventId(userId, conversationId, indexText);
    assert id == EventPrefix + (userId + "|" + conversationId + "|" + indexText);
  }

  // ---------------------------------------------------------------------------
  // Stored documents and the summary arithmetic
  // ---------------------------------------------------------------------------

  datatype UsageEvent = UsageEvent(
    id: string,
    userId: string,
    conversationId: string,
    assistantMessageIndex: real,
    modelId: Option<string>,
    pricingModelId: Option<string>,
    priced: bool,
    inputTokens: real,
    outputTokens: real,
    totalCostUSD: real,
    createdAt: string)

  /** A running summary; `extra` holds whatever other properties the stored document carries. */
  datatype UsageSummary = UsageSummary(
    id: string,
    userId: string,
    totalCostUSD: real,
    totalInputTokens: real,
    totalOutputTokens: real,
    totalAssistantMessages: nat,
    createdAt: string,
    updatedAt: string,
    extra: map<string, Value>)

  /** A document of the store, told apart by its `type` property. */
  datatype Doc = Event(event: UsageEvent) | Summary(summary: UsageSummary)

  /** The four counters a summary keeps. */
  datatype Tally = Tally(costUSD: real, inputTokens: real, outputTokens: real, assistantMessages: nat) {
    function Plus(t: Tally): Tally {
      Tally(costUSD + t.costUSD, inputTokens + t.inputTokens, outputTokens + t.outputTokens,
            assistantMessages + t.assistantMessages)
    }
  }

  const Zero: Tally := Tally(0.0, 0.0, 0.0, 0)

  /** What one event adds to its user's summary. */
  function Delta(e: UsageEvent): Tally {
    Tally(e.totalCostUSD, e.inputTokens, e.outputTokens, 1)
  }

  function TallyOf(s: UsageSummary): Tally {
    Tally(s.totalCostUSD, s.totalInputTokens, s.totalOutputTokens, s.totalAssistantMessages)
  }

  /** The summary counters, or zero when the user has no summary. */
  function ExistingTally(existing: Option<UsageSummary>): Tally {
    if existing.Some? then TallyOf(existing.value) else Zero
  }

  /**
   * The next summary document: the existing summary (or nothing) advanced by one event; other
   * properties of the existing document are kept.
   */
  function NextSummary(existing: Option<UsageSummary>, e: UsageEvent, summaryId: string, now: string)
    : (s: UsageSummary)
    ensures s.id == summaryId && s.userId == e.userId
    ensures TallyOf(s) == ExistingTally(existing).Plus(Delta(e))
    ensures s.totalAssistantMessages >= 1
    ensures s.createdAt == (if existing.Some? then existing.value.createdAt else now)
    ensures s.updatedAt == now
    ensures s.extra == (if existing.Some? then existing.value.extra else map[])
  {
    var base := ExistingTally(existing);
    UsageSummary(
      id := summaryId,
      userId := e.userId,
      totalCostUSD := base.costUSD + e.totalCostUSD,
      totalInputTokens := base.inputTokens + e.inputTokens,
      totalOutputTokens := base.outputTokens + e.outputTokens,
      totalAssistantMessages := base.assistantMessages + 1,
      createdAt := if existing.Some? then existing.value.createdAt else now,
      updatedAt := now,
      extra := if existing.Some? then existing.value.extra else map[])
  }

  /** The summary query: the document stored under the user's summary id, if it is that user's summary. */
  function FindSummary(docs: map<string, Doc>, userId: string): Option<UsageSummary> {
    var id := SummaryId(userId);
    if id in docs && docs[id].Summary? && docs[id].summary.userId == userId
    then Some(docs[id].summary) else None
  }

  /** What the store says a user's totals are. */
  function StoredTally(docs: map<string, Doc>, userId: string): Tally {
    ExistingTally(FindSummary(docs, userId))
  }

  /** The sum of the deltas of the user's events among `ids`. */
  function EventsTally(docs: map<string, Doc>, ids: seq<string>, userId: string): Tally {
    if ids == [] then Zero
    else
      var last := ids[|ids| - 1];
      var before := EventsTally(docs, ids[..|ids| - 1], userId);
      if last in docs && docs[last].Event? && docs[last].event.userId == userId
      then before.Plus(Delta(docs[last].event))
      else before
  }

  /** The tally over `ids` depends only on the documents stored under those ids. */
  lemma {:induction false} EventsTallyFrame(docs: map<string, Doc>, docs': map<string, Doc>,
                                            ids: seq<string>, userId: string)
    requires forall id :: id in ids ==> (id in docs <==> id in docs')
    requires forall id :: id in ids && id in docs ==> docs[id] == docs'[id]
    ensures EventsTally(docs, ids, userId) == EventsTally(docs', ids, userId)
  {
    if ids != [] {
      EventsTallyFrame(docs, docs', ids[..|ids| - 1], userId);
    }
  }

  predicate NoDuplicates(ids: seq<string>) {
    forall i, j :: 0 <= i < j < |ids| ==> ids[i] != ids[j]
  }

  predicate IsEventKey(id: string) {
    |id| >= |EventPrefix| && id[..|EventPrefix|] == EventPrefix
  }

  /** Every user's stored totals are the sums over the events in `counted`. */
  ghost predicate Tallied(docs: map<string, Doc>, counted: seq<string>) {
    forall u :: StoredTally(docs, u) == EventsTally(docs, counted, u)
  }

  /** Storing a new event document touches no user's summary and no counted event. */
  lemma CreateKeepsTallies(docs: map<string, Doc>, counted: seq<string>, eventId: string, e: UsageEvent)
    requires IsEventKey(eventId) && eventId !in counted
    requires Tallied(docs, counted)
    ensures Tallied(docs[eventId := Event(e)], counted)
  {
    var docs' := docs[eventId := Event(e)];
    forall u ensures StoredTally(docs', u) == EventsTally(docs', counted, u) {
      SummaryIdIsNoEventId(u, eventId);
      EventsTallyFrame(docs, docs', counted, u);
    }
  }

  /**
   * Upserting the advanced summary after the event `eventId` was stored keeps
   * the ledger invariant once that event is counted: its user's totals grow by
   * exactly its delta and every other user's stay as they were.
   */
  lemma UpsertCountsEvent(docs: map<string, Doc>, counted: seq<string>, eventId: string,
                          e: UsageEvent, now: string)
    requires eventId in docs && docs[eventId] == Event(e)
    requires IsEventKey(eventId) && eventId !in counted
    requires forall id :: id in counted ==> IsEventKey(id)
    requires Tallied(docs, counted)
    ensures var summaryId := SummaryId(e.userId);
            Tallied(docs[summaryId := Summary(NextSummary(FindSummary(docs, e.userId), e, summaryId, now))],
                    counted + [eventId])
  {
    var summaryId := SummaryId(e.userId);
    var docs' := docs[summaryId := Summary(NextSummary(FindSummary(docs, e.userId), e, summaryId, now))];
    var counted' := counted + [eventId];
    SummaryIdIsNoEventId(e.userId, eventId);
    assert counted'[..|counted'| - 1] == counted;
    forall u ensures StoredTally(docs', u) == EventsTally(docs', counted', u) {
      forall id | id in counted ensures id != summaryId {
        SummaryIdIsNoEventId(e.userId, id);
      }
      EventsTallyFrame(docs, docs', counted, u);
      if u != e.userId && SummaryId(u) == summaryId {
        SummaryIdInjective(u, e.userId);
      }
    }
  }

  // ---------------------------------------------------------------------------
  // The store and persistUsageToCosmos
  // ---------------------------------------------------------------------------

  /** The injected store failures of one call. */
  datatype Faults = Faults(containerUnavailable: bool, createFails: bool, summaryFails: bool)

  /** How a persist call ended; none of these reaches the HTTP caller. */
  datatype Outcome = Unavailable | Duplicate | CreateFailed | SummaryFailed | Recorded

  datatype Reply = Text(status: int, text: string) | OkBody(status: int, ok: bool)

  class Ledger {
    /** The container: every document by id. */
    var docs: map<string, Doc>
    /** The runtime's number-to-text conversion used in template strings. */
    const formatNumber: real -> string

    /** Ids of the event documents created, in creation order. */
    ghost var created: seq<string>
    /** Ids of the created events whose summary update went through. */
    ghost var counted: seq<string>
    /** Number of calls whose summary query or upsert failed. */
    ghost var summaryFailures: nat

    ghost predicate Valid()
      reads this
    {
      && NoDuplicates(created)
      && (forall id :: id in counted ==> id in created)
      && (forall id :: id in created ==> IsEventKey(id) && id in docs && docs[id].Event?)
      && (forall id :: id in docs && docs[id].Event? ==> id in created)
      && Tallied(docs, counted)
      && (summaryFailures == 0 ==> counted == created)
    }

    constructor (formatNumber: real -> string)
      ensures Valid()
      ensures docs == map[] && this.formatNumber == formatNumber
      ensures created == [] && counted == [] && summaryFailures == 0
    {
      this.formatNumber := formatNumber;
      docs := map[];
      created := [];
      counted := [];
      summaryFailures := 0;
    }

    /** The id of the event a submission creates. */
    function EventKey(input: UsageInput, identity: Option<Identity>): string
      reads this
    {
      EventId(UserKey(identity), input.conversationId, formatNumber(input.assistantMessageIndex))
    }

    /** The event document a submission creates. */
    function EventFor(input: UsageInput, identity: Option<Identity>, now: string): (e: UsageEvent)
      reads this
      ensures e.id == EventKey(input, identity) && e.userId == UserKey(identity)
      ensures Delta(e) == Tally(input.totalCostUSD, input.inputTokens, input.outputTokens, 1)
    {
      UsageEvent(EventKey(input, identity), UserKey(identity), input.conversationId,
                 input.assistantMessageIndex, input.modelId, input.pricingModelId, input.priced,
                 input.inputTokens, input.outputTokens, input.totalCostUSD, now)
    }

    /**
     * The new state after persisting one submission: unchanged when the container
     * is unavailable, the event id is taken or the create fails; otherwise the
     * event is stored under its id and, unless the summary step fails, the
     * user's summary is replaced by the one advanced by the event.
     */
    twostate predicate Persisted(input: UsageInput, identity: Option<Identity>, now: string, faults: Faults)
      reads this
    {
      var key := EventKey(input, identity);
      var u := UserKey(identity);
      var e := EventFor(input, identity, now);
      var withEvent := old(docs)[key := Event(e)];
      if faults.containerUnavailable || key in old(docs) || faults.createFails then
        && docs == old(docs) && created == old(created) && counted == old(counted)
        && summaryFailures == old(summaryFailures)
      else if faults.summaryFails then
        && docs == withEvent && created == old(created) + [key] && counted == old(counted)
        && summaryFailures == old(summaryFailures) + 1
      else
        && docs == withEvent[SummaryId(u) := Summary(NextSummary(FindSummary(withEvent, u), e, SummaryId(u), now))]
        && created == old(created) + [key] && counted == old(counted) + [key]
        && summaryFailures == old(summaryFailures)
    }

    /**
     * The write path once the event's id is free: store the event, then read
     * the user's summary and upsert it advanced by the event, unless that step fails.
     */
    method Record(e: UsageEvent, now: string, summaryFails: bool) returns (outcome: Outcome)
      requires Valid()
      requires IsEventKey(e.id) && e.id !in docs
      modifies this
      ensures Valid()
      ensures created == old(created) + [e.id]
      ensures summaryFails ==>
                && outcome == SummaryFailed && docs == old(docs)[e.id := Event(e)]
                && counted == old(counted) && summaryFailures == old(summaryFailures) + 1
      ensures !summaryFails ==>
                var withEvent := old(docs)[e.id := Event(e)];
                && outcome == Recorded
                && docs == withEvent[SummaryId(e.userId) :=
                             Summary(NextSummary(FindSummary(withEvent, e.userId), e, SummaryId(e.userId), now))]
                && counted == old(counted) + [e.id] && summaryFailures == old(summaryFailures)
                && StoredTally(docs, e.userId) == StoredTally(old(docs), e.userId).Plus(Delta(e))
      ensures summaryFailures == 0 ==> Tallied(docs, created)
    {
      CreateKeepsTallies(docs, counted, e.id, e);
      docs := docs[e.id := Event(e)];
      created := created + [e.id];

      if summaryFails {
        summaryFailures := summaryFailures + 1;
        return SummaryFailed;
      }
      var summaryId := SummaryId(e.userId);
      SummaryIdIsNoEventId(e.userId, e.id);
      assert FindSummary(docs, e.userId) == FindSummary(old(docs), e.userId);
      var next := NextSummary(FindSummary(docs, e.userId), e, summaryId, now);
      UpsertCountsEvent(docs, counted, e.id, e, now);
      forall id | id in created ensures id != summaryId {
        SummaryIdIsNoEventId(e.userId, id);
      }
      docs := docs[summaryId := Summary(next)];
      counted := counted + [e.id];
      return Recorded;
    }

    /**
     * Persisting one submission: create the event under its deterministic id;
     * a conflict means it was recorded before, and nothing changes. After a
     * successful create, the user's summary is advanced by the event.
     */
    method Persist(input: UsageInput, identity: Option<Identity>, now: string, faults: Faults)
      returns (outcome: Outcome)
      requires Valid()
      modifies this
      ensures Valid()
      ensures Persisted(input, identity, now, faults)
      ensures outcome == if faults.containerUnavailable then Unavailable
                         else if EventKey(input, identity) in old(docs) then Duplicate
                         else if faults.createFails then CreateFailed
                         else if faults.summaryFails then SummaryFailed
                         else Recorded
      // the event is stored whenever the container answers and the create does not fail
      ensures !faults.containerUnavailable && !faults.createFails ==> EventKey(input, identity) in docs
      // a recorded event advances exactly its user's summary by its delta
      ensures outcome == Recorded ==>
                StoredTally(docs, UserKey(identity))
                  == StoredTally(old(docs), UserKey(identity)).Plus(Delta(EventFor(input, identity, now)))
      // with no summary failure so far, every summary sums exactly the events created
      ensures summaryFailures == 0 ==> Tallied(docs, created)
    {
      if faults.containerUnavailable {
        return Unavailable;
      }
      var userId := UserKey(identity);
      var eventId := EventId(userId, input.conversationId, formatNumber(input.assistantMessageIndex));
      var event := UsageEvent(eventId, userId, input.conversationId, input.assistantMessageIndex,
                              input.modelId, input.pricingModelId, input.priced,
                              input.inputTokens, input.outputTokens, input.totalCostUSD, now);
      assert eventId == EventKey(input, identity) && event == EventFor(input, identity, now);

      // the create fails with a conflict when the id is taken
      if eventId in docs {
        return Duplicate;
      }
      if faults.createFails {
        return CreateFailed;
      }
      EventIdHasPrefix(userId, input.conversationId, formatNumber(input.assistantMessageIndex));
      outcome := Record(event, now, faults.summaryFails);
    }

    /** The handler: 405 unless POST, 400 for the first failing check, else 200 whatever the store did. */
    method Handle(httpMethod: string, body: Option<Value>, identity: Option<Identity>, now: string,
                  faults: Faults)
      returns (reply: Reply)
      requires Valid()
      modifies this
      ensures Valid()
      ensures httpMethod != "POST" ==> reply == Text(405, "Method Not Allowed")
      ensures httpMethod == "POST" && Validate(body).Rejected? ==> reply == Text(400, Validate(body).message)
      ensures httpMethod == "POST" && Validate(body).Threw? ==> reply == OkBody(200, false)
      ensures httpMethod == "POST" && Validate(body).Accepted? ==> reply == OkBody(200, true)
      // an accepted submission is persisted
      ensures httpMethod == "POST" && Validate(body).Accepted? ==>
                Persisted(Validate(body).input, identity, now, faults)
      ensures httpMethod == "POST" && Validate(body).Accepted?
              && !faults.containerUnavailable && !faults.createFails ==>
                EventKey(Validate(body).input, identity) in docs
      ensures httpMethod == "POST" && Validate(body).Accepted? && !faults.containerUnavailable
              && EventKey(Validate(body).input, identity) !in old(docs)
              && !faults.createFails && !faults.summaryFails ==>
                StoredTally(docs, UserKey(identity))
                  == StoredTally(old(docs), UserKey(identity)).Plus(Delta(EventFor(Validate(body).input, identity, now)))
      // only an accepted submission can write
      ensures httpMethod != "POST" || !Validate(body).Accepted? ==>
                docs == old(docs) && created == old(created) && counted == old(counted)
                && summaryFailures == old(summaryFailures)
    {
      if httpMethod != "POST" {
        return Text(405, "Method Not Allowed");
      }
      var v := Validate(body);
      match v
      case Threw =>
        return OkBody(200, false);
      case Rejected(message) =>
        return Text(400, message);
      case Accepted(input) =>
        var _ := Persist(input, identity, now, faults);
        return OkBody(200, true);
    }
  }

  /** Submitting the same event twice counts it once: the second create conflicts. */
  method SubmitTwice(ledger: Ledger, input: UsageInput, identity: Option<Identity>,
                     now: string, later: string)
    requires ledger.Valid()
    modifies ledger
    ensures ledger.Valid()
    ensures ledger.created == if ledger.EventKey(input, identity) in old(ledger.docs) then old(ledger.created)
                              else old(ledger.created) + [ledger.EventKey(input, identity)]
    ensures ledger.EventKey(input, identity) in old(ledger.docs) ==> ledger.docs == old(ledger.docs)
    ensures ledger.EventKey(input, identity) !in old(ledger.docs) ==>
              StoredTally(ledger.docs, UserKey(identity))
                == StoredTally(old(ledger.docs), UserKey(identity))
                     .Plus(Tally(input.totalCostUSD, input.inputTokens, input.outputTokens, 1))
  {
    var healthy := Faults(false, false, false);
    var first := ledger.Persist(input, identity, now, healthy);
    ghost var afterFirst := ledger.docs;
    ghost var createdAfterFirst := ledger.created;
    var second := ledger.Persist(input, identity, later, healthy);
    assert second == Duplicate;
  }
}
