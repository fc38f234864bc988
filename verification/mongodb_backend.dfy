/** The MongoDB store of the Mongo API: four collections of documents, the
    getters that expose `_id` as the text field "id", the inserts, the
    verification update, the counts and the active-schedule query. */
module MongoBackend {
  import opened Seqs
  import opened Bson

  type Doc = seq<Field>

  /** A stored document has this ObjectId as its `_id`. */
  function HasOid(hex: string): Doc -> bool
  {
    (d: Doc) => Lookup(d, "_id") == Some(Oid(hex))
  }

  /** A document's field equals the given value (a `find` filter). */
  function FieldIs(key: string, value: Value): Doc -> bool
  {
    (d: Doc) => Lookup(d, key) == Some(value)
  }

  /** The `_id` → `id` rewrite of the getters: `_id` is popped and its text
      stored under "id"; every other field is kept. */
  function ExposeId(d: Doc): (r: Doc)
    requires Lookup(d, "_id").Some? && Lookup(d, "_id").value.Oid?
    ensures Lookup(r, "id") == Some(Str(Lookup(d, "_id").value.hex))
    ensures Lookup(r, "_id").None?
    ensures forall j :: j != "id" && j != "_id" ==> Lookup(r, j) == Lookup(d, j)
  {
    Put(Remove(d, "_id"), "id", Str(Lookup(d, "_id").value.hex))
  }

  /** What a `get_...(id)` getter gives: the exposed record, None, or the
      InvalidId that `ObjectId(id)` raises on text that is not an id. */
  datatype Fetched = Record(doc: Doc) | NoRecord | InvalidId

  /** `find_one({"_id": oid})` followed by the `_id` → `id` rewrite. */
  function FindByOid(coll: seq<Doc>, hex: string): (r: Fetched)
    ensures r != InvalidId
    ensures r == NoRecord <==> forall d :: d in coll ==> Lookup(d, "_id") != Some(Oid(hex))
    ensures r.Record? ==> Lookup(r.doc, "id") == Some(Str(hex)) && Lookup(r.doc, "_id").None?
  {
    match First(coll, HasOid(hex))
    case None => NoRecord
    case Some(d) => Record(ExposeId(d))
  }

  /** `get_user`, `get_whatsapp_number`, `get_topic`, `get_schedule`:
      the id is first read as an ObjectId. */
  function GetById(coll: seq<Doc>, id: string): (r: Fetched)
    ensures r == InvalidId <==> ParseOid(id).None?
  {
    match ParseOid(id)
    case None => InvalidId
    case Some(hex) => FindByOid(coll, hex)
  }

  /** The text of an id reaches the document with that id. */
  lemma GetByIdText(coll: seq<Doc>, id: string)
    requires IsOidText(id)
    ensures GetById(coll, id) == FindByOid(coll, id)
  {
    ParseOidText(id);
  }

  /** The document `insert_one` stores: the given fields under a new `_id`. */
  function Stored(d: Doc, newId: string): Doc
  {
    [Field("_id", Oid(newId))] + d
  }

  /** After an insert under a newId id, the getter finds exactly the stored
      document, exposed. */
  lemma InsertedIsFound(coll: seq<Doc>, d: Doc, newId: string)
    requires forall e :: e in coll ==> Lookup(e, "_id") != Some(Oid(newId))
    ensures FindByOid(coll + [Stored(d, newId)], newId) == Record(ExposeId(Stored(d, newId)))
  {
    var all := coll + [Stored(d, newId)];
    assert HasOid(newId)(all[|coll|]);
    assert FirstIndex(all, HasOid(newId)) == Some(|coll|);
  }

  /** Inserting a document does not change what any other id finds. */
  lemma InsertKeepsOthers(coll: seq<Doc>, d: Doc, newId: string, hex: string)
    requires hex != newId
    ensures FindByOid(coll + [Stored(d, newId)], hex) == FindByOid(coll, hex)
  {
    var all := coll + [Stored(d, newId)];
    assert !HasOid(hex)(all[|coll|]);
    match FirstIndex(coll, HasOid(hex))
    case Some(_) =>
      FirstIndexAppend(coll, [Stored(d, newId)], HasOid(hex));
    case None =>
      assert FirstIndex(all, HasOid(hex)).None?;
  }

  /** `count_documents({"user_id": user_id})`. */
  function CountByUser(coll: seq<Doc>, userId: string): (n: nat)
    ensures n <= |coll|
    ensures n == 0 <==> forall d :: d in coll ==> Lookup(d, "user_id") != Some(Str(userId))
  {
    var owned := Filter(coll, FieldIs("user_id", Str(userId)));
    if forall d :: d in coll ==> Lookup(d, "user_id") != Some(Str(userId)) then
      FilterNone(coll, FieldIs("user_id", Str(userId)));
      |owned|
    else
      var d :| d in coll && Lookup(d, "user_id") == Some(Str(userId));
      FilterMembership(coll, FieldIs("user_id", Str(userId)), d);
      |owned|
  }

  /** Adding a document changes a user's count by one exactly when the
      document is the user's. */
  lemma CountByUserAppend(coll: seq<Doc>, d: Doc, userId: string)
    ensures CountByUser(coll + [d], userId)
            == CountByUser(coll, userId) + (if Lookup(d, "user_id") == Some(Str(userId)) then 1 else 0)
  {
    FilterAppend(coll, [d], FieldIs("user_id", Str(userId)));
  }

  // ----- count_user_schedules -----

  /** One row of the aggregation for schedule `s` and topic `t`: the
      `$lookup` joins them when the topic's `_id` equals the schedule's
      "topic_id" value (an ObjectId never equals a string), and the `$match`
      keeps the row when the topic belongs to the user. */
  function JoinedAsWritten(s: Doc, userId: string): Doc -> bool
  {
    (t: Doc) => Lookup(t, "_id") == Lookup(s, "topic_id") && Lookup(t, "user_id") == Some(Str(userId))
  }

  /** `count_user_schedules` as written: the number of rows after the
      `$lookup`, `$unwind` and `$match` stages, 0 when there is none. */
  function CountUserSchedulesAsWritten(schedules: seq<Doc>, topics: seq<Doc>, userId: string): nat
  {
    if |schedules| == 0 then 0
    else CountUserSchedulesAsWritten(schedules[..|schedules| - 1], topics, userId)
         + |Filter(topics, JoinedAsWritten(schedules[|schedules| - 1], userId))|
  }

  /** Every topic `_id` is an ObjectId and every schedule stores its
      "topic_id" as text, as the create endpoints do. */
  predicate StoredAsCreated(schedules: seq<Doc>, topics: seq<Doc>)
  {
    && (forall t :: t in topics ==> Lookup(t, "_id").Some? && Lookup(t, "_id").value.Oid?)
    && (forall s :: s in schedules ==> Lookup(s, "topic_id").Some? && Lookup(s, "topic_id").value.Str?)
  }

  /** A schedule whose "topic_id" is text keeps the store as the endpoints
      store it. */
  lemma StoredAsCreatedAppend(schedules: seq<Doc>, topics: seq<Doc>, s: Doc)
    requires StoredAsCreated(schedules, topics)
    requires Lookup(s, "topic_id").Some? && Lookup(s, "topic_id").value.Str?
    ensures StoredAsCreated(schedules + [s], topics)
  {
  }

  /** With the documents stored as the endpoints store them, the aggregation
      never joins anything, so the count is 0 whatever the user has. */
  lemma {:induction false} CountAsWrittenIsZero(schedules: seq<Doc>, topics: seq<Doc>, userId: string)
    requires StoredAsCreated(schedules, topics)
    ensures CountUserSchedulesAsWritten(schedules, topics, userId) == 0
    decreases |schedules|
  {
    if |schedules| > 0 {
      var s := schedules[|schedules| - 1];
      assert StoredAsCreated(schedules[..|schedules| - 1], topics);
      CountAsWrittenIsZero(schedules[..|schedules| - 1], topics, userId);
      FilterNone(topics, JoinedAsWritten(s, userId));
    }
  }

  /** The topic a schedule refers to: its "topic_id" text read as an ObjectId. */
  function ScheduleTopic(topics: seq<Doc>, s: Doc): Option<Doc>
  {
    match Lookup(s, "topic_id")
    case Some(Str(id)) =>
      (match ParseOid(id)
       case Some(hex) => First(topics, HasOid(hex))
       case None => None)
    case _ => None
  }

  /** The schedule's topic exists and belongs to the user. */
  function ScheduleOwnedBy(topics: seq<Doc>, userId: string): Doc -> bool
  {
    (s: Doc) => ScheduleTopic(topics, s).Some? && Lookup(ScheduleTopic(topics, s).value, "user_id") == Some(Str(userId))
  }

  /** `count_user_schedules` as intended: the number of schedules whose topic
      belongs to the user, the topic found through the ObjectId the
      schedule's text names. */
  function CountUserSchedules(schedules: seq<Doc>, topics: seq<Doc>, userId: string): (n: nat)
    ensures n <= |schedules|
    ensures n == 0 <==> forall s :: s in schedules ==> !ScheduleOwnedBy(topics, userId)(s)
  {
    var owned := Filter(schedules, ScheduleOwnedBy(topics, userId));
    if forall s :: s in schedules ==> !ScheduleOwnedBy(topics, userId)(s) then
      FilterNone(schedules, ScheduleOwnedBy(topics, userId));
      |owned|
    else
      var s :| s in schedules && ScheduleOwnedBy(topics, userId)(s);
      FilterMembership(schedules, ScheduleOwnedBy(topics, userId), s);
      |owned|
  }

  /** A topic of the user, and a daily schedule on it, stored as the create
      endpoints store them. */
  function ExampleTopic(topicHex: string, userId: string): Doc
  {
    [Field("_id", Oid(topicHex)), Field("user_id", Str(userId))]
  }

  function ExampleSchedule(topicHex: string): Doc
  {
    [Field("topic_id", Str(topicHex)), Field("frequency", Str("daily"))]
  }

  /** The example schedule names the example topic, which belongs to the user. */
  lemma ExampleOwned(topicHex: string, userId: string)
    requires IsOidText(topicHex)
    ensures ScheduleOwnedBy([ExampleTopic(topicHex, userId)], userId)(ExampleSchedule(topicHex))
  {
    var topic := ExampleTopic(topicHex, userId);
    var s := ExampleSchedule(topicHex);
    assert Lookup(s, "topic_id") == Some(Str(topicHex));
    assert Lookup(topic, "user_id") == Some(Str(userId));
    ParseOidText(topicHex);
    assert FirstIndex([topic], HasOid(topicHex)) == Some(0);
    assert ScheduleTopic([topic], s) == Some(topic);
  }

  /** The example documents are stored as the create endpoints store them. */
  lemma ExampleStoredAsCreated(topicHex: string, userId: string)
    ensures var s := ExampleSchedule(topicHex);
            StoredAsCreated([s, s, s], [ExampleTopic(topicHex, userId)])
  {
    assert Lookup(ExampleSchedule(topicHex), "topic_id") == Some(Str(topicHex));
    assert Lookup(ExampleTopic(topicHex, userId), "_id") == Some(Oid(topicHex));
  }

  /** A user with three daily schedules on one topic of theirs: the
      aggregation as written counts none of them. */
  lemma CountExampleAsWritten(topicHex: string, userId: string)
    ensures var s := ExampleSchedule(topicHex);
            CountUserSchedulesAsWritten([s, s, s], [ExampleTopic(topicHex, userId)], userId) == 0
  {
    var s := ExampleSchedule(topicHex);
    ExampleStoredAsCreated(topicHex, userId);
    CountAsWrittenIsZero([s, s, s], [ExampleTopic(topicHex, userId)], userId);
  }

  /** The same user and schedules: the intended count is 3. */
  lemma CountExampleIntended(topicHex: string, userId: string)
    requires IsOidText(topicHex)
    ensures var s := ExampleSchedule(topicHex);
            CountUserSchedules([s, s, s], [ExampleTopic(topicHex, userId)], userId) == 3
  {
    var topics := [ExampleTopic(topicHex, userId)];
    var s := ExampleSchedule(topicHex);
    ExampleOwned(topicHex, userId);
    FilterAll([s, s, s], ScheduleOwnedBy(topics, userId));
  }

  // ----- get_active_schedules -----

  /** The query of `get_active_schedules`: "active" is true and, when a
      non-empty frequency is given, "frequency" equals it. */
  function ActiveQuery(frequency: Option<string>): Doc -> bool
  {
    (d: Doc) =>
      && Lookup(d, "active") == Some(Bool(true))
      && (frequency.None? || frequency.value == "" || Lookup(d, "frequency") == Some(Str(frequency.value)))
  }

  /** The exposed form of every document of a collection, in order. */
  function ExposeAll(coll: seq<Doc>): (r: seq<Doc>)
    requires forall d :: d in coll ==> Lookup(d, "_id").Some? && Lookup(d, "_id").value.Oid?
    ensures |r| == |coll|
  {
    seq(|coll|, k requires 0 <= k < |coll| => ExposeId(coll[k]))
  }

  /** The collection's documents all carry an ObjectId `_id`. */
  predicate AllHaveOid(coll: seq<Doc>)
  {
    forall d :: d in coll ==> Lookup(d, "_id").Some? && Lookup(d, "_id").value.Oid?
  }

  /** `get_active_schedules`: the active schedules, restricted to the
      frequency when a non-empty one is given, in collection order, exposed. */
  function GetActiveSchedules(schedules: seq<Doc>, frequency: Option<string>): (r: seq<Doc>)
    requires AllHaveOid(schedules)
    ensures var selected := Filter(schedules, ActiveQuery(frequency));
            && |r| == |selected|
            && forall k :: 0 <= k < |r| ==>
                 selected[k] in schedules && ActiveQuery(frequency)(selected[k]) && r[k] == ExposeId(selected[k])
  {
    var selected := Filter(schedules, ActiveQuery(frequency));
    forall k | 0 <= k < |selected|
      ensures selected[k] in schedules
    {
      FilterMembership(schedules, ActiveQuery(frequency), selected[k]);
    }
    ExposeAll(selected)
  }

  /** Every schedule the query matches is in the answer. */
  lemma ActiveSchedulesComplete(schedules: seq<Doc>, frequency: Option<string>, d: Doc)
    requires AllHaveOid(schedules)
    requires d in schedules && ActiveQuery(frequency)(d)
    ensures ExposeId(d) in GetActiveSchedules(schedules, frequency)
  {
    var selected := Filter(schedules, ActiveQuery(frequency));
    FilterMembership(schedules, ActiveQuery(frequency), d);
    var k :| 0 <= k < |selected| && selected[k] == d;
    assert GetActiveSchedules(schedules, frequency)[k] == ExposeId(d);
  }

  // ----- the store -----

  /** The four collections the API uses. */
  class MongoDatabase {
    var users: seq<Doc>
    var numbers: seq<Doc>
    var topics: seq<Doc>
    var schedules: seq<Doc>

    constructor ()
      ensures users == [] && numbers == [] && topics == [] && schedules == []
    {
      users, numbers, topics, schedules := [], [], [], [];
    }

    /** `create_user`: insert the document under a new id and return it as
        the getter reads it back. */
    method CreateUser(d: Doc, newId: string) returns (r: Doc)
      requires IsOidText(newId) && forall e :: e in users ==> Lookup(e, "_id") != Some(Oid(newId))
      modifies this
      ensures users == old(users) + [Stored(d, newId)]
      ensures r == ExposeId(Stored(d, newId)) && FindByOid(users, newId) == Record(r)
      ensures numbers == old(numbers) && topics == old(topics) && schedules == old(schedules)
    {
      InsertedIsFound(users, d, newId);
      users := users + [Stored(d, newId)];
      r := ExposeId(Stored(d, newId));
    }

    /** `create_whatsapp_number`: insert and read back. */
    method CreateWhatsAppNumber(d: Doc, newId: string) returns (r: Doc)
      requires IsOidText(newId) && forall e :: e in numbers ==> Lookup(e, "_id") != Some(Oid(newId))
      modifies this
      ensures numbers == old(numbers) + [Stored(d, newId)]
      ensures r == ExposeId(Stored(d, newId)) && FindByOid(numbers, newId) == Record(r)
      ensures users == old(users) && topics == old(topics) && schedules == old(schedules)
    {
      InsertedIsFound(numbers, d, newId);
      numbers := numbers + [Stored(d, newId)];
      r := ExposeId(Stored(d, newId));
    }

    /** `create_topic`: insert and read back. */
    method CreateTopic(d: Doc, newId: string) returns (r: Doc)
      requires IsOidText(newId) && forall e :: e in topics ==> Lookup(e, "_id") != Some(Oid(newId))
      modifies this
      ensures topics == old(topics) + [Stored(d, newId)]
      ensures r == ExposeId(Stored(d, newId)) && FindByOid(topics, newId) == Record(r)
      ensures users == old(users) && numbers == old(numbers) && schedules == old(schedules)
    {
      InsertedIsFound(topics, d, newId);
      topics := topics + [Stored(d, newId)];
      r := ExposeId(Stored(d, newId));
    }

    /** `create_schedule`: insert and read back. */
    method CreateSchedule(d: Doc, newId: string) returns (r: Doc)
      requires IsOidText(newId) && forall e :: e in schedules ==> Lookup(e, "_id") != Some(Oid(newId))
      modifies this
      ensures schedules == old(schedules) + [Stored(d, newId)]
      ensures r == ExposeId(Stored(d, newId)) && FindByOid(schedules, newId) == Record(r)
      ensures users == old(users) && numbers == old(numbers) && topics == old(topics)
    {
      InsertedIsFound(schedules, d, newId);
      schedules := schedules + [Stored(d, newId)];
      r := ExposeId(Stored(d, newId));
    }

    /** `update_user_subscription`: set the tier, whatever text it is, and
        "updated_at" on the user with that id; no user, no change. */
    method UpdateUserSubscription(userId: string, tier: string, now: int)
      requires IsOidText(userId)
      modifies this
      ensures match FirstIndex(old(users), HasOid(userId))
              case None => users == old(users)
              case Some(i) =>
                users == old(users)[i := Put(Put(old(users)[i], "subscription_tier", Str(tier)), "updated_at", Time(now))]
      ensures numbers == old(numbers) && topics == old(topics) && schedules == old(schedules)
    {
      match FirstIndex(users, HasOid(userId))
      case None =>
      case Some(i) =>
        users := users[i := Put(Put(users[i], "subscription_tier", Str(tier)), "updated_at", Time(now))];
    }

    /** `verify_whatsapp_number`: fetch the number; when it is missing or
        its code differs, answer False and change nothing; otherwise set
        "verified" and "verified_at" on it and answer True. A found number
        without "verification_code" makes `number["verification_code"]`
        raise KeyError, answered here by None, with nothing changed. */
    method VerifyWhatsAppNumber(numberId: string, code: string, now: int) returns (r: Option<bool>)
      requires IsOidText(numberId)
      modifies this
      ensures var found := FindByOid(old(numbers), numberId);
              r.None? <==> found.Record? && Lookup(found.doc, "verification_code").None?
      ensures var found := FindByOid(old(numbers), numberId);
              r == Some(true) <==> found.Record? && Lookup(found.doc, "verification_code") == Some(Str(code))
      ensures r != Some(true) ==> numbers == old(numbers)
      ensures r == Some(true) ==>
                var i := FirstIndex(old(numbers), HasOid(numberId)).value;
                numbers == old(numbers)[i := Put(Put(old(numbers)[i], "verified", Bool(true)), "verified_at", Time(now))]
      ensures users == old(users) && topics == old(topics) && schedules == old(schedules)
    {
      GetByIdText(numbers, numberId);
      var found := GetById(numbers, numberId);
      if !found.Record? {
        return Some(false);
      }
      var stored := Lookup(found.doc, "verification_code");
      if stored.None? {
        return None;
      }
      if stored != Some(Str(code)) {
        return Some(false);
      }
      var i := FirstIndex(numbers, HasOid(numberId)).value;
      numbers := numbers[i := Put(Put(numbers[i], "verified", Bool(true)), "verified_at", Time(now))];
      r := Some(true);
    }
  }
}
