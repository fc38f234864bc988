/** The endpoints of the Mongo API. Each takes the signed-in user's record
    (what `get_current_user` loads) and works on the MongoDB store; a raised
    exception that FastAPI does not map to a status is a 500. */
module MongoApp {
  import opened Seqs
  import opened Models
  import opened Http
  import opened TierPolicy
  import Crud
  import opened Bson
  import opened MongoBackend

  const ServerErrorDetail: string := "Internal Server Error"

  /** The signed-in user's record: an "id" text and a "subscription_tier" text. */
  predicate IsCurrentUser(current: Doc)
  {
    && Lookup(current, "id").Some? && Lookup(current, "id").value.Str? && IsOidText(Lookup(current, "id").value.s)
    && Lookup(current, "subscription_tier").Some? && Lookup(current, "subscription_tier").value.Str?
  }

  function CurrentId(current: Doc): string
    requires IsCurrentUser(current)
  {
    Lookup(current, "id").value.s
  }

  function CurrentTier(current: Doc): string
    requires IsCurrentUser(current)
  {
    Lookup(current, "subscription_tier").value.s
  }

  /** No stored document of the collection uses the id. */
  predicate Unused(coll: seq<Doc>, newId: string)
  {
    IsOidText(newId) && forall e :: e in coll ==> Lookup(e, "_id") != Some(Oid(newId))
  }

  /** A document was fetched but has no "user_id": reading `doc["user_id"]`
      is a KeyError, a 500. */
  predicate OwnerMissing(found: Fetched)
  {
    found.Record? && Lookup(found.doc, "user_id").None?
  }

  /** The document was fetched and belongs to the user. */
  predicate OwnedRecord(found: Fetched, userId: string)
  {
    found.Record? && Lookup(found.doc, "user_id") == Some(Str(userId))
  }

  // ----- register_user -----

  function NewUserDoc(email: string, passwordHash: string, now: int): Doc
  {
    [Field("email", Str(email)), Field("password_hash", Str(passwordHash)),
     Field("subscription_tier", Str(DefaultTier)), Field("created_at", Time(now))]
  }

  /** The stored user carries the given email and the tier "free". */
  lemma NewUserFields(email: string, passwordHash: string, now: int, newId: string)
    ensures var stored := Stored(NewUserDoc(email, passwordHash, now), newId);
            Lookup(stored, "email") == Some(Str(email)) && Lookup(stored, "subscription_tier") == Some(Str(DefaultTier))
  {
    var stored := Stored(NewUserDoc(email, passwordHash, now), newId);
    assert Lookup(stored, "subscription_tier") == Lookup(stored[1..], "subscription_tier")
        == Lookup(stored[2..], "subscription_tier") == Lookup(stored[3..], "subscription_tier");
  }

  /** At most one user per email. */
  ghost predicate UniqueEmails(users: seq<Doc>)
  {
    forall i, j :: 0 <= i < j < |users| && Lookup(users[i], "email").Some? ==>
      Lookup(users[i], "email") != Lookup(users[j], "email")
  }

  /** Adding a user whose email no stored user has keeps emails unique. */
  lemma UniqueEmailsAppend(users: seq<Doc>, d: Doc, email: string)
    requires UniqueEmails(users)
    requires First(users, FieldIs("email", Str(email))).None? && Lookup(d, "email") == Some(Str(email))
    ensures UniqueEmails(users + [d])
  {
    var all := users + [d];
    forall i, j | 0 <= i < j < |all| && Lookup(all[i], "email").Some?
      ensures Lookup(all[i], "email") != Lookup(all[j], "email")
    {
      if j == |users| {
        assert !FieldIs("email", Str(email))(users[i]);
      }
    }
  }

  /** `register_user`: a known email is refused with 400; otherwise a user
      with tier "free" is stored and returned with its new id. */
  method RegisterUser(db: MongoDatabase, email: string, passwordHash: string, now: int, newId: string)
    returns (r: Reply<Doc>)
    requires Unused(db.users, newId)
    modifies db
    ensures First(old(db.users), FieldIs("email", Str(email))).Some? ==>
              r == Error(BadRequest, "Email already registered") && db.users == old(db.users)
    ensures First(old(db.users), FieldIs("email", Str(email))).None? ==>
              && db.users == old(db.users) + [Stored(NewUserDoc(email, passwordHash, now), newId)]
              && r.Ok? && FindByOid(db.users, newId) == Record(r.value)
              && Lookup(r.value, "id") == Some(Str(newId))
              && Lookup(r.value, "email") == Some(Str(email))
              && Lookup(r.value, "subscription_tier") == Some(Str("free"))
    ensures UniqueEmails(old(db.users)) ==> UniqueEmails(db.users)
    ensures db.numbers == old(db.numbers) && db.topics == old(db.topics) && db.schedules == old(db.schedules)
  {
    if First(db.users, FieldIs("email", Str(email))).Some? {
      return Error(BadRequest, "Email already registered");
    }
    NewUserFields(email, passwordHash, now, newId);
    if UniqueEmails(db.users) {
      UniqueEmailsAppend(db.users, Stored(NewUserDoc(email, passwordHash, now), newId), email);
    }
    var user := db.CreateUser(NewUserDoc(email, passwordHash, now), newId);
    r := Ok(user);
  }

  // ----- update_subscription -----

  /** `update_subscription`: store the given tier, with no check of its
      text, and answer {"status": "success", "user": <the user read back>}. */
  method UpdateSubscription(db: MongoDatabase, current: Doc, tier: string, now: int) returns (r: Value)
    requires IsCurrentUser(current)
    modifies db
    ensures match FirstIndex(old(db.users), HasOid(CurrentId(current)))
            case None => db.users == old(db.users) && r == Dict([Field("status", Str("success")), Field("user", Null)])
            case Some(i) =>
              var updated := Put(Put(old(db.users)[i], "subscription_tier", Str(tier)), "updated_at", Time(now));
              && db.users == old(db.users)[i := updated]
              && r == Dict([Field("status", Str("success")), Field("user", Dict(ExposeId(updated)))])
              && Lookup(ExposeId(updated), "subscription_tier") == Some(Str(tier))
    ensures db.numbers == old(db.numbers) && db.topics == old(db.topics) && db.schedules == old(db.schedules)
  {
    var uid := CurrentId(current);
    db.UpdateUserSubscription(uid, tier, now);
    GetByIdText(db.users, uid);
    var user := match GetById(db.users, uid) case Record(d) => Dict(d) case _ => Null;
    r := Dict([Field("status", Str("success")), Field("user", user)]);
    match FirstIndex(old(db.users), HasOid(uid))
    case None =>
      assert FirstIndex(db.users, HasOid(uid)).None?;
    case Some(i) =>
      var updated := Put(Put(old(db.users)[i], "subscription_tier", Str(tier)), "updated_at", Time(now));
      FirstIndexUpdate(old(db.users), i, updated, HasOid(uid));
  }

  /** Changing an entry that keeps the property where the first match is
      keeps the first match where it was. */
  lemma FirstIndexUpdate(docs: seq<Doc>, i: nat, d: Doc, p: Doc -> bool)
    requires FirstIndex(docs, p) == Some(i) && p(d)
    ensures FirstIndex(docs[i := d], p) == Some(i)
    ensures First(docs[i := d], p) == Some(d)
  {
    var e := docs[i := d];
    forall k | 0 <= k < i
      ensures !p(e[k])
    {
      assert e[k] == docs[k];
    }
    FirstIndexIs(e, p, i);
  }

  // ----- WhatsApp numbers -----

  function NewNumberDoc(userId: string, phone: string, code: string, now: int): Doc
  {
    [Field("user_id", Str(userId)), Field("phone_number", Str(phone)), Field("verified", Bool(false)),
     Field("verification_code", Str(code)), Field("created_at", Time(now))]
  }

  /** The stored number carries the user, is unverified and holds the code. */
  lemma NewNumberFields(userId: string, phone: string, code: string, now: int, newId: string)
    ensures var stored := Stored(NewNumberDoc(userId, phone, code, now), newId);
            && Lookup(stored, "user_id") == Some(Str(userId))
            && Lookup(stored, "verified") == Some(Bool(false))
            && Lookup(stored, "verification_code") == Some(Str(code))
  {
    var stored := Stored(NewNumberDoc(userId, phone, code, now), newId);
    assert Lookup(stored, "verified") == Lookup(stored[1..], "verified") == Lookup(stored[2..], "verified")
        == Lookup(stored[3..], "verified");
    assert Lookup(stored, "verification_code") == Lookup(stored[1..], "verification_code")
        == Lookup(stored[2..], "verification_code") == Lookup(stored[3..], "verification_code")
        == Lookup(stored[4..], "verification_code");
  }

  /** `create_whatsapp_number`: a free user who already has a number is
      refused; otherwise an unverified number with a six-digit code from the
      draw is stored and returned. A free user never gets past one number. */
  method CreateWhatsAppNumber(db: MongoDatabase, current: Doc, phone: string, draw: int, now: int, newId: string)
    returns (r: Reply<Doc>)
    requires IsCurrentUser(current) && Unused(db.numbers, newId)
    requires 100000 <= draw <= 999999
    modifies db
    ensures var uid := CurrentId(current);
            match NumberAdmission(CurrentTier(current), CountByUser(old(db.numbers), uid))
            case Some(rejection) => r == Error(rejection.status, rejection.detail) && db.numbers == old(db.numbers)
            case None =>
              && db.numbers == old(db.numbers) + [Stored(NewNumberDoc(uid, phone, Crud.VerificationCode(draw), now), newId)]
              && r.Ok? && FindByOid(db.numbers, newId) == Record(r.value)
              && Lookup(r.value, "verified") == Some(Bool(false))
              && Lookup(r.value, "verification_code") == Some(Str(Crud.VerificationCode(draw)))
              && CountByUser(db.numbers, uid) == CountByUser(old(db.numbers), uid) + 1
    ensures IsFree(CurrentTier(current)) && CountByUser(old(db.numbers), CurrentId(current)) <= FreeNumberLimit ==>
              CountByUser(db.numbers, CurrentId(current)) <= FreeNumberLimit
    ensures db.users == old(db.users) && db.topics == old(db.topics) && db.schedules == old(db.schedules)
  {
    var uid := CurrentId(current);
    var admission := NumberAdmission(CurrentTier(current), CountByUser(db.numbers, uid));
    if admission.Some? {
      return Error(admission.value.status, admission.value.detail);
    }
    var d := NewNumberDoc(uid, phone, Crud.VerificationCode(draw), now);
    NewNumberFields(uid, phone, Crud.VerificationCode(draw), now, newId);
    CountByUserAppend(db.numbers, Stored(d, newId), uid);
    var number := db.CreateWhatsAppNumber(d, newId);
    r := Ok(number);
  }

  /** `verify_whatsapp_number`: text that is not an id is a 500, and so is a
      number without "user_id" or, once it is the user's, without
      "verification_code" (a KeyError); a missing number or another user's is
      404; a wrong code is 400 and changes nothing; the right code marks the
      number verified at `now`. */
  method VerifyWhatsAppNumber(db: MongoDatabase, current: Doc, numberId: string, code: string, now: int)
    returns (r: Reply<string>)
    requires IsCurrentUser(current)
    modifies db
    ensures var found := GetById(old(db.numbers), numberId);
            && (found == InvalidId || OwnerMissing(found) ==> r == Error(InternalServerError, ServerErrorDetail))
            && (found != InvalidId && !OwnerMissing(found) && !OwnedRecord(found, CurrentId(current)) ==>
                  r == Error(NotFound, "WhatsApp number not found"))
            && (OwnedRecord(found, CurrentId(current)) ==>
                  if Lookup(found.doc, "verification_code").None? then r == Error(InternalServerError, ServerErrorDetail)
                  else if Lookup(found.doc, "verification_code") == Some(Str(code)) then r == Ok("verified")
                  else r == Error(BadRequest, "Invalid verification code"))
    ensures !r.Ok? ==> db.numbers == old(db.numbers)
    ensures r.Ok? ==>
              var i := FirstIndex(old(db.numbers), HasOid(ParseOid(numberId).value)).value;
              db.numbers == old(db.numbers)[i := Put(Put(old(db.numbers)[i], "verified", Bool(true)), "verified_at", Time(now))]
    ensures db.users == old(db.users) && db.topics == old(db.topics) && db.schedules == old(db.schedules)
  {
    var found := GetById(db.numbers, numberId);
    if found == InvalidId || OwnerMissing(found) {
      return Error(InternalServerError, ServerErrorDetail);
    }
    if !OwnedRecord(found, CurrentId(current)) {
      return Error(NotFound, "WhatsApp number not found");
    }
    var hex := ParseOid(numberId).value;
    var verified := db.VerifyWhatsAppNumber(hex, code, now);
    match verified
    case None =>
      // the store's KeyError on "verification_code"
      return Error(InternalServerError, ServerErrorDetail);
    case Some(false) =>
      return Error(BadRequest, "Invalid verification code");
    case Some(true) =>
      r := Ok("verified");
  }

  // ----- topics -----

  function NewTopicDoc(userId: string, name: string, keywords: string, countryCode: string, language: string, now: int): Doc
  {
    [Field("user_id", Str(userId)), Field("name", Str(name)), Field("keywords", Str(keywords)),
     Field("country_code", Str(countryCode)), Field("language", Str(language)), Field("created_at", Time(now))]
  }

  /** `create_topic`: a free user with three topics is refused; otherwise the
      topic is stored and returned. A free user never gets past three topics. */
  method CreateTopic(db: MongoDatabase, current: Doc, name: string, keywords: string, countryCode: string,
                     language: string, now: int, newId: string)
    returns (r: Reply<Doc>)
    requires IsCurrentUser(current) && Unused(db.topics, newId)
    modifies db
    ensures var uid := CurrentId(current);
            match TopicAdmission(CurrentTier(current), CountByUser(old(db.topics), uid))
            case Some(rejection) => r == Error(rejection.status, rejection.detail) && db.topics == old(db.topics)
            case None =>
              && db.topics == old(db.topics) + [Stored(NewTopicDoc(uid, name, keywords, countryCode, language, now), newId)]
              && r.Ok? && FindByOid(db.topics, newId) == Record(r.value)
              && Lookup(r.value, "user_id") == Some(Str(uid))
              && CountByUser(db.topics, uid) == CountByUser(old(db.topics), uid) + 1
    ensures IsFree(CurrentTier(current)) && CountByUser(old(db.topics), CurrentId(current)) <= FreeTopicLimit ==>
              CountByUser(db.topics, CurrentId(current)) <= FreeTopicLimit
    ensures db.users == old(db.users) && db.numbers == old(db.numbers) && db.schedules == old(db.schedules)
  {
    var uid := CurrentId(current);
    var admission := TopicAdmission(CurrentTier(current), CountByUser(db.topics, uid));
    if admission.Some? {
      return Error(admission.value.status, admission.value.detail);
    }
    var d := NewTopicDoc(uid, name, keywords, countryCode, language, now);
    assert Lookup(Stored(d, newId), "user_id") == Some(Str(uid));
    CountByUserAppend(db.topics, Stored(d, newId), uid);
    var topic := db.CreateTopic(d, newId);
    r := Ok(topic);
  }

  // ----- schedules -----

  function NewScheduleDoc(topicId: string, frequency: string, timeOfDay: Option<string>, active: bool, now: int): Doc
  {
    [Field("topic_id", Str(topicId)), Field("frequency", Str(frequency)),
     Field("time_of_day", if timeOfDay.Some? then Str(timeOfDay.value) else Null),
     Field("active", Bool(active)), Field("created_at", Time(now))]
  }

  /** The getter's answer for a schedule's topic decides ownership as the
      schedule count does. */
  lemma OwnedRecordIsScheduleOwned(topics: seq<Doc>, topicId: string, s: Doc, userId: string)
    requires Lookup(s, "topic_id") == Some(Str(topicId))
    ensures OwnedRecord(GetById(topics, topicId), userId) <==> ScheduleOwnedBy(topics, userId)(s)
  {
  }

  /** The body of `create_schedule`, given the schedule count the endpoint
      reads for the user: text that is not an id is a 500, and so is a topic
      without an owner; then the topic must be the user's (404), then a free
      user is held to the count and to daily schedules (400); otherwise the
      schedule is stored with the topic id as text. */
  method AdmitSchedule(db: MongoDatabase, current: Doc, topicId: string, frequency: string,
                       timeOfDay: Option<string>, active: bool, now: int, newId: string, count: nat)
    returns (r: Reply<Doc>)
    requires IsCurrentUser(current) && Unused(db.schedules, newId)
    modifies db
    ensures var found := GetById(old(db.topics), topicId);
            && (found == InvalidId || OwnerMissing(found) ==>
                  r == Error(InternalServerError, ServerErrorDetail) && db.schedules == old(db.schedules))
            && (found != InvalidId && !OwnerMissing(found) ==>
                  match ScheduleAdmission(OwnedRecord(found, CurrentId(current)), CurrentTier(current), count, frequency)
                  case Some(rejection) => r == Error(rejection.status, rejection.detail) && db.schedules == old(db.schedules)
                  case None =>
                    && db.schedules == old(db.schedules) + [Stored(NewScheduleDoc(topicId, frequency, timeOfDay, active, now), newId)]
                    && r.Ok? && FindByOid(db.schedules, newId) == Record(r.value))
    ensures db.users == old(db.users) && db.numbers == old(db.numbers) && db.topics == old(db.topics)
  {
    var found := GetById(db.topics, topicId);
    if found == InvalidId || OwnerMissing(found) {
      return Error(InternalServerError, ServerErrorDetail);
    }
    var admission := ScheduleAdmission(OwnedRecord(found, CurrentId(current)), CurrentTier(current), count, frequency);
    if admission.Some? {
      return Error(admission.value.status, admission.value.detail);
    }
    var d := NewScheduleDoc(topicId, frequency, timeOfDay, active, now);
    var schedule := db.CreateSchedule(d, newId);
    r := Ok(schedule);
  }

  /** `create_schedule` as intended, counting the user's schedules through
      the ObjectId their "topic_id" names: a stored schedule raises the
      user's count by one, and a free user never gets past three schedules,
      none of them hourly. */
  method CreateSchedule(db: MongoDatabase, current: Doc, topicId: string, frequency: string,
                        timeOfDay: Option<string>, active: bool, now: int, newId: string)
    returns (r: Reply<Doc>)
    requires IsCurrentUser(current) && Unused(db.schedules, newId)
    modifies db
    ensures var uid := CurrentId(current);
            var found := GetById(old(db.topics), topicId);
            && (found == InvalidId || OwnerMissing(found) ==>
                  r == Error(InternalServerError, ServerErrorDetail) && db.schedules == old(db.schedules))
            && (found != InvalidId && !OwnerMissing(found) ==>
                  match ScheduleAdmission(OwnedRecord(found, uid), CurrentTier(current),
                                          CountUserSchedules(old(db.schedules), old(db.topics), uid), frequency)
                  case Some(rejection) => r == Error(rejection.status, rejection.detail) && db.schedules == old(db.schedules)
                  case None =>
                    && db.schedules == old(db.schedules) + [Stored(NewScheduleDoc(topicId, frequency, timeOfDay, active, now), newId)]
                    && r.Ok? && FindByOid(db.schedules, newId) == Record(r.value)
                    && CountUserSchedules(db.schedules, db.topics, uid) == CountUserSchedules(old(db.schedules), old(db.topics), uid) + 1)
    ensures IsFree(CurrentTier(current)) &&
            CountUserSchedules(old(db.schedules), old(db.topics), CurrentId(current)) <= FreeScheduleLimit ==>
              CountUserSchedules(db.schedules, db.topics, CurrentId(current)) <= FreeScheduleLimit
    ensures db.users == old(db.users) && db.numbers == old(db.numbers) && db.topics == old(db.topics)
  {
    var uid := CurrentId(current);
    var stored := Stored(NewScheduleDoc(topicId, frequency, timeOfDay, active, now), newId);
    assert Lookup(stored, "topic_id") == Some(Str(topicId));
    OwnedRecordIsScheduleOwned(db.topics, topicId, stored, uid);
    FilterAppend(db.schedules, [stored], ScheduleOwnedBy(db.topics, uid));
    r := AdmitSchedule(db, current, topicId, frequency, timeOfDay, active, now, newId,
                       CountUserSchedules(db.schedules, db.topics, uid));
  }

  /** `create_schedule` as written, counting with the aggregation as written.
      With the documents stored as the endpoints store them that count is 0,
      so the free cap never refuses: a daily schedule on a topic of the
      user's is always stored, whatever the tier and however many the user
      already has, and the store stays as the endpoints store it. */
  method CreateScheduleAsWritten(db: MongoDatabase, current: Doc, topicId: string, frequency: string,
                                 timeOfDay: Option<string>, active: bool, now: int, newId: string)
    returns (r: Reply<Doc>)
    requires IsCurrentUser(current) && Unused(db.schedules, newId)
    modifies db
    ensures var uid := CurrentId(current);
            var found := GetById(old(db.topics), topicId);
            && (found == InvalidId || OwnerMissing(found) ==>
                  r == Error(InternalServerError, ServerErrorDetail) && db.schedules == old(db.schedules))
            && (found != InvalidId && !OwnerMissing(found) ==>
                  match ScheduleAdmission(OwnedRecord(found, uid), CurrentTier(current),
                                          CountUserSchedulesAsWritten(old(db.schedules), old(db.topics), uid), frequency)
                  case Some(rejection) => r == Error(rejection.status, rejection.detail) && db.schedules == old(db.schedules)
                  case None =>
                    && db.schedules == old(db.schedules) + [Stored(NewScheduleDoc(topicId, frequency, timeOfDay, active, now), newId)]
                    && r.Ok? && FindByOid(db.schedules, newId) == Record(r.value))
    ensures StoredAsCreated(old(db.schedules), old(db.topics))
            && OwnedRecord(GetById(old(db.topics), topicId), CurrentId(current)) && frequency != "hourly" ==>
              r.Ok? && db.schedules == old(db.schedules) + [Stored(NewScheduleDoc(topicId, frequency, timeOfDay, active, now), newId)]
    ensures StoredAsCreated(old(db.schedules), old(db.topics)) ==> StoredAsCreated(db.schedules, db.topics)
    ensures db.users == old(db.users) && db.numbers == old(db.numbers) && db.topics == old(db.topics)
  {
    var uid := CurrentId(current);
    var stored := Stored(NewScheduleDoc(topicId, frequency, timeOfDay, active, now), newId);
    assert Lookup(stored, "topic_id") == Some(Str(topicId));
    var count := CountUserSchedulesAsWritten(db.schedules, db.topics, uid);
    if StoredAsCreated(db.schedules, db.topics) {
      CountAsWrittenIsZero(db.schedules, db.topics, uid);
      StoredAsCreatedAppend(db.schedules, db.topics, stored);
      assert frequency != "hourly" ==> ScheduleAdmission(true, CurrentTier(current), count, frequency).None?;
    }
    r := AdmitSchedule(db, current, topicId, frequency, timeOfDay, active, now, newId, count);
  }

  /** With the count as written, a free user who already has three daily
      schedules on a topic of theirs is admitted a fourth; the intended count
      refuses it. */
  lemma ScheduleCapExample(topicHex: string, userId: string)
    requires IsOidText(topicHex)
    ensures var topics := [ExampleTopic(topicHex, userId)];
            var schedules := [ExampleSchedule(topicHex), ExampleSchedule(topicHex), ExampleSchedule(topicHex)];
            && ScheduleAdmission(true, DefaultTier, CountUserSchedulesAsWritten(schedules, topics, userId), "daily").None?
            && ScheduleAdmission(true, DefaultTier, CountUserSchedules(schedules, topics, userId), "daily") == Some(ScheduleQuota)
  {
    CountExampleAsWritten(topicHex, userId);
    CountExampleIntended(topicHex, userId);
  }

  // ----- trigger_update -----

  /** `trigger_update` as written: after the schedule is fetched, its topic
      id is read as an attribute of the record, which a dictionary does not
      have, so every existing schedule ends in a 500. */
  method TriggerUpdateAsWritten(db: MongoDatabase, current: Doc, scheduleId: string) returns (r: Reply<Value>)
    requires IsCurrentUser(current)
    ensures GetById(db.schedules, scheduleId) == NoRecord ==> r == Error(NotFound, "Schedule not found")
    ensures GetById(db.schedules, scheduleId) != NoRecord ==> r == Error(InternalServerError, ServerErrorDetail)
    ensures !r.Ok?
  {
    var found := GetById(db.schedules, scheduleId);
    if found == InvalidId {
      return Error(InternalServerError, ServerErrorDetail);
    }
    if found == NoRecord {
      return Error(NotFound, "Schedule not found");
    }
    r := Error(InternalServerError, ServerErrorDetail);
  }

  /** The answer of a trigger that got through. */
  function Scheduled(scheduleId: string): Value
  {
    Dict([Field("status", Str("scheduled")), Field("schedule_id", Str(scheduleId))])
  }

  /** `trigger_update` as intended: the schedule's topic is read from its
      "topic_id" entry; a missing schedule, or one whose topic is missing or
      another user's, is 404 "Schedule not found", and a topic without an
      owner is a KeyError, a 500; otherwise it answers
      "scheduled" and dispatches nothing. */
  method TriggerUpdate(db: MongoDatabase, current: Doc, scheduleId: string) returns (r: Reply<Value>)
    requires IsCurrentUser(current)
    ensures GetById(db.schedules, scheduleId) == InvalidId ==> r == Error(InternalServerError, ServerErrorDetail)
    ensures GetById(db.schedules, scheduleId) == NoRecord ==> r == Error(NotFound, "Schedule not found")
    ensures r.Ok? <==>
              && GetById(db.schedules, scheduleId).Record?
              && ScheduleOwnedBy(db.topics, CurrentId(current))(GetById(db.schedules, scheduleId).doc)
    ensures var found := GetById(db.schedules, scheduleId);
            found.Record? && !(Lookup(found.doc, "topic_id").Some? && Lookup(found.doc, "topic_id").value.Str?)
            ==> r == Error(InternalServerError, ServerErrorDetail)
    ensures var found := GetById(db.schedules, scheduleId);
            found.Record? && Lookup(found.doc, "topic_id").Some? && Lookup(found.doc, "topic_id").value.Str? ==>
              var topic := GetById(db.topics, Lookup(found.doc, "topic_id").value.s);
              && (topic == InvalidId || OwnerMissing(topic) ==> r == Error(InternalServerError, ServerErrorDetail))
              && (topic == NoRecord || (topic.Record? && !OwnerMissing(topic) && !OwnedRecord(topic, CurrentId(current)))
                  ==> r == Error(NotFound, "Schedule not found"))
              && (OwnedRecord(topic, CurrentId(current)) ==> r == Ok(Scheduled(scheduleId)))
    ensures r.Ok? ==> r.value == Scheduled(scheduleId)
    ensures r.Error? ==> r.status in {NotFound, InternalServerError}
  {
    var found := GetById(db.schedules, scheduleId);
    if found == InvalidId {
      return Error(InternalServerError, ServerErrorDetail);
    }
    if found == NoRecord {
      return Error(NotFound, "Schedule not found");
    }
    var topicId := Lookup(found.doc, "topic_id");
    if !(topicId.Some? && topicId.value.Str?) {
      // a missing "topic_id" is a KeyError; a value that is not text is
      // not modelled and is answered 500 as well
      return Error(InternalServerError, ServerErrorDetail);
    }
    var topic := GetById(db.topics, topicId.value.s);
    if topic == InvalidId || OwnerMissing(topic) {
      return Error(InternalServerError, ServerErrorDetail);
    }
    OwnedRecordIsScheduleOwned(db.topics, topicId.value.s, found.doc, CurrentId(current));
    var admission := TriggerAdmission(true, OwnedRecord(topic, CurrentId(current)));
    if admission.Some? {
      return Error(admission.value.status, admission.value.detail);
    }
    r := Ok(Scheduled(scheduleId));
  }
}
