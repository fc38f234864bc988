/** The SQL-backed HTTP API: registration, WhatsApp numbers, topics,
    schedules and the manual trigger. Each endpoint is a chain of guards on
    ownership and on the free-tier limits, then one write through the CRUD
    layer (or one task enqueued). The authenticated user is an explicit
    parameter: it is a row of the users table. */
module MainApi {
  import opened Seqs
  import opened Models
  import opened Http
  import opened TierPolicy
  import opened Crud

  // ----- the invariant the endpoints keep -----

  /** Every number and topic belongs to an existing user, every schedule to an
      existing topic (ids are positions plus one). */
  ghost predicate References(users: seq<User>, numbers: seq<WhatsAppNumber>, topics: seq<Topic>, schedules: seq<Schedule>)
  {
    && (forall k :: 0 <= k < |numbers| ==> 1 <= numbers[k].userId <= |users|)
    && (forall k :: 0 <= k < |topics| ==> 1 <= topics[k].userId <= |users|)
    && (forall k :: 0 <= k < |schedules| ==> 1 <= schedules[k].topicId <= |topics|)
  }

  /** The free limits for one user: at most 1 number, 3 topics and 3
      schedules, and every schedule daily. */
  ghost predicate WithinFreeLimits(numbers: seq<WhatsAppNumber>, topics: seq<Topic>, schedules: seq<Schedule>, userId: nat)
  {
    && CountUserNumbers(numbers, userId) <= FreeNumberLimit
    && CountUserTopics(topics, userId) <= FreeTopicLimit
    && CountUserSchedules(schedules, topics, userId) <= FreeScheduleLimit
    && forall j :: 0 <= j < |schedules| && TopicOwner(topics, schedules[j].topicId) == Some(userId)
         ==> schedules[j].frequency == Daily
  }

  /** Every free-tier user is within the free limits. */
  ghost predicate FreeQuotas(users: seq<User>, numbers: seq<WhatsAppNumber>, topics: seq<Topic>, schedules: seq<Schedule>)
  {
    forall k :: 0 <= k < |users| && IsFree(users[k].tier) ==> WithinFreeLimits(numbers, topics, schedules, users[k].id)
  }

  ghost predicate Consistent(users: seq<User>, numbers: seq<WhatsAppNumber>, topics: seq<Topic>, schedules: seq<Schedule>)
  {
    && SequentialIds(users, numbers, topics, schedules)
    && References(users, numbers, topics, schedules)
    && FreeQuotas(users, numbers, topics, schedules)
  }

  ghost predicate ApiInvariant(db: Database)
    reads db
  {
    Consistent(db.users, db.numbers, db.topics, db.schedules)
  }

  /** With autoincrement keys a user row is the only row with its id. */
  lemma SameIdSameUser(users: seq<User>, u: User, k: nat)
    requires forall j :: 0 <= j < |users| ==> users[j].id == j + 1
    requires u in users && k < |users| && users[k].id == u.id
    ensures users[k] == u
  {
  }

  /** A user id past every existing user owns nothing, so it is within the
      free limits. */
  lemma NewcomerWithinLimits(users: seq<User>, numbers: seq<WhatsAppNumber>,
                             topics: seq<Topic>, schedules: seq<Schedule>, id: nat)
    requires Consistent(users, numbers, topics, schedules)
    requires id > |users|
    ensures WithinFreeLimits(numbers, topics, schedules, id)
  {
    FilterNone(numbers, OwnsNumber(id));
    FilterNone(topics, OwnsTopic(id));
    forall j | 0 <= j < |schedules|
      ensures TopicOwner(topics, schedules[j].topicId) != Some(id)
    {
      GetTopicByKey(topics, schedules[j].topicId);
    }
    FilterNone(schedules, OwnsSchedule(topics, id));
  }

  /** Registering a fresh user keeps the invariant: the newcomer owns nothing. */
  lemma RegisterKeepsConsistent(users: seq<User>, numbers: seq<WhatsAppNumber>,
                                topics: seq<Topic>, schedules: seq<Schedule>, u: User)
    requires Consistent(users, numbers, topics, schedules)
    requires u.id == |users| + 1
    ensures Consistent(users + [u], numbers, topics, schedules)
  {
    var users' := users + [u];
    forall k | 0 <= k < |users'| && IsFree(users'[k].tier)
      ensures WithinFreeLimits(numbers, topics, schedules, users'[k].id)
    {
      if k < |users| {
        assert users'[k] == users[k];
      } else {
        NewcomerWithinLimits(users, numbers, topics, schedules, u.id);
      }
    }
  }

  /** A number admitted for `u` keeps every free user within the limits. */
  lemma {:induction false} AddNumberKeepsConsistent(users: seq<User>, numbers: seq<WhatsAppNumber>,
                                                    topics: seq<Topic>, schedules: seq<Schedule>, u: User, n: WhatsAppNumber)
    requires Consistent(users, numbers, topics, schedules)
    requires u in users && n.userId == u.id && n.id == |numbers| + 1
    requires NumberAdmission(u.tier, CountUserNumbers(numbers, u.id)).None?
    ensures Consistent(users, numbers + [n], topics, schedules)
  {
    forall k | 0 <= k < |users| && IsFree(users[k].tier)
      ensures WithinFreeLimits(numbers + [n], topics, schedules, users[k].id)
    {
      CountUserNumbersAppend(numbers, n, users[k].id);
      if users[k].id == u.id {
        SameIdSameUser(users, u, k);
      }
    }
  }

  /** A topic admitted for `u` keeps every free user within the limits; the
      fresh id is the topic of no schedule, so schedule ownership is unchanged. */
  lemma {:induction false} AddTopicKeepsConsistent(users: seq<User>, numbers: seq<WhatsAppNumber>,
                                                   topics: seq<Topic>, schedules: seq<Schedule>, u: User, t: Topic)
    requires Consistent(users, numbers, topics, schedules)
    requires u in users && t.userId == u.id && t.id == |topics| + 1
    requires TopicAdmission(u.tier, CountUserTopics(topics, u.id)).None?
    ensures Consistent(users, numbers, topics + [t], schedules)
  {
    forall j | 0 <= j < |schedules|
      ensures TopicOwner(topics + [t], schedules[j].topicId) == TopicOwner(topics, schedules[j].topicId)
    {
      GetTopicByKey(topics, schedules[j].topicId);
      FirstIndexAppend(topics, [t], TopicHasId(schedules[j].topicId));
    }
    forall k | 0 <= k < |users| && IsFree(users[k].tier)
      ensures WithinFreeLimits(numbers, topics + [t], schedules, users[k].id)
    {
      var id := users[k].id;
      CountUserTopicsAppend(topics, t, id);
      FilterCongruent(schedules, OwnsSchedule(topics + [t], id), OwnsSchedule(topics, id));
      if id == u.id {
        SameIdSameUser(users, u, k);
      }
    }
  }

  /** A schedule admitted on a topic of `u` keeps every free user within the
      limits: a free owner was below 3 schedules and asked for a daily one. */
  lemma {:induction false} AddScheduleKeepsConsistent(users: seq<User>, numbers: seq<WhatsAppNumber>,
                                                      topics: seq<Topic>, schedules: seq<Schedule>, u: User, s: Schedule)
    requires Consistent(users, numbers, topics, schedules)
    requires u in users && s.id == |schedules| + 1
    requires TopicOwner(topics, s.topicId) == Some(u.id)
    requires ScheduleAdmission(true, u.tier, CountUserSchedules(schedules, topics, u.id), FrequencyName(s.frequency)).None?
    ensures Consistent(users, numbers, topics, schedules + [s])
  {
    GetTopicByKey(topics, s.topicId);
    var schedules' := schedules + [s];
    forall k | 0 <= k < |users| && IsFree(users[k].tier)
      ensures WithinFreeLimits(numbers, topics, schedules', users[k].id)
    {
      var id := users[k].id;
      CountUserSchedulesAppend(schedules, topics, s, id);
      if id == u.id {
        SameIdSameUser(users, u, k);
      }
      forall j | 0 <= j < |schedules'| && TopicOwner(topics, schedules'[j].topicId) == Some(id)
        ensures schedules'[j].frequency == Daily
      {
        if j < |schedules| {
          assert schedules'[j] == schedules[j];
        }
      }
    }
  }

  /** Verifying a number keeps its owner, so every count stays as it was. */
  lemma VerifyKeepsConsistent(users: seq<User>, numbers: seq<WhatsAppNumber>,
                              topics: seq<Topic>, schedules: seq<Schedule>, i: nat, n: WhatsAppNumber)
    requires Consistent(users, numbers, topics, schedules)
    requires i < |numbers| && n.id == numbers[i].id && n.userId == numbers[i].userId
    ensures Consistent(users, numbers[i := n], topics, schedules)
  {
    forall k | 0 <= k < |users| && IsFree(users[k].tier)
      ensures WithinFreeLimits(numbers[i := n], topics, schedules, users[k].id)
    {
      FilterCountUpdate(numbers, i, n, OwnsNumber(users[k].id));
    }
  }

  // ----- endpoints -----

  /** `register_user`: a known email is refused with 400; otherwise a new
      free-tier user is stored. */
  method RegisterUser(db: Database, email: string, passwordHash: string) returns (r: Reply<User>)
    requires db.Valid() && ApiInvariant(db)
    modifies db
    ensures db.Valid() && ApiInvariant(db)
    ensures GetUserByEmail(old(db.users), email).Some? ==>
              r == Error(BadRequest, "Email already registered") && db.users == old(db.users)
    ensures GetUserByEmail(old(db.users), email).None? ==>
              && r.Ok? && r.value.email == email && r.value.passwordHash == passwordHash
              && IsFree(r.value.tier) && db.users == old(db.users) + [r.value]
    ensures db.numbers == old(db.numbers) && db.topics == old(db.topics)
    ensures db.schedules == old(db.schedules) && db.deliveries == old(db.deliveries)
  {
    if GetUserByEmail(db.users, email).Some? {
      return Error(BadRequest, "Email already registered");
    }
    RegisterKeepsConsistent(db.users, db.numbers, db.topics, db.schedules,
                            User(|db.users| + 1, email, passwordHash, DefaultTier));
    var u := db.CreateUser(email, passwordHash);
    r := Ok(u);
  }

  /** `create_whatsapp_number`: a free-tier user who already has a number is
      refused with 400 and nothing is stored; otherwise an unverified number
      with a fresh six-digit code is stored for the user. */
  method CreateWhatsAppNumber(db: Database, currentUser: User, phone: string, draw: int)
    returns (r: Reply<WhatsAppNumber>)
    requires db.Valid() && ApiInvariant(db) && currentUser in db.users
    requires 100000 <= draw <= 999999
    modifies db
    ensures db.Valid() && ApiInvariant(db)
    ensures var rejection := NumberAdmission(currentUser.tier, CountUserNumbers(old(db.numbers), currentUser.id));
            rejection.Some? ==> r == Error(rejection.value.status, rejection.value.detail) && db.numbers == old(db.numbers)
    ensures var rejection := NumberAdmission(currentUser.tier, CountUserNumbers(old(db.numbers), currentUser.id));
            rejection.None? ==>
              && r.Ok? && db.numbers == old(db.numbers) + [r.value]
              && r.value.userId == currentUser.id && r.value.phone == phone
              && !r.value.verified && r.value.code == Some(VerificationCode(draw))
    ensures db.users == old(db.users) && db.topics == old(db.topics)
    ensures db.schedules == old(db.schedules) && db.deliveries == old(db.deliveries)
  {
    var rejection := NumberAdmission(currentUser.tier, CountUserNumbers(db.numbers, currentUser.id));
    if rejection.Some? {
      return Error(rejection.value.status, rejection.value.detail);
    }
    AddNumberKeepsConsistent(db.users, db.numbers, db.topics, db.schedules, currentUser,
                             WhatsAppNumber(|db.numbers| + 1, currentUser.id, phone, false, Some(VerificationCode(draw)), None));
    var n := db.CreateWhatsAppNumber(phone, currentUser.id, draw);
    r := Ok(n);
  }

  /** `verify_whatsapp_number`: 404 when the number is missing or another
      user's, 400 when the code differs, otherwise the number is verified. */
  method VerifyWhatsAppNumber(db: Database, currentUser: User, numberId: nat, code: string, now: Timestamp)
    returns (r: Reply<string>)
    requires db.Valid() && ApiInvariant(db)
    modifies db
    ensures db.Valid() && ApiInvariant(db)
    ensures var n := GetNumber(old(db.numbers), numberId);
            n.None? || n.value.userId != currentUser.id ==>
              r == Error(NotFound, "WhatsApp number not found") && db.numbers == old(db.numbers)
    ensures var n := GetNumber(old(db.numbers), numberId);
            n.Some? && n.value.userId == currentUser.id && n.value.code != Some(code) ==>
              r == Error(BadRequest, "Invalid verification code") && db.numbers == old(db.numbers)
    ensures var i := NumberIndex(old(db.numbers), numberId);
            i.Some? && old(db.numbers)[i.value].userId == currentUser.id && old(db.numbers)[i.value].code == Some(code) ==>
              && r == Ok("verified")
              && db.numbers == old(db.numbers)[i.value := old(db.numbers)[i.value].(verified := true, verifiedAt := Some(now))]
    ensures db.users == old(db.users) && db.topics == old(db.topics)
    ensures db.schedules == old(db.schedules) && db.deliveries == old(db.deliveries)
  {
    var n := GetNumber(db.numbers, numberId);
    if n.None? || n.value.userId != currentUser.id {
      return Error(NotFound, "WhatsApp number not found");
    }
    var i := NumberIndex(db.numbers, numberId);
    if i.Some? {
      VerifyKeepsConsistent(db.users, db.numbers, db.topics, db.schedules, i.value,
                            db.numbers[i.value].(verified := true, verifiedAt := Some(now)));
    }
    var verified := db.VerifyWhatsAppNumber(numberId, code, now);
    if !verified {
      return Error(BadRequest, "Invalid verification code");
    }
    r := Ok("verified");
  }

  /** `create_topic`: a free-tier user with 3 topics is refused with 400;
      otherwise the topic is stored for the user. */
  method CreateTopic(db: Database, currentUser: User, name: string, keywords: string,
                     countryCode: string, language: string) returns (r: Reply<Topic>)
    requires db.Valid() && ApiInvariant(db) && currentUser in db.users
    modifies db
    ensures db.Valid() && ApiInvariant(db)
    ensures var rejection := TopicAdmission(currentUser.tier, CountUserTopics(old(db.topics), currentUser.id));
            rejection.Some? ==> r == Error(rejection.value.status, rejection.value.detail) && db.topics == old(db.topics)
    ensures var rejection := TopicAdmission(currentUser.tier, CountUserTopics(old(db.topics), currentUser.id));
            rejection.None? ==>
              && r.Ok? && db.topics == old(db.topics) + [r.value]
              && r.value == Topic(|old(db.topics)| + 1, currentUser.id, name, keywords, countryCode, language)
    ensures db.users == old(db.users) && db.numbers == old(db.numbers)
    ensures db.schedules == old(db.schedules) && db.deliveries == old(db.deliveries)
  {
    var rejection := TopicAdmission(currentUser.tier, CountUserTopics(db.topics, currentUser.id));
    if rejection.Some? {
      return Error(rejection.value.status, rejection.value.detail);
    }
    AddTopicKeepsConsistent(db.users, db.numbers, db.topics, db.schedules, currentUser,
                            Topic(|db.topics| + 1, currentUser.id, name, keywords, countryCode, language));
    var t := db.CreateTopic(currentUser.id, name, keywords, countryCode, language);
    r := Ok(t);
  }

  /** `create_schedule`: a missing or foreign topic is refused with 404 before
      any tier check; for the free tier the 3-schedule limit is checked before
      the hourly ban; otherwise the schedule is stored. */
  method CreateSchedule(db: Database, currentUser: User, topicId: nat, frequency: Frequency,
                        timeOfDay: Option<string>, active: bool) returns (r: Reply<Schedule>)
    requires db.Valid() && ApiInvariant(db) && currentUser in db.users
    modifies db
    ensures db.Valid() && ApiInvariant(db)
    ensures var rejection := ScheduleAdmission(TopicOwner(old(db.topics), topicId) == Some(currentUser.id), currentUser.tier,
                                               CountUserSchedules(old(db.schedules), old(db.topics), currentUser.id),
                                               FrequencyName(frequency));
            rejection.Some? ==> r == Error(rejection.value.status, rejection.value.detail) && db.schedules == old(db.schedules)
    ensures var rejection := ScheduleAdmission(TopicOwner(old(db.topics), topicId) == Some(currentUser.id), currentUser.tier,
                                               CountUserSchedules(old(db.schedules), old(db.topics), currentUser.id),
                                               FrequencyName(frequency));
            rejection.None? ==>
              && r.Ok? && db.schedules == old(db.schedules) + [r.value]
              && r.value == Schedule(|old(db.schedules)| + 1, topicId, frequency, timeOfDay, active, None)
    ensures db.users == old(db.users) && db.numbers == old(db.numbers)
    ensures db.topics == old(db.topics) && db.deliveries == old(db.deliveries)
  {
    var owned := TopicOwner(db.topics, topicId) == Some(currentUser.id);
    var rejection := ScheduleAdmission(owned, currentUser.tier,
                                       CountUserSchedules(db.schedules, db.topics, currentUser.id),
                                       FrequencyName(frequency));
    if rejection.Some? {
      return Error(rejection.value.status, rejection.value.detail);
    }
    AddScheduleKeepsConsistent(db.users, db.numbers, db.topics, db.schedules, currentUser,
                               Schedule(|db.schedules| + 1, topicId, frequency, timeOfDay, active, None));
    var s := db.CreateSchedule(topicId, frequency, timeOfDay, active);
    r := Ok(s);
  }

  /** `trigger_update`: 404 when the schedule is missing or its topic is not
      the caller's; otherwise exactly one delivery task for that schedule is
      enqueued (`enqueued` lists the schedule ids handed to the Celery queue).
      The store is only read. */
  method TriggerUpdate(db: Database, currentUser: User, scheduleId: nat)
    returns (r: Reply<string>, enqueued: seq<nat>)
    ensures var s := GetSchedule(db.schedules, scheduleId);
            var owned := s.Some? && TopicOwner(db.topics, s.value.topicId) == Some(currentUser.id);
            if owned then r == Ok("scheduled") && enqueued == [scheduleId]
            else r == Error(NotFound, "Schedule not found") && enqueued == []
  {
    var s := GetSchedule(db.schedules, scheduleId);
    var owned := s.Some? && TopicOwner(db.topics, s.value.topicId) == Some(currentUser.id);
    var rejection := TriggerAdmission(s.Some?, owned);
    if rejection.Some? {
      return Error(rejection.value.status, rejection.value.detail), [];
    }
    r, enqueued := Ok("scheduled"), [scheduleId];
  }
}
