# WhatsApp news bot: a verified model of the backend rules

The system sends news digests over WhatsApp. A user registers, adds a
WhatsApp number and verifies it with a six-digit code, then defines topics
(keywords, country, language) and schedules (hourly, or daily at a time of
day). At the top of every hour, two dispatcher tasks pick the schedules that are due
and enqueue one delivery task each. A delivery task looks up the schedule, its
topic and the owner's first verified number. It then fetches up to three
articles for the topic, summarizes each with a language model, sends the
digest and records the delivery. Free-tier users are limited to 1 number,
3 topics and 3 daily schedules. As written, the MongoDB back end does not
enforce the schedule limit, because its schedule count is always 0 (see
Findings); `MongoApp.CreateSchedule` models the intended check and
`MongoApp.CreateScheduleAsWritten` the code as it stands.

There are two API back ends with the same rules: an SQL one (`main.py` over
`crud.py`) and a MongoDB one (`mongo_app.py` over `mongodb_backend.py`). The
dashboard validates phone numbers and codes before it submits them.

The model, module by module:

- `Seqs` (seqs.dfy): the `.filter(...).first()` and `.filter(...).all()`
  query shapes over a table held as a sequence in insertion order.
- `Models` (models.dfy): the records of the SQL tables. The tier is a string,
  because the backend only ever tests `== "free"`.
- `Http` (http.dfy): the reply of an endpoint, its value or an
  `HTTPException` status and detail.
- `TierPolicy` (tier_policy.dfy): the admission decisions both APIs make, in
  their order.
- `Digits` (digits.dfy): `str()` of a non-negative integer and its inverse;
  the `%H` hour field.
- `Crud` (crud.dfy): the SQL queries, and a `Database` class whose table
  fields the create and verify methods update.
- `MainApi` (main_api.dfy): the SQL endpoints as methods on the `Database`,
  with an invariant every endpoint keeps: every free user is within the free
  limits.
- `CeleryWorker` (celery_worker.dfy): the summary, the news message (a loop
  over the articles), the delivery task (a method that changes the
  `Database`) and the two dispatchers.
- `Bson` (bson.dfy): BSON values with ObjectIds as their lower-case text,
  dictionaries as ordered fields, and `serialize_object_id`.
- `MongoBackend` (mongodb_backend.dfy): the getters' `_id` → `id` rewrite,
  the counts, the active-schedule query, and a `MongoDatabase` class with four
  collections.
- `MongoApp` (mongo_app.dfy): the Mongo endpoints.
- `WhatsAppSetup` (whatsapp_setup.dfy): the two form validators. Each is
  matched token by token as its regular expression reads, and shown equal to
  a plain description of the strings it accepts.

External services are parameters:

- the NewsData answer is `fetch: NewsQuery -> NewsResponse`;
- the language model is `ai: Prompt -> AiReply`;
- Twilio is `transport: OutgoingMessage -> TwilioReply`;
- `datetime.now()` is a `now` argument;
- `random.randint(100000, 999999)` is a `draw` argument in that range;
- a new MongoDB ObjectId is a `newId` argument that no stored document uses;
- the signed-in user is an explicit argument.

## Model

| member | source | states |
|---|---|---|
| TierPolicy.NumberAdmission | backend/main.py:59-63 | a number is refused (400, "Free tier limited to 1 WhatsApp number") exactly when the tier is "free" and the user already has at least one; any other tier string is never limited |
| TierPolicy.TopicAdmission | backend/main.py:92-96 | a topic is refused (400) exactly when the tier is "free" and the user already has 3 or more |
| TierPolicy.ScheduleAdmission | backend/main.py:117-130 | a foreign or missing topic is 404 whatever the tier; for "free" only, 3 or more schedules is refused before the hourly ban, and hourly is refused only below the cap; admitted iff the topic is owned and the tier is not free or the request is daily and under the cap |
| TierPolicy.TriggerAdmission | backend/main.py:141-148 | the trigger is refused with 404 "Schedule not found" iff the schedule is missing or its topic is not the caller's |
| Crud.AuthenticateUser | backend/crud.py:34-40 | fails iff the email is unknown or the password does not match the stored hash; on success the result is exactly the first user with that email (`get_user_by_email`) |
| Crud.CountUserNumbersAppend | backend/crud.py:46-47 | a new number raises its owner's count by exactly one and no other user's |
| Crud.CountUserTopicsAppend | backend/crud.py:97-98 | a new topic raises its owner's count by exactly one and no other user's |
| Crud.CountUserSchedulesAppend | backend/crud.py:111-112 | a new schedule raises by one exactly the count of the owner of its topic (the join on topics) |
| Crud.GetUserTopics | backend/crud.py:94-95 | only the user's topics, at most `limit` of them, exactly the slice after skipping `skip` of the user's topics in order, empty when `skip` passes them all |
| Crud.GetActiveSchedules | backend/crud.py:121-125 | a schedule is returned iff it is active and, when a non-empty frequency is given, has that frequency |
| Crud.VerificationCode | backend/crud.py:52 | the code has exactly 6 characters, all digits, the first not '0', and reads back as the drawn number |
| Crud.GetTopicByKey | backend/crud.py:91-92 | with autoincrement keys, topic id k is row k-1 and any other id finds nothing |
| Crud.Database.CreateUser | backend/crud.py:26-32 | appends one user with the next id, the hash and the default tier "free"; no other table changes |
| Crud.Database.CreateWhatsAppNumber | backend/crud.py:49-77 | appends one unverified number for the user with the phone and the code of the draw; the verification send does not affect it; no other table changes |
| Crud.Database.VerifyWhatsAppNumber | backend/crud.py:79-88 | answers true iff the number exists and its code equals the given one exactly; then only that row becomes verified with `verified_at = now` (re-verifying re-stamps); otherwise nothing changes |
| Crud.Database.CreateTopic | backend/crud.py:100-105 | appends one topic with the next id for the user |
| Crud.Database.CreateSchedule | backend/crud.py:114-119 | appends one schedule with the next id, never run |
| Digits.DecimalRoundTrip | backend/crud.py:52 | `str(n)` is all digits and reads back as n |
| Digits.DecimalLength | backend/crud.py:52 | a number between 10^k and 10^(k+1) is written with k+1 characters |
| Digits.DecimalNoLeadingZero | backend/crud.py:52 | `str(n)` of a positive n does not start with '0' |
| Digits.TwoDigitsInjective | backend/celery_worker.py:184-190 | two hours give the same two-digit `%H` field iff they are equal |
| MainApi.RegisterKeepsConsistent | backend/main.py:33-38 | adding a user with the next id keeps every free user within the free limits (the newcomer owns nothing) |
| MainApi.NewcomerWithinLimits | backend/main.py:33-38 | an id past every stored user owns no number, topic or schedule |
| MainApi.AddNumberKeepsConsistent | backend/main.py:59-65 | a number the tier check admits keeps every free user at 1 number at most |
| MainApi.AddTopicKeepsConsistent | backend/main.py:92-98 | a topic the tier check admits keeps every free user at 3 topics at most, and no schedule changes owner |
| MainApi.AddScheduleKeepsConsistent | backend/main.py:117-132 | a schedule the checks admit keeps every free user at 3 schedules at most, all of them daily |
| MainApi.VerifyKeepsConsistent | backend/main.py:79 | verifying a number keeps its owner, so the invariant holds |
| MainApi.RegisterUser | backend/main.py:33-38 | a known email is 400 "Email already registered" and nothing is stored; otherwise one free-tier user with that email is appended; the invariant is kept |
| MainApi.CreateWhatsAppNumber | backend/main.py:53-65 | the tier check's refusal is returned with nothing stored; otherwise one unverified number for the caller with the drawn code is appended; the invariant is kept |
| MainApi.VerifyWhatsAppNumber | backend/main.py:67-83 | 404 for a missing or foreign number, 400 for a wrong code, both changing nothing; otherwise "verified" and exactly that number is verified at `now` |
| MainApi.CreateTopic | backend/main.py:86-98 | the tier check's refusal with nothing stored, or exactly one new topic for the caller; the invariant is kept |
| MainApi.CreateSchedule | backend/main.py:111-132 | ownership (404), then the free cap, then the hourly ban, in that order; otherwise exactly one new schedule; the invariant is kept |
| MainApi.TriggerUpdate | backend/main.py:135-153 | 404 and nothing enqueued for a missing schedule or a foreign or missing topic; otherwise "scheduled" with exactly one task for that schedule id |
| CeleryWorker.PromptTextInjective | backend/celery_worker.py:45 | different articles give different prompts, so the model is a function of the article |
| CeleryWorker.FallbackSummary | backend/celery_worker.py:50-53 | "(AI Unavailable) " followed by the text when it has at most 100 characters, else by its first 100 characters and "..."; the length follows |
| CeleryWorker.StripExact | backend/celery_worker.py:48 | `strip()` returns a slice of the reply from which only white space was cut at the two ends, and the slice neither starts nor ends with white space |
| CeleryWorker.StripIdempotent | backend/celery_worker.py:48 | stripping twice is stripping once |
| CeleryWorker.SummarizeNewsOutcome | backend/celery_worker.py:44-53 | on a reply, the summary is the slice of the reply left after cutting only white space from both ends, with no white space at either end of it; when the model raises, it is exactly the fallback summary of the article text, starting with "(AI Unavailable) " |
| CeleryWorker.ArticleBlock | backend/celery_worker.py:83 | the block of an article starts with the newspaper emoji |
| CeleryWorker.BlocksAt | backend/celery_worker.py:69-83 | block k of the message list is the block of article k |
| CeleryWorker.RenderArticles | backend/celery_worker.py:69-85 | the loop gives the blocks joined by a blank line, or the KeyError text of the first article lacking "title", "pubDate" or "link" |
| CeleryWorker.GetNewsForTopic | backend/celery_worker.py:55-89 | the text is the error text of a failed request, the digest of at most the first 3 results of a successful non-empty answer, or "No news found" |
| CeleryWorker.JoinStartsWithFirst | backend/celery_worker.py:85 | a join starts with its first part |
| CeleryWorker.JoinContainsPart | backend/celery_worker.py:85 | every part appears intact in the join at its offset |
| CeleryWorker.NewsTextIsDigestIff | backend/celery_worker.py:64-89 | the message starts with the newspaper emoji iff the answer succeeded with results and none of the first three lacks a key; otherwise (a failed request, a status other than "success", no results, or a missing key) it starts with the warning sign |
| CeleryWorker.DigestShape | backend/celery_worker.py:68-85 | a digest holds one block per used article (at most 3), each intact at its offset |
| CeleryWorker.DigestIgnoresLaterArticles | backend/celery_worker.py:70 | results after the third have no influence on the message |
| CeleryWorker.SendWhatsAppMessage | backend/celery_worker.py:91-102 | the SID iff the transport created the message for "whatsapp:" + number, None iff it raised |
| CeleryWorker.DeliveryStatus | backend/celery_worker.py:140 | "success" iff the SID is present and non-empty, "failed" otherwise |
| CeleryWorker.DeliveryTarget | backend/celery_worker.py:108-125 | a missing or inactive schedule, then a missing topic, then no verified number are refused with their messages, in that order; otherwise the target is the owner's first verified number |
| CeleryWorker.SendNewsUpdates | backend/celery_worker.py:104-152 | a refused run sends nothing and writes nothing; otherwise exactly one message goes to the first verified number, `last_run_at` is stamped even when the send failed, exactly one delivery with the status of the SID is appended, and the Celery task reports success |
| CeleryWorker.EnqueueAll | backend/celery_worker.py:169-172 | one task per selected schedule, in order, and the count enqueued |
| CeleryWorker.ScheduleHourlyUpdates | backend/celery_worker.py:159-172 | enqueues exactly the active hourly schedules, and reports how many |
| CeleryWorker.ScheduleDailyUpdates | backend/celery_worker.py:179-196 | enqueues exactly the active daily schedules whose time of day starts with the two-digit hour, and reports how many |
| CeleryWorker.DailyDueAtMostOncePerDay | backend/celery_worker.py:184-190 | a daily schedule is due at no more than one hour of the day |
| CeleryWorker.FormTimeDueExactlyAtItsHour | backend/celery_worker.py:184-190 | a schedule with an "HH:00" time from the form is due exactly at hour HH |
| Bson.ParseOid | backend/mongodb_backend.py:63 | `ObjectId(s)` succeeds iff s is 24 hexadecimal digits, and gives canonical lower-case id text |
| Bson.ParseOidText | backend/mongodb_backend.py:63-65 | the text of an id parses back to the same id |
| Bson.SerializeObjectId | backend/mongodb_backend.py:46-59 | the loops over a dictionary's items and a list's indices give the serialized tree |
| Bson.SerializedEntryClean | backend/mongodb_backend.py:46-59 | a rewritten entry holds no ObjectId at any depth and keeps its keys, list lengths and other leaves |
| Bson.SerializedClean | backend/mongodb_backend.py:46-59 | a serialized dictionary or list holds no ObjectId at any depth and keeps its shape; any other value is returned unchanged |
| Bson.SerializedEntryFixed | backend/mongodb_backend.py:46-59 | an entry is left unchanged iff it holds no ObjectId |
| Bson.SerializedIdempotent | backend/mongodb_backend.py:46-59 | serializing twice is serializing once |
| Bson.Lookup | backend/mongodb_backend.py:112 | a key is found iff some field has it, and the value found is held by a field with that key |
| Bson.Put | backend/mongodb_backend.py:117 | after setting a key it reads the new value and every other key reads as before |
| Bson.Remove | backend/mongodb_backend.py:65 | after popping a key it is absent and every other key reads as before |
| MongoBackend.ExposeId | backend/mongodb_backend.py:62-66 | the record has "id" holding the text of `_id`, no `_id`, and every other field unchanged |
| MongoBackend.FindByOid | backend/mongodb_backend.py:62-66 | None iff no document has that `_id`; a found record carries "id" and no `_id` |
| MongoBackend.GetById | backend/mongodb_backend.py:62-66 | InvalidId iff the text is not an ObjectId |
| MongoBackend.GetByIdText | backend/mongodb_backend.py:63 | the text of an id reaches the document with that id |
| MongoBackend.InsertedIsFound | backend/mongodb_backend.py:74-77 | after an insert under an unused id, the getter finds exactly the inserted document, exposed |
| MongoBackend.InsertKeepsOthers | backend/mongodb_backend.py:74-77 | an insert does not change what any other id finds |
| MongoBackend.CountByUser | backend/mongodb_backend.py:93-95 | at most the collection's size, and 0 iff no document has that "user_id" |
| MongoBackend.CountAsWrittenIsZero | backend/mongodb_backend.py:152-160 | with documents stored as the endpoints store them, the aggregation as written always counts 0 |
| MongoBackend.CountUserSchedules | backend/mongodb_backend.py:152-160 | the intended count is at most the number of schedules, and 0 iff no schedule's topic belongs to the user |
| MongoBackend.CountExampleAsWritten | backend/mongodb_backend.py:152-160 | a user with three schedules on a topic of theirs is counted 0 by the aggregation as written |
| MongoBackend.CountExampleIntended | backend/mongodb_backend.py:152-160 | the same user is counted 3 by the intended count |
| MongoBackend.GetActiveSchedules | backend/mongodb_backend.py:167-176 | in collection order, the exposed form of documents that are active and, when a frequency is given, of that frequency |
| MongoBackend.ActiveSchedulesComplete | backend/mongodb_backend.py:167-176 | every matching document is in the answer |
| MongoBackend.MongoDatabase.CreateUser | backend/mongodb_backend.py:74-77 | one document is appended and the returned record is what the getter reads back for the new id |
| MongoBackend.MongoDatabase.CreateWhatsAppNumber | backend/mongodb_backend.py:105-108 | one document is appended and read back by the new id |
| MongoBackend.MongoDatabase.CreateTopic | backend/mongodb_backend.py:140-143 | one document is appended and read back by the new id |
| MongoBackend.MongoDatabase.CreateSchedule | backend/mongodb_backend.py:162-165 | one document is appended and read back by the new id |
| MongoBackend.MongoDatabase.UpdateUserSubscription | backend/mongodb_backend.py:79-84 | the user with that id gets the given tier text and "updated_at"; no matching user, no change |
| MongoBackend.MongoDatabase.VerifyWhatsAppNumber | backend/mongodb_backend.py:110-119 | the KeyError (None) iff the number exists without "verification_code"; true iff the number exists and its code equals the given one, and only then are "verified" and "verified_at" set on it; false otherwise, changing nothing |
| MongoBackend.CountByUserAppend | backend/mongodb_backend.py:93-95 | a new document raises a user's `count_documents({"user_id": ...})` by one iff it is the user's, and no one else's |
| MongoApp.NewUserFields | backend/mongo_app.py:163-168 | the stored user has the given email and tier "free" |
| MongoApp.UniqueEmailsAppend | backend/mongo_app.py:158-169 | adding a user whose email is unknown keeps emails unique |
| MongoApp.RegisterUser | backend/mongo_app.py:156-169 | a known email is 400 with nothing stored; otherwise one user with tier "free" is stored and returned with its id; unique emails are kept |
| MongoApp.UpdateSubscription | backend/mongo_app.py:191-201 | whatever tier text is given is stored on the caller, and the answer is "success" with the user read back |
| MongoApp.NewNumberFields | backend/mongo_app.py:224-230 | the stored number is the user's, unverified and holds the code |
| MongoApp.CreateWhatsAppNumber | backend/mongo_app.py:209-232 | the tier check's refusal with nothing stored; otherwise an unverified number with the drawn six-digit code is stored and returned; a free user never gets past one number |
| MongoApp.VerifyWhatsAppNumber | backend/mongo_app.py:234-248 | 500 for text that is not an id or a number without "user_id" (KeyError), 404 for a missing or foreign number, 500 for an own number without "verification_code" (KeyError), 400 for a wrong code; only "verified" changes the store, setting that number verified at `now` |
| MongoApp.CreateTopic | backend/mongo_app.py:251-271 | the tier check's refusal with nothing stored, or one new topic of the caller; a free user never gets past three topics |
| MongoApp.OwnedRecordIsScheduleOwned | backend/mongo_app.py:289-290 | the endpoint's ownership test on the fetched topic agrees with the intended schedule count's |
| MongoApp.CreateSchedule | backend/mongo_app.py:283-311 | with the intended schedule count (the corrected half of the count finding): 500 for a topic text that is not an id or a topic without "user_id", then 404, then the free cap, then the hourly ban; otherwise one schedule is stored and the caller's count grows by one; a free user never gets past three schedules |
| MongoApp.CreateScheduleAsWritten | backend/mongo_app.py:283-311 | with the count as written: the same guards in the same order, and on a store kept as the endpoints keep it a daily schedule on the caller's own topic is always stored, whatever the tier and however many the caller already has; the store stays in that shape |
| MongoApp.ScheduleCapExample | backend/mongo_app.py:293-297 | with the count as written a free user with three schedules is admitted a fourth; the intended count refuses it |
| MongoApp.TriggerUpdateAsWritten | backend/mongo_app.py:314-326 | as written, a missing schedule is 404 and every existing one ends in a 500; it never succeeds |
| MongoApp.TriggerUpdate | backend/mongo_app.py:314-329 | 500 for schedule text that is not an id, 404 "Schedule not found" for a missing schedule; for a found schedule, 500 when "topic_id" is missing or its topic text is not an id or the topic has no "user_id", 404 "Schedule not found" when the topic is missing or another user's, and "scheduled" (dispatching nothing) when it is the caller's |
| WhatsAppSetup.MatchDigitRunIff | frontend/src/components/dashboard/WhatsAppSetup.js:96 | `\d{min,max}$` matches exactly the all-digit strings of a length in range |
| WhatsAppSetup.PhonePattern | frontend/src/components/dashboard/WhatsAppSetup.js:96 | the phone pattern accepts exactly '+', then a digit 1-9, then 1 to 14 digits: 3 to 16 characters, at most 15 digits |
| WhatsAppSetup.PhoneFieldError | frontend/src/components/dashboard/WhatsAppSetup.js:93-99 | empty is "required", otherwise a non-matching value is the pattern message; None iff valid |
| WhatsAppSetup.CodePattern | frontend/src/components/dashboard/WhatsAppSetup.js:135 | the code pattern accepts exactly six decimal digits |
| WhatsAppSetup.CodeFieldError | frontend/src/components/dashboard/WhatsAppSetup.js:132-138 | empty is "required", otherwise a non-matching value is the pattern message; None iff valid |
| WhatsAppSetup.GeneratedCodePasses | frontend/src/components/dashboard/WhatsAppSetup.js:135 | every code the backend draws passes the form's code check |

## Left out

- Transport and plumbing. These are not modelled: HTTP routing and response
  models, JWT tokens, bcrypt hashing (a `passwordMatches` parameter stands
  for it), async/await, database sessions and commits, the Celery broker,
  `.delay` (an enqueued task is its schedule id) and the beat configuration
  (both dispatchers are taken to run once an hour).
- Concurrency. Two requests interleaving between a count and an insert could
  pass the free limits together; every operation here is atomic.
- `get_current_user` and login: the signed-in user is an argument, already
  loaded.
- The verification text Twilio sends in `create_whatsapp_number`. It is
  caught and cannot change the stored row, so only the row is modelled.
- `create_news_delivery`, the read endpoints and the `get_user_*` list
  queries of the Mongo store are not modelled. Their shape is that of
  `MongoBackend.GetActiveSchedules`.
- `app.py` and the React pages are not part of this model.
- Time is an integer. Server-side default timestamps (`created_at`) and
  timezones are not modelled.
- SQL `.first()` without `ORDER BY` is taken to return the earliest inserted
  row. The same holds for MongoDB `find_one` in natural order.
- Article fields whose JSON value is `null` are not distinguished from
  missing keys with a default. A missing "title", "pubDate" or "link" is
  modelled as the KeyError text it produces.
- `CeleryWorker.IsSpace` lists the characters Python's `str.isspace`
  accepts. Other Unicode behaviour is not modelled.
- `CeleryWorker.SendNewsUpdates`: the Celery task's catch-all for exceptions from
  the database is not modelled. The news and send steps never raise.
- `Bson.SerializeObjectId` works on values. The in-place update, the
  returned alias of the argument and aliasing between subtrees are not
  captured.
- `MongoApp.CreateSchedule`: uses the intended schedule count. As written,
  the count is always 0, so the free cap never refuses a schedule; that code
  is `MongoApp.CreateScheduleAsWritten`.
- `MongoBackend.MongoDatabase.VerifyWhatsAppNumber` takes the id as
  canonical text. Its only caller has already rejected text that is not an
  ObjectId.
- `MongoApp.TriggerUpdate`: a schedule whose "topic_id" is present but not
  text is answered 500. In the source `ObjectId(...)` accepts an ObjectId
  value and makes a fresh id from `None` (a 404); those stored shapes are not
  modelled, since the endpoints always store the topic id as text.
- `Crud.GetUserTopics` takes `skip` and `limit` as non-negative numbers. The
  endpoint accepts any integer from the query string, and what a negative
  OFFSET or LIMIT does depends on the database engine, which is not part of
  this model.
- The Mongo endpoints take the frequency as text and validate nothing beyond
  what the guards test. Email normalisation by `EmailStr` is not modelled.

## Findings

| source | as written | input that shows it | evidently intended | confidence | as-written member | corrected member |
|---|---|---|---|---|---|---|
| backend/mongo_app.py:324 | `schedule.topic_id` reads an attribute of the dict the getter returns, which raises AttributeError, so FastAPI answers 500 | any existing schedule, even one of the caller's | read `schedule["topic_id"]`, then 404 unless the topic is the caller's, else "scheduled" | high; not executed | MongoApp.TriggerUpdateAsWritten | MongoApp.TriggerUpdate |
| backend/mongodb_backend.py:152-160 | the `$lookup` joins a schedule's "topic_id", stored as text, with the topics' ObjectId `_id`; text never equals an ObjectId, so the count is always 0 and the free 3-schedule cap never triggers | a free user with three daily schedules on a topic of theirs asks for a fourth | join on the ObjectId that "topic_id" names, giving 3, so the fourth is refused | high; not executed | MongoBackend.CountAsWrittenIsZero, MongoApp.ScheduleCapExample, MongoApp.CreateScheduleAsWritten | MongoBackend.CountUserSchedules, MongoBackend.CountExampleIntended, MongoApp.CreateSchedule |
