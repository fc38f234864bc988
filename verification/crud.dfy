/** The SQL store: the queries and writes of the CRUD layer over the five
    tables. Tables are sequences in insertion order; a primary key is the
    row's position plus one (autoincrement, nothing is ever deleted). */
module Crud {
  import opened Seqs
  import opened Digits
  import opened Models

  // ----- lookups by primary key and by email (`.filter(...).first()`) -----

  function HasEmail(email: string): User -> bool { (u: User) => u.email == email }
  function NumberHasId(id: nat): WhatsAppNumber -> bool { (n: WhatsAppNumber) => n.id == id }
  function TopicHasId(id: nat): Topic -> bool { (t: Topic) => t.id == id }
  function ScheduleHasId(id: nat): Schedule -> bool { (s: Schedule) => s.id == id }

  function GetUserByEmail(users: seq<User>, email: string): Option<User>
  {
    First(users, HasEmail(email))
  }

  function NumberIndex(numbers: seq<WhatsAppNumber>, id: nat): Option<nat>
  {
    FirstIndex(numbers, NumberHasId(id))
  }

  function GetNumber(numbers: seq<WhatsAppNumber>, id: nat): Option<WhatsAppNumber>
  {
    First(numbers, NumberHasId(id))
  }

  function GetTopic(topics: seq<Topic>, id: nat): Option<Topic>
  {
    First(topics, TopicHasId(id))
  }

  function ScheduleIndex(schedules: seq<Schedule>, id: nat): Option<nat>
  {
    FirstIndex(schedules, ScheduleHasId(id))
  }

  function GetSchedule(schedules: seq<Schedule>, id: nat): Option<Schedule>
  {
    First(schedules, ScheduleHasId(id))
  }

  /** The owner of a topic id, when that topic exists. */
  function TopicOwner(topics: seq<Topic>, topicId: nat): Option<nat>
  {
    match GetTopic(topics, topicId)
    case None => None
    case Some(t) => Some(t.userId)
  }

  // ----- authentication -----

  /** A login succeeds with the stored user when the email is known and the
      password checks against its hash (`passwordMatches` is the hash check). */
  function AuthenticateUser(users: seq<User>, email: string, password: string,
                            passwordMatches: (string, string) -> bool): (r: Option<User>)
    ensures r.Some? ==> r == GetUserByEmail(users, email)
    ensures r.Some? ==> r.value.email == email && r.value in users
    ensures r.Some? ==> passwordMatches(password, r.value.passwordHash)
    ensures r.None? <==>
              GetUserByEmail(users, email).None?
              || !passwordMatches(password, GetUserByEmail(users, email).value.passwordHash)
  {
    match GetUserByEmail(users, email)
    case None => None
    case Some(u) => if passwordMatches(password, u.passwordHash) then Some(u) else None
  }

  // ----- per-owner queries and counts -----

  function OwnsNumber(userId: nat): WhatsAppNumber -> bool { (n: WhatsAppNumber) => n.userId == userId }
  function OwnsTopic(userId: nat): Topic -> bool { (t: Topic) => t.userId == userId }

  /** A schedule belongs to a user through its topic (the join on topics). */
  function OwnsSchedule(topics: seq<Topic>, userId: nat): Schedule -> bool
  {
    (s: Schedule) => TopicOwner(topics, s.topicId) == Some(userId)
  }

  function CountUserNumbers(numbers: seq<WhatsAppNumber>, userId: nat): nat
  {
    |Filter(numbers, OwnsNumber(userId))|
  }

  function CountUserTopics(topics: seq<Topic>, userId: nat): nat
  {
    |Filter(topics, OwnsTopic(userId))|
  }

  function CountUserSchedules(schedules: seq<Schedule>, topics: seq<Topic>, userId: nat): nat
  {
    |Filter(schedules, OwnsSchedule(topics, userId))|
  }

  /** Adding a number raises exactly its owner's count, by one. */
  lemma CountUserNumbersAppend(numbers: seq<WhatsAppNumber>, n: WhatsAppNumber, userId: nat)
    ensures CountUserNumbers(numbers + [n], userId)
            == CountUserNumbers(numbers, userId) + (if n.userId == userId then 1 else 0)
  {
    FilterAppend(numbers, [n], OwnsNumber(userId));
  }

  /** Adding a topic raises exactly its owner's count, by one. */
  lemma CountUserTopicsAppend(topics: seq<Topic>, t: Topic, userId: nat)
    ensures CountUserTopics(topics + [t], userId)
            == CountUserTopics(topics, userId) + (if t.userId == userId then 1 else 0)
  {
    FilterAppend(topics, [t], OwnsTopic(userId));
  }

  /** Adding a schedule raises exactly the count of the owner of its topic, by one. */
  lemma CountUserSchedulesAppend(schedules: seq<Schedule>, topics: seq<Topic>, s: Schedule, userId: nat)
    ensures CountUserSchedules(schedules + [s], topics, userId)
            == CountUserSchedules(schedules, topics, userId)
               + (if TopicOwner(topics, s.topicId) == Some(userId) then 1 else 0)
  {
    FilterAppend(schedules, [s], OwnsSchedule(topics, userId));
  }

  /** One page of the user's topics: skip `skip` of them, return at most `limit`. */
  function GetUserTopics(topics: seq<Topic>, userId: nat, skip: nat, limit: nat): (r: seq<Topic>)
    ensures |r| <= limit
    ensures forall k :: 0 <= k < |r| ==> r[k].userId == userId
    ensures var owned := Filter(topics, OwnsTopic(userId));
            skip <= |owned| ==> r == owned[skip..][..if limit < |owned| - skip then limit else |owned| - skip]
    ensures var owned := Filter(topics, OwnsTopic(userId));
            skip >= |owned| ==> r == []
  {
    var owned := Filter(topics, OwnsTopic(userId));
    var rest := if skip <= |owned| then owned[skip..] else [];
    if limit < |rest| then rest[..limit] else rest
  }

  /** Active, and of the given frequency; `if frequency:` treats None and the
      empty string alike, as no restriction. */
  function ActiveWith(frequency: Option<string>): Schedule -> bool
  {
    (s: Schedule) => s.active && (frequency == None || frequency == Some("") || FrequencyName(s.frequency) == frequency.value)
  }

  /** `get_active_schedules`: the active schedules, restricted to one
      frequency when a non-empty one is given. */
  function GetActiveSchedules(schedules: seq<Schedule>, frequency: Option<string>): (r: seq<Schedule>)
    ensures forall s :: s in r <==>
              (s in schedules && s.active &&
               (frequency == None || frequency == Some("") || FrequencyName(s.frequency) == frequency.value))
  {
    var r := Filter(schedules, ActiveWith(frequency));
    forall s ensures s in r <==> s in schedules && ActiveWith(frequency)(s) {
      FilterMembership(schedules, ActiveWith(frequency), s);
    }
    r
  }

  // ----- verification codes -----

  /** `str(random.randint(100000, 999999))`: `draw` is the random integer. */
  function VerificationCode(draw: int): (code: string)
    requires 100000 <= draw <= 999999
    ensures |code| == 6 && AllDigits(code) && code[0] != '0'
    ensures DecimalValue(code) == draw
  {
    DecimalRoundTrip(draw);
    DecimalLength(draw, 5);
    DecimalNoLeadingZero(draw);
    DecimalString(draw)
  }

  // ----- the store -----

  /** Autoincrement keys: row k of every table has id k + 1. */
  ghost predicate SequentialIds(users: seq<User>, numbers: seq<WhatsAppNumber>, topics: seq<Topic>, schedules: seq<Schedule>)
  {
    && (forall k :: 0 <= k < |users| ==> users[k].id == k + 1)
    && (forall k :: 0 <= k < |numbers| ==> numbers[k].id == k + 1)
    && (forall k :: 0 <= k < |topics| ==> topics[k].id == k + 1)
    && (forall k :: 0 <= k < |schedules| ==> schedules[k].id == k + 1)
  }

  /** With autoincrement keys, looking a topic up by id finds row id - 1, and
      any other id finds nothing. */
  lemma GetTopicByKey(topics: seq<Topic>, id: nat)
    requires forall k :: 0 <= k < |topics| ==> topics[k].id == k + 1
    ensures 1 <= id <= |topics| ==> GetTopic(topics, id) == Some(topics[id - 1])
    ensures GetTopic(topics, id).Some? ==> 1 <= id <= |topics|
  {
    if 1 <= id <= |topics| {
      assert TopicHasId(id)(topics[id - 1]);
    }
  }

  class Database {
    var users: seq<User>
    var numbers: seq<WhatsAppNumber>
    var topics: seq<Topic>
    var schedules: seq<Schedule>
    var deliveries: seq<NewsDelivery>

    ghost predicate Valid()
      reads this
    {
      SequentialIds(users, numbers, topics, schedules)
    }

    constructor ()
      ensures Valid()
      ensures users == [] && numbers == [] && topics == [] && schedules == [] && deliveries == []
    {
      users, numbers, topics, schedules, deliveries := [], [], [], [], [];
    }

    /** `create_user`: a new row with the hashed password and the default tier. */
    method CreateUser(email: string, passwordHash: string) returns (u: User)
      requires Valid()
      modifies this
      ensures Valid()
      ensures u == User(|old(users)| + 1, email, passwordHash, DefaultTier)
      ensures users == old(users) + [u]
      ensures numbers == old(numbers) && topics == old(topics)
      ensures schedules == old(schedules) && deliveries == old(deliveries)
    {
      u := User(|users| + 1, email, passwordHash, DefaultTier);
      users := users + [u];
    }

    /** `create_whatsapp_number`: a new, unverified row holding the code. The
        verification message is sent afterwards and its failure is swallowed,
        so the row does not depend on it. */
    method CreateWhatsAppNumber(phone: string, userId: nat, draw: int) returns (n: WhatsAppNumber)
      requires Valid()
      requires 100000 <= draw <= 999999
      modifies this
      ensures Valid()
      ensures n == WhatsAppNumber(|old(numbers)| + 1, userId, phone, false, Some(VerificationCode(draw)), None)
      ensures numbers == old(numbers) + [n]
      ensures users == old(users) && topics == old(topics)
      ensures schedules == old(schedules) && deliveries == old(deliveries)
    {
      n := WhatsAppNumber(|numbers| + 1, userId, phone, false, Some(VerificationCode(draw)), None);
      numbers := numbers + [n];
    }

    /** `verify_whatsapp_number`: an exact code match marks the number verified
        and stamps the time, whatever its previous state; a missing number or a
        different code changes nothing. */
    method VerifyWhatsAppNumber(numberId: nat, code: string, now: Timestamp) returns (verified: bool)
      requires Valid()
      modifies this
      ensures Valid()
      ensures var i := NumberIndex(old(numbers), numberId);
              verified <==> i.Some? && old(numbers)[i.value].code == Some(code)
      ensures var i := NumberIndex(old(numbers), numberId);
              verified ==> numbers == old(numbers)[i.value := old(numbers)[i.value].(verified := true, verifiedAt := Some(now))]
      ensures !verified ==> numbers == old(numbers)
      ensures users == old(users) && topics == old(topics)
      ensures schedules == old(schedules) && deliveries == old(deliveries)
    {
      var i := NumberIndex(numbers, numberId);
      if i.None? || numbers[i.value].code != Some(code) {
        return false;
      }
      var n := numbers[i.value];
      numbers := numbers[i.value := n.(verified := true, verifiedAt := Some(now))];
      verified := true;
    }

    /** `create_topic`: a new row owned by `userId`. */
    method CreateTopic(userId: nat, name: string, keywords: string, countryCode: string, language: string)
      returns (t: Topic)
      requires Valid()
      modifies this
      ensures Valid()
      ensures t == Topic(|old(topics)| + 1, userId, name, keywords, countryCode, language)
      ensures topics == old(topics) + [t]
      ensures users == old(users) && numbers == old(numbers)
      ensures schedules == old(schedules) && deliveries == old(deliveries)
    {
      t := Topic(|topics| + 1, userId, name, keywords, countryCode, language);
      topics := topics + [t];
    }

    /** `create_schedule`: a new row, never run yet. */
    method CreateSchedule(topicId: nat, frequency: Frequency, timeOfDay: Option<string>, active: bool)
      returns (s: Schedule)
      requires Valid()
      modifies this
      ensures Valid()
      ensures s == Schedule(|old(schedules)| + 1, topicId, frequency, timeOfDay, active, None)
      ensures schedules == old(schedules) + [s]
      ensures users == old(users) && numbers == old(numbers)
      ensures topics == old(topics) && deliveries == old(deliveries)
    {
      s := Schedule(|schedules| + 1, topicId, frequency, timeOfDay, active, None);
      schedules := schedules + [s];
    }
  }
}
