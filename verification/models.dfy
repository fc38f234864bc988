/** The records of the SQL store (one datatype per table) and the two
    enumerations the backend tests: the schedule frequency and the free tier. */
module Models {
  import opened Seqs

  /** A `datetime.now()` reading, supplied by the caller. */
  type Timestamp = int

  /** The `frequency_types` enumeration of the schedules table. */
  datatype Frequency = Hourly | Daily

  /** The string the backend compares a frequency with. */
  function FrequencyName(f: Frequency): string
  {
    match f
    case Hourly => "hourly"
    case Daily => "daily"
  }

  /** The backend only ever tests `subscription_tier == "free"`; every other
      string ("paid", "premium", anything an update stored) is unrestricted. */
  predicate IsFree(tier: string)
  {
    tier == "free"
  }

  /** The tier a new user gets: the column default, and what registration writes. */
  const DefaultTier: string := "free"

  datatype User = User(id: nat, email: string, passwordHash: string, tier: string)

  datatype WhatsAppNumber = WhatsAppNumber(
    id: nat,
    userId: nat,
    phone: string,
    verified: bool,
    code: Option<string>,
    verifiedAt: Option<Timestamp>)

  datatype Topic = Topic(
    id: nat,
    userId: nat,
    name: string,
    keywords: string,
    countryCode: string,
    language: string)

  datatype Schedule = Schedule(
    id: nat,
    topicId: nat,
    frequency: Frequency,
    timeOfDay: Option<string>,
    active: bool,
    lastRunAt: Option<Timestamp>)

  datatype NewsDelivery = NewsDelivery(
    scheduleId: nat,
    status: string,
    messageSid: Option<string>,
    content: string)
}
