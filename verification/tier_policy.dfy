/** The free-tier admission rules of the create endpoints. The SQL API and the
    Mongo API apply the same limits, with the same messages and in the same
    order, so both use these decisions. Only the exact string "free" is
    limited. */
module TierPolicy {
  import opened Seqs
  import opened Models

  datatype Rejection = Rejection(status: nat, detail: string)

  const FreeNumberLimit: nat := 1
  const FreeTopicLimit: nat := 3
  const FreeScheduleLimit: nat := 3

  const NumberQuota := Rejection(400, "Free tier limited to 1 WhatsApp number")
  const TopicQuota := Rejection(400, "Free tier limited to 3 topics")
  const ScheduleQuota := Rejection(400, "Free tier limited to 3 updates per day")
  const HourlyNotAllowed := Rejection(400, "Free tier limited to daily updates")
  const TopicNotFound := Rejection(404, "Topic not found")
  const ScheduleNotFound := Rejection(404, "Schedule not found")

  /** Adding a WhatsApp number, for a user of `tier` who already has `count`. */
  function NumberAdmission(tier: string, count: nat): (r: Option<Rejection>)
    ensures r.None? <==> !IsFree(tier) || count < FreeNumberLimit
    ensures r.Some? ==> r.value == NumberQuota
  {
    if IsFree(tier) && count >= FreeNumberLimit then Some(NumberQuota) else None
  }

  /** Adding a topic, for a user of `tier` who already has `count`. */
  function TopicAdmission(tier: string, count: nat): (r: Option<Rejection>)
    ensures r.None? <==> !IsFree(tier) || count < FreeTopicLimit
    ensures r.Some? ==> r.value == TopicQuota
  {
    if IsFree(tier) && count >= FreeTopicLimit then Some(TopicQuota) else None
  }

  /** Adding a schedule of `frequency` on a topic: ownership first (404), then,
      for the free tier only, the schedule count before the hourly ban. */
  function ScheduleAdmission(topicOwned: bool, tier: string, count: nat, frequency: string): (r: Option<Rejection>)
    ensures r.None? <==> topicOwned && (!IsFree(tier) || (count < FreeScheduleLimit && frequency != "hourly"))
    ensures !topicOwned ==> r == Some(TopicNotFound)
    ensures topicOwned && IsFree(tier) && count >= FreeScheduleLimit ==> r == Some(ScheduleQuota)
    ensures r == Some(HourlyNotAllowed) <==>
              topicOwned && IsFree(tier) && count < FreeScheduleLimit && frequency == "hourly"
  {
    if !topicOwned then Some(TopicNotFound)
    else if IsFree(tier) && count >= FreeScheduleLimit then Some(ScheduleQuota)
    else if IsFree(tier) && frequency == "hourly" then Some(HourlyNotAllowed)
    else None
  }

  /** The manual trigger: a missing schedule and a schedule whose topic is
      missing or not the caller's are both reported as "Schedule not found". */
  function TriggerAdmission(scheduleFound: bool, topicOwned: bool): (r: Option<Rejection>)
    ensures r.None? <==> scheduleFound && topicOwned
    ensures r.Some? ==> r.value == ScheduleNotFound
  {
    if !scheduleFound || !topicOwned then Some(ScheduleNotFound) else None
  }
}
