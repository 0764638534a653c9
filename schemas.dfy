/**
  The two record shapes the services exchange: a social post as ingested, and the per-food trend
  signal aggregated from posts. They carry no behaviour of their own.
 */
module Schemas {
  import opened Wrappers

  /** One ingested post. `engagement` holds counters such as "likes", "comments" and "shares". */
  datatype SocialSignal = SocialSignal(
    platform: string,
    postId: string,
    timestamp: string,
    text: Option<string>,
    hashtags: seq<string>,
    foodEntities: seq<string>,
    engagement: map<string, int>,
    creatorFollowers: int,
    geo: Option<string>)

  /** The aggregate for one food over a time window. */
  datatype TrendSignal = TrendSignal(
    trend: string,
    windowHours: int,
    mentionCount: int,
    weightedEngagement: real,
    creatorVelocity: real,
    geoDistribution: map<string, real>)
}
