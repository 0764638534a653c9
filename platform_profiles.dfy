/**
  The static table of delivery and retail platforms (`PLATFORM_PROFILES`): how quickly each platform
  reacts to a trend and how much its data can be trusted.
 */
module PlatformProfiles {

  /** One row of the table. */
  datatype PlatformProfile = PlatformProfile(
    trendLatencyHours: int,
    impulseFactor: real,
    promoSensitivity: real,
    dataMaturity: real)

  const UBER_EATS: string := "uber_eats"
  const DOORDASH: string := "doordash"
  const RETAIL: string := "retail"

  /** The table's keys in the order the dictionary lists them. */
  const PLATFORM_ORDER: seq<string> := [UBER_EATS, DOORDASH, RETAIL]

  const PLATFORM_PROFILES: map<string, PlatformProfile> := map[
    UBER_EATS := PlatformProfile(18, 0.7, 0.6, 0.9),
    DOORDASH := PlatformProfile(6, 0.9, 0.8, 0.85),
    RETAIL := PlatformProfile(72, 0.3, 0.4, 0.6)]

  /** The table has exactly three distinct keys, listed by PLATFORM_ORDER; every data maturity lies in
      (0, 1]; and doordash is the only platform whose latency is at most 8 hours. */
  lemma ProfilesShape()
    ensures PLATFORM_PROFILES.Keys == set p | p in PLATFORM_ORDER
    ensures |PLATFORM_ORDER| == 3
      && PLATFORM_ORDER[0] != PLATFORM_ORDER[1] && PLATFORM_ORDER[1] != PLATFORM_ORDER[2]
      && PLATFORM_ORDER[0] != PLATFORM_ORDER[2]
    ensures forall p :: p in PLATFORM_PROFILES ==> 0.0 < PLATFORM_PROFILES[p].dataMaturity <= 1.0
    ensures forall p :: p in PLATFORM_PROFILES && PLATFORM_PROFILES[p].trendLatencyHours <= 8 ==> p == DOORDASH
    ensures PLATFORM_PROFILES[DOORDASH].trendLatencyHours <= 8
  {
    assert UBER_EATS[0] == 'u' && DOORDASH[0] == 'd' && RETAIL[0] == 'r';
  }
}
