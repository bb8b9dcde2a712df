/**
 * The message routes the handheld app sends on and the keys under which the
 * watch stores what it receives.
 */
module WearableConstants {

  /** Route of a message carrying the day's minimum temperature. */
  const PathMinTemp: string := "/min_temp_path"
  /** Route of a message carrying the day's maximum temperature. */
  const PathMaxTemp: string := "/max_temp_path"
  /** Route of a message carrying the string-encoded weather icon. */
  const PathResId: string := "/res_id"

  /** Store key of the minimum temperature. */
  const MinTempKey: string := "minTemp"
  /** Store key of the maximum temperature. */
  const MaxTempKey: string := "maxTemp"
  /** Store key of the encoded weather icon. */
  const ResIdKey: string := "resId"

  /** The three routes, and the three keys. */
  const Routes: set<string> := {PathMinTemp, PathMaxTemp, PathResId}
  const Keys: set<string> := {MinTempKey, MaxTempKey, ResIdKey}

  /** No two routes are equal, so at most one branch of a routing chain matches. */
  lemma RoutesDistinct()
    ensures PathMinTemp != PathMaxTemp && PathMinTemp != PathResId && PathMaxTemp != PathResId
    ensures |Routes| == 3
  {
  }

  /** No two keys are equal, so a write under one key never overwrites another. */
  lemma KeysDistinct()
    ensures MinTempKey != MaxTempKey && MinTempKey != ResIdKey && MaxTempKey != ResIdKey
    ensures |Keys| == 3
  {
  }
}
