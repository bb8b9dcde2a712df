/**
 * What the watch face draws on one frame, decided from the display mode, the
 * time of day, the stored weather values and the screen bounds.  How it is
 * drawn (paints, text sizes, coordinates) is not part of this.
 */
module FramePlan {
  import opened Wrappers
  import opened JavaArith
  import opened WearableConstants
  import opened KeyValueStore
  import opened TimeText

  /** The placeholder drawn while the weather snapshot is incomplete. */
  const NoDataText: string := "No data found"

  /** Ambient mode clears to black; interactive mode fills the bounds with the background paint. */
  datatype Background = SolidBlack | BackgroundRect(width: int, height: int)

  /** The weather icon decoded from `encoded`, scaled to `width` by `height`. */
  datatype Icon = Icon(encoded: string, width: int, height: int)

  /** The weather part of a frame. */
  datatype Weather =
    | Temperatures(icon: Option<Icon>, minTemp: string, maxTemp: string)
    | NoData(text: string)

  datatype Frame = Frame(background: Background, timeText: string, weather: Weather)

  /** A snapshot is complete when all three weather values are stored. */
  predicate CompleteSnapshot(store: Store): (complete: bool)
    ensures complete <==> Keys <= store.Keys
  {
    Get(store, MinTempKey).Some? && Get(store, MaxTempKey).Some? && Get(store, ResIdKey).Some?
  }

  /** The icon's target size: a quarter of the bounds in each direction, by Java integer division. */
  function IconSize(width: int, height: int): (size: (int, int))
    ensures width >= 0 ==> 0 <= 4 * size.0 <= width < 4 * size.0 + 4
    ensures height >= 0 ==> 0 <= 4 * size.1 <= height < 4 * size.1 + 4
  {
    (JavaDiv(width, 4), JavaDiv(height, 4))
  }

  /**
   * The weather drawn for a store.  `decodes` tells whether the icon decoder
   * turns an encoded string into an image.
   */
  function WeatherFor(store: Store, decodes: string -> bool, width: int, height: int): (w: Weather)
    ensures w.Temperatures? <==> CompleteSnapshot(store)
    ensures w.NoData? ==> w.text == NoDataText
    ensures w.Temperatures? ==>
      && Get(store, MinTempKey) == Some(w.minTemp)
      && Get(store, MaxTempKey) == Some(w.maxTemp)
      && (w.icon.Some? <==> decodes(store[ResIdKey]))
      && (w.icon.Some? ==> w.icon.value == Icon(store[ResIdKey], IconSize(width, height).0, IconSize(width, height).1))
  {
    match (Get(store, MinTempKey), Get(store, MaxTempKey), Get(store, ResIdKey))
    case (Some(lo), Some(hi), Some(encoded)) =>
      var icon := if decodes(encoded) then
        var size := IconSize(width, height);
        Some(Icon(encoded, size.0, size.1))
      else None;
      Temperatures(icon, lo, hi)
    case _ => NoData(NoDataText)
  }

  /** The whole frame: background, clock text and weather. */
  function Render(ambient: bool, hour: nat, minute: nat, second: nat,
                  store: Store, decodes: string -> bool, width: int, height: int): (f: Frame)
    ensures f.background.SolidBlack? <==> ambient
    ensures !ambient ==> f.background == BackgroundRect(width, height)
    ensures f.weather == WeatherFor(store, decodes, width, height)
  {
    Frame(if ambient then SolidBlack else BackgroundRect(width, height),
          FormatTime(hour, minute, second, ambient),
          WeatherFor(store, decodes, width, height))
  }

  /** The clock text of a frame carries the second exactly in interactive mode. */
  lemma RenderTimeText(ambient: bool, hour: nat, minute: nat, second: nat,
                       store: Store, decodes: string -> bool, width: int, height: int)
    requires minute < 100 && second < 100
    ensures ParseTime(Render(ambient, hour, minute, second, store, decodes, width, height).timeText)
         == Some(ClockFields(hour, minute, if ambient then None else Some(second)))
  {
    FormatTimeRoundTrip(hour, minute, second, ambient);
  }

  /**
   * The weather drawn depends on the three weather keys alone; other keys and
   * a failed icon decode never hide the temperatures.
   */
  lemma WeatherDependsOnSnapshotOnly(s: Store, t: Store, decodes: string -> bool, width: int, height: int)
    requires Get(s, MinTempKey) == Get(t, MinTempKey)
    requires Get(s, MaxTempKey) == Get(t, MaxTempKey)
    requires Get(s, ResIdKey) == Get(t, ResIdKey)
    ensures WeatherFor(s, decodes, width, height) == WeatherFor(t, decodes, width, height)
  {
  }

  /** Every incomplete snapshot, partial or empty, draws the same placeholder. */
  lemma IncompleteSnapshotsLookAlike(s: Store, t: Store, decodes: string -> bool, width: int, height: int)
    requires !CompleteSnapshot(s) && !CompleteSnapshot(t)
    ensures WeatherFor(s, decodes, width, height) == WeatherFor(t, decodes, width, height) == NoData(NoDataText)
  {
  }

  /** An icon that fails to decode is left out, and only the icon. */
  lemma UndecodableIconKeepsTemperatures(store: Store, decodes: string -> bool, width: int, height: int)
    requires CompleteSnapshot(store) && !decodes(store[ResIdKey])
    ensures WeatherFor(store, decodes, width, height) == Temperatures(None, store[MinTempKey], store[MaxTempKey])
  {
  }
}
