/** The constant tables of src/const.ts that the player model consumes. */
module Consts {
  import opened Host

  /** The attributes a device must expose for a progress bar. */
  const ProgressProps: seq<string> := ["media_duration", "media_position", "media_position_updated_at"]

  /** One row of MEDIA_INFO: the attribute shown and an optional prefix. */
  datatype InfoSpec = InfoSpec(attr: string, prefix: Option<string>)

  const MediaInfo: seq<InfoSpec> := [
    InfoSpec("media_title", None),
    InfoSpec("media_artist", None),
    InfoSpec("media_series_title", None),
    InfoSpec("media_season", Some("S")),
    InfoSpec("media_episode", Some("E")),
    InfoSpec("app_name", None)
  ]

  const RepeatOff := "off"
  const RepeatAll := "all"
  const RepeatOne := "one"

  /** `Object.values(REPEAT_STATE)`: the values in declaration order. */
  const RepeatStates: seq<string> := [RepeatOff, RepeatAll, RepeatOne]
}
