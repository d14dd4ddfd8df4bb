# sonos-card, modelled in Dafny

sonos-card is a Home Assistant Lovelace card for Sonos speakers. This
project models its logic without the rendering:

- the `MediaPlayerObject` facade of `src/model.ts`. Its constructor
  rebuilds the speaker topology: one zone per group leader, plus a
  display name for every configured speaker. Its getters derive
  capability flags, idle and active status, the extrapolated track
  position and the media-info lines. Its commands each become one
  `hass.callService` call, or one call per member of the group;
- the duration formatter of `src/utils/getProgress.ts`;
- the configuration merge of both cards in `src/sonos-card.ts`, and
  SonosCard's direct service helpers;
- the card editor of `src/editor.ts`: the configuration being edited,
  its entity list, and the `config-changed` events it fires.

## Layout

| file | module | contents |
|---|---|---|
| `host.dfy` | `Host` | JSON-like values and JavaScript truthiness, device-state snapshots, the `Hass` object (a fixed `states` table and an append-only log of service calls), UI events |
| `consts.dfy` | `Consts` | `PROGRESS_PROPS`, `MEDIA_INFO`, `REPEAT_STATE`, from `src/const.ts` |
| `topology.dfy` | `Topology` | the constructor's zone loop as a left fold (`Resolve`), and what it computes |
| `player.dfy` | `Player` | `MediaPlayerObject`: the loops of the constructor, the getters, `checkIdleAfter`, every command, and the pure pieces they use (the bit test, `split`, the repeat cycle, `mediaInfo`, `jump`'s clamp) |
| `duration.dfy` | `Duration` | the "[HH:]MM:SS" formatter, with a parser that inverts it |
| `card.dfy` | `Card` | `SonosCard` and `SonosPlayerCard` |
| `editor.dfy` | `Editor` | `SonosCardEditor` |

The host is modelled as follows:

- `hass.states` is an immutable `map<string, DeviceState>`.
- `hass.callService` appends a `Call(domain, service, data)` to `Hass.calls`.
- Events record only whether their propagation was stopped.
- The clock is not read. `now` and the parsed `media_position_updated_at` are integer-millisecond parameters.
- Attribute and configuration values are `Value`s.

A value of the wrong type reads as absent. For example, `sonos_group` is
only seen when it is a list of strings, and `friendly_name` only when it is
a string.

Where the source reads a state or attribute without checking it first, the
model makes that a precondition. Examples: `hass.states[member]` inside a
leader's group, `attr.sonos_group` in the fan-out loops, and
`config.entities` in the constructor and in the editor's `setConfig`.

## Model

| member | source | states |
|---|---|---|
| `Player.MediaPlayerObject.constructor` | src/model.ts:30-68 | the constructor wraps the entity, takes `entity_id` or else `config.entity`, starts not idle with `active` = not off and not unavailable, and leaves `zones`/`speakerNames` equal to the fold `Resolve` over `config.entities` |
| `Player.AddGroupMembers` | src/model.ts:56-62 | the inner loop over a leader's `sonos_group` yields the existing members plus every other non-empty id mapped to its `friendly_name` or `''` |
| `Player.VisitEntity` | src/model.ts:41-66 | one pass of the outer loop equals one `Step` of the fold: placeholder and speaker name on first sight; state, room name and members for a leader; deletion of a grouped non-leader; nothing more when the wrapped player is unavailable |
| `Topology.FriendlyName` | src/model.ts:53 | `attributes.friendly_name` of a device state, absent when it is not a string |
| `Topology.NameOrEmpty` | src/model.ts:59 | `friendly_name ?? ''`, the name a leader records for a member |
| `Topology.SpeakerName` | src/model.ts:48 | `stateObj ? friendly_name : ''`, the speaker name recorded on first sight |
| `Topology.SonosGroup` | src/model.ts:54 | `attributes.sonos_group` as a list of ids, absent when undefined |
| `Topology.IsLeader` | src/model.ts:54 | the entity heads a `sonos_group` of two or more |
| `Topology.IsFollower` | src/model.ts:63 | the entity is in a `sonos_group` of two or more that another id heads |
| `Topology.LeaderMembers` | src/model.ts:55-62 | the members a leader's zone should list: each other non-empty id of its group, with `friendly_name ?? ''`, as a comprehension independent of the loop |
| `Topology.Step` | src/model.ts:41-66 | one pass of the constructor's outer loop as a function of the records so far: placeholder and speaker name on first sight; then, with the player available, state, room name and the leader's members, or deletion of a grouped non-leader (characterised by `StepConsistent` and the lemmas below) |
| `Topology.Resolve` | src/model.ts:40-67 | the outer loop over `config.entities` as a left fold of `Step` from empty records (characterised by `ResolveAvailable`, `ResolveUnavailable` and `ResolveSpeakerNames`) |
| `Topology.AddMembers` | src/model.ts:55-62 | the inner loop over a leader's `sonos_group`, adding each id that is neither the leader nor empty with `friendly_name ?? ''` (shown equal to an overlay by `AddMembersIsUnion`) |
| `Topology.AddMembersIsUnion` | src/model.ts:56-62 | the member loop amounts to overlaying the leader's `LeaderMembers` record on the initial members |
| `Topology.ResolveAvailable` | src/model.ts:40-67 | with the player available, a configured entity has a zone iff it is not a follower, and that zone is the one its own state determines (`ExpectedZone`), whatever the order and repetitions of the entities |
| `Topology.ZoneKeys` | src/model.ts:51-65 | with the player available, an entity is a key of `zones` iff it is configured and its `sonos_group` is absent, has at most one entry, or has it first |
| `Topology.LeaderZone` | src/model.ts:52-62 | a leader's zone is present, does not list the leader, lists exactly the other non-empty ids of its group with their names (`''` when unnamed), and copies the leader's state and `friendly_name` |
| `Topology.StandaloneZone` | src/model.ts:52-55 | an ungrouped entity keeps a zone with no members and its own state and name |
| `Topology.ResolveUnavailable` | src/model.ts:41-51 | with the wrapped player unavailable, every configured entity keeps the placeholder zone and nothing else is a key |
| `Topology.ZoneKeysConfigured` | src/model.ts:40-67 | only configured entities can be keys of `zones` |
| `Topology.ResolveSpeakerNames` | src/model.ts:41-50 | in either case `speakerNames` has exactly the configured entities, each mapped to its `friendly_name` (`''` when it is not in `hass.states`), including entities whose zone is deleted and duplicates |
| `Topology.ThreeSpeakerGroup` | src/model.ts:40-67 | three speakers reporting the group `[a, b, c]` resolve to the single zone `a` listing `b` and `c` with their names |
| `Topology.SingleLeader` | src/model.ts:40-67 | a configured list whose entries are `a`, `b` and `c` only, in any order and with any repetition, where all three report one group of those three ids headed by `a`, resolves to the single zone `a` listing `b` and `c` with their names |
| `Player.MediaPlayerObject.IsPaused` | src/model.ts:78-80 | the state is `paused` |
| `Player.MediaPlayerObject.IsPlaying` | src/model.ts:82-84 | the state is `playing` |
| `Player.MediaPlayerObject.IsIdle` | src/model.ts:86-88 | the state is `idle` |
| `Player.MediaPlayerObject.IsStandby` | src/model.ts:90-92 | the state is `standby` |
| `Player.MediaPlayerObject.IsUnavailable` | src/model.ts:94-96 | the state is `unavailable` |
| `Player.MediaPlayerObject.IsOff` | src/model.ts:98-100 | the state is `off` |
| `Player.MediaPlayerObject.IsActive` | src/model.ts:102-106 | not off, not unavailable and not idle |
| `Player.MediaPlayerObject.Shuffle` | src/model.ts:108-110 | `attributes.shuffle` is truthy |
| `Player.MediaPlayerObject.Repeat` | src/model.ts:112-114 | `attributes.repeat`, or `off` when it is missing or empty |
| `Player.MediaPlayerObject.MediaDuration` | src/model.ts:120-122 | `attributes.media_duration`, or 0 when it is missing |
| `Player.MediaPlayerObject.Position` | src/model.ts:128-130 | `attributes.media_position`, or 0 when it is missing |
| `Player.MediaPlayerObject.Muted` | src/model.ts:168-170 | `attributes.is_volume_muted` is truthy |
| `Player.MediaPlayerObject.Vol` | src/model.ts:172-174 | `attributes.volume_level`, or 0 when it is missing |
| `Player.MediaPlayerObject.MediaInfoLines` | src/model.ts:187-193 | the `mediaInfo` getter: `MediaInfoOf` over the `MEDIA_INFO` table and the attributes |
| `Player.MediaPlayerObject.HasProgress` | src/model.ts:195-197 | not idle, and every `PROGRESS_PROPS` key is an attribute |
| `Player.MediaPlayerObject.SupportsPrev` | src/model.ts:199-202 | the or-test of `supported_features` with 16 (`OrLeavesUnchanged`) |
| `Player.MediaPlayerObject.SupportsNext` | src/model.ts:204-207 | the or-test of `supported_features` with 32 (`OrLeavesUnchanged`) |
| `Player.MediaPlayerObject.Progress` | src/model.ts:209-215 | while playing, the position plus the milliseconds elapsed since `updatedAt` over 1000; otherwise the position. `updatedAt` is 0 when `media_position_updated_at` is missing |
| `Player.MediaPlayerObject.TrackIdle` | src/model.ts:217-225 | active, not playing, `media_position_updated_at` truthy, and `idle_view.after` truthy (`IdleViewAfter`) |
| `Player.MediaPlayerObject.SupportsShuffle` | src/model.ts:234-236 | `shuffle` is an attribute |
| `Player.MediaPlayerObject.SupportsRepeat` | src/model.ts:238-240 | `repeat` is an attribute |
| `Player.MediaPlayerObject.SupportsMute` | src/model.ts:242-244 | `is_volume_muted` is an attribute |
| `Player.MediaPlayerObject.SupportsVolumeSet` | src/model.ts:246-248 | `volume_level` is an attribute |
| `Player.IdleViewAfter` | src/model.ts:222-223 | `config.idle_view` is an object whose `after` is truthy |
| `Player.MediaPlayerObject.CheckIdleAfter` | src/model.ts:227-232 | `idle` becomes "more than `time` minutes since the last update", `active` becomes not off, not unavailable and not idle, the idle flag is returned, and the topology is untouched |
| `Player.MediaPlayerObject.ProgressClock` | src/model.ts:209-215 | while not playing, the progress is the stored position at any time; while playing, it advances by the elapsed milliseconds over 1000 |
| `Player.OrLeavesUnchanged` | src/model.ts:199-207 | the bitwise-or test of `supported_features` against `bit`, compared with `===`, as JavaScript evaluates it: false for a missing, non-numeric, fractional or out-of-range value, and otherwise the 32-bit or compared with the value (characterised by `FeatureBit`) |
| `Player.FeatureBit` | src/model.ts:199-207 | for a feature mask below 2^31, or-ing in 2^k leaves it strictly equal iff bit `k` of it is set |
| `Player.BitOrPow2` | src/model.ts:199-207 | or-ing in a power of two leaves a number unchanged iff that bit is set |
| `Player.FeatureBitOnly` | src/model.ts:199-207 | masks that agree on the tested bit give the same `supportsPrev`/`supportsNext` |
| `Player.AddBit` | src/model.ts:199-207 | adding a clear power-of-two bit sets that bit and changes no other |
| `Player.AddPrevBit` | src/model.ts:199-207 | a mask without bit 16 does not support previous; adding 16 makes it support previous and leaves `supportsNext` unchanged |
| `Player.MediaInfoOf` | src/model.ts:187-193 | the media-info lines are the table rows whose attribute is truthy, each with that attribute's value and its prefix (default `''`), and no others |
| `Player.MediaInfoOrder` | src/model.ts:187-193 | the filtering keeps table order: the lines of an earlier block of rows precede those of a later one |
| `Player.MediaInfoTitleFirst` | src/const.ts:2-9 | with `MEDIA_INFO`, a present title is the first line and has no prefix |
| `Player.IndexOf` | src/model.ts:287 | first position of a value, or -1 exactly when absent |
| `Player.JsRem` | src/model.ts:288 | JavaScript `%`: Euclidean on non-negative operands, and always strictly inside (-b, b) |
| `Player.NextRepeat` | src/model.ts:284-290 | the computed repeat mode is one of the modes, cycles `off` → `all` → `one` → `off`, and an unknown mode goes to `off` |
| `Player.NextRepeatIsSuccessor` | src/model.ts:285-288 | the index arithmetic reduces to the successor index modulo 3 |
| `Player.MediaPlayerObject.ToggleRepeat` | src/model.ts:284-290 | sends `repeat_set` with the next mode of the cycle |
| `Player.ClampSeek` | src/model.ts:361-367 | with a positive duration the seek position is the requested one when that is in `[0, duration]`, `0` below it and `duration` above it; with duration 0 it is the requested position, unclamped |
| `Player.MediaPlayerObject.Jump` | src/model.ts:361-367 | sends `media_seek` to the clamped `progress + amount` |
| `Player.MediaPlayerObject.Payload` | src/model.ts:417-420 | the payload holds the option keys plus `entity_id` unless it is omitted; options win, and `entity_id` otherwise defaults to the acting entity |
| `Player.MediaPlayerObject.CallService` | src/model.ts:412-421 | appends exactly one call with the given domain (default `media_player`) and the payload, and stops the event's propagation when one is given |
| `Player.MediaPlayerObject.MuteCall` | src/model.ts:273 | the `volume_mute` call for a target: the negation of that device's own `is_volume_muted`, with its `entity_id` |
| `Player.MediaPlayerObject.ToggleMute` | src/model.ts:270-278 | without a member (`== null`): one `volume_mute` call per `sonos_group` entry, in list order, negating that entry's own mute flag; with a member: one such call for it; the event is stopped iff a call was made |
| `Player.MediaPlayerObject.VolumeStep` | src/model.ts:330 | `config.volume_step`, or 0 when it is missing |
| `Player.MediaPlayerObject.StepLevel` | src/model.ts:333 | the group-path level: `min(vol + step/100, 1)` going up, `max(vol - step/100, 0)` going down |
| `Player.MediaPlayerObject.StepCall` | src/model.ts:330-335 | the call for one group entry: `volume_set` at `StepLevel` when volume set is supported and the step is positive, else the native `volume_up` or `volume_down` addressed to that entry only, since the acting `entity_id` is omitted |
| `Player.MediaPlayerObject.StepMember` | src/model.ts:330-335 | one pass of the group loop appends exactly `StepCall` for that entry and stops the event |
| `Player.MediaPlayerObject.StepLevelBounds` | src/model.ts:330-333 | the group-path level is capped at 1 going up and at 0 going down, and a positive step moves it |
| `Player.Given` | src/model.ts:328 | the `member` argument is truthy: present and not empty |
| `Player.MediaPlayerObject.StepVolume` | src/model.ts:327-355 | without a member (`!member`), one call per group entry in list order: `volume_set` to the acting device's stepped level when it supports volume set and the step is positive, else native `volume_up`/`volume_down`; with a member, one native call |
| `Player.MediaPlayerObject.VolumeUp` | src/model.ts:327-340 | `StepVolume` going up |
| `Player.MediaPlayerObject.VolumeDown` | src/model.ts:342-355 | `StepVolume` going down |
| `Player.MediaPlayerObject.SetCall` | src/model.ts:385-388 | the `volume_set` call for one target at `vol` |
| `Player.MediaPlayerObject.SetVolume` | src/model.ts:382-396 | without an entity (`!ent`), one `volume_set` per group entry in list order, all at `vol`; with one, a single call |
| `Player.MediaPlayerObject.ToggleShuffle` | src/model.ts:280-282 | sends `shuffle_set` with the negated shuffle flag |
| `Player.MediaPlayerObject.SetSource` | src/model.ts:292-294 | sends `select_source` with the source |
| `Player.MediaPlayerObject.SetMedia` | src/model.ts:296-298 | sends `play_media` with the options |
| `Player.MediaPlayerObject.PlayPause` | src/model.ts:300-302 | sends `media_play_pause` |
| `Player.MediaPlayerObject.PlayStop` | src/model.ts:304-309 | sends `media_stop` while playing and `media_play` otherwise |
| `Player.MediaPlayerObject.SetSoundMode` | src/model.ts:311-313 | sends `select_sound_mode` with the mode |
| `Player.MediaPlayerObject.Next` | src/model.ts:315-317 | sends `media_next_track` |
| `Player.MediaPlayerObject.Prev` | src/model.ts:319-321 | sends `media_previous_track` |
| `Player.MediaPlayerObject.Stop` | src/model.ts:323-325 | sends `media_stop` |
| `Player.MediaPlayerObject.Seek` | src/model.ts:357-359 | sends `media_seek` to the position |
| `Player.MediaPlayerObject.JoinPlayer` | src/model.ts:369-374 | sends `sonos.join` with this entity as master, with no event |
| `Player.MediaPlayerObject.UnjoinPlayer` | src/model.ts:376-380 | sends `sonos.unjoin` for the player, with no event |
| `Player.Split` | src/model.ts:406 | `split` on one character gives at least one part, no part holds the separator, joining the parts restores the string, and there is one part exactly when the separator is absent |
| `Player.LastSegment` | src/model.ts:399 | `split('.').pop()` is the dot-free suffix after the last dot, or the whole id without one |
| `Player.MediaPlayerObject.ToggleScript` | src/model.ts:398-402 | calls the `script` domain with the id's last segment as service |
| `Player.MediaPlayerObject.ToggleService` | src/model.ts:404-410 | stops the event and calls service `parts[1]` of domain `parts[0]` with the data alone |
| `Duration.FormatDuration` | src/utils/getProgress.ts:1-11 | the formatter: the clock string of the duration's whole seconds, `Whole(d)` (its shape, round trip and symmetry are the lemmas below) |
| `Duration.Clock` | src/utils/getProgress.ts:6-10 | the hour field with its colon only when its two-digit form is not `00`, then minutes and seconds, each padded to two digits |
| `Duration.Pad` | src/utils/getProgress.ts:6-8 | a `0` before a single-digit field, the plain decimal form otherwise (two digits below 100 by `PadTwoDigits`) |
| `Duration.NatToString` | src/utils/getProgress.ts:6-8 | `toString` of a whole number: decimal digits without leading zeros whose value is the number, one digit below 10 |
| `Duration.PadTwoDigits` | src/utils/getProgress.ts:6-8 | every field below 100 renders as exactly two digits denoting it |
| `Duration.PadZero` | src/utils/getProgress.ts:10 | the padded hour is `"00"` exactly when the hour is 0 |
| `Duration.FormatShape` | src/utils/getProgress.ts:2-10 | the output is `MM:SS` (5 characters) when the hour field is 0 and `HH:MM:SS` (8) otherwise, all digits apart from the colons |
| `Duration.DayDecomposition` | src/utils/getProgress.ts:2-4 | the three fields are in range and add up to the seconds modulo one day |
| `Duration.ParseFormat` | src/utils/getProgress.ts:1-11 | reading the clock back gives the whole seconds modulo 86400 |
| `Duration.FormatDayWrap` | src/utils/getProgress.ts:4 | durations whose whole seconds agree modulo one day format identically |
| `Duration.FormatSymmetric` | src/utils/getProgress.ts:2-4 | thanks to `Math.abs`, a duration and its negation format alike |
| `Duration.FormatInjectiveWithinDay` | src/utils/getProgress.ts:1-11 | below one day, distinct whole seconds give distinct strings |
| `Card.CardConfig` | src/sonos-card.ts:84-87 | the merged configuration has the user's keys plus `name`; user values win and `name` defaults to `"Sonos"` |
| `Card.MissingEntities` | src/sonos-card.ts:80 | `config.entities` is missing, not a list, or empty: the condition the card logs |
| `Card.SonosCard.SetConfig` | src/sonos-card.ts:78-90 | stores the merged configuration and reports whether `entities` is missing or empty |
| `Card.PlayerCardConfig` | src/sonos-card.ts:233-256 | the player card's merge adds `name` and `player` defaults under the user's keys, which win at top level |
| `Card.SonosPlayerCard.SetConfig` | src/sonos-card.ts:228-259 | stores the player card's merged configuration and reports whether `entities` is missing or empty |
| `Card.PlayerCardExtendsCard` | src/sonos-card.ts:233-256 | away from `player`, both cards build the same configuration |
| `Card.CardConfigIdempotent` | src/sonos-card.ts:84-87 | merging a merged configuration again changes nothing |
| `Card.PlayerOverrideIsShallow` | src/sonos-card.ts:233-256 | a user `player` object replaces the defaults whole: its missing `hide` is not filled in |
| `Card.SonosCard.Pause` | src/sonos-card.ts:113-117 | one `media_pause` call for the entity |
| `Card.SonosCard.Previous` | src/sonos-card.ts:119-123 | one `media_previous_track` call for the entity |
| `Card.SonosCard.Play` | src/sonos-card.ts:125-129 | one `media_play` call for the entity |
| `Card.SonosCard.Next` | src/sonos-card.ts:131-135 | one `media_next_track` call for the entity |
| `Card.KeyOrder` | src/sonos-card.ts:142 | a `for..in` visits every key of the member record exactly once |
| `Card.SonosCard.CallGroup` | src/sonos-card.ts:137-175 | one call for the entity, then one per member key in visiting order, all with the same service and extra data |
| `Card.SonosCard.VolumeDown` | src/sonos-card.ts:137-147 | `volume_down` for the entity, then for each member key |
| `Card.SonosCard.VolumeUp` | src/sonos-card.ts:149-159 | `volume_up` for the entity, then for each member key |
| `Card.SonosCard.VolumeSet` | src/sonos-card.ts:161-175 | `volume_set` at `volume / 100` for the entity, then for each member key |
| `Card.FannedTargets` | src/sonos-card.ts:137-175 | a group helper makes `1 + keys` calls, and each member key is addressed by one of the calls after the entity's own |
| `Card.FannedOnlyMembers` | src/sonos-card.ts:137-175 | every call after the entity's own addresses a member key with the same service and extra data |
| `Editor.SonosCardEditor.SetConfig` | src/editor.ts:22-25 | keeps the configuration and takes `_entities` from `config.entities` |
| `Editor.SonosCardEditor.Name` | src/editor.ts:28-30 | the configured name when it is a string; `''` without a configuration, without a `name`, or with a non-string one |
| `Editor.Chosen` | src/editor.ts:109 | the value an edit stores: `checked` when the control has one, else `value` |
| `Editor.ApplyChange` | src/editor.ts:101-113 | a value of `''` deletes the key; any other value sets it to `checked` if defined, else `value`; every other key is kept; without a target or key nothing changes |
| `Editor.SonosCardEditor.ValueChanged` | src/editor.ts:97-115 | without a configuration or `hass`, nothing changes and no event fires; otherwise the configuration becomes `ApplyChange` of it and exactly one event carrying it fires; `_entities` is untouched |
| `Editor.SonosCardEditor.AddEntity` | src/editor.ts:122-133 | always clears the picker; an empty pick changes nothing else; otherwise sets `entities` to `_entities ++ [value]` through `ValueChanged` |
| `Editor.RemoveAt` | src/editor.ts:139-141 | `splice(index, 1)` drops exactly the entry at `index`, keeping the others in order, and does nothing past the end |
| `Editor.IndexOr` | src/editor.ts:139 | `ev.currentTarget?.index`, or 0 when absent |
| `Editor.SonosCardEditor.RemoveRow` | src/editor.ts:138-144 | sets `entities` to the list without row `index` (0 when absent) through `ValueChanged` |
| `Editor.SetAt` | src/editor.ts:150-153 | replaces only position `index`, or appends when `index` is the length; all other positions are kept |
| `Editor.SonosCardEditor.EditRow` | src/editor.ts:149-156 | sets `entities` to the list with row `index` (0 when absent) replaced, through `ValueChanged` |
| `Editor.EntitiesEditKeepsOthers` | src/editor.ts:104-111 | an entity-list edit never deletes `entities`, sets it to the new list and keeps every other key |
| `Editor.ClearThenSet` | src/editor.ts:104-111 | clearing a field and then setting it is the same as setting it |
| `Editor.SetAtSame` | src/editor.ts:150-153 | editing a row with its own value leaves the list unchanged |

## Left out

- `fetchArtwork` (src/model.ts:251-263) and the card's artwork computation: both are an asynchronous network fetch plus base64 encoding.
- Rendering and styles: `render`, the CSS, `customElements.define`, `window.customCards`, the console banner, `localize`, and the editor's HTML. `shouldUpdate` and `_handleAction` are left out with them.
- The module-global `activePlayer` and `loadCardHelpers` (src/sonos-card.ts:55, 89).
- `src/components/mediaControls.ts` is not part of this model. The jump amount it supplies is a parameter of `Jump`.
- `src/types.ts` (interfaces only) and the `ICON` table of `src/const.ts` (display strings).
- The display-only getters `id`, `icon`, `content`, `name`, `groupCount`, `isGrouped`, `master`, `isMaster`, `sources`, `source`, `soundModes`, `soundMode`, `picture`, `hasArtwork` and `getAttribute`. They feed rendering only and are not part of the core.
- The clock and dates. `Date.now()` and `new Date(this.updatedAt).getTime()` become integer-millisecond parameters of `Progress` and `CheckIdleAfter`. When `media_position_updated_at` is missing, the `updatedAt` getter gives 0 (src/model.ts:124-126), so the caller passes `updatedAt` = 0, the time of `new Date(0)`. Parsing a date string into milliseconds is not modelled.
- Floating point. Volumes, positions and durations are exact `real`s.
- `console.error` and `console.log`. The cards' `SetConfig` instead returns whether the source would log.
- Key order. JavaScript visits an object's integer-like keys in ascending order and its other keys in insertion order. A Dafny `map` keeps no insertion order, so `Card.KeyOrder` picks some enumeration of a zone's `members` keys, and the group helpers return the enumeration they used.
- Insertion order of `zones` and `speakerNames`. The constructor builds both records in the order of `config.entities`. `Topology.Resolve` and `Player.MediaPlayerObject.constructor` model both records as maps, which do not keep that order. No file in this model iterates either record, so the order is never observed here.
- Aliasing. The editor's `delete` mutates the configuration object that the host passed in. The model only shows the editor's own copy changing.
- `Duration.FormatDuration`: exact for finite durations whose remainders print in positional notation. A remainder below 1e-6 prints in exponent form, which `parseInt` misreads; that case is not modelled.
- `Player.MediaPlayerObject.ToggleService`: the model sends `''` as the service when the id has no dot. JavaScript sends `undefined`.
- `Editor.SonosCardEditor.EditRow` requires `index <= |_entities|`. An index past the end would leave holes in the JavaScript array, which a sequence cannot represent.
- `Editor.SonosCardEditor.Name` and the other readers of configuration strings treat a value that is not a string as absent. JavaScript would return a truthy non-string `name` as it is.
- `Player.MediaPlayerObject.constructor` requires `config.entities` to be a list. When the player is available, it also requires every configured entity, and every member of a leader's group, to be in `hass.states`. The source dereferences these without a check. A wrong-typed `config.entities` (for example a string) is out of scope.
- Values of the wrong type. Every attribute and configuration reader treats a value of the wrong type as absent: `sonos_group` is seen only as a list of strings, `friendly_name` and `repeat` only as strings, and numbers only as numbers. JavaScript would use such a value as it is, or coerce it.
- `Player.MediaPlayerObject.ToggleMute`, `StepVolume`, `VolumeUp`, `VolumeDown` and `SetVolume` require `sonos_group` to be present on the group path. `ToggleMute` also requires each target to be in `hass.states`. The source iterates and dereferences these unguarded.

## Behaviour worth noting

- `jump` (src/model.ts:361-367) clamps with `this.mediaDuration || newPosition` as the upper bound. When the media duration is 0 or missing, that bound is the new position itself, so the seek position is not clamped and can be negative. `Player.ClampSeek` states this.
- The repeat cycle is `off` → `all` → `one` → `off`. This follows from the value order of `REPEAT_STATE` (src/const.ts:10-14) and the index arithmetic at src/model.ts:285-288. An unknown repeat value moves to `off`.
- `groupCount` and `isGrouped` (src/model.ts:136-142) read `this.group.length`. The `group` field is declared at src/model.ts:25 but never assigned, so either getter throws a `TypeError` when called.
- The editor's row handlers (src/editor.ts:125-156) read `_entities` but never update it. After an add, remove or edit, only the configuration changes, until the host calls `setConfig` again.
