/**
  The MediaPlayerObject of src/model.ts: a facade over one media player's
  state snapshot. Its constructor rebuilds the zone topology (specified in
  module Topology); its getters derive capability flags, idle/active status,
  the extrapolated position and the media-info lines; its commands funnel
  into `CallService`, which appends to the host's call log.

  The clock is not read: `now` and the parsed `media_position_updated_at`
  are passed in as integer milliseconds.
 */
module Player {
  import opened Host
  import opened Consts
  import opened Topology

  function Min(a: real, b: real): real { if a <= b then a else b }
  function Max(a: real, b: real): real { if a >= b then a else b }

  // ---------------------------------------------------------------------
  // `(f | bit) === f` as JavaScript evaluates it

  const TwoTo31: int := 0x8000_0000
  const TwoTo32: int := 0x1_0000_0000

  /** 2^k. It is positive, which the proof of `BitOrPow2` needs to halve it. */
  function Pow2(k: nat): (r: nat)
    ensures r >= 1
  {
    if k == 0 then 1 else 2 * Pow2(k - 1)
  }

  /** Bitwise or of two non-negative integers, one bit at a time from the lowest. */
  function BitOr(a: nat, b: nat): nat
    decreases a + b
  {
    if a == 0 then b
    else if b == 0 then a
    else 2 * BitOr(a / 2, b / 2) + (if a % 2 == 1 || b % 2 == 1 then 1 else 0)
  }

  /**
    `(f | bit) === f` for a JavaScript value `f` and a small positive `bit`:
    `|` takes the 32 bits of ToInt32(f) and yields a signed 32-bit integer,
    which is strictly equal to `f` only when `f` is itself an integer in the
    32-bit signed range whose bits already contain `bit`. Any value that is
    not a number (undefined included) compares unequal.
   */
  predicate OrLeavesUnchanged(f: Option<Value>, bit: nat) {
    match f
    case Some(Num(x)) =>
      x == x.Floor as real && -TwoTo31 <= x.Floor < TwoTo31 &&
      var bits := x.Floor % TwoTo32;
      BitOr(bits, bit) == bits
    case _ => false
  }

  /** Bit `k` of `f`, counting from the lowest. */
  predicate BitSet(f: nat, k: nat) {
    if k == 0 then f % 2 == 1 else BitSet(f / 2, k - 1)
  }

  /** Or-ing in a power of two leaves a number unchanged iff that bit is already set. */
  lemma {:induction false} BitOrPow2(f: nat, k: nat)
    ensures BitOr(f, Pow2(k)) == f <==> BitSet(f, k)
  {
    if f != 0 && k > 0 {
      assert Pow2(k) % 2 == 0 && Pow2(k) / 2 == Pow2(k - 1);
      assert BitOr(f, Pow2(k)) == 2 * BitOr(f / 2, Pow2(k - 1)) + f % 2;
      BitOrPow2(f / 2, k - 1);
    } else if f == 0 && k > 0 {
      assert !BitSet(0, k) by { ZeroHasNoBits(k); }
    }
  }

  lemma {:induction false} ZeroHasNoBits(k: nat)
    ensures !BitSet(0, k)
  {
    if k > 0 {
      ZeroHasNoBits(k - 1);
    }
  }

  /** The capability test on a non-negative 31-bit feature mask is the test of one bit. */
  lemma FeatureBit(f: nat, k: nat)
    requires f < TwoTo31
    ensures OrLeavesUnchanged(Some(Num(f as real)), Pow2(k)) <==> BitSet(f, k)
  {
    assert (f as real).Floor == f;
    assert f % TwoTo32 == f;
    BitOrPow2(f, k);
  }

  /** Only the tested bit matters: masks that agree on bit `k` pass or fail the test together. */
  lemma FeatureBitOnly(f: nat, g: nat, k: nat)
    requires f < TwoTo31 && g < TwoTo31 && BitSet(f, k) == BitSet(g, k)
    ensures OrLeavesUnchanged(Some(Num(f as real)), Pow2(k)) == OrLeavesUnchanged(Some(Num(g as real)), Pow2(k))
  {
    FeatureBit(f, k);
    FeatureBit(g, k);
  }

  /** Adding a power of two whose bit is clear sets that bit and leaves every other bit as it was. */
  lemma {:induction false} AddBit(f: nat, j: nat, k: nat)
    requires !BitSet(f, j)
    ensures BitSet(f + Pow2(j), k) == (k == j || BitSet(f, k))
  {
    if j == 0 {
      assert f % 2 == 0;
      if k > 0 {
        assert (f + 1) / 2 == f / 2;
      }
    } else {
      assert Pow2(j) == 2 * Pow2(j - 1);
      assert (f + Pow2(j)) % 2 == f % 2;
      assert (f + Pow2(j)) / 2 == f / 2 + Pow2(j - 1);
      if k > 0 {
        AddBit(f / 2, j - 1, k - 1);
      }
    }
  }

  /** supportsPrev: a mask without bit 16 fails the test; adding 16 makes it pass and keeps supportsNext as it was. */
  lemma AddPrevBit(f: nat)
    requires f + 16 < TwoTo31 && !BitSet(f, 4)
    ensures !OrLeavesUnchanged(Some(Num(f as real)), 16)
    ensures OrLeavesUnchanged(Some(Num((f + 16) as real)), 16)
    ensures OrLeavesUnchanged(Some(Num((f + 16) as real)), 32) == OrLeavesUnchanged(Some(Num(f as real)), 32)
  {
    assert Pow2(4) == 16 && Pow2(5) == 32;
    FeatureBit(f, 4);
    FeatureBit(f + 16, 4);
    FeatureBit(f, 5);
    FeatureBit(f + 16, 5);
    AddBit(f, 4, 4);
    AddBit(f, 4, 5);
  }

  // ---------------------------------------------------------------------
  // `String.prototype.split` on one separator character

  /** The inverse of `split`: the parts with the separator between them. */
  function Join(parts: seq<string>, sep: char): string {
    if parts == [] then ""
    else if |parts| == 1 then parts[0]
    else parts[0] + [sep] + Join(parts[1..], sep)
  }

  /** `s.split(sep)`: the maximal separator-free pieces, empty ones included. */
  function Split(s: string, sep: char): (r: seq<string>)
    ensures |r| >= 1
    ensures forall i :: 0 <= i < |r| ==> sep !in r[i]
    ensures Join(r, sep) == s
    ensures |r| == 1 <==> sep !in s
  {
    if s == [] then [""]
    else
      var rest := Split(s[1..], sep);
      assert s == [s[0]] + s[1..];
      if s[0] == sep then
        SplitAtSep(rest, sep);
        [""] + rest
      else
        SplitAtChar(s[0], rest, sep);
        [[s[0]] + rest[0]] + rest[1..]
  }

  /** A leading separator opens a new, empty first part. */
  lemma SplitAtSep(rest: seq<string>, sep: char)
    requires rest != []
    ensures Join([""] + rest, sep) == [sep] + Join(rest, sep)
  {
    assert ([""] + rest)[1..] == rest;
  }

  /** Any other leading character joins the first part. */
  lemma SplitAtChar(c: char, rest: seq<string>, sep: char)
    requires rest != []
    ensures var r := [[c] + rest[0]] + rest[1..];
      |r| == |rest| && r[0] == [c] + rest[0] && r[1..] == rest[1..] && Join(r, sep) == [c] + Join(rest, sep)
  {
    var r := [[c] + rest[0]] + rest[1..];
    assert r[1..] == rest[1..];
  }

  /** A join ends with its last part. */
  lemma {:induction false} JoinEndsWithLast(parts: seq<string>, sep: char)
    requires parts != []
    ensures var j := Join(parts, sep); var last := parts[|parts| - 1];
      |last| <= |j| && j[|j| - |last|..] == last
  {
    if |parts| > 1 {
      JoinEndsWithLast(parts[1..], sep);
    }
  }

  /** `id.split('.').pop()`: the text after the last dot (all of it when there is none). */
  function LastSegment(id: string): (r: string)
    ensures '.' !in r
    ensures |r| <= |id| && id[|id| - |r|..] == r
    ensures |r| < |id| ==> id[|id| - |r| - 1] == '.'
    ensures '.' !in id ==> r == id
  {
    var parts := Split(id, '.');
    JoinEndsWithLast(parts, '.');
    LastFollowsSep(parts, '.');
    parts[|parts| - 1]
  }

  /** In a join of two or more parts, the last part follows a separator. */
  lemma {:induction false} LastFollowsSep(parts: seq<string>, sep: char)
    requires parts != []
    ensures var j := Join(parts, sep); var last := parts[|parts| - 1];
      |last| <= |j| && (|parts| > 1 ==> |last| < |j| && j[|j| - |last| - 1] == sep)
  {
    JoinEndsWithLast(parts, sep);
    if |parts| > 2 {
      LastFollowsSep(parts[1..], sep);
    } else if |parts| == 2 {
      assert Join(parts, sep) == parts[0] + [sep] + parts[1];
    }
  }

  // ---------------------------------------------------------------------
  // toggleRepeat's index arithmetic

  /** JavaScript `%`: the remainder has the sign of the dividend. */
  function JsRem(a: int, b: int): (r: int)
    requires b > 0
    ensures a >= 0 ==> r == a % b
    ensures -b < r < b
  {
    if a >= 0 then a % b else -((-a) % b)
  }

  /** `s.indexOf(x)`: the first position of `x`, or -1. */
  function IndexOf(s: seq<string>, x: string): (r: int)
    ensures -1 <= r < |s|
    ensures r == -1 <==> x !in s
    ensures r >= 0 ==> s[r] == x && forall k :: 0 <= k < r ==> s[k] != x
  {
    if s == [] then -1
    else if s[0] == x then 0
    else
      var k := IndexOf(s[1..], x);
      if k == -1 then -1 else k + 1
  }

  /** The repeat mode toggleRepeat sends, computed as the source does; the contract is the cycle it amounts to. */
  function NextRepeat(current: string): (r: string)
    ensures r in RepeatStates
    ensures current == RepeatOff ==> r == RepeatAll
    ensures current == RepeatAll ==> r == RepeatOne
    ensures current == RepeatOne ==> r == RepeatOff
    ensures current !in RepeatStates ==> r == RepeatOff
  {
    var states := RepeatStates;
    var length := |states|;
    var currentIndex := IndexOf(states, current) - 1;
    states[JsRem(currentIndex - JsRem(1, length) + length, length)]
  }

  /** The arithmetic reduces to the successor index modulo three. */
  lemma NextRepeatIsSuccessor(current: string)
    ensures NextRepeat(current) == RepeatStates[(IndexOf(RepeatStates, current) + 1) % 3]
  {
  }

  // ---------------------------------------------------------------------
  // mediaInfo

  /** One line of media information: the attribute, its prefix and its value. */
  datatype InfoEntry = InfoEntry(attr: string, prefix: string, text: Value)

  /** `{ text: attr[spec.attr], prefix: '', ...spec }`. */
  function Entry(spec: InfoSpec, text: Value): InfoEntry {
    InfoEntry(spec.attr, match spec.prefix case Some(p) => p case None => "", text)
  }

  /** The rows of `specs` whose attribute is truthy, in order. */
  function MediaInfoOf(specs: seq<InfoSpec>, attr: map<string, Value>): (r: seq<InfoEntry>)
    ensures |r| <= |specs|
    ensures forall k :: 0 <= k < |specs| && TruthyAt(attr, specs[k].attr) ==> Entry(specs[k], attr[specs[k].attr]) in r
    ensures forall x :: x in r ==>
      (Truthy(x.text) && exists k :: 0 <= k < |specs| && TruthyAt(attr, specs[k].attr) && x == Entry(specs[k], attr[specs[k].attr]))
  {
    if specs == [] then []
    else
      var rest := MediaInfoOf(specs[1..], attr);
      assert forall k :: 1 <= k < |specs| ==> specs[k] == specs[1..][k - 1];
      if TruthyAt(attr, specs[0].attr) then [Entry(specs[0], attr[specs[0].attr])] + rest else rest
  }

  /** mediaInfo keeps the order of the table: the lines of an earlier block of rows precede those of a later one. */
  lemma {:induction false} MediaInfoOrder(a: seq<InfoSpec>, b: seq<InfoSpec>, attr: map<string, Value>)
    ensures MediaInfoOf(a + b, attr) == MediaInfoOf(a, attr) + MediaInfoOf(b, attr)
  {
    if a != [] {
      assert (a + b)[1..] == a[1..] + b;
      MediaInfoOrder(a[1..], b, attr);
    } else {
      assert a + b == b;
    }
  }

  /** With MEDIA_INFO's rows, the title, when present, is the first line and has no prefix. */
  lemma MediaInfoTitleFirst(attr: map<string, Value>)
    requires TruthyAt(attr, "media_title")
    ensures var lines := MediaInfoOf(MediaInfo, attr);
      lines != [] && lines[0] == InfoEntry("media_title", "", attr["media_title"])
  {
    assert MediaInfo == [MediaInfo[0]] + MediaInfo[1..];
    MediaInfoOrder([MediaInfo[0]], MediaInfo[1..], attr);
  }

  // ---------------------------------------------------------------------
  // jump's clamping

  /** `Math.min(Math.max(p, 0), duration || p)`. */
  function ClampSeek(p: real, duration: real): (r: real)
    ensures duration > 0.0 ==> 0.0 <= r <= duration
    ensures duration > 0.0 && 0.0 <= p <= duration ==> r == p
    ensures duration > 0.0 && p < 0.0 ==> r == 0.0
    ensures duration > 0.0 && p > duration ==> r == duration
    ensures duration == 0.0 ==> r == p
    ensures duration < 0.0 ==> r == duration
    ensures r <= Max(duration, p)
  {
    Min(Max(p, 0.0), if duration != 0.0 then duration else p)
  }

  /** The idle view's `after` setting is present and truthy. */
  predicate IdleViewAfter(config: map<string, Value>) {
    "idle_view" in config && config["idle_view"].Obj? && TruthyAt(config["idle_view"].fields, "after")
  }

  /** `config.entities`, when it is a list. */
  function ConfiguredEntities(config: map<string, Value>): Option<seq<string>> {
    if "entities" in config && config["entities"].StrList? then Some(config["entities"].items) else None
  }

  /** A member argument that JavaScript treats as given (`member` truthy). */
  predicate Given(member: Option<string>) {
    member.Some? && member.value != ""
  }

  // ---------------------------------------------------------------------
  // The constructor's loops

  /** The inner loop over a leader's `sonos_group`: every other non-empty member is recorded with its name. */
  method AddGroupMembers(states: map<string, DeviceState>, members: map<string, string>, group: seq<string>, leader: string)
    returns (r: map<string, string>)
    requires MembersKnown(states, group, leader)
    ensures r == AddMembers(states, members, group, leader)
    ensures r == members + LeaderMembers(states, group, leader)
  {
    r := members;
    var j := 0;
    while j < |group|
      invariant 0 <= j <= |group|
      invariant r == AddMembers(states, members, group[..j], leader)
    {
      var member := group[j];
      assert group[..j + 1][..j] == group[..j];
      if member != leader {
        if member != "" {
          r := r[member := NameOrEmpty(states[member])];
        }
      }
      j := j + 1;
    }
    assert group[..j] == group;
    AddMembersIsUnion(states, members, group, leader);
  }

  /** One pass of the constructor's outer loop, for configured entity `e`. */
  method VisitEntity(states: map<string, DeviceState>, zones: map<string, Zone>, names: map<string, Option<string>>,
                     e: string, unavailable: bool)
    returns (zs: map<string, Zone>, ns: map<string, Option<string>>)
    requires !unavailable ==> StepDefined(states, e)
    ensures Topo(zs, ns) == Step(states, Topo(zones, names), e, unavailable)
  {
    zs, ns := zones, names;
    if e !in zs {
      zs := zs[e := Placeholder];
      ns := ns[e := if e in states then FriendlyName(states[e]) else Some("")];
    }
    assert Topo(zs, ns) == Step(states, Topo(zones, names), e, true);
    if !unavailable {
      var stateObj := states[e];
      ghost var z := zs[e].(state := stateObj.state, roomName := FriendlyName(stateObj));
      zs := zs[e := zs[e].(state := stateObj.state)];
      zs := zs[e := zs[e].(roomName := FriendlyName(stateObj))];
      assert zs[e] == z;
      var group := SonosGroup(stateObj);
      if group.Some? && |group.value| > 1 && group.value[0] == e {
        var members := AddGroupMembers(states, zs[e].members, group.value, e);
        zs := zs[e := zs[e].(members := members)];
      } else if group.Some? && |group.value| > 1 {
        zs := zs - {e};
      }
    }
  }

  // ---------------------------------------------------------------------

  class MediaPlayerObject {
    const hass: Hass
    const config: map<string, Value>
    const entity: DeviceState
    const entityId: string
    const state: string
    const attr: map<string, Value>
    var idle: bool
    var active: bool
    var zones: map<string, Zone>
    var speakerNames: map<string, Option<string>>

    /** Wraps `entity` and rebuilds the zones and speaker names of the configured entities. */
    constructor (hass: Hass, config: map<string, Value>, entity: DeviceState)
      requires ConfiguredEntities(config).Some?
      requires entity.state != "unavailable" ==> Resolvable(hass.states, ConfiguredEntities(config).value)
      ensures this.hass == hass && this.config == config && this.entity == entity
      ensures entityId == (if entity.entityId != "" then entity.entityId else StrOr(config, "entity", ""))
      ensures state == entity.state && attr == entity.attributes
      ensures !idle && active == IsActive()
      ensures Topo(zones, speakerNames) == Resolve(hass.states, ConfiguredEntities(config).value, entity.state == "unavailable")
    {
      this.hass := hass;
      this.config := config;
      this.entity := entity;
      entityId := if entity.entityId != "" then entity.entityId else StrOr(config, "entity", "");
      state := entity.state;
      attr := entity.attributes;
      idle := false;
      active := entity.state != "off" && entity.state != "unavailable";

      var es := ConfiguredEntities(config).value;
      var unavailable := entity.state == "unavailable";
      var zs: map<string, Zone> := map[];
      var names: map<string, Option<string>> := map[];
      var i := 0;
      while i < |es|
        invariant 0 <= i <= |es|
        invariant Topo(zs, names) == Resolve(hass.states, es[..i], unavailable)
      {
        assert !unavailable ==> StepDefined(hass.states, es[i]);
        assert es[..i + 1][..i] == es[..i];
        zs, names := VisitEntity(hass.states, zs, names, es[i], unavailable);
        i := i + 1;
      }
      assert es[..i] == es;
      zones := zs;
      speakerNames := names;
    }

    // -- state getters (src/model.ts:78-174) --

    predicate IsPaused() { state == "paused" }
    predicate IsPlaying() { state == "playing" }
    predicate IsIdle() { state == "idle" }
    predicate IsStandby() { state == "standby" }
    predicate IsUnavailable() { state == "unavailable" }
    predicate IsOff() { state == "off" }

    predicate IsActive()
      reads this
    {
      !IsOff() && !IsUnavailable() && !idle
    }

    predicate Shuffle() { TruthyAt(attr, "shuffle") }
    function Repeat(): string { StrOr(attr, "repeat", RepeatOff) }
    function MediaDuration(): real { NumOr(attr, "media_duration", 0.0) }
    function Position(): real { NumOr(attr, "media_position", 0.0) }
    predicate Muted() { TruthyAt(attr, "is_volume_muted") }
    function Vol(): real { NumOr(attr, "volume_level", 0.0) }
    function VolumeStep(): real { NumOr(config, "volume_step", 0.0) }

    // -- derived getters --

    function MediaInfoLines(): seq<InfoEntry> { MediaInfoOf(MediaInfo, attr) }

    predicate HasProgress()
      reads this
    {
      !idle && forall p :: p in ProgressProps ==> p in attr
    }

    predicate SupportsPrev() { OrLeavesUnchanged(Get(attr, "supported_features"), 16) }
    predicate SupportsNext() { OrLeavesUnchanged(Get(attr, "supported_features"), 32) }

    /** The position extrapolated to `now` while playing; `updatedAt` is the parsed `media_position_updated_at`. */
    function Progress(now: int, updatedAt: int): real {
      if IsPlaying() then Position() + (now - updatedAt) as real / 1000.0 else Position()
    }

    /** Paused or stopped, the position does not move with the clock; playing, it advances one second per thousand milliseconds. */
    lemma ProgressClock(now1: int, now2: int, updatedAt: int)
      ensures !IsPlaying() ==> Progress(now1, updatedAt) == Position() && Progress(now2, updatedAt) == Position()
      ensures IsPlaying() ==> Progress(now2, updatedAt) - Progress(now1, updatedAt) == (now2 - now1) as real / 1000.0
      ensures IsPlaying() && now1 == updatedAt ==> Progress(now1, updatedAt) == Position()
    {
    }

    predicate TrackIdle()
      reads this
    {
      active && !IsPlaying() && TruthyAt(attr, "media_position_updated_at") && IdleViewAfter(config)
    }

    predicate SupportsShuffle() { "shuffle" in attr }
    predicate SupportsRepeat() { "repeat" in attr }
    predicate SupportsMute() { "is_volume_muted" in attr }
    predicate SupportsVolumeSet() { "volume_level" in attr }

    /** Sets `idle` from the time elapsed since the last position update, then recomputes `active`. */
    method CheckIdleAfter(time: real, now: int, updatedAt: int) returns (r: bool)
      modifies this
      ensures idle == ((now - updatedAt) as real / 1000.0 > time * 60.0)
      ensures active == IsActive() && active == (!IsOff() && !IsUnavailable() && !idle)
      ensures r == idle
      ensures zones == old(zones) && speakerNames == old(speakerNames)
    {
      var diff := (now - updatedAt) as real / 1000.0;
      idle := diff > time * 60.0;
      active := IsActive();
      r := idle;
    }

    // -- commands --

    /** The data callService sends: the acting `entity_id` unless omitted, overlaid by the options. */
    function Payload(omit: bool, options: map<string, Value>): (r: map<string, Value>)
      ensures r.Keys == options.Keys + (if omit then {} else {"entity_id"})
      ensures forall k :: k in options ==> r[k] == options[k]
      ensures !omit && "entity_id" !in options ==> r["entity_id"] == Str(entityId)
    {
      (if omit then map[] else map["entity_id" := Str(entityId)]) + options
    }

    method CallService(e: Event?, service: string, options: map<string, Value> := map[],
                       domain: string := "media_player", omit: bool := false)
      modifies hass, e
      ensures hass.calls == old(hass.calls) + [Call(domain, service, Payload(omit, options))]
      ensures e != null ==> e.stopped
    {
      if e != null {
        e.StopPropagation();
      }
      hass.CallService(domain, service, Payload(omit, options));
    }

    /** The call toggling `id`'s mute: the negation of that device's own `is_volume_muted`. */
    function MuteCall(id: string): Call
      requires id in hass.states
    {
      Call("media_player", "volume_mute",
           map["is_volume_muted" := Bool(!TruthyAt(hass.states[id].attributes, "is_volume_muted")),
               "entity_id" := Str(id)])
    }

    method ToggleMute(e: Event?, member: Option<string>)
      requires member.None? ==> SonosGroup(entity).Some? && forall id :: id in SonosGroup(entity).value ==> id in hass.states
      requires member.Some? ==> member.value in hass.states
      modifies hass, e
      ensures member.None? ==>
        var g := SonosGroup(entity).value; var n := |old(hass.calls)|;
        && |hass.calls| == n + |g|
        && hass.calls[..n] == old(hass.calls)
        && forall i :: 0 <= i < |g| ==> hass.calls[n + i] == MuteCall(g[i])
      ensures member.Some? ==> hass.calls == old(hass.calls) + [MuteCall(member.value)]
      ensures e != null ==> e.stopped == (old(e.stopped) || member.Some? || |SonosGroup(entity).value| > 0)
    {
      if member.None? {
        var group := SonosGroup(entity).value;
        var i := 0;
        while i < |group|
          invariant 0 <= i <= |group|
          invariant |hass.calls| == |old(hass.calls)| + i
          invariant hass.calls[..|old(hass.calls)|] == old(hass.calls)
          invariant forall k :: 0 <= k < i ==> hass.calls[|old(hass.calls)| + k] == MuteCall(group[k])
          invariant e != null ==> e.stopped == (old(e.stopped) || i > 0)
        {
          var entityId := group[i];
          var options := map["is_volume_muted" := Bool(!TruthyAt(hass.states[entityId].attributes, "is_volume_muted")),
                              "entity_id" := Str(entityId)];
          assert Payload(true, options) == options;
          CallService(e, "volume_mute", options, "media_player", true);
          i := i + 1;
        }
      } else {
        var options := map["is_volume_muted" := Bool(!TruthyAt(hass.states[member.value].attributes, "is_volume_muted")),
                            "entity_id" := Str(member.value)];
        assert Payload(true, options) == options;
        CallService(e, "volume_mute", options, "media_player", true);
      }
    }

    method ToggleShuffle(e: Event?)
      modifies hass, e
      ensures hass.calls == old(hass.calls) + [Call("media_player", "shuffle_set", Payload(false, map["shuffle" := Bool(!Shuffle())]))]
      ensures e != null ==> e.stopped
    {
      CallService(e, "shuffle_set", map["shuffle" := Bool(!Shuffle())]);
    }

    method ToggleRepeat(e: Event?)
      modifies hass, e
      ensures hass.calls == old(hass.calls) + [Call("media_player", "repeat_set", Payload(false, map["repeat" := Str(NextRepeat(Repeat()))]))]
      ensures e != null ==> e.stopped
    {
      var nextState := NextRepeat(Repeat());
      CallService(e, "repeat_set", map["repeat" := Str(nextState)]);
    }

    method SetSource(e: Event?, source: string)
      modifies hass, e
      ensures hass.calls == old(hass.calls) + [Call("media_player", "select_source", Payload(false, map["source" := Str(source)]))]
      ensures e != null ==> e.stopped
    {
      CallService(e, "select_source", map["source" := Str(source)]);
    }

    method SetMedia(e: Event?, opts: map<string, Value>)
      modifies hass, e
      ensures hass.calls == old(hass.calls) + [Call("media_player", "play_media", Payload(false, opts))]
      ensures e != null ==> e.stopped
    {
      CallService(e, "play_media", opts);
    }

    method PlayPause(e: Event?)
      modifies hass, e
      ensures hass.calls == old(hass.calls) + [Call("media_player", "media_play_pause", Payload(false, map[]))]
      ensures e != null ==> e.stopped
    {
      CallService(e, "media_play_pause");
    }

    method PlayStop(e: Event?)
      modifies hass, e
      ensures hass.calls == old(hass.calls) + [Call("media_player", if IsPlaying() then "media_stop" else "media_play", Payload(false, map[]))]
      ensures e != null ==> e.stopped
    {
      if !IsPlaying() {
        CallService(e, "media_play");
      } else {
        CallService(e, "media_stop");
      }
    }

    method SetSoundMode(e: Event?, name: string)
      modifies hass, e
      ensures hass.calls == old(hass.calls) + [Call("media_player", "select_sound_mode", Payload(false, map["sound_mode" := Str(name)]))]
      ensures e != null ==> e.stopped
    {
      CallService(e, "select_sound_mode", map["sound_mode" := Str(name)]);
    }

    method Next(e: Event?)
      modifies hass, e
      ensures hass.calls == old(hass.calls) + [Call("media_player", "media_next_track", Payload(false, map[]))]
      ensures e != null ==> e.stopped
    {
      CallService(e, "media_next_track");
    }

    method Prev(e: Event?)
      modifies hass, e
      ensures hass.calls == old(hass.calls) + [Call("media_player", "media_previous_track", Payload(false, map[]))]
      ensures e != null ==> e.stopped
    {
      CallService(e, "media_previous_track");
    }

    method Stop(e: Event?)
      modifies hass, e
      ensures hass.calls == old(hass.calls) + [Call("media_player", "media_stop", Payload(false, map[]))]
      ensures e != null ==> e.stopped
    {
      CallService(e, "media_stop");
    }

    /** The level volumeUp (`up`) or volumeDown sets on every group member: the acting device's volume, stepped and clamped. */
    function StepLevel(up: bool): real {
      if up then Min(Vol() + VolumeStep() / 100.0, 1.0) else Max(Vol() - VolumeStep() / 100.0, 0.0)
    }

    /** The stepped level stays within [0, 1], and a positive step below full volume raises it. */
    lemma StepLevelBounds()
      ensures StepLevel(true) <= 1.0 && StepLevel(false) >= 0.0
      ensures 0.0 <= Vol() <= 1.0 && VolumeStep() >= 0.0 ==> 0.0 <= StepLevel(true) && StepLevel(false) <= 1.0
      ensures VolumeStep() > 0.0 && Vol() < 1.0 ==> StepLevel(true) > Vol()
      ensures VolumeStep() > 0.0 && Vol() > 0.0 ==> StepLevel(false) < Vol()
    {
    }

    /** The call the group path of volumeUp (`up`) or volumeDown makes for `id`. */
    function StepCall(id: string, up: bool): Call {
      if SupportsVolumeSet() && VolumeStep() > 0.0 then
        Call("media_player", "volume_set", map["entity_id" := Str(id), "volume_level" := Num(StepLevel(up))])
      else
        Call("media_player", if up then "volume_up" else "volume_down", map["entity_id" := Str(id)])
    }

    /** One pass of the group loop of volumeUp (`up`) or volumeDown: the call for member `id`. */
    method StepMember(e: Event?, id: string, up: bool)
      modifies hass, e
      ensures hass.calls == old(hass.calls) + [StepCall(id, up)]
      ensures e != null ==> e.stopped
    {
      if SupportsVolumeSet() && VolumeStep() > 0.0 {
        var options := map["entity_id" := Str(id), "volume_level" := Num(StepLevel(up))];
        assert Payload(false, options) == options;
        CallService(e, "volume_set", options);
      } else {
        var options := map["entity_id" := Str(id)];
        assert Payload(true, options) == options;
        CallService(e, if up then "volume_up" else "volume_down", options, "media_player", true);
      }
    }

    /** The shared body of volumeUp (`up`) and volumeDown. */
    method StepVolume(e: Event?, member: Option<string>, up: bool)
      requires !Given(member) ==> SonosGroup(entity).Some?
      modifies hass, e
      ensures !Given(member) ==>
        var g := SonosGroup(entity).value; var n := |old(hass.calls)|;
        && |hass.calls| == n + |g|
        && hass.calls[..n] == old(hass.calls)
        && forall i :: 0 <= i < |g| ==> hass.calls[n + i] == StepCall(g[i], up)
      ensures Given(member) ==>
        hass.calls == old(hass.calls) + [Call("media_player", if up then "volume_up" else "volume_down", map["entity_id" := Str(member.value)])]
      ensures e != null ==> e.stopped == (old(e.stopped) || Given(member) || |SonosGroup(entity).value| > 0)
    {
      var service := if up then "volume_up" else "volume_down";
      if !Given(member) {
        var group := SonosGroup(entity).value;
        var i := 0;
        while i < |group|
          invariant 0 <= i <= |group|
          invariant |hass.calls| == |old(hass.calls)| + i
          invariant hass.calls[..|old(hass.calls)|] == old(hass.calls)
          invariant forall k :: 0 <= k < i ==> hass.calls[|old(hass.calls)| + k] == StepCall(group[k], up)
          invariant e != null ==> e.stopped == (old(e.stopped) || i > 0)
        {
          StepMember(e, group[i], up);
          i := i + 1;
        }
      } else {
        var options := map["entity_id" := Str(member.value)];
        assert Payload(true, options) == options;
        CallService(e, service, options, "media_player", true);
      }
    }

    method VolumeUp(e: Event?, member: Option<string>)
      requires !Given(member) ==> SonosGroup(entity).Some?
      modifies hass, e
      ensures !Given(member) ==>
        var g := SonosGroup(entity).value; var n := |old(hass.calls)|;
        && |hass.calls| == n + |g|
        && hass.calls[..n] == old(hass.calls)
        && forall i :: 0 <= i < |g| ==> hass.calls[n + i] == StepCall(g[i], true)
      ensures Given(member) ==>
        hass.calls == old(hass.calls) + [Call("media_player", "volume_up", map["entity_id" := Str(member.value)])]
      ensures e != null ==> e.stopped == (old(e.stopped) || Given(member) || |SonosGroup(entity).value| > 0)
    {
      StepVolume(e, member, true);
    }

    method VolumeDown(e: Event?, member: Option<string>)
      requires !Given(member) ==> SonosGroup(entity).Some?
      modifies hass, e
      ensures !Given(member) ==>
        var g := SonosGroup(entity).value; var n := |old(hass.calls)|;
        && |hass.calls| == n + |g|
        && hass.calls[..n] == old(hass.calls)
        && forall i :: 0 <= i < |g| ==> hass.calls[n + i] == StepCall(g[i], false)
      ensures Given(member) ==>
        hass.calls == old(hass.calls) + [Call("media_player", "volume_down", map["entity_id" := Str(member.value)])]
      ensures e != null ==> e.stopped == (old(e.stopped) || Given(member) || |SonosGroup(entity).value| > 0)
    {
      StepVolume(e, member, false);
    }

    method Seek(e: Event?, pos: real)
      modifies hass, e
      ensures hass.calls == old(hass.calls) + [Call("media_player", "media_seek", Payload(false, map["seek_position" := Num(pos)]))]
      ensures e != null ==> e.stopped
    {
      CallService(e, "media_seek", map["seek_position" := Num(pos)]);
    }

    /** Seeks `amount` seconds from the extrapolated position, clamped to the track when its duration is known. */
    method Jump(e: Event?, amount: real, now: int, updatedAt: int)
      modifies hass, e
      ensures hass.calls == old(hass.calls) +
        [Call("media_player", "media_seek",
              Payload(false, map["seek_position" := Num(ClampSeek(Progress(now, updatedAt) + amount, MediaDuration()))]))]
      ensures e != null ==> e.stopped
    {
      var newPosition := Progress(now, updatedAt) + amount;
      var clampedNewPosition := ClampSeek(newPosition, MediaDuration());
      CallService(e, "media_seek", map["seek_position" := Num(clampedNewPosition)]);
    }

    method JoinPlayer(playerId: string)
      modifies hass
      ensures hass.calls == old(hass.calls) + [Call("sonos", "join", map["master" := Str(entityId), "entity_id" := Str(playerId)])]
    {
      hass.CallService("sonos", "join", map["master" := Str(entityId), "entity_id" := Str(playerId)]);
    }

    method UnjoinPlayer(playerId: string)
      modifies hass
      ensures hass.calls == old(hass.calls) + [Call("sonos", "unjoin", map["entity_id" := Str(playerId)])]
    {
      hass.CallService("sonos", "unjoin", map["entity_id" := Str(playerId)]);
    }

    /** The call the group path of setVolume makes for `id`. */
    function SetCall(id: string, vol: real): Call {
      Call("media_player", "volume_set", map["entity_id" := Str(id), "volume_level" := Num(vol)])
    }

    method SetVolume(e: Event?, vol: real, ent: Option<string> := None)
      requires !Given(ent) ==> SonosGroup(entity).Some?
      modifies hass, e
      ensures !Given(ent) ==>
        var g := SonosGroup(entity).value; var n := |old(hass.calls)|;
        && |hass.calls| == n + |g|
        && hass.calls[..n] == old(hass.calls)
        && forall i :: 0 <= i < |g| ==> hass.calls[n + i] == SetCall(g[i], vol)
      ensures Given(ent) ==> hass.calls == old(hass.calls) + [SetCall(ent.value, vol)]
      ensures e != null ==> e.stopped == (old(e.stopped) || Given(ent) || |SonosGroup(entity).value| > 0)
    {
      if !Given(ent) {
        var group := SonosGroup(entity).value;
        var i := 0;
        while i < |group|
          invariant 0 <= i <= |group|
          invariant |hass.calls| == |old(hass.calls)| + i
          invariant hass.calls[..|old(hass.calls)|] == old(hass.calls)
          invariant forall k :: 0 <= k < i ==> hass.calls[|old(hass.calls)| + k] == SetCall(group[k], vol)
          invariant e != null ==> e.stopped == (old(e.stopped) || i > 0)
        {
          var options := map["entity_id" := Str(group[i]), "volume_level" := Num(vol)];
          assert Payload(false, options) == options;
          CallService(e, "volume_set", options);
          i := i + 1;
        }
      } else {
        var options := map["entity_id" := Str(ent.value), "volume_level" := Num(vol)];
        assert Payload(false, options) == options;
        CallService(e, "volume_set", options);
      }
    }

    /** Runs the script named by the last dot-separated segment of `id`. */
    method ToggleScript(e: Event?, id: string, data: map<string, Value> := map[])
      modifies hass, e
      ensures hass.calls == old(hass.calls) + [Call("script", LastSegment(id), Payload(false, data))]
      ensures e != null ==> e.stopped
    {
      CallService(e, LastSegment(id), data, "script");
    }

    /** Calls the service `domain.service` named by `id`, without the acting entity. */
    method ToggleService(e: Event, id: string, data: map<string, Value> := map[])
      modifies hass, e
      ensures var parts := Split(id, '.');
        hass.calls == old(hass.calls) + [Call(parts[0], if |parts| > 1 then parts[1] else "", data)]
      ensures e.stopped
    {
      e.StopPropagation();
      var parts := Split(id, '.');
      var domain, service := parts[0], if |parts| > 1 then parts[1] else "";
      hass.CallService(domain, service, data);
    }
  }
}
