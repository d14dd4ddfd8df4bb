/**
  The two Lovelace cards of src/sonos-card.ts: their configuration merge
  and the SonosCard's direct service helpers, which address one entity
  and then every key of a group's member record.
 */
module Card {
  import opened Host

  // ---------------------------------------------------------------------
  // Configuration

  /** The check both setConfig methods log about: `!config.entities || config.entities.length < 1`. */
  predicate MissingEntities(user: map<string, Value>) {
    !("entities" in user && user["entities"].StrList? && |user["entities"].items| >= 1)
  }

  /** `{ name: "Sonos", ...config }`: the user's keys win, `name` defaults to "Sonos". */
  function CardConfig(user: map<string, Value>): (r: map<string, Value>)
    ensures r.Keys == user.Keys + {"name"}
    ensures forall k :: k in user ==> r[k] == user[k]
    ensures "name" !in user ==> r["name"] == Str("Sonos")
  {
    map["name" := Str("Sonos")] + user
  }

  /** The default `player.hide` switches of the player card. */
  const HideDefaults: map<string, Value> := map[
    "repeat" := Bool(false), "shuffle" := Bool(false), "volume" := Bool(false),
    "controls" := Bool(false), "prev" := Bool(false), "next" := Bool(false),
    "play_pause" := Bool(false), "play_stop" := Bool(true), "volume_level" := Bool(false),
    "showRepeat" := Bool(true), "mute" := Bool(false), "jump" := Bool(true)]

  /** The default `player` object of the player card. */
  const PlayerDefaults: Value := Obj(map[
    "hide" := Obj(HideDefaults),
    "replace_mute" := Bool(false),
    "volume_stateless" := Bool(true)])

  /** The player card's merge: the defaults are overridden key by key at the top level only. */
  function PlayerCardConfig(user: map<string, Value>): (r: map<string, Value>)
    ensures r.Keys == user.Keys + {"name", "player"}
    ensures forall k :: k in user ==> r[k] == user[k]
    ensures "name" !in user ==> r["name"] == Str("Sonos")
    ensures "player" !in user ==> r["player"] == PlayerDefaults
  {
    map["name" := Str("Sonos"), "player" := PlayerDefaults] + user
  }

  /** Away from `player`, the two cards build the same configuration. */
  lemma PlayerCardExtendsCard(user: map<string, Value>)
    ensures var p, c := PlayerCardConfig(user), CardConfig(user);
      forall k :: k != "player" ==> (k in p <==> k in c) && (k in p ==> p[k] == c[k])
  {
  }

  /** Merging again changes nothing: a merged configuration already has every default. */
  lemma CardConfigIdempotent(user: map<string, Value>)
    ensures CardConfig(CardConfig(user)) == CardConfig(user)
    ensures PlayerCardConfig(PlayerCardConfig(user)) == PlayerCardConfig(user)
  {
    var c := CardConfig(user);
    assert CardConfig(c).Keys == c.Keys;
    var p := PlayerCardConfig(user);
    assert PlayerCardConfig(p).Keys == p.Keys;
  }

  /** A user-supplied `player` object replaces the defaults wholesale: e.g. its `hide` switches are not filled in. */
  lemma PlayerOverrideIsShallow(user: map<string, Value>, player: map<string, Value>)
    requires "hide" !in player
    ensures "hide" !in PlayerCardConfig(user["player" := Obj(player)])["player"].fields
  {
  }

  // ---------------------------------------------------------------------
  // Service helpers

  /** `{ entity_id: id, ...extra }`. */
  function Data(id: string, extra: map<string, Value>): map<string, Value> {
    map["entity_id" := Str(id)] + extra
  }

  /** `{ volume_level: volume / 100 }`: a percentage as the fraction the service expects. */
  function LevelData(volume: real): map<string, Value> {
    map["volume_level" := Num(volume / 100.0)]
  }

  /** The call a group helper makes for `id`. */
  function GroupCall(service: string, id: string, extra: map<string, Value>): Call {
    Call("media_player", service, Data(id, extra))
  }

  /** `calls` extends `before` by one call for `entity`, then one for each of `order`, in order. */
  predicate Fanned(calls: seq<Call>, before: seq<Call>, service: string, entity: string, order: seq<string>, extra: map<string, Value>) {
    && |calls| == |before| + 1 + |order|
    && calls[..|before|] == before
    && calls[|before|] == GroupCall(service, entity, extra)
    && forall i :: 0 <= i < |order| ==> calls[|before| + 1 + i] == GroupCall(service, order[i], extra)
  }

  /** The entity's own call starts the fan-out. */
  lemma FannedStart(before: seq<Call>, service: string, entity: string, extra: map<string, Value>)
    ensures Fanned(before + [GroupCall(service, entity, extra)], before, service, entity, [], extra)
  {
    assert (before + [GroupCall(service, entity, extra)])[..|before|] == before;
  }

  /** One more member call extends the fan-out by that member. */
  lemma FannedSnoc(calls: seq<Call>, before: seq<Call>, service: string, entity: string,
                   order: seq<string>, member: string, extra: map<string, Value>)
    requires Fanned(calls, before, service, entity, order, extra)
    ensures Fanned(calls + [GroupCall(service, member, extra)], before, service, entity, order + [member], extra)
  {
    var calls' := calls + [GroupCall(service, member, extra)];
    assert calls'[..|before|] == calls[..|before|];
    assert forall i :: 0 <= i < |calls| ==> calls'[i] == calls[i];
  }

  /** `order` lists every key of `keys` exactly once. */
  predicate Enumerates(order: seq<string>, keys: set<string>) {
    && |order| == |keys|
    && (forall k :: k in keys ==> k in order)
    && (forall i :: 0 <= i < |order| ==> order[i] in keys)
    && (forall i, j :: 0 <= i < j < |order| ==> order[i] != order[j])
  }

  /** Part way through the keys: `order` lists the visited ones once each, `rest` the others. */
  predicate Visiting(order: seq<string>, rest: set<string>, keys: set<string>) {
    && rest <= keys
    && (forall k :: k in keys ==> (k in rest <==> k !in order))
    && (forall i :: 0 <= i < |order| ==> order[i] in keys)
    && (forall i, j :: 0 <= i < j < |order| ==> order[i] != order[j])
    && |order| + |rest| == |keys|
  }

  /** Visiting one more key keeps the bookkeeping; with none left, every key was visited once. */
  lemma VisitOne(order: seq<string>, rest: set<string>, keys: set<string>, member: string)
    requires Visiting(order, rest, keys) && member in rest
    ensures Visiting(order + [member], rest - {member}, keys)
    ensures |rest - {member}| < |rest|
  {
    var order' := order + [member];
    assert forall i :: 0 <= i < |order| ==> order'[i] == order[i];
  }

  /** The keys a `for..in` loop visits, in the order it visits them. */
  method KeyOrder(keys: set<string>) returns (order: seq<string>)
    ensures Enumerates(order, keys)
  {
    order := [];
    var rest := keys;
    while rest != {}
      invariant Visiting(order, rest, keys)
      decreases |rest|
    {
      var k :| k in rest;
      VisitOne(order, rest, keys, k);
      order := order + [k];
      rest := rest - {k};
    }
  }

  class SonosCard {
    const hass: Hass
    var config: Option<map<string, Value>>

    constructor (hass: Hass)
      ensures this.hass == hass && config.None?
    {
      this.hass := hass;
      config := None;
    }

    /** Stores the merged configuration; `missing` is the condition the source logs as invalid. */
    method SetConfig(user: map<string, Value>) returns (missing: bool)
      modifies this
      ensures config == Some(CardConfig(user))
      ensures missing == MissingEntities(user)
    {
      missing := MissingEntities(user);
      config := Some(CardConfig(user));
    }

    method Pause(entity: string)
      modifies hass
      ensures hass.calls == old(hass.calls) + [Call("media_player", "media_pause", Data(entity, map[]))]
    {
      hass.CallService("media_player", "media_pause", Data(entity, map[]));
    }

    method Previous(entity: string)
      modifies hass
      ensures hass.calls == old(hass.calls) + [Call("media_player", "media_previous_track", Data(entity, map[]))]
    {
      hass.CallService("media_player", "media_previous_track", Data(entity, map[]));
    }

    method Play(entity: string)
      modifies hass
      ensures hass.calls == old(hass.calls) + [Call("media_player", "media_play", Data(entity, map[]))]
    {
      hass.CallService("media_player", "media_play", Data(entity, map[]));
    }

    method Next(entity: string)
      modifies hass
      ensures hass.calls == old(hass.calls) + [Call("media_player", "media_next_track", Data(entity, map[]))]
    {
      hass.CallService("media_player", "media_next_track", Data(entity, map[]));
    }

    /**
      Calls `service` for `entity`, then for every key of `members` (values
      are ignored); `order` is the order the keys were visited in.
     */
    method CallGroup(service: string, entity: string, members: map<string, string>, extra: map<string, Value>)
      returns (order: seq<string>)
      modifies hass
      ensures Enumerates(order, members.Keys)
      ensures Fanned(hass.calls, old(hass.calls), service, entity, order, extra)
    {
      hass.CallService("media_player", service, Data(entity, extra));
      FannedStart(old(hass.calls), service, entity, extra);
      order := KeyOrder(members.Keys);
      for i := 0 to |order|
        invariant Fanned(hass.calls, old(hass.calls), service, entity, order[..i], extra)
      {
        FannedSnoc(hass.calls, old(hass.calls), service, entity, order[..i], order[i], extra);
        assert order[..i + 1] == order[..i] + [order[i]];
        hass.CallService("media_player", service, Data(order[i], extra));
      }
      assert order[..|order|] == order;
    }

    method VolumeDown(entity: string, members: map<string, string>) returns (order: seq<string>)
      modifies hass
      ensures Enumerates(order, members.Keys)
      ensures Fanned(hass.calls, old(hass.calls), "volume_down", entity, order, map[])
    {
      order := CallGroup("volume_down", entity, members, map[]);
    }

    method VolumeUp(entity: string, members: map<string, string>) returns (order: seq<string>)
      modifies hass
      ensures Enumerates(order, members.Keys)
      ensures Fanned(hass.calls, old(hass.calls), "volume_up", entity, order, map[])
    {
      order := CallGroup("volume_up", entity, members, map[]);
    }

    /** Sets `volume` percent, as a fraction, on the entity and every member. */
    method VolumeSet(entity: string, members: map<string, string>, volume: real) returns (order: seq<string>)
      modifies hass
      ensures Enumerates(order, members.Keys)
      ensures Fanned(hass.calls, old(hass.calls), "volume_set", entity, order, LevelData(volume))
    {
      order := CallGroup("volume_set", entity, members, LevelData(volume));
    }
  }

  /** A group helper makes one call more than there are member keys, and addresses every member key. */
  lemma FannedTargets(calls: seq<Call>, before: seq<Call>, service: string, entity: string,
                      order: seq<string>, keys: set<string>, extra: map<string, Value>)
    requires Fanned(calls, before, service, entity, order, extra) && Enumerates(order, keys)
    ensures |calls| == |before| + 1 + |keys|
    ensures forall k :: k in keys ==> exists i :: |before| < i < |calls| && calls[i] == GroupCall(service, k, extra)
  {
    forall k | k in keys
      ensures exists i :: |before| < i < |calls| && calls[i] == GroupCall(service, k, extra)
    {
      var j :| 0 <= j < |order| && order[j] == k;
      assert calls[|before| + 1 + j] == GroupCall(service, k, extra);
    }
  }

  /** Every call a group helper makes after the entity's addresses a member key. */
  lemma FannedOnlyMembers(calls: seq<Call>, before: seq<Call>, service: string, entity: string,
                          order: seq<string>, keys: set<string>, extra: map<string, Value>)
    requires Fanned(calls, before, service, entity, order, extra) && Enumerates(order, keys)
    ensures forall i :: |before| < i < |calls| ==> exists k :: k in keys && calls[i] == GroupCall(service, k, extra)
  {
    forall i | |before| < i < |calls|
      ensures exists k :: k in keys && calls[i] == GroupCall(service, k, extra)
    {
      var j := i - |before| - 1;
      assert calls[i] == GroupCall(service, order[j], extra) && order[j] in keys;
    }
  }

  class SonosPlayerCard {
    var config: Option<map<string, Value>>

    constructor ()
      ensures config.None?
    {
      config := None;
    }

    /** Stores the merged configuration; `missing` is the condition the source logs as invalid. */
    method SetConfig(user: map<string, Value>) returns (missing: bool)
      modifies this
      ensures config == Some(PlayerCardConfig(user))
      ensures missing == MissingEntities(user)
    {
      missing := MissingEntities(user);
      config := Some(PlayerCardConfig(user));
    }
  }
}
