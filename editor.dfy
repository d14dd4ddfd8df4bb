/**
  The card editor of src/editor.ts: it holds the configuration being
  edited and its entity list, turns every edit into a new configuration
  and announces each one with a `config-changed` event (recorded in
  `fired`). Rendering is not part of this model.
 */
module Editor {
  import opened Host

  /** The editor element's state when a value-changed event arrives: `configValue` is "" when unset. */
  datatype Target = Target(configValue: string, value: Value, checked: Option<Value>)

  /** The value an edit stores: `checked` when the control has one, else `value`. */
  function Chosen(t: Target): Value {
    match t.checked
    case Some(c) => c
    case None => t.value
  }

  /**
    The configuration after `_valueChanged` on `target`: an empty string
    deletes the key, anything else sets it; without a target or key the
    configuration is kept.
   */
  function ApplyChange(config: map<string, Value>, target: Option<Target>): (r: map<string, Value>)
    ensures target.None? || target.value.configValue == "" ==> r == config
    ensures target.Some? && target.value.configValue != "" ==>
      var key := target.value.configValue;
      && (target.value.value == Str("") ==> key !in r && r.Keys == config.Keys - {key})
      && (target.value.value != Str("") ==> key in r && r[key] == Chosen(target.value) && r.Keys == config.Keys + {key})
      && (forall k :: k in config && k != key ==> k in r && r[k] == config[k])
  {
    match target
    case None => config
    case Some(t) =>
      if t.configValue == "" then config
      else if t.value == Str("") then config - {t.configValue}
      else config[t.configValue := Chosen(t)]
  }

  /** The event the row handlers fake: a new entity list under `entities`. */
  function EntitiesTarget(entities: seq<string>): Target {
    Target("entities", StrList(entities), None)
  }

  /** `splice(index, 1)` on a copy: the entry at `index` is dropped; past the end nothing changes. */
  function RemoveAt(s: seq<string>, index: nat): (r: seq<string>)
    ensures index >= |s| ==> r == s
    ensures index < |s| ==> |r| == |s| - 1 && r[..index] == s[..index] && r[index..] == s[index + 1..]
    ensures index < |s| ==> multiset(r) + multiset{s[index]} == multiset(s)
  {
    if index >= |s| then s
    else
      assert s == s[..index] + [s[index]] + s[index + 1..];
      s[..index] + s[index + 1..]
  }

  /** `copy[index] = value`: replaces the entry, or appends when `index` is the length. */
  function SetAt(s: seq<string>, index: nat, value: string): (r: seq<string>)
    requires index <= |s|
    ensures |r| == if index < |s| then |s| else |s| + 1
    ensures r[index] == value
    ensures forall j :: 0 <= j < |s| && j != index ==> r[j] == s[j]
  {
    if index < |s| then s[index := value] else s + [value]
  }

  /** `ev.currentTarget?.index || 0`. */
  function IndexOr(index: Option<nat>): nat {
    match index
    case Some(i) => i
    case None => 0
  }

  /** An entity-list edit never deletes `entities` and touches no other key. */
  lemma EntitiesEditKeepsOthers(config: map<string, Value>, entities: seq<string>)
    ensures var r := ApplyChange(config, Some(EntitiesTarget(entities)));
      && r.Keys == config.Keys + {"entities"}
      && r["entities"] == StrList(entities)
      && forall k :: k in config && k != "entities" ==> r[k] == config[k]
  {
  }

  /** Clearing a field and then setting it again amounts to setting it. */
  lemma ClearThenSet(config: map<string, Value>, key: string, v: Value)
    requires key != "" && v != Str("")
    ensures ApplyChange(ApplyChange(config, Some(Target(key, Str(""), None))), Some(Target(key, v, None)))
         == ApplyChange(config, Some(Target(key, v, None)))
  {
    var r1 := ApplyChange(ApplyChange(config, Some(Target(key, Str(""), None))), Some(Target(key, v, None)));
    var r2 := ApplyChange(config, Some(Target(key, v, None)));
    assert r1.Keys == r2.Keys;
  }

  /** Editing a row with its own value leaves the list unchanged. */
  lemma SetAtSame(s: seq<string>, index: nat)
    requires index < |s|
    ensures SetAt(s, index, s[index]) == s
  {
  }

  class SonosCardEditor {
    var hasHass: bool
    var config: Option<map<string, Value>>
    var entities: seq<string>
    var selectedEntity: string
    /** The configurations announced by `config-changed` events, oldest first. */
    var fired: seq<map<string, Value>>

    constructor (hasHass: bool)
      ensures this.hasHass == hasHass && config.None? && entities == [] && selectedEntity == "" && fired == []
    {
      this.hasHass := hasHass;
      config := None;
      entities := [];
      selectedEntity := "";
      fired := [];
    }

    /** Takes the configuration and its entity list (which the source reads unguarded). */
    method SetConfig(c: map<string, Value>)
      requires "entities" in c && c["entities"].StrList?
      modifies this
      ensures config == Some(c) && entities == c["entities"].items
      ensures hasHass == old(hasHass) && selectedEntity == old(selectedEntity) && fired == old(fired)
    {
      config := Some(c);
      entities := if |c["entities"].items| > 0 then c["entities"].items else [];
    }

    /** `_name`: the configured name when it is a non-empty string, else "". */
    function Name(): (r: string)
      reads this
      ensures config.Some? && "name" in config.value && config.value["name"].Str? ==> r == config.value["name"].s
      ensures config.None? || !("name" in config.value && config.value["name"].Str?) ==> r == ""
    {
      if config.Some? && "name" in config.value && config.value["name"].Str? then config.value["name"].s else ""
    }

    /** Applies an edit and announces the new configuration; does nothing before both configuration and hass are set. */
    method ValueChanged(target: Option<Target>)
      modifies this
      ensures old(config).None? || !hasHass ==> config == old(config) && fired == old(fired)
      ensures old(config).Some? && hasHass ==>
        config == Some(ApplyChange(old(config).value, target)) && fired == old(fired) + [config.value]
      ensures hasHass == old(hasHass) && entities == old(entities) && selectedEntity == old(selectedEntity)
    {
      if config.None? || !hasHass {
        return;
      }
      if target.Some? {
        var t := target.value;
        if t.configValue != "" {
          if t.value == Str("") {
            config := Some(config.value - {t.configValue});
          } else {
            config := Some(config.value[t.configValue := Chosen(t)]);
          }
        }
      }
      fired := fired + [config.value];
    }

    /** Appends the picked entity to the configured list; an empty pick only clears the picker. */
    method AddEntity(value: string)
      modifies this
      ensures selectedEntity == ""
      ensures value == "" || old(config).None? || !hasHass ==> config == old(config) && fired == old(fired)
      ensures value != "" && old(config).Some? && hasHass ==>
        config == Some(ApplyChange(old(config).value, Some(EntitiesTarget(old(entities) + [value]))))
        && fired == old(fired) + [config.value]
      ensures hasHass == old(hasHass) && entities == old(entities)
    {
      selectedEntity := "";
      if value == "" {
        return;
      }
      var newEntities := entities + [value];
      ValueChanged(Some(EntitiesTarget(newEntities)));
    }

    /** Drops the row at `index` (0 when the event carries none) from a copy of the list. */
    method RemoveRow(index: Option<nat>)
      modifies this
      ensures old(config).None? || !hasHass ==> config == old(config) && fired == old(fired)
      ensures old(config).Some? && hasHass ==>
        config == Some(ApplyChange(old(config).value, Some(EntitiesTarget(RemoveAt(old(entities), IndexOr(index))))))
        && fired == old(fired) + [config.value]
      ensures hasHass == old(hasHass) && entities == old(entities) && selectedEntity == old(selectedEntity)
    {
      var i := IndexOr(index);
      var newEntities := entities;
      if i < |newEntities| {
        newEntities := newEntities[..i] + newEntities[i + 1..];
      }
      ValueChanged(Some(EntitiesTarget(newEntities)));
    }

    /** Replaces the row at `index` (0 when the event carries none) in a copy of the list. */
    method EditRow(index: Option<nat>, value: string)
      requires IndexOr(index) <= |entities|
      modifies this
      ensures old(config).None? || !hasHass ==> config == old(config) && fired == old(fired)
      ensures old(config).Some? && hasHass ==>
        config == Some(ApplyChange(old(config).value, Some(EntitiesTarget(SetAt(old(entities), IndexOr(index), value)))))
        && fired == old(fired) + [config.value]
      ensures hasHass == old(hasHass) && entities == old(entities) && selectedEntity == old(selectedEntity)
    {
      var i := IndexOr(index);
      var newEntities := entities;
      if i < |newEntities| {
        newEntities := newEntities[i := value];
      } else {
        newEntities := newEntities + [value];
      }
      ValueChanged(Some(EntitiesTarget(newEntities)));
    }
  }
}
