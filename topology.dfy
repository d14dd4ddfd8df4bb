/**
  Zone reconstruction (the loop of the MediaPlayerObject constructor in
  src/model.ts): from the configured entity ids and the host's flat state
  table, rebuild the playback groups keyed by their leader, and the table
  of speaker names.

  The loop is specified here as a left fold, `Resolve`, whose step `Step`
  is one iteration of the loop body; what the fold computes is stated by
  the lemmas at the end of the module.
 */
module Topology {
  import opened Host

  /** A zone as the card keeps it: the group's other members (id to display name), and the leader's state and name. */
  datatype Zone = Zone(members: map<string, string>, state: string, roomName: Option<string>)

  /** The entry created for a configured entity the first time the loop meets it. */
  const Placeholder := Zone(map[], "", Some(""))

  /** A topology: the `zones` and `speakerNames` records. */
  datatype Topo = Topo(zones: map<string, Zone>, speakerNames: map<string, Option<string>>)

  /** `attributes.friendly_name`, `None` when it is undefined. */
  function FriendlyName(st: DeviceState): Option<string> {
    if "friendly_name" in st.attributes && st.attributes["friendly_name"].Str?
    then Some(st.attributes["friendly_name"].s)
    else None
  }

  /** `attributes.friendly_name ?? ''`. */
  function NameOrEmpty(st: DeviceState): string {
    match FriendlyName(st)
    case Some(n) => n
    case None => ""
  }

  /** `attributes.sonos_group`, `None` when it is undefined. */
  function SonosGroup(st: DeviceState): Option<seq<string>> {
    if "sonos_group" in st.attributes && st.attributes["sonos_group"].StrList?
    then Some(st.attributes["sonos_group"].items)
    else None
  }

  /** `id` heads a group of two or more. */
  predicate IsLeader(st: DeviceState, id: string) {
    var g := SonosGroup(st);
    g.Some? && |g.value| > 1 && g.value[0] == id
  }

  /** `id` belongs to a group of two or more that another device leads. */
  predicate IsFollower(st: DeviceState, id: string) {
    var g := SonosGroup(st);
    g.Some? && |g.value| > 1 && g.value[0] != id
  }

  /** Every member id the loop dereferences has a state (the source reads `state.attributes` unguarded). */
  predicate MembersKnown(states: map<string, DeviceState>, group: seq<string>, leader: string) {
    forall m :: m in group && m != leader && m != "" ==> m in states
  }

  /** What one iteration for entity `e` dereferences when the wrapped player is available. */
  predicate StepDefined(states: map<string, DeviceState>, e: string) {
    e in states && (IsLeader(states[e], e) ==> MembersKnown(states, SonosGroup(states[e]).value, e))
  }

  /** What the whole loop dereferences when the wrapped player is available. */
  predicate Resolvable(states: map<string, DeviceState>, entities: seq<string>) {
    forall e :: e in entities ==> StepDefined(states, e)
  }

  /** The speaker name recorded for an entity the first time it is met. */
  function SpeakerName(states: map<string, DeviceState>, e: string): Option<string> {
    if e in states then FriendlyName(states[e]) else Some("")
  }

  /** The inner loop over a leader's `sonos_group`: record every other non-empty id with its name. */
  function AddMembers(states: map<string, DeviceState>, members: map<string, string>, group: seq<string>, leader: string): map<string, string>
    requires MembersKnown(states, group, leader)
    decreases |group|
  {
    if group == [] then members
    else
      var prefix := group[..|group| - 1];
      assert forall m :: m in prefix ==> m in group;
      var acc := AddMembers(states, members, prefix, leader);
      var m := group[|group| - 1];
      if m != leader && m != "" then acc[m := NameOrEmpty(states[m])] else acc
  }

  /** One iteration of the outer loop, for configured entity `e`; `unavailable` is the wrapped player's status. */
  function Step(states: map<string, DeviceState>, t: Topo, e: string, unavailable: bool): Topo
    requires !unavailable ==> StepDefined(states, e)
  {
    var t1 := if e in t.zones then t
              else Topo(t.zones[e := Placeholder], t.speakerNames[e := SpeakerName(states, e)]);
    if unavailable then t1
    else
      var st := states[e];
      var z := t1.zones[e].(state := st.state, roomName := FriendlyName(st));
      if IsLeader(st, e) then
        t1.(zones := t1.zones[e := z.(members := AddMembers(states, z.members, SonosGroup(st).value, e))])
      else if SonosGroup(st).Some? && |SonosGroup(st).value| > 1 then
        t1.(zones := t1.zones - {e})
      else
        t1.(zones := t1.zones[e := z])
  }

  /** The loop over `entities`, from empty records. */
  function Resolve(states: map<string, DeviceState>, entities: seq<string>, unavailable: bool): Topo
    requires !unavailable ==> Resolvable(states, entities)
    decreases |entities|
  {
    if entities == [] then Topo(map[], map[])
    else
      var prefix := entities[..|entities| - 1];
      assert forall e :: e in prefix ==> e in entities;
      Step(states, Resolve(states, prefix, unavailable), entities[|entities| - 1], unavailable)
  }

  /** The members a leader's zone should list: every other non-empty id of its group, with its name. */
  function LeaderMembers(states: map<string, DeviceState>, group: seq<string>, leader: string): map<string, string>
    requires MembersKnown(states, group, leader)
  {
    map m | m in group && m != leader && m != "" :: NameOrEmpty(states[m])
  }

  /** The zone an available configured entity that is not a follower ends with. */
  function ExpectedZone(states: map<string, DeviceState>, e: string): Zone
    requires StepDefined(states, e)
  {
    var st := states[e];
    Zone(if IsLeader(st, e) then LeaderMembers(states, SonosGroup(st).value, e) else map[],
         st.state, FriendlyName(st))
  }

  /** The inner loop adds exactly the leader's other members to what was there. */
  lemma {:induction false} AddMembersIsUnion(states: map<string, DeviceState>, base: map<string, string>, group: seq<string>, leader: string)
    requires MembersKnown(states, group, leader)
    ensures AddMembers(states, base, group, leader) == base + LeaderMembers(states, group, leader)
  {
    if group != [] {
      var prefix := group[..|group| - 1];
      var m := group[|group| - 1];
      assert group == prefix + [m];
      assert MembersKnown(states, prefix, leader);
      AddMembersIsUnion(states, base, prefix, leader);
      LeaderMembersSnoc(states, prefix, m, leader);
      var before := LeaderMembers(states, prefix, leader);
      if m != leader && m != "" {
        var v := NameOrEmpty(states[m]);
        assert AddMembers(states, base, group, leader) == (base + before)[m := v];
        UpdateUnion(base, before, m, v);
      } else {
        assert AddMembers(states, base, group, leader) == base + before;
      }
    }
  }

  /** Updating a union at `k` is updating its right operand there. */
  lemma UpdateUnion(base: map<string, string>, right: map<string, string>, k: string, v: string)
    ensures (base + right)[k := v] == base + right[k := v]
  {
  }

  /** Extending a group by one id adds that id to the leader's members, unless it is the leader or empty. */
  lemma LeaderMembersSnoc(states: map<string, DeviceState>, prefix: seq<string>, m: string, leader: string)
    requires MembersKnown(states, prefix + [m], leader)
    ensures MembersKnown(states, prefix, leader)
    ensures m != leader && m != "" ==>
      LeaderMembers(states, prefix + [m], leader) == LeaderMembers(states, prefix, leader)[m := NameOrEmpty(states[m])]
    ensures m == leader || m == "" ==>
      LeaderMembers(states, prefix + [m], leader) == LeaderMembers(states, prefix, leader)
  {
    assert forall x :: x in prefix ==> x in prefix + [m];
    assert forall x :: x in prefix + [m] <==> x in prefix || x == m;
  }

  /**
    The loop's invariant, for an available wrapped player: an entity is a
    zone key exactly when it is configured and not a follower, and each zone
    holds the leader's state, name and other members.
   */
  ghost predicate Consistent(states: map<string, DeviceState>, zones: map<string, Zone>, es: seq<string>)
    requires Resolvable(states, es)
  {
    && (forall e :: e in zones <==> e in es && !IsFollower(states[e], e))
    && (forall e :: e in zones ==> zones[e] == ExpectedZone(states, e))
  }

  /** One iteration touches no zone but that of its own entity. */
  lemma StepFrame(states: map<string, DeviceState>, t: Topo, e0: string)
    requires StepDefined(states, e0)
    ensures var r := Step(states, t, e0, false).zones;
      forall e :: e != e0 ==> (e in r <==> e in t.zones) && (e in r ==> r[e] == t.zones[e])
  {
  }

  /** One iteration leaves its entity's expected zone, or none for a follower, if it started from nothing or from that zone. */
  lemma StepOwnZone(states: map<string, DeviceState>, t: Topo, e0: string)
    requires StepDefined(states, e0)
    requires e0 in t.zones ==> t.zones[e0] == ExpectedZone(states, e0)
    ensures var r := Step(states, t, e0, false).zones;
      (e0 in r <==> !IsFollower(states[e0], e0)) && (e0 in r ==> r[e0] == ExpectedZone(states, e0))
  {
    var st := states[e0];
    var t1 := if e0 in t.zones then t
              else Topo(t.zones[e0 := Placeholder], t.speakerNames[e0 := SpeakerName(states, e0)]);
    var z := t1.zones[e0].(state := st.state, roomName := FriendlyName(st));
    if IsLeader(st, e0) {
      var g := SonosGroup(st).value;
      var lm := LeaderMembers(states, g, e0);
      var base := z.members;
      assert base == map[] || base == lm;
      AddMembersIsUnion(states, base, g, e0);
      assert base + lm == lm;
    }
  }

  /** One iteration keeps the invariant. */
  lemma StepConsistent(states: map<string, DeviceState>, t: Topo, prefix: seq<string>, e0: string)
    requires Resolvable(states, prefix + [e0])
    requires Resolvable(states, prefix) && Consistent(states, t.zones, prefix)
    ensures Consistent(states, Step(states, t, e0, false).zones, prefix + [e0])
  {
    var es := prefix + [e0];
    assert e0 in es;
    StepFrame(states, t, e0);
    StepOwnZone(states, t, e0);
    assert forall e :: e in es <==> e in prefix || e == e0;
  }

  lemma {:induction false} ResolveAvailable(states: map<string, DeviceState>, es: seq<string>)
    requires Resolvable(states, es)
    ensures Consistent(states, Resolve(states, es, false).zones, es)
  {
    if es != [] {
      var prefix := es[..|es| - 1];
      var e0 := es[|es| - 1];
      assert es == prefix + [e0];
      assert forall e :: e in prefix ==> e in es;
      ResolveAvailable(states, prefix);
      StepConsistent(states, Resolve(states, prefix, false), prefix, e0);
    }
  }

  /** Zone keys: a configured entity keeps its zone iff it is not a follower; no other id is a key. */
  lemma ZoneKeys(states: map<string, DeviceState>, es: seq<string>, e: string)
    requires Resolvable(states, es)
    ensures e in Resolve(states, es, false).zones <==>
            e in es && (SonosGroup(states[e]).None? || |SonosGroup(states[e]).value| <= 1 || SonosGroup(states[e]).value[0] == e)
  {
    ResolveAvailable(states, es);
  }

  /** A configured leader's zone lists exactly its group's other non-empty ids, and mirrors its own state and name. */
  lemma LeaderZone(states: map<string, DeviceState>, es: seq<string>, e: string)
    requires Resolvable(states, es)
    requires e in es && IsLeader(states[e], e)
    ensures var zones := Resolve(states, es, false).zones;
      && e in zones
      && e !in zones[e].members
      && (forall m :: m in zones[e].members <==> m in SonosGroup(states[e]).value && m != e && m != "")
      && (forall m :: m in zones[e].members ==> m in states && zones[e].members[m] == NameOrEmpty(states[m]))
      && zones[e].state == states[e].state
      && zones[e].roomName == FriendlyName(states[e])
  {
    ResolveAvailable(states, es);
  }

  /** A configured entity that is not grouped keeps a zone with no members. */
  lemma StandaloneZone(states: map<string, DeviceState>, es: seq<string>, e: string)
    requires Resolvable(states, es)
    requires e in es && !IsLeader(states[e], e) && !IsFollower(states[e], e)
    ensures var zones := Resolve(states, es, false).zones;
      e in zones && zones[e] == Zone(map[], states[e].state, FriendlyName(states[e]))
  {
    ResolveAvailable(states, es);
  }

  /** With the wrapped player unavailable, every configured entity keeps the placeholder zone, and nothing else is a key. */
  lemma {:induction false} ResolveUnavailable(states: map<string, DeviceState>, es: seq<string>)
    ensures Resolve(states, es, true).zones == map e | e in es :: Placeholder
  {
    if es != [] {
      var prefix := es[..|es| - 1];
      assert es == prefix + [es[|es| - 1]];
      ResolveUnavailable(states, prefix);
    }
  }

  /** Only configured entities are zone keys, whatever the wrapped player's state. */
  lemma ZoneKeysConfigured(states: map<string, DeviceState>, es: seq<string>, unavailable: bool)
    requires !unavailable ==> Resolvable(states, es)
    ensures forall e :: e in Resolve(states, es, unavailable).zones ==> e in es
  {
    if unavailable {
      ResolveUnavailable(states, es);
    } else {
      ResolveAvailable(states, es);
    }
  }

  /** One iteration records a speaker name only for an entity it has no zone for yet. */
  lemma StepNames(states: map<string, DeviceState>, t: Topo, e0: string, unavailable: bool)
    requires !unavailable ==> StepDefined(states, e0)
    ensures Step(states, t, e0, unavailable).speakerNames ==
            if e0 in t.zones then t.speakerNames else t.speakerNames[e0 := SpeakerName(states, e0)]
  {
  }

  /** Whatever the wrapped player's state, every configured entity gets a speaker name, even one whose zone is deleted. */
  lemma {:induction false} ResolveSpeakerNames(states: map<string, DeviceState>, es: seq<string>, unavailable: bool)
    requires !unavailable ==> Resolvable(states, es)
    ensures Resolve(states, es, unavailable).speakerNames == map e | e in es :: SpeakerName(states, e)
  {
    if es != [] {
      var prefix := es[..|es| - 1];
      var e0 := es[|es| - 1];
      assert es == prefix + [e0];
      assert forall e :: e in prefix ==> e in es;
      assert !unavailable ==> StepDefined(states, e0);
      ResolveSpeakerNames(states, prefix, unavailable);
      ZoneKeysConfigured(states, prefix, unavailable);
      StepNames(states, Resolve(states, prefix, unavailable), e0, unavailable);
    }
  }

  /** Three speakers all reporting the group [a, b, c]: only a keeps a zone, listing b and c with their names. */
  lemma ThreeSpeakerGroup(states: map<string, DeviceState>, a: string, b: string, c: string)
    requires a != b && b != c && a != c && b != "" && c != ""
    requires a in states && b in states && c in states
    requires forall e :: e in [a, b, c] ==> SonosGroup(states[e]) == Some([a, b, c])
    ensures Resolve(states, [a, b, c], false).zones ==
      map[a := Zone(map[b := NameOrEmpty(states[b]), c := NameOrEmpty(states[c])], states[a].state, FriendlyName(states[a]))]
  {
    var es := [a, b, c];
    assert forall e :: e in es <==> e == a || e == b || e == c;
    assert SonosGroup(states[a]) == Some(es) && SonosGroup(states[b]) == Some(es) && SonosGroup(states[c]) == Some(es);
    SingleLeader(states, es, es, a, b, c);
  }

  /**
    A configured list naming `a`, `b` and `c` only, in any order and with
    any repetition, all reporting one group `g` of those three that `a`
    leads, resolves to the one zone of `a` with members `b` and `c`.
   */
  lemma SingleLeader(states: map<string, DeviceState>, es: seq<string>, g: seq<string>, a: string, b: string, c: string)
    requires a != b && b != c && a != c && b != "" && c != ""
    requires a in states && b in states && c in states
    requires forall e :: e in es <==> e == a || e == b || e == c
    requires forall x :: x in g <==> x == a || x == b || x == c
    requires |g| > 1 && g[0] == a
    requires SonosGroup(states[a]) == Some(g) && SonosGroup(states[b]) == Some(g) && SonosGroup(states[c]) == Some(g)
    ensures Resolve(states, es, false).zones ==
      map[a := Zone(map[b := NameOrEmpty(states[b]), c := NameOrEmpty(states[c])], states[a].state, FriendlyName(states[a]))]
  {
    assert Resolvable(states, es);
    var zones := Resolve(states, es, false).zones;
    ZoneKeys(states, es, b);
    ZoneKeys(states, es, c);
    ZoneKeysConfigured(states, es, false);
    LeaderZone(states, es, a);
    assert forall e :: e in zones <==> e == a;
    assert forall m :: m in zones[a].members <==> m == b || m == c;
    OneZone(zones, a, b, c, NameOrEmpty(states[b]), NameOrEmpty(states[c]), states[a].state, FriendlyName(states[a]));
  }

  /** A zone record with the single key `a`, whose members are exactly `b` and `c`, is that literal record. */
  lemma OneZone(zones: map<string, Zone>, a: string, b: string, c: string, nb: string, nc: string,
                state: string, roomName: Option<string>)
    requires forall e :: e in zones <==> e == a
    requires forall m :: m in zones[a].members <==> m == b || m == c
    requires zones[a].members[b] == nb && zones[a].members[c] == nc
    requires zones[a].state == state && zones[a].roomName == roomName
    ensures zones == map[a := Zone(map[b := nb, c := nc], state, roomName)]
  {
    assert zones[a].members == map[b := nb, c := nc];
  }
}
