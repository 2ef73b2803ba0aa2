/** The decisions inside the influxdb_label resource (internal/provider/label_resource.go):
    which properties go into the create request, the property map sent on update, and the
    properties stored after an update. */
module LabelResource {
  import opened TfValues
  import opened LabelModel

  /** The keys of a Terraform map that is known; a null or unknown map contributes none. */
  function KnownKeys<V>(m: TfMap<V>): set<string>
  {
    if m.MapKnown? then m.elems.Keys else {}
  }

  /** The text of every element of a map, as ValueString reads it. */
  function ValueStrings(m: map<string, TfString>): (r: map<string, string>)
    ensures r.Keys == m.Keys
    ensures forall k :: k in r ==> r[k] == ValueString(m[k])
  {
    map k | k in m :: ValueString(m[k])
  }

  /** Create: properties are attached to the request only when the planned map is known and
      not null, and then carry every planned key with its planned text. */
  method CreateProperties(plan: TfMap<TfString>) returns (props: Option<LabelProperties>)
    ensures props.Some? <==> plan.MapKnown?
    ensures props.Some? ==> props.value.additional == Some(ValueStrings(plan.elems))
  {
    props := None;
    if plan.MapKnown? {
      var propertiesMap: map<string, string> := map[];
      var keys := plan.elems.Keys;
      while keys != {}
        invariant keys <= plan.elems.Keys
        invariant propertiesMap.Keys == plan.elems.Keys - keys
        invariant forall k :: k in propertiesMap ==> propertiesMap[k] == ValueString(plan.elems[k])
        decreases keys
      {
        var key :| key in keys;
        propertiesMap := propertiesMap[key := ValueString(plan.elems[key])];
        keys := keys - {key};
      }
      assert propertiesMap == ValueStrings(plan.elems);
      props := Some(LabelProperties(Some(propertiesMap)));
    }
  }

  /** What Create sends comes back unchanged: converting the request's properties, as the
      server echoes them, yields the planned map whenever every planned value is known. */
  lemma CreateRoundTrip(plan: map<string, TfString>)
    requires forall k :: k in plan ==> plan[k].Known?
    ensures ConvertLabelProperties(Some(LabelProperties(Some(ValueStrings(plan))))) == MapKnown(plan)
  {
    assert KnownElements(ValueStrings(plan)) == plan;
  }

  /** The property map sent on update, as a specification: every planned key with its planned
      text, every other key of the known prior state with "", and nothing else. */
  function UpdateMap(plan: TfMap<TfString>, state: TfMap<TfString>): (r: map<string, string>)
    ensures r.Keys == KnownKeys(plan) + KnownKeys(state)
    ensures forall k :: k in KnownKeys(plan) ==> r[k] == ValueString(plan.elems[k])
    ensures forall k :: k in KnownKeys(state) - KnownKeys(plan) ==> r[k] == ""
  {
    map k | k in KnownKeys(plan) + KnownKeys(state) ::
      if k in KnownKeys(plan) then ValueString(plan.elems[k]) else ""
  }

  /** Update, lines 190-217: the two insertion loops and the blanking loop. */
  method UpdateProperties(plan: TfMap<TfString>, state: TfMap<TfString>) returns (update: map<string, string>)
    ensures update == UpdateMap(plan, state)
  {
    update := map[];
    if plan.MapKnown? {
      var keys := plan.elems.Keys;
      while keys != {}
        invariant keys <= plan.elems.Keys
        invariant update.Keys == plan.elems.Keys - keys
        invariant forall k :: k in update ==> update[k] == ValueString(plan.elems[k])
        decreases keys
      {
        var key :| key in keys;
        update := update[key := ValueString(plan.elems[key])];
        keys := keys - {key};
      }
      if state.MapKnown? {
        var stateKeys := state.elems.Keys;
        while stateKeys != {}
          invariant stateKeys <= state.elems.Keys
          invariant update.Keys == plan.elems.Keys + (state.elems.Keys - stateKeys)
          invariant forall k :: k in update ==> update[k] == if k in plan.elems then ValueString(plan.elems[k]) else ""
          decreases stateKeys
        {
          var key :| key in stateKeys;
          if key !in update {
            update := update[key := ""];
          }
          stateKeys := stateKeys - {key};
        }
      }
    } else if state.MapKnown? {
      var stateKeys := state.elems.Keys;
      while stateKeys != {}
        invariant stateKeys <= state.elems.Keys
        invariant update.Keys == state.elems.Keys - stateKeys
        invariant forall k :: k in update ==> update[k] == ""
        decreases stateKeys
      {
        var key :| key in stateKeys;
        update := update[key := ""];
        stateKeys := stateKeys - {key};
      }
    }
  }

  /** A key kept in the plan is never blanked, even if it was also in the prior state. */
  lemma KeptKeyKeepsPlannedValue(plan: TfMap<TfString>, state: TfMap<TfString>, k: string)
    requires plan.MapKnown? && k in plan.elems && plan.elems[k].Known?
    ensures UpdateMap(plan, state)[k] == plan.elems[k].s
  {
  }

  /** With the properties block removed (null or unknown plan), every prior key is sent as ""
      and nothing else is sent. */
  lemma RemovedBlockBlanksEverything(plan: TfMap<TfString>, state: TfMap<TfString>)
    requires !plan.MapKnown?
    ensures UpdateMap(plan, state) == map k | k in KnownKeys(state) :: ""
  {
  }

  /** With no properties planned and none in state, the update map is empty. */
  lemma BothNullSendsNothing()
    ensures UpdateMap(MapNull, MapNull) == map[]
  {
  }

  /** How the server applies a property update, as the comments at lines 199-211 describe it:
      a key sent with "" is removed, a key sent with text is set, other keys are untouched. */
  function ApplyUpdate(stored: map<string, string>, update: map<string, string>): (r: map<string, string>)
    ensures forall k :: k in update && update[k] != "" ==> k in r && r[k] == update[k]
    ensures forall k :: k in update && update[k] == "" ==> k !in r
    ensures forall k :: k !in update ==> (k in r <==> k in stored) && (k in stored ==> r[k] == stored[k])
  {
    map k | k in stored.Keys + update.Keys && !(k in update && update[k] == "") ::
      if k in update then update[k] else stored[k]
  }

  /** The update converges: if the server holds no key beyond those in state or plan and no
      planned value is empty, applying the update leaves exactly the planned properties. */
  lemma UpdateReachesPlan(plan: TfMap<TfString>, state: TfMap<TfString>, stored: map<string, string>)
    requires stored.Keys <= KnownKeys(state) + KnownKeys(plan)
    requires plan.MapKnown? ==> forall k :: k in plan.elems ==> ValueString(plan.elems[k]) != ""
    ensures ApplyUpdate(stored, UpdateMap(plan, state)) == if plan.MapKnown? then ValueStrings(plan.elems) else map[]
  {
    var u := UpdateMap(plan, state);
    var r := ApplyUpdate(stored, u);
    var want: map<string, string> := if plan.MapKnown? then ValueStrings(plan.elems) else map[];
    assert r.Keys == want.Keys by {
      forall k | k in r ensures k in want {
        assert k in u;
      }
      forall k | k in want ensures k in r {
        assert k in KnownKeys(plan);
      }
    }
    forall k | k in r ensures r[k] == want[k] {
      assert k in u;
    }
  }

  /** Stored properties after a successful update: null when the plan has none, otherwise the
      converted response. */
  function PropertiesAfterUpdate(plan: TfMap<TfString>, response: Option<LabelProperties>): (r: TfMap<TfString>)
    ensures plan.MapNull? ==> r.MapNull?
    ensures !plan.MapNull? ==> r == ConvertLabelProperties(response)
  {
    if plan.MapNull? then MapNull else ConvertLabelProperties(response)
  }

  /** Create, update and read-back agree: an update to a plan of known, non-empty values whose
      response echoes what the server now stores leaves exactly the plan in state. */
  lemma UpdateRoundTrip(plan: TfMap<TfString>, state: TfMap<TfString>, stored: map<string, string>)
    requires plan.MapKnown?
    requires forall k :: k in plan.elems ==> plan.elems[k].Known? && plan.elems[k].s != ""
    requires stored.Keys <= KnownKeys(state) + KnownKeys(plan)
    ensures PropertiesAfterUpdate(plan, Some(LabelProperties(Some(ApplyUpdate(stored, UpdateMap(plan, state)))))) == plan
  {
    UpdateReachesPlan(plan, state, stored);
    var after := ValueStrings(plan.elems);
    assert KnownElements(after) == plan.elems;
  }

  /** An empty planned value cannot round-trip: it is sent as "", which the server reads as a
      removal, so the plan {"a": ""} over a null state is stored as an empty map. */
  lemma EmptyPlannedValueIsLost()
    ensures var plan := MapKnown(map["a" := Known("")]);
      && UpdateMap(plan, MapNull) == map["a" := ""]
      && ApplyUpdate(map[], UpdateMap(plan, MapNull)) == map[]
      && PropertiesAfterUpdate(plan, Some(LabelProperties(Some(ApplyUpdate(map[], UpdateMap(plan, MapNull)))))) != plan
  {
    var plan := MapKnown(map["a" := Known("")]);
    assert "a" in KnownKeys(plan);
    var after := PropertiesAfterUpdate(plan, Some(LabelProperties(Some(ApplyUpdate(map[], UpdateMap(plan, MapNull))))));
    assert "a" !in after.elems;
  }
}
