/** The label record held in Terraform state and the conversion of the API's label
    properties into a Terraform map (internal/provider/label_model.go). */
module LabelModel {
  import opened TfValues

  /** domain.Label_Properties: a wrapper around a Go map that may itself be nil. */
  datatype LabelProperties = LabelProperties(additional: Option<map<string, string>>)

  /** LabelModel: the state of an influxdb_label resource. */
  datatype Label = Label(id: TfString, name: TfString, orgId: TfString, properties: TfMap<TfString>)

  /** Every element of `m` as a known Terraform string. */
  function KnownElements(m: map<string, string>): (r: map<string, TfString>)
    ensures r.Keys == m.Keys
    ensures forall k :: k in r ==> r[k] == Known(m[k])
  {
    map k | k in m :: Known(m[k])
  }

  /** convertLabelProperties: a nil wrapper or a nil map inside it gives a null map; any other
      map, empty or not, gives a known map with the same keys and the same values. */
  function ConvertLabelProperties(props: Option<LabelProperties>): (r: TfMap<TfString>)
    ensures r.MapNull? <==> props.None? || props.value.additional.None?
    ensures !r.MapUnknown?
    ensures r.MapKnown? ==> r.elems.Keys == props.value.additional.value.Keys
    ensures r.MapKnown? ==> forall k :: k in r.elems ==> r.elems[k] == Known(props.value.additional.value[k])
  {
    if props.None? || props.value.additional.None? then MapNull
    else MapKnown(KnownElements(props.value.additional.value))
  }

  /** Only nil is checked: a non-nil empty map stays an empty, non-null map. */
  lemma EmptyPropertiesAreNotNull()
    ensures ConvertLabelProperties(Some(LabelProperties(Some(map[])))) == MapKnown(map[])
  {
  }
}
