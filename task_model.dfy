/** The conversion of an API task into Terraform state (internal/provider/task_model.go): Go
    nil becomes Terraform null field by field, an absent or empty label list becomes a null
    list, and a non-empty one keeps its length and order. */
module TaskModel {
  import opened TfValues
  import opened LabelModel

  /** domain.Label */
  datatype DomainLabel = DomainLabel(id: Option<string>, name: Option<string>, orgId: Option<string>, properties: Option<LabelProperties>)

  /** The links record of domain.Task; each link is an optional URI. */
  datatype DomainLinks = DomainLinks(
    labels: Option<string>, logs: Option<string>, members: Option<string>,
    owners: Option<string>, runs: Option<string>, self: Option<string>)

  /** domain.Task, with the fields the conversion reads. */
  datatype DomainTask = DomainTask(
    authorizationId: Option<string>, createdAt: Option<Instant>, cron: Option<string>,
    description: Option<string>, every: Option<string>, flux: string, id: string,
    labels: Option<seq<DomainLabel>>, lastRunError: Option<string>, lastRunStatus: Option<string>,
    latestCompleted: Option<Instant>, links: Option<DomainLinks>, name: string, offset: Option<string>,
    org: Option<string>, orgId: string, ownerId: Option<string>, status: Option<string>,
    updatedAt: Option<Instant>)

  /** TaskLinksModel */
  datatype TaskLinks = TaskLinks(labels: TfString, logs: TfString, members: TfString, owners: TfString, runs: TfString, self: TfString)

  /** The links attribute: a null object or a known one. */
  datatype TfLinks = LinksNull | LinksKnown(links: TaskLinks)

  /** TaskModel */
  datatype Task = Task(
    authorizationId: TfString, createdAt: TfString, cron: TfString, description: TfString,
    every: TfString, flux: TfString, id: TfString, labels: TfList<Label>, lastRunError: TfString,
    lastRunStatus: TfString, latestCompleted: TfString, links: TfLinks, name: TfString,
    offset: TfString, org: TfString, orgId: TfString, ownerId: TfString, status: TfString,
    updatedAt: TfString)

  /** convertLinkToString */
  function ConvertLinkToString(link: Option<string>): (r: TfString)
    ensures r.Null? <==> link.None?
    ensures link.Some? ==> r == Known(link.value)
  {
    if link.Some? then Known(link.value) else Null
  }

  /** convertTimeToString: a nil time is null; a set one is stored in its RFC 3339 rendering. */
  function ConvertTimeToString(t: Option<Instant>): (r: TfString)
    ensures r.Null? <==> t.None?
    ensures t.Some? ==> r == Known(t.value.rfc3339)
  {
    if t.Some? then Known(t.value.rfc3339) else Null
  }

  /** convertTaskStatusToString */
  function ConvertTaskStatusToString(status: Option<string>): (r: TfString)
    ensures r.Null? <==> status.None?
    ensures status.Some? ==> r == Known(status.value)
  {
    if status.Some? then Known(status.value) else Null
  }

  /** convertLinksToObject: nil links are a null object; otherwise every link is converted
      on its own, so each nil link is a null attribute. */
  function ConvertLinksToObject(links: Option<DomainLinks>): (r: TfLinks)
    ensures r.LinksNull? <==> links.None?
    ensures links.Some? ==>
      && (r.links.labels.Null? <==> links.value.labels.None?)
      && (r.links.logs.Null? <==> links.value.logs.None?)
      && (r.links.members.Null? <==> links.value.members.None?)
      && (r.links.owners.Null? <==> links.value.owners.None?)
      && (r.links.runs.Null? <==> links.value.runs.None?)
      && (r.links.self.Null? <==> links.value.self.None?)
  {
    if links.None? then LinksNull
    else
      var l := links.value;
      LinksKnown(TaskLinks(
        ConvertLinkToString(l.labels), ConvertLinkToString(l.logs), ConvertLinkToString(l.members),
        ConvertLinkToString(l.owners), ConvertLinkToString(l.runs), ConvertLinkToString(l.self)))
  }

  /** Reading the links back out of the object. */
  function LinksOfObject(obj: TfLinks): Option<DomainLinks>
  {
    if obj.LinksNull? then None
    else
      var t := obj.links;
      Some(DomainLinks(
        ValueStringPointer(t.labels), ValueStringPointer(t.logs), ValueStringPointer(t.members),
        ValueStringPointer(t.owners), ValueStringPointer(t.runs), ValueStringPointer(t.self)))
  }

  /** No link is lost or invented: the object determines the links it came from. */
  lemma LinksRoundTrip(links: Option<DomainLinks>)
    ensures LinksOfObject(ConvertLinksToObject(links)) == links
  {
    if links.Some? {
      var l := links.value;
      ValueRoundTrip(l.labels);
      ValueRoundTrip(l.logs);
      ValueRoundTrip(l.members);
      ValueRoundTrip(l.owners);
      ValueRoundTrip(l.runs);
      ValueRoundTrip(l.self);
    }
  }

  /** One label object of the list (the loop body of convertLabelsToList). The re-typing of a
      null or unknown map keeps its kind, so the properties are those convertLabelProperties
      gives: null for a nil wrapper or a nil map. */
  function LabelValue(l: DomainLabel): (r: Label)
    ensures r.id == StringPointerValue(l.id) && r.name == StringPointerValue(l.name) && r.orgId == StringPointerValue(l.orgId)
    ensures r.properties == ConvertLabelProperties(l.properties)
    ensures l.properties.None? ==> r.properties.MapNull?
  {
    Label(StringPointerValue(l.id), StringPointerValue(l.name), StringPointerValue(l.orgId), ConvertLabelProperties(l.properties))
  }

  function LabelValues(ls: seq<DomainLabel>): (r: seq<Label>)
    ensures |r| == |ls|
    ensures forall i :: 0 <= i < |ls| ==> r[i] == LabelValue(ls[i])
  {
    seq(|ls|, i requires 0 <= i < |ls| => LabelValue(ls[i]))
  }

  /** The labels attribute, as a specification: null for nil or empty labels, otherwise one
      element per label, in order. */
  function LabelsToList(domainLabels: Option<seq<DomainLabel>>): (r: TfList<Label>)
    ensures r.ListNull? <==> domainLabels.None? || |domainLabels.value| == 0
    ensures !r.ListUnknown?
    ensures r.ListKnown? ==> |r.elems| == |domainLabels.value| > 0
    ensures r.ListKnown? ==> forall i :: 0 <= i < |r.elems| ==> r.elems[i] == LabelValue(domainLabels.value[i])
  {
    if domainLabels.None? || |domainLabels.value| == 0 then ListNull
    else ListKnown(LabelValues(domainLabels.value))
  }

  /** convertLabelsToList, lines 76-136. */
  method ConvertLabelsToList(domainLabels: Option<seq<DomainLabel>>) returns (r: TfList<Label>)
    ensures r == LabelsToList(domainLabels)
  {
    if domainLabels.None? || |domainLabels.value| == 0 {
      return ListNull;
    }
    var ls := domainLabels.value;
    var labelValues: GoSlice<Label> := Nil;
    for i := 0 to |ls|
      invariant Elements(labelValues) == LabelValues(ls[..i])
    {
      var propertiesMap := ConvertLabelProperties(ls[i].properties);
      if propertiesMap.MapNull? {
        propertiesMap := MapNull;
      } else if propertiesMap.MapUnknown? {
        propertiesMap := MapUnknown;
      }
      var labelObject := Label(StringPointerValue(ls[i].id), StringPointerValue(ls[i].name), StringPointerValue(ls[i].orgId), propertiesMap);
      assert ls[..i + 1] == ls[..i] + [ls[i]];
      labelValues := Append(labelValues, labelObject);
    }
    assert ls[..|ls|] == ls;
    return ListKnown(Elements(labelValues));
  }

  /** Nil and empty label lists cannot be told apart once converted. */
  lemma NilAndEmptyLabelsAgree()
    ensures LabelsToList(None) == LabelsToList(Some([])) == ListNull
  {
  }

  /** Converting a longer label list extends the converted list: the conversion is
      element-wise and keeps order. */
  lemma {:induction false} LabelsExtend(ls: seq<DomainLabel>, l: DomainLabel)
    requires |ls| > 0
    ensures LabelsToList(Some(ls + [l])) == ListKnown(LabelsToList(Some(ls)).elems + [LabelValue(l)])
  {
    assert LabelValues(ls + [l]) == LabelValues(ls) + [LabelValue(l)];
  }

  /** convertDomainTaskToModel, lines 45-73: flux, id, name and org id are always known; every
      other attribute is null exactly when the task leaves it nil. */
  method ConvertDomainTaskToModel(task: DomainTask) returns (model: Task)
    ensures model.flux == Known(task.flux) && model.id == Known(task.id)
    ensures model.name == Known(task.name) && model.orgId == Known(task.orgId)
    ensures model.labels == LabelsToList(task.labels)
    ensures model.links == ConvertLinksToObject(task.links)
    ensures model.authorizationId == StringPointerValue(task.authorizationId)
    ensures model.cron == StringPointerValue(task.cron)
    ensures model.description == StringPointerValue(task.description)
    ensures model.every == StringPointerValue(task.every)
    ensures model.lastRunError == StringPointerValue(task.lastRunError)
    ensures model.offset == StringPointerValue(task.offset)
    ensures model.org == StringPointerValue(task.org)
    ensures model.ownerId == StringPointerValue(task.ownerId)
    ensures model.createdAt == ConvertTimeToString(task.createdAt)
    ensures model.latestCompleted == ConvertTimeToString(task.latestCompleted)
    ensures model.updatedAt == ConvertTimeToString(task.updatedAt)
    ensures model.lastRunStatus == ConvertTaskStatusToString(task.lastRunStatus)
    ensures model.status == ConvertTaskStatusToString(task.status)
    ensures !model.cron.Unknown? && !model.every.Unknown? && !model.description.Unknown?
  {
    var labelsList := ConvertLabelsToList(task.labels);
    var linksObject := ConvertLinksToObject(task.links);
    model := Task(
      StringPointerValue(task.authorizationId), ConvertTimeToString(task.createdAt),
      StringPointerValue(task.cron), StringPointerValue(task.description), StringPointerValue(task.every),
      Known(task.flux), Known(task.id), labelsList, StringPointerValue(task.lastRunError),
      ConvertTaskStatusToString(task.lastRunStatus), ConvertTimeToString(task.latestCompleted),
      linksObject, Known(task.name), StringPointerValue(task.offset), StringPointerValue(task.org),
      Known(task.orgId), StringPointerValue(task.ownerId), ConvertTaskStatusToString(task.status),
      ConvertTimeToString(task.updatedAt));
  }
}
