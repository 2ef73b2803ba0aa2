/** Read of the influxdb_buckets data source (internal/provider/buckets_data_source.go): one
    entry per listed bucket, each with its retention converted to days. */
module BucketsDataSource {
  import opened TfValues
  import opened BucketDataSource

  /** Read, lines 111-151. The listing is an input; None means no state is set. The entries
      start from a nil slice, so an empty listing stores a null list. */
  method Read(listing: Result<seq<DomainBucket>>) returns (buckets: Option<GoSlice<BucketModel>>, diags: seq<Diagnostic>)
    ensures listing.Err? ==> buckets.None? && diags == [ErrorOf("Unable to list buckets")]
    ensures listing.Ok? ==> diags == [] && buckets.Some?
    ensures listing.Ok? ==> (buckets.value.Nil? <==> |listing.value| == 0)
    ensures listing.Ok? ==> |Elements(buckets.value)| == |listing.value|
    ensures listing.Ok? ==> forall i :: 0 <= i < |listing.value| ==> Elements(buckets.value)[i] == BucketState(listing.value[i])
  {
    if listing.Err? {
      return None, [ErrorOf("Unable to list buckets")];
    }
    var list := listing.value;
    var state: GoSlice<BucketModel> := Nil;
    for i := 0 to |list|
      invariant state.Nil? <==> i == 0
      invariant |Elements(state)| == i
      invariant forall j :: 0 <= j < i ==> Elements(state)[j] == BucketState(list[j])
    {
      var retentionDays: Int64 := 0;
      if |list[i].retentionRules| > 0 {
        var seconds := list[i].retentionRules[0].everySeconds as int;
        NestedTruncDiv(seconds, 24, 60);
        NestedTruncDiv(seconds, 24 * 60, 60);
        retentionDays := TruncDiv(TruncDiv(TruncDiv(seconds, 24), 60), 60) as Int64;
      }
      var bucketState := BucketModel(
        Known(list[i].id), Known(list[i].orgId), Known(list[i].bucketType), Known(list[i].schemaType),
        StringPointerValue(list[i].description), Known(list[i].name),
        Known(list[i].createdAt.text), Known(list[i].updatedAt.text),
        IntKnown(retentionDays));
      state := Append(state, bucketState);
    }
    return Some(state), [];
  }

  /** What the entries promise about retention: 0 days without rules and below one day, and
      otherwise the first rule's seconds divided by 86400, rounded toward zero. */
  lemma EntryRetention(b: DomainBucket)
    ensures |b.retentionRules| == 0 ==> BucketState(b).retentionDays == IntKnown(0)
    ensures |b.retentionRules| > 0 ==>
      BucketState(b).retentionDays.v as int == TruncDiv(b.retentionRules[0].everySeconds as int, 86400)
    ensures |b.retentionRules| > 0 && 0 <= b.retentionRules[0].everySeconds < 86400 ==>
      BucketState(b).retentionDays == IntKnown(0)
  {
    if |b.retentionRules| > 0 && 0 <= b.retentionRules[0].everySeconds < 86400 {
      BelowOneDayIsZero(b.retentionRules);
    }
  }
}
