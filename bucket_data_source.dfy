/** Read of the influxdb_bucket data source (internal/provider/bucket_data_source.go, with the
    record of data_model.go): the null-name check and the conversion of a bucket's retention
    rules into whole days, in Go's truncating int64 arithmetic. */
module BucketDataSource {
  import opened TfValues

  /** Go's int64. */
  newtype Int64 = x: int | -0x8000_0000_0000_0000 <= x < 0x8000_0000_0000_0000

  /** types.Int64 */
  datatype TfInt64 = IntNull | IntUnknown | IntKnown(v: Int64)

  /** Go's `/` on integers, which truncates toward zero (Dafny's rounds toward negative
      infinity for a negative dividend). */
  function TruncDiv(a: int, d: int): int
    requires d > 0
  {
    if a >= 0 then a / d else -((-a) / d)
  }

  /** Euclidean division of a non-negative number rounds down. */
  lemma DivBounds(n: int, d: int)
    requires n >= 0 && d > 0
    ensures 0 <= (n / d) * d <= n < (n / d) * d + d
  {
    MulLe(0, n / d, d);
  }

  /** The quotient is rounded toward zero from either side. */
  lemma TruncDivRoundsTowardZero(a: int, d: int)
    requires d > 0
    ensures a >= 0 ==> 0 <= TruncDiv(a, d) * d <= a < TruncDiv(a, d) * d + d
    ensures a < 0 ==> TruncDiv(a, d) * d - d < a <= TruncDiv(a, d) * d <= 0
  {
    if a >= 0 {
      DivBounds(a, d);
    } else {
      DivBounds(-a, d);
      assert TruncDiv(a, d) * d == -(((-a) / d) * d);
    }
  }

  /** domain.RetentionRule; only EverySeconds is read. */
  datatype RetentionRule = RetentionRule(everySeconds: Int64)

  /** domain.Bucket as the data sources read it. Id, OrgID, Type and SchemaType are
      dereferenced unguarded, so they are plain values here. */
  datatype DomainBucket = DomainBucket(
    id: string, orgId: string, bucketType: string, schemaType: string, description: Option<string>,
    name: string, createdAt: Instant, updatedAt: Instant, retentionRules: seq<RetentionRule>)

  /** BucketDataSourceModel */
  datatype BucketModel = BucketModel(
    id: TfString, orgId: TfString, bucketType: TfString, schemaType: TfString, description: TfString,
    name: TfString, createdAt: TfString, updatedAt: TfString, retentionDays: TfInt64)

  /** Cancelling a positive factor preserves strict order. */
  lemma LessFromMul(x: int, y: int, d: int)
    requires d > 0 && x * d < y * d
    ensures x < y
  {
  }

  /** Multiplying by a positive factor preserves order. */
  lemma MulLe(x: int, y: int, d: int)
    requires d > 0 && x <= y
    ensures x * d <= y * d
  {
  }

  /** Quotient and remainder determine each other. */
  lemma DivUnique(a: int, d: int, q: int, r: int)
    requires d > 0 && 0 <= r < d && a == q * d + r
    ensures a / d == q
  {
    var q' := a / d;
    assert q' * d <= a < q' * d + d;
    assert q' * d + d == (q' + 1) * d;
    assert q * d + d == (q + 1) * d;
    LessFromMul(q', q + 1, d);
    LessFromMul(q, q' + 1, d);
  }

  /** Dividing twice is dividing once by the product, for a non-negative dividend. */
  lemma NestedDiv(n: int, b: int, c: int)
    requires n >= 0 && b > 0 && c > 0
    ensures n / b / c == n / (b * c)
  {
    var q1 := n / b;
    var r1 := n % b;
    var q2 := q1 / c;
    var r2 := q1 % c;
    assert (q2 * c + r2) * b == q2 * (b * c) + r2 * b;
    assert r2 * b + b == (r2 + 1) * b;
    assert c * b == b * c;
    MulLe(r2 + 1, c, b);
    DivUnique(n, b * c, q2, r2 * b + r1);
  }

  /** Go and Dafny agree on a non-negative dividend and on an exact division; on a negative
      dividend that leaves a remainder, Go's quotient is one more than Dafny's. */
  lemma TruncationVersusEuclidean(a: int, d: int)
    requires d > 0
    ensures a >= 0 || a % d == 0 ==> TruncDiv(a, d) == a / d
    ensures a < 0 && a % d != 0 ==> TruncDiv(a, d) == a / d + 1
  {
    if a < 0 {
      var n := -a;
      var q := n / d;
      var r := n % d;
      assert n == q * d + r;
      if r == 0 {
        DivUnique(a, d, -q, 0);
      } else {
        assert a == (-q - 1) * d + (d - r);
        DivUnique(a, d, -q - 1, d - r);
      }
      assert a % d == a - (a / d) * d;
    }
  }

  /** On a non-positive dividend the truncating quotient is the negated quotient of its
      magnitude. */
  lemma TruncDivOfNegated(n: int, d: int)
    requires n >= 0 && d > 0
    ensures TruncDiv(-n, d) == -(n / d)
  {
    if n == 0 {
      assert TruncDiv(0, d) == 0 / d == 0;
    }
  }

  /** Dividing twice is dividing once by the product, for truncating division. */
  lemma NestedTruncDiv(a: int, b: int, c: int)
    requires b > 0 && c > 0
    ensures TruncDiv(TruncDiv(a, b), c) == TruncDiv(a, b * c)
  {
    var bc := b * c;
    assert bc > 0;
    if a >= 0 {
      NestedDiv(a, b, c);
      var q := a / b;
      assert q >= 0;
      assert TruncDiv(a, b) == q;
      assert TruncDiv(q, c) == q / c;
      assert TruncDiv(a, bc) == a / bc;
    } else {
      var n := -a;
      var q := n / b;
      assert q >= 0;
      NestedDiv(n, b, c);
      TruncDivOfNegated(n, b);
      TruncDivOfNegated(q, c);
      TruncDivOfNegated(n, bc);
      assert a == -n;
    }
  }

  /** The days of a bucket: 0 without retention rules, otherwise the first rule's
      EverySeconds divided by 24, 60 and 60 (lines 126-129). */
  function RetentionDays(rules: seq<RetentionRule>): (days: Int64)
    ensures |rules| == 0 ==> days == 0
    ensures |rules| > 0 ==> days as int == TruncDiv(rules[0].everySeconds as int, 86400)
  {
    if |rules| > 0 then
      var seconds := rules[0].everySeconds as int;
      NestedTruncDiv(seconds, 24, 60);
      NestedTruncDiv(seconds, 24 * 60, 60);
      (TruncDiv(TruncDiv(TruncDiv(seconds, 24), 60), 60)) as Int64
    else
      0
  }

  /** Only the first rule is consulted. */
  lemma FirstRuleOnly(rules: seq<RetentionRule>, other: seq<RetentionRule>)
    requires |rules| > 0 && |other| > 0 && rules[0] == other[0]
    ensures RetentionDays(rules) == RetentionDays(other)
  {
  }

  /** A non-negative retention is a whole number of days rounded down. */
  lemma DaysBound(rules: seq<RetentionRule>)
    requires |rules| > 0 && rules[0].everySeconds >= 0
    ensures RetentionDays(rules) as int * 86400 <= rules[0].everySeconds as int < (RetentionDays(rules) as int + 1) * 86400
  {
    TruncDivRoundsTowardZero(rules[0].everySeconds as int, 86400);
  }

  /** The resource's default retention of 2592000 seconds is 30 days. */
  lemma DefaultRetentionIsThirtyDays(rest: seq<RetentionRule>)
    ensures RetentionDays([RetentionRule(2592000)] + rest) == 30
  {
    DivUnique(2592000, 86400, 30, 0);
  }

  /** Less than a day, including 0 (infinite retention), is 0 days. */
  lemma BelowOneDayIsZero(rules: seq<RetentionRule>)
    requires |rules| > 0 && 0 <= rules[0].everySeconds < 86400
    ensures RetentionDays(rules) == 0
  {
  }

  /** The state stored for one bucket. */
  function BucketState(b: DomainBucket): (r: BucketModel)
    ensures r.retentionDays == IntKnown(RetentionDays(b.retentionRules))
    ensures r.description == StringPointerValue(b.description)
    ensures r.id == Known(b.id) && r.orgId == Known(b.orgId) && r.name == Known(b.name)
    ensures r.bucketType == Known(b.bucketType) && r.schemaType == Known(b.schemaType)
    ensures r.createdAt == Known(b.createdAt.text) && r.updatedAt == Known(b.updatedAt.text)
  {
    BucketModel(
      Known(b.id), Known(b.orgId), Known(b.bucketType), Known(b.schemaType),
      StringPointerValue(b.description), Known(b.name),
      Known(b.createdAt.text), Known(b.updatedAt.text),
      IntKnown(RetentionDays(b.retentionRules)))
  }

  /** Read, lines 99-149. `findByName` is the lookup by name; None means no state is set. A
      null name is rejected without consulting the lookup at all. */
  function Read(config: BucketModel, findByName: string -> Result<DomainBucket>): (r: (Option<BucketModel>, seq<Diagnostic>))
    ensures config.name.Null? ==> r == (None, [ErrorOf("Name is empty")])
    ensures !config.name.Null? && findByName(ValueString(config.name)).Err? ==> r == (None, [ErrorOf("Bucket not found")])
    ensures !config.name.Null? && findByName(ValueString(config.name)).Ok? ==>
      r == (Some(BucketState(findByName(ValueString(config.name)).value)), [])
  {
    if config.name.Null? then (None, [ErrorOf("Name is empty")])
    else
      var found := findByName(ValueString(config.name));
      if found.Err? then (None, [ErrorOf("Bucket not found")])
      else (Some(BucketState(found.value)), [])
  }

  /** The lookup is never consulted for a null name. */
  lemma NullNameNeedsNoLookup(config: BucketModel, f: string -> Result<DomainBucket>, g: string -> Result<DomainBucket>)
    requires config.name.Null?
    ensures Read(config, f) == Read(config, g)
  {
  }
}
