/** Terraform plugin-framework values and the Go shapes the provider converts them from.

    A Terraform attribute is null, unknown (not yet computed during planning) or a known value.
    Go pointers are modelled as Option, Go slices that may be nil as GoSlice, and the
    framework's diagnostics as a sequence of Diagnostic records. */
module TfValues {

  datatype Option<+T> = None | Some(value: T)

  datatype Result<+T> = Ok(value: T) | Err(msg: string)

  /** types.String */
  datatype TfString = Null | Unknown | Known(s: string)

  /** types.Map with string keys. */
  datatype TfMap<+V> = MapNull | MapUnknown | MapKnown(elems: map<string, V>)

  /** types.List */
  datatype TfList<+T> = ListNull | ListUnknown | ListKnown(elems: seq<T>)

  /** A Go slice: nil, or a (possibly empty) backing sequence. The framework writes a nil
      slice as a null list and an empty non-nil slice as an empty list. */
  datatype GoSlice<+T> = Nil | Slice(elems: seq<T>)

  /** Elements of a Go slice; nil has none. */
  function Elements<T>(s: GoSlice<T>): seq<T>
  {
    match s
    case Nil => []
    case Slice(e) => e
  }

  /** Go's append of one element: appending to nil allocates a new non-nil slice. */
  function Append<T>(s: GoSlice<T>, x: T): (r: GoSlice<T>)
    ensures r.Slice? && r.elems == Elements(s) + [x]
  {
    Slice(Elements(s) + [x])
  }

  /** StringValue.ValueString(): the known text, "" for null and for unknown. */
  function ValueString(v: TfString): (r: string)
    ensures v.Known? ==> r == v.s
    ensures !v.Known? ==> r == ""
  {
    if v.Known? then v.s else ""
  }

  /** StringValue.ValueStringPointer(): nil for null, a pointer to "" for unknown. */
  function ValueStringPointer(v: TfString): (r: Option<string>)
    ensures r.None? <==> v.Null?
    ensures r.Some? ==> r.value == ValueString(v)
  {
    match v
    case Null => None
    case Unknown => Some("")
    case Known(s) => Some(s)
  }

  /** types.StringPointerValue(p): null for nil, the pointee otherwise. */
  function StringPointerValue(p: Option<string>): (r: TfString)
    ensures r.Null? <==> p.None?
    ensures r.Known? <==> p.Some?
    ensures p.Some? ==> r.s == p.value
  {
    match p
    case None => Null
    case Some(s) => Known(s)
  }

  /** Reading a pointer back into Terraform undoes taking it, except for unknown values,
      which the pointer turns into a known "". */
  lemma PointerRoundTrip(v: TfString)
    ensures !v.Unknown? ==> StringPointerValue(ValueStringPointer(v)) == v
    ensures v.Unknown? ==> StringPointerValue(ValueStringPointer(v)) == Known("")
  {
  }

  /** The other direction holds for every pointer. */
  lemma ValueRoundTrip(p: Option<string>)
    ensures ValueStringPointer(StringPointerValue(p)) == p
  {
  }

  /** A time.Time as the provider uses it: only its renderings are ever stored, `text` as
      Time.String() gives it and `rfc3339` as Format(time.RFC3339) gives it. */
  datatype Instant = Instant(text: string, rfc3339: string)

  datatype Severity = Error | Warning

  /** A diagnostic; `attribute` is the attribute path of AddAttributeError, None for AddError
      and AddWarning. The free-text detail is not modelled. */
  datatype Diagnostic = Diagnostic(severity: Severity, attribute: Option<string>, summary: string)

  function ErrorAt(attribute: string, summary: string): Diagnostic
  {
    Diagnostic(Error, Some(attribute), summary)
  }

  function ErrorOf(summary: string): Diagnostic
  {
    Diagnostic(Error, None, summary)
  }

  function WarningOf(summary: string): Diagnostic
  {
    Diagnostic(Warning, None, summary)
  }

  /** diag.Diagnostics.HasError() */
  predicate HasError(diags: seq<Diagnostic>)
  {
    exists i :: 0 <= i < |diags| && diags[i].severity == Error
  }

  /** `sub` occurs in `s` starting at offset `i`. */
  predicate OccursAt(s: string, sub: string, i: int)
  {
    0 <= i <= |s| - |sub| && s[i..i + |sub|] == sub
  }

  /** Dropping the first character shifts every occurrence after it by one. */
  lemma ShiftOccurs(s: string, sub: string, i: int)
    requires |s| > 0 && i >= 1
    ensures OccursAt(s, sub, i) <==> OccursAt(s[1..], sub, i - 1)
  {
    if 1 <= i <= |s| - |sub| {
      var shifted := s[1..][i - 1..i - 1 + |sub|];
      var window := s[i..i + |sub|];
      assert forall k :: 0 <= k < |sub| ==> shifted[k] == window[k];
      assert shifted == window;
    }
  }

  /** strings.Contains with an explicit scan; the contract ties it to the mathematical
      notion of a substring occurring at some offset. */
  function Contains(s: string, sub: string): (r: bool)
    ensures r <==> exists i :: OccursAt(s, sub, i)
    decreases |s|
  {
    if |sub| <= |s| && s[..|sub|] == sub then
      assert OccursAt(s, sub, 0);
      true
    else if |s| <= |sub| then
      assert forall i :: OccursAt(s, sub, i) ==> i == 0;
      false
    else
      var r := Contains(s[1..], sub);
      assert forall i :: OccursAt(s, sub, i) && i >= 1 <==> OccursAt(s[1..], sub, i - 1) by {
        forall i ensures OccursAt(s, sub, i) && i >= 1 <==> OccursAt(s[1..], sub, i - 1) {
          if i >= 1 { ShiftOccurs(s, sub, i); }
        }
      }
      assert !OccursAt(s, sub, 0);
      if r then
        var j :| OccursAt(s[1..], sub, j);
        assert OccursAt(s, sub, j + 1);
        true
      else
        false
  }
}
