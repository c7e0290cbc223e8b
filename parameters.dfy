/** Parameter assignment (`SetParameters`): every (name, storage kind, value)
    triple is tried in order; the value is converted according to its storage
    kind, and a missing parameter, a failed conversion or a value of another
    kind than the parameter's is caught (or refused) and skips only that
    triple. */
module Parameters {
  import opened Common
  import opened LyrebirdTypes
  import opened RevitDocument

  /** The runtime's `Convert.ToDouble` and the parsing half of
      `Convert.ToInt32` (culture-dependent, so given rather than defined);
      `None` is a `FormatException`. */
  datatype Parsers = Parsers(toDouble: string -> Option<real>, toInteger: string -> Option<int>)

  const Int32Min: int := -0x8000_0000
  const Int32Max: int := 0x7FFF_FFFF

  /** `Convert.ToInt32`: a parsed value outside 32 bits is an `OverflowException`. */
  function ToInt32(p: Parsers, s: string): (r: Option<int>)
    ensures r.Some? ==> Int32Min <= r.value <= Int32Max
    ensures r.Some? <==> p.toInteger(s).Some? && Int32Min <= p.toInteger(s).value <= Int32Max
    ensures r.Some? ==> r.value == p.toInteger(s).value
  {
    match p.toInteger(s)
    case None => None
    case Some(v) => if Int32Min <= v <= Int32Max then Some(v) else None
  }

  /** The storage-kind `switch`: "Double", "Integer" and "ElementId" convert
      the text; "String" and every other kind set the raw text. */
  function ConvertValue(p: Parsers, storageType: string, value: string): (r: Option<ParamValue>)
    ensures storageType == "Double" ==>
      (r.Some? <==> p.toDouble(value).Some?) && (r.Some? ==> r.value == DoubleValue(p.toDouble(value).value))
    ensures storageType == "Integer" ==>
      (r.Some? <==> ToInt32(p, value).Some?) && (r.Some? ==> r.value == IntegerValue(ToInt32(p, value).value))
    ensures storageType == "ElementId" ==>
      (r.Some? <==> ToInt32(p, value).Some?) && (r.Some? ==> r.value == ElementIdValue(ToInt32(p, value).value))
    ensures storageType != "Double" && storageType != "Integer" && storageType != "ElementId" ==>
      r == Some(StringValue(value))
  {
    match storageType
    case "Double" =>
      (match p.toDouble(value)
       case None => None
       case Some(d) => Some(DoubleValue(d)))
    case "Integer" =>
      (match ToInt32(p, value)
       case None => None
       case Some(i) => Some(IntegerValue(i)))
    case "ElementId" =>
      (match ToInt32(p, value)
       case None => None
       case Some(i) => Some(ElementIdValue(i)))
    case _ => Some(StringValue(value))
  }

  /** The storage kind a parameter value has. */
  function StorageOf(v: ParamValue): string
  {
    match v
    case DoubleValue(_) => "Double"
    case IntegerValue(_) => "Integer"
    case ElementIdValue(_) => "ElementId"
    case StringValue(_) => "String"
  }

  /** One triple succeeds when the element has a parameter of that name
      (`get_Parameter` is not null), the value converts, and the converted
      value is of the parameter's own storage kind (`Parameter.Set` refuses
      a value of another kind and leaves the parameter as it was). */
  predicate Applies(params: map<string, ParamValue>, rp: RevitParameter, p: Parsers)
  {
    && rp.parameterName in params
    && ConvertValue(p, rp.storageType, rp.value).Some?
    && StorageOf(ConvertValue(p, rp.storageType, rp.value).value) == StorageOf(params[rp.parameterName])
  }

  /** One triple: the converted value replaces the parameter's when the
      triple applies; otherwise nothing changes (the `catch` at the end of
      the loop body). */
  function ApplyOne(params: map<string, ParamValue>, rp: RevitParameter, p: Parsers): map<string, ParamValue>
  {
    if Applies(params, rp, p)
    then params[rp.parameterName := ConvertValue(p, rp.storageType, rp.value).value]
    else params
  }

  /** The parameter values after trying the triples in order. */
  function ApplyAll(params: map<string, ParamValue>, rps: seq<RevitParameter>, p: Parsers): map<string, ParamValue>
  {
    if rps == [] then params
    else ApplyOne(ApplyAll(params, rps[..|rps| - 1], p), rps[|rps| - 1], p)
  }

  /** `SetParameters` on an element whose parameter values are `params`. */
  method SetParameters(params: map<string, ParamValue>, rps: seq<RevitParameter>, p: Parsers)
    returns (result: map<string, ParamValue>)
    ensures result == ApplyAll(params, rps, p)
    ensures result.Keys == params.Keys
  {
    result := params;
    var i := 0;
    while i < |rps|
      invariant 0 <= i <= |rps|
      invariant result == ApplyAll(params, rps[..i], p)
      invariant result.Keys == params.Keys
    {
      var rp := rps[i];
      // each triple runs in its own try/catch
      if rp.parameterName in result {
        var converted := ConvertValue(p, rp.storageType, rp.value);
        if converted.Some? && StorageOf(converted.value) == StorageOf(result[rp.parameterName]) {
          result := result[rp.parameterName := converted.value];
        }
      }
      assert rps[..i + 1][..i] == rps[..i];
      i := i + 1;
    }
    assert rps[..i] == rps;
  }

  /** Assignment never adds or removes parameters. */
  lemma {:induction false} ApplyAllKeys(params: map<string, ParamValue>, rps: seq<RevitParameter>, p: Parsers)
    ensures ApplyAll(params, rps, p).Keys == params.Keys
  {
    if rps != [] {
      ApplyAllKeys(params, rps[..|rps| - 1], p);
    }
  }

  /** Assignment never changes a parameter's storage kind. */
  lemma {:induction false} ApplyAllKinds(params: map<string, ParamValue>, rps: seq<RevitParameter>, p: Parsers)
    ensures forall name :: name in params ==>
              name in ApplyAll(params, rps, p) && StorageOf(ApplyAll(params, rps, p)[name]) == StorageOf(params[name])
  {
    if rps != [] {
      ApplyAllKinds(params, rps[..|rps| - 1], p);
    }
  }

  lemma {:induction false} ApplyAllAppend(params: map<string, ParamValue>, a: seq<RevitParameter>, b: seq<RevitParameter>, p: Parsers)
    ensures ApplyAll(params, a + b, p) == ApplyAll(ApplyAll(params, a, p), b, p)
  {
    if b == [] {
      assert a + b == a;
    } else {
      assert (a + b)[..|a + b| - 1] == a + b[..|b| - 1];
      assert (a + b)[|a + b| - 1] == b[|b| - 1];
      ApplyAllAppend(params, a, b[..|b| - 1], p);
    }
  }

  /** A failing triple (a missing parameter, a failed conversion or a value
      of the wrong kind) does not stop the ones after it: the outcome is as
      if it had not been in the list. */
  lemma FailureIsSkipped(params: map<string, ParamValue>, a: seq<RevitParameter>, bad: RevitParameter,
                         b: seq<RevitParameter>, p: Parsers)
    requires !Applies(params, bad, p)
    ensures ApplyAll(params, a + [bad] + b, p) == ApplyAll(params, a + b, p)
  {
    ApplyAllAppend(params, a + [bad], b, p);
    ApplyAllAppend(params, a, [bad], p);
    ApplyAllAppend(params, a, b, p);
    ApplyAllKeys(params, a, p);
    ApplyAllKinds(params, a, p);
    assert [bad][..0] == [];
  }

  /** Triples that never name `name` leave that parameter's value alone. */
  lemma {:induction false} OtherNamesUntouched(params: map<string, ParamValue>, rps: seq<RevitParameter>, p: Parsers, name: string)
    requires forall i :: 0 <= i < |rps| ==> rps[i].parameterName != name
    ensures name in params ==> name in ApplyAll(params, rps, p) && ApplyAll(params, rps, p)[name] == params[name]
    ensures name !in params ==> name !in ApplyAll(params, rps, p)
  {
    if rps != [] {
      OtherNamesUntouched(params, rps[..|rps| - 1], p, name);
    }
  }

  /** Every triple is attempted: the last triple naming an existing
      parameter whose value converts to its kind determines that
      parameter's value. */
  lemma LastAssignmentWins(params: map<string, ParamValue>, a: seq<RevitParameter>, rp: RevitParameter,
                           b: seq<RevitParameter>, p: Parsers)
    requires Applies(params, rp, p)
    requires forall i :: 0 <= i < |b| ==> b[i].parameterName != rp.parameterName
    ensures rp.parameterName in ApplyAll(params, a + [rp] + b, p)
    ensures ApplyAll(params, a + [rp] + b, p)[rp.parameterName] == ConvertValue(p, rp.storageType, rp.value).value
  {
    ApplyAllAppend(params, a + [rp], b, p);
    ApplyAllAppend(params, a, [rp], p);
    ApplyAllKeys(params, a, p);
    assert [rp][..0] == [];
    ApplyAllKinds(params, a, p);
    OtherNamesUntouched(ApplyAll(params, a + [rp], p), b, p, rp.parameterName);
  }
}
