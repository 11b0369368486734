/** Small conversions shared by the configuration objects: text to boolean, the
    environment lookup with a default, and the JSON encoding of numpy values. */
module Helper {
  import opened Wrappers
  import opened Text
  import opened PyValue

  /** `str(b)` for a boolean. */
  function BoolText(b: bool): string {
    if b then "True" else "False"
  }

  /** `strToBool`: `str(data).lower()` compared with "true" and "false". Of the
      values here only booleans and strings have a `str` that can lower-case to
      one of those two words. */
  function StrToBool(data: Value): (r: Result<bool, PyError>)
    ensures r == Success(true) <==> data == VBool(true) || (data.VStr? && Lower(data.s) == "true")
    ensures r == Success(false) <==> data == VBool(false) || (data.VStr? && Lower(data.s) == "false")
    ensures r.Failure? ==> r.error == ValueError("The value is not a boolean")
  {
    var text := match data
      case VBool(b) => Lower(BoolText(b))
      case VStr(s) => Lower(s)
      case _ => "";
    if text == "true" then Success(true)
    else if text == "false" then Success(false)
    else Failure(ValueError("The value is not a boolean"))
  }

  /** A boolean's own text converts back to it, in any letter case. */
  lemma StrToBoolOfText(b: bool)
    ensures StrToBool(VStr(BoolText(b))) == Success(b)
    ensures StrToBool(VStr(Lower(BoolText(b)))) == Success(b)
    ensures StrToBool(VBool(b)) == Success(b)
  {
  }

  /** Letter case does not matter. */
  lemma StrToBoolIgnoresCase(s: string)
    ensures StrToBool(VStr(Lower(s))) == StrToBool(VStr(s))
  {
    LowerIdempotent(s);
  }

  /** `getValueForKey`: the environment value when it is set and non-empty,
      otherwise the default. */
  function GetValueForKey(environment: map<string, string>, key: string, default: Value := VNone): (r: Value)
    ensures key in environment && environment[key] != "" ==> r == VStr(environment[key])
    ensures key !in environment || environment[key] == "" ==> r == default
  {
    if key in environment && environment[key] != "" then VStr(environment[key]) else default
  }

  /** The numpy objects the encoder is asked about; a float `None` is NaN. */
  datatype NpObject =
    | NpInteger(i: int)
    | NpBool(b: bool)
    | NpFloating(x: Option<real>)
    | NpFloatArray(elements: seq<Option<real>>)
    | Foreign(typeName: string)

  /** One array element as `tolist()` yields it: NaN stays a float NaN. */
  function ListElement(x: Option<real>): Value {
    match x
    case Some(v) => VFloat(v)
    case None => VNaN
  }

  /** `NpJsonEncoder.default`. */
  function NpEncode(obj: NpObject): (r: Result<Value, PyError>)
    ensures obj.NpInteger? ==> r == Success(VInt(obj.i))
    ensures obj.NpBool? ==> r == Success(VBool(obj.b))
    ensures obj.NpFloating? && obj.x.None? ==> r == Success(VNone)
    ensures obj.NpFloating? && obj.x.Some? ==> r == Success(VFloat(obj.x.value))
    ensures obj.NpFloatArray? ==> r.Success? && r.value.VList? && |r.value.items| == |obj.elements|
    ensures r.Failure? <==> obj.Foreign?
    ensures r.Failure? ==> r.error.TypeError?
  {
    match obj
    case NpInteger(i) => Success(VInt(i))
    case NpBool(b) => Success(VBool(b))
    case NpFloating(x) => Success(if x.None? then VNone else VFloat(x.value))
    case NpFloatArray(elements) =>
      Success(VList(seq(|elements|, k requires 0 <= k < |elements| => ListElement(elements[k]))))
    case Foreign(name) => Failure(TypeError("Object of type " + name + " is not JSON serializable"))
  }

  /** A NaN scalar becomes `null`, but a NaN inside an array stays NaN; every
      present array element keeps its value and position. */
  lemma NpEncodeNaN(elements: seq<Option<real>>, k: nat)
    requires k < |elements|
    ensures NpEncode(NpFloating(None)) == Success(VNone)
    ensures elements[k].None? ==> NpEncode(NpFloatArray(elements)).value.items[k] == VNaN
    ensures elements[k].Some? ==> NpEncode(NpFloatArray(elements)).value.items[k] == VFloat(elements[k].value)
  {
  }
}
