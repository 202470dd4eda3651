/** The parsed response body and the four Python operations the accessors
    apply to it: `dict.get`, subscripting, `str()` and `int()`. */
module JsonBody {
  import opened Results
  import Decimal

  /** A parsed JSON value as Python holds it. JNull is Python's None, which is
      both JSON null and what `dict.get` returns for an absent key. */
  datatype Json =
    | JObject(fields: map<string, Json>)
    | JInt(n: int)
    | JString(s: string)
    | JNull

  /** The Python exceptions a field read can raise. */
  datatype Fault =
    | AttributeError   // `.get` on a value that is not a dict, or a Player without json_response
    | TypeError        // subscripting a non-dict, or `int()` of None or of a dict
    | KeyError         // subscripting a dict with a key it does not hold
    | ValueError       // `int()` of a str that is not a decimal literal, or a conversion past MaxStrDigits digits
    | ReprNotModelled  // `str()` of a dict, whose repr this model does not render

  /** `j.get(key)`: the value under key, None when the key is absent, and
      AttributeError when j is not a dict. */
  function Get(j: Json, key: string): (r: Result<Json, Fault>)
    ensures r.Failure? <==> !j.JObject?
    ensures r.Failure? ==> r.error == AttributeError
    ensures j.JObject? && key in j.fields ==> r == Success(j.fields[key])
    ensures j.JObject? && key !in j.fields ==> r == Success(JNull)
  {
    match j
    case JObject(fields) => Success(if key in fields then fields[key] else JNull)
    case _ => Failure(AttributeError)
  }

  /** `j[key]`: unlike `get`, an absent key raises KeyError, and anything but
      a dict (None included) raises TypeError. */
  function Subscript(j: Json, key: string): (r: Result<Json, Fault>)
    ensures r.Success? <==> j.JObject? && key in j.fields
    ensures r.Success? ==> r.value == j.fields[key]
    ensures r.Failure? ==> r.error == (if j.JObject? then KeyError else TypeError)
  {
    match j
    case JObject(fields) => if key in fields then Success(fields[key]) else Failure(KeyError)
    case _ => Failure(TypeError)
  }

  /** `str(j)`: None renders as the text "None", a str is kept, an int is
      written in canonical decimal unless it has too many digits. */
  function ToStr(j: Json): (r: Result<string, Fault>)
    ensures j == JNull ==> r == Success("None")
    ensures j.JString? ==> r == Success(j.s)
    ensures j.JInt? ==> (r.Success? <==> Decimal.DigitCount(j.n) <= Decimal.MaxStrDigits)
    ensures j.JInt? && r.Success? ==> r.value == Decimal.IntToDecimal(j.n)
    ensures j.JInt? && r.Success? ==> Decimal.ParseDecimal(r.value) == Some(j.n)
    ensures j.JInt? && r.Failure? ==> r.error == ValueError
    ensures j.JObject? ==> r == Failure(ReprNotModelled)
  {
    match j
    case JNull => Success("None")
    case JString(s) => Success(s)
    case JInt(n) =>
      Decimal.DecimalRoundTrip(n);
      (match Decimal.StrOfInt(n)
       case Some(text) => Success(text)
       case None => Failure(ValueError))
    case JObject(_) => Failure(ReprNotModelled)
  }

  /** `int(j)`: an int is kept, a str is parsed as a decimal literal, None and
      a dict raise TypeError. */
  function ToInt(j: Json): (r: Result<int, Fault>)
    ensures j.JInt? ==> r == Success(j.n)
    ensures j == JNull || j.JObject? ==> r == Failure(TypeError)
    ensures j.JString? ==> (r.Success? <==> Decimal.IsDecimalLiteral(j.s))
    ensures j.JString? && r.Success? ==> Decimal.ParseDecimal(j.s) == Some(r.value)
    ensures j.JString? && r.Failure? ==> r.error == ValueError
  {
    match j
    case JInt(n) => Success(n)
    case JString(s) =>
      (match Decimal.ParseDecimal(s)
       case Some(n) => Success(n)
       case None => Failure(ValueError))
    case _ => Failure(TypeError)
  }

  /** On a dict, `get` and subscripting agree on a present key; on an absent
      key `get` yields None where subscripting raises KeyError. */
  lemma GetVersusSubscript(fields: map<string, Json>, key: string)
    ensures key in fields ==> Get(JObject(fields), key) == Subscript(JObject(fields), key)
    ensures key !in fields ==> Get(JObject(fields), key) == Success(JNull)
                               && Subscript(JObject(fields), key) == Failure(KeyError)
  {
  }

  /** `int(str(j))` gives back every JSON int that `str()` can render. */
  lemma IntStrRoundTrip(n: int)
    ensures ToStr(JInt(n)).Success? ==> ToInt(JString(ToStr(JInt(n)).value)) == Success(n)
  {
  }
}
