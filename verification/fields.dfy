/** The shape every accessor of api/api.py shares: read one key, or one key
    under a nested object, and convert the value with `str()` or `int()`. */
module Fields {
  import opened Results
  import opened JsonBody
  import Decimal

  /** Where an accessor finds its value: `body.get(key)`, or
      `body.get(parent)[key]` for the fields under `clan` and `arena`. */
  datatype Path =
    | TopLevel(key: string)
    | Nested(parent: string, key: string)

  /** The declared return type of an accessor. */
  datatype Conversion = AsStr | AsInt

  /** A converted field value. */
  datatype Value = Str(s: string) | Int(n: int)

  /** Looks the path up in body. */
  function Resolve(body: Json, path: Path): (r: Result<Json, Fault>)
    ensures !body.JObject? ==> r == Failure(AttributeError)
    ensures path.TopLevel? && body.JObject? ==>
              r == Success(if path.key in body.fields then body.fields[path.key] else JNull)
    ensures path.Nested? && body.JObject? ==>
              (r.Success? <==> path.parent in body.fields && body.fields[path.parent].JObject?
                               && path.key in body.fields[path.parent].fields)
    ensures path.Nested? && r.Success? ==>
              r.value == body.fields[path.parent].fields[path.key]
    ensures path.Nested? && body.JObject? && r.Failure? ==>
              r.error == (if path.parent in body.fields && body.fields[path.parent].JObject?
                          then KeyError else TypeError)
  {
    match path
    case TopLevel(key) => Get(body, key)
    case Nested(parent, key) =>
      var outer :- Get(body, parent);
      Subscript(outer, key)
  }

  /** Applies the declared conversion. */
  function Convert(j: Json, c: Conversion): (r: Result<Value, Fault>)
    ensures r.Success? ==> (r.value.Str? <==> c == AsStr)
    ensures c == AsStr ==> (r.Success? <==> ToStr(j).Success?)
    ensures c == AsStr && r.Failure? ==> ToStr(j) == Failure(r.error)
    ensures c == AsInt && r.Failure? ==> ToInt(j) == Failure(r.error)
    ensures c == AsInt ==> (r.Success? <==> ToInt(j).Success?)
    ensures c == AsInt && r.Success? ==> ToInt(j) == Success(r.value.n)
    ensures c == AsStr && r.Success? ==> ToStr(j) == Success(r.value.s)
  {
    match c
    case AsStr =>
      var s :- ToStr(j);
      Success(Str(s))
    case AsInt =>
      var n :- ToInt(j);
      Success(Int(n))
  }

  /** One accessor body: resolve, then convert. */
  function Evaluate(body: Json, path: Path, c: Conversion): (r: Result<Value, Fault>)
    ensures Resolve(body, path).Success? ==> r == Convert(Resolve(body, path).value, c)
    ensures Resolve(body, path).Failure? ==> r == Failure(Resolve(body, path).error)
  {
    var j :- Resolve(body, path);
    Convert(j, c)
  }

  /** A top-level str field whose key is absent reads as the text "None",
      while a top-level int field whose key is absent raises TypeError. */
  lemma AbsentTopLevelKey(fields: map<string, Json>, key: string, c: Conversion)
    requires key !in fields
    ensures c == AsStr ==> Evaluate(JObject(fields), TopLevel(key), c) == Success(Str("None"))
    ensures c == AsInt ==> Evaluate(JObject(fields), TopLevel(key), c) == Failure(TypeError)
  {
  }

  /** A top-level key that is present converts its own value: a str field
      reads a JSON str as itself and a JSON int as its decimal text, an int
      field reads a JSON int as itself and parses a JSON str. */
  lemma PresentTopLevelKey(fields: map<string, Json>, key: string, c: Conversion)
    requires key in fields
    ensures Evaluate(JObject(fields), TopLevel(key), c) == Convert(fields[key], c)
    ensures fields[key].JString? && c == AsStr ==>
              Evaluate(JObject(fields), TopLevel(key), c) == Success(Str(fields[key].s))
    ensures fields[key].JInt? && c == AsInt ==>
              Evaluate(JObject(fields), TopLevel(key), c) == Success(Int(fields[key].n))
    ensures fields[key].JInt? && c == AsStr && Decimal.DigitCount(fields[key].n) <= Decimal.MaxStrDigits ==>
              Evaluate(JObject(fields), TopLevel(key), c) == Success(Str(Decimal.IntToDecimal(fields[key].n)))
    ensures fields[key].JString? && c == AsInt && Decimal.IsDecimalLiteral(fields[key].s) ==>
              Evaluate(JObject(fields), TopLevel(key), c) == Success(Int(Decimal.ParseDecimal(fields[key].s).value))
  {
  }

  /** A nested key under a parent dict that holds it converts its own value;
      a parent dict without the key raises KeyError. */
  lemma PresentParent(fields: map<string, Json>, parent: string, key: string, c: Conversion)
    requires parent in fields && fields[parent].JObject?
    ensures key in fields[parent].fields ==>
              Evaluate(JObject(fields), Nested(parent, key), c) == Convert(fields[parent].fields[key], c)
    ensures key !in fields[parent].fields ==>
              Evaluate(JObject(fields), Nested(parent, key), c) == Failure(KeyError)
  {
  }

  /** A nested field fails with TypeError when its parent object is absent,
      whatever its conversion: `None[key]` is not allowed. */
  lemma AbsentParentFails(fields: map<string, Json>, path: Path, c: Conversion)
    requires path.Nested? && path.parent !in fields
    ensures Evaluate(JObject(fields), path, c) == Failure(TypeError)
  {
  }
}
