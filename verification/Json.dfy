/** JSON values whose numbers are integers, and `serde_json`'s accessors on them. */
module Json {
  import opened Prelude

  /** The integers `serde_json` keeps exact: those of `i64` and of `u64`. */
  type JsonInt = n: int | -0x8000_0000_0000_0000 <= n <= U64_MAX

  /** A parsed document. Object members form a map: member order is not part of a value. */
  datatype Value =
    | Null
    | Bool(flag: bool)
    | Number(number: JsonInt)
    | String(text: string)
    | Array(items: seq<Value>)
    | Object(fields: map<string, Value>)
  {
    /** `value.get(key)`. */
    function Get(key: string): Option<Value> {
      if Object? && key in fields then Some(fields[key]) else None
    }

    function AsStr(): Option<string> {
      if String? then Some(text) else None
    }

    function AsU64(): Option<u64> {
      if Number? && number >= 0 then Some(number) else None
    }

    function AsBool(): Option<bool> {
      if Bool? then Some(flag) else None
    }

    /** `value.get(key).and_then(Value::as_str)`. */
    function GetStr(key: string): Option<string> {
      match Get(key)
      case Some(v) => v.AsStr()
      case None => None
    }

    /** `value.get(key).and_then(Value::as_u64)`. */
    function GetU64(key: string): Option<u64> {
      match Get(key)
      case Some(v) => v.AsU64()
      case None => None
    }

    /** `value.get(key).and_then(Value::as_u64).unwrap_or(0)`. */
    function U64At(key: string): u64 {
      GetU64(key).GetOr(0)
    }

    /** The document without some of its members; anything but an object is left alone. */
    function Without(keys: set<string>): Value {
      if Object? then Object(fields - keys) else this
    }

    /** The document with one member set; anything but an object is left alone. */
    function With(key: string, value: Value): Value {
      if Object? then Object(fields[key := value]) else this
    }
  }

  /** `string_field` and `required_policy_string`: a member that is a string and not blank. */
  function StringField(value: Value, field: string): Option<string> {
    match value.GetStr(field)
    case Some(text) => if IsBlank(text) then None else Some(text)
    case None => None
  }

  /** Removing a string member and keeping its text loses nothing. */
  lemma WithoutInjective(a: Value, b: Value, key: string)
    requires a.GetStr(key).Some? && b.GetStr(key) == a.GetStr(key)
    requires a.Without({key}) == b.Without({key})
    ensures a == b
  {
    assert a.fields == (a.fields - {key})[key := a.fields[key]];
    assert b.fields == (b.fields - {key})[key := b.fields[key]];
  }
}
