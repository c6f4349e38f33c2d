/** Types and text helpers shared by every module. */
module Prelude {

  datatype Option<+T> = None | Some(value: T) {
    function GetOr(default: T): T {
      match this
      case Some(v) => v
      case None => default
    }
  }

  datatype Result<+T, +E> = Ok(value: T) | Err(error: E)

  const U64_MAX := 0xFFFF_FFFF_FFFF_FFFF

  /** Rust's `u64`. */
  type u64 = n: int | 0 <= n <= U64_MAX

  /** No instant is earlier. */
  const EPOCH: u64 := 0

  /** `u64::saturating_sub`. */
  function SaturatingSub(a: u64, b: u64): u64 {
    if a >= b then a - b else 0
  }

  /** `char::is_whitespace`: the Unicode White_Space property. */
  predicate IsWhiteSpace(c: char) {
    || '\U{0009}' <= c <= '\U{000D}'
    || c == ' '
    || c == '\U{0085}'
    || c == '\U{00A0}'
    || c == '\U{1680}'
    || '\U{2000}' <= c <= '\U{200A}'
    || c == '\U{2028}'
    || c == '\U{2029}'
    || c == '\U{202F}'
    || c == '\U{205F}'
    || c == '\U{3000}'
  }

  /** `text.trim().is_empty()`. */
  predicate IsBlank(text: string) {
    forall i | 0 <= i < |text| :: IsWhiteSpace(text[i])
  }

  // Total forms, for statements that speak of what is there only when it is.

  /** The entry of a key; anything if there is none. */
  ghost function Entry<K, V(00)>(m: map<K, V>, k: K): V {
    if k in m then m[k] else var v: V :| true; v
  }

  /** The item at an index; anything if there is none. */
  ghost function ItemAt<T(00)>(s: seq<T>, i: int): T {
    if 0 <= i < |s| then s[i] else var v: T :| true; v
  }

  /** What an option holds; anything if it holds nothing. */
  ghost function The<T(00)>(o: Option<T>): T {
    if o.Some? then o.value else var v: T :| true; v
  }

  /** What a result answers; anything if it is an error. */
  ghost function Good<T(00), E>(r: Result<T, E>): T {
    if r.Ok? then r.value else var v: T :| true; v
  }
}
