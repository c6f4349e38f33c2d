/** Canonical JSON text: no white space, object members in ascending key order. */
module Canonical {
  import opened Json
  import opened Decimal
  import Ordering

  function HexDigit(n: nat): (c: char)
    requires n < 16
  {
    if n < 10 then (n + '0' as int) as char else (n - 10 + 'a' as int) as char
  }

  /** One character of a string literal (section 7 of RFC 8259). */
  function Escape(c: char): (text: string)
    ensures text != ""
  {
    if c == '\"' then "\\\""
    else if c == '\\' then "\\\\"
    else if c == '\U{0008}' then "\\b"
    else if c == '\U{0009}' then "\\t"
    else if c == '\U{000A}' then "\\n"
    else if c == '\U{000C}' then "\\f"
    else if c == '\U{000D}' then "\\r"
    else if c < ' ' then ['\\', 'u', '0', '0', HexDigit(c as int / 16), HexDigit(c as int % 16)]
    else [c]
  }

  function EscapeAll(text: string): string {
    if text == "" then "" else Escape(text[0]) + EscapeAll(text[1..])
  }

  function Quote(text: string): string {
    "\"" + EscapeAll(text) + "\""
  }

  function NumberText(n: int): string {
    if n < 0 then "-" + Numeral(-n) else Numeral(n)
  }

  /** The canonical text of a value. */
  function Text(value: Value): string
    decreases value, 1
  {
    match value
    case Null => "null"
    case Bool(flag) => if flag then "true" else "false"
    case Number(n) => NumberText(n)
    case String(text) => Quote(text)
    case Array(items) => "[" + ItemsText(items) + "]"
    case Object(fields) => "{" + MembersText(value, Ordering.SortedKeys(fields.Keys)) + "}"
  }

  function ItemsText(items: seq<Value>): string
    decreases items, 0
  {
    if items == [] then ""
    else if |items| == 1 then Text(items[0])
    else Text(items[0]) + "," + ItemsText(items[1..])
  }

  function MemberText(owner: Value, key: string): string
    requires owner.Object? && key in owner.fields
    decreases owner, 0, 0
  {
    Quote(key) + ":" + Text(owner.fields[key])
  }

  function MembersText(owner: Value, keys: seq<string>): string
    requires owner.Object? && forall k <- keys :: k in owner.fields
    decreases owner, 0, |keys|
  {
    if keys == [] then ""
    else if |keys| == 1 then MemberText(owner, keys[0])
    else MemberText(owner, keys[0]) + "," + MembersText(owner, keys[1..])
  }

  /** The text produced so far, as `write_canonical`'s `&mut String`. */
  class Output {
    var text: string

    constructor ()
      ensures text == ""
    {
      text := "";
    }

    method Push(more: string)
      modifies this
      ensures text == old(text) + more
    {
      text := text + more;
    }
  }

  /** What the loop over an array has written after `n` items. */
  function ItemsPrefix(items: seq<Value>, n: nat): string
    requires n <= |items|
  {
    if n == 0 then ""
    else if n == 1 then Text(items[0])
    else ItemsPrefix(items, n - 1) + "," + Text(items[n - 1])
  }

  lemma {:induction false} ItemsPrefixFromFront(items: seq<Value>, n: nat)
    requires 2 <= n <= |items|
    ensures ItemsPrefix(items, n) == Text(items[0]) + "," + ItemsPrefix(items[1..], n - 1)
  {
    hide Text;
    var head, tail := Text(items[0]) + ",", items[1..];
    assert tail[0] == items[1] && tail[n - 2] == items[n - 1];
    if n > 2 {
      ItemsPrefixFromFront(items, n - 1);
      assert head + (ItemsPrefix(tail, n - 2) + "," + Text(tail[n - 2])) == (head + ItemsPrefix(tail, n - 2)) + "," + Text(tail[n - 2]);
    }
  }

  lemma {:induction false} ItemsPrefixWhole(items: seq<Value>)
    ensures ItemsPrefix(items, |items|) == ItemsText(items)
  {
    if |items| >= 2 {
      ItemsPrefixFromFront(items, |items|);
      ItemsPrefixWhole(items[1..]);
    }
  }

  /** What the loop over an object has written after `n` members. */
  function MembersPrefix(owner: Value, keys: seq<string>, n: nat): string
    requires owner.Object? && forall k <- keys :: k in owner.fields
    requires n <= |keys|
  {
    if n == 0 then ""
    else if n == 1 then MemberText(owner, keys[0])
    else MembersPrefix(owner, keys, n - 1) + "," + MemberText(owner, keys[n - 1])
  }

  lemma {:induction false} MembersPrefixFromFront(owner: Value, keys: seq<string>, n: nat)
    requires owner.Object? && forall k <- keys :: k in owner.fields
    requires 2 <= n <= |keys|
    ensures MembersPrefix(owner, keys, n) == MemberText(owner, keys[0]) + "," + MembersPrefix(owner, keys[1..], n - 1)
  {
    if n > 2 {
      var head, tail := MemberText(owner, keys[0]) + ",", keys[1..];
      assert tail[n - 2] == keys[n - 1];
      calc {
        MembersPrefix(owner, keys, n);
        MembersPrefix(owner, keys, n - 1) + "," + MemberText(owner, keys[n - 1]);
        { MembersPrefixFromFront(owner, keys, n - 1); }
        head + MembersPrefix(owner, tail, n - 2) + "," + MemberText(owner, tail[n - 2]);
        head + (MembersPrefix(owner, tail, n - 2) + "," + MemberText(owner, tail[n - 2]));
        head + MembersPrefix(owner, tail, n - 1);
      }
    }
  }

  lemma {:induction false} MembersPrefixWhole(owner: Value, keys: seq<string>)
    requires owner.Object? && forall k <- keys :: k in owner.fields
    ensures MembersPrefix(owner, keys, |keys|) == MembersText(owner, keys)
  {
    if |keys| >= 2 {
      MembersPrefixFromFront(owner, keys, |keys|);
      MembersPrefixWhole(owner, keys[1..]);
    }
  }

  method WriteCanonical(value: Value, output: Output)
    modifies output
    ensures output.text == old(output.text) + Text(value)
    decreases value, 1
  {
    hide Escape, EscapeAll, Ordering.SortedKeys, Quote, ItemsText, MembersText, NumberText;
    ghost var before := output.text;
    match value {
      case Null => output.Push("null");
      case Bool(flag) => output.Push(if flag then "true" else "false");
      case Number(n) => output.Push(NumberText(n));
      case String(text) => output.Push(Quote(text));
      case Array(items) =>
        output.Push("[");
        WriteItems(value, output);
        output.Push("]");
        assert output.text == before + ("[" + ItemsText(items) + "]");
      case Object(fields) =>
        output.Push("{");
        var keys := Ordering.CollectSorted(fields.Keys);
        WriteMembers(value, keys, output);
        output.Push("}");
        assert output.text == before + ("{" + MembersText(value, keys) + "}");
    }
  }

  /** The loop of `write_canonical` over the members of an object. */
  method WriteMembers(owner: Value, keys: seq<string>, output: Output)
    requires owner.Object? && forall k <- keys :: k in owner.fields
    modifies output
    ensures output.text == old(output.text) + MembersText(owner, keys)
    decreases owner, 0
  {
    hide Text, Quote, Ordering.SortedKeys, MembersText;
    for index := 0 to |keys|
      invariant output.text == old(output.text) + MembersPrefix(owner, keys, index)
    {
      ghost var before := output.text;
      if index > 0 {
        output.Push(",");
      }
      output.Push(Quote(keys[index]));
      output.Push(":");
      assert keys[index] in owner.fields;
      WriteCanonical(owner.fields[keys[index]], output);
      assert output.text == before + (if index > 0 then "," else "") + MemberText(owner, keys[index]);
    }
    MembersPrefixWhole(owner, keys);
  }

  /** The loop of `write_canonical` over the items of an array. */
  method WriteItems(owner: Value, output: Output)
    requires owner.Array?
    modifies output
    ensures output.text == old(output.text) + ItemsText(owner.items)
    decreases owner, 0
  {
    for index := 0 to |owner.items|
      invariant output.text == old(output.text) + ItemsPrefix(owner.items, index)
    {
      ghost var before := output.text;
      if index > 0 {
        output.Push(",");
      }
      WriteCanonical(owner.items[index], output);
      assert output.text == before + (if index > 0 then "," else "") + Text(owner.items[index]);
    }
    ItemsPrefixWhole(owner.items);
  }

  method Canonicalize(value: Value) returns (text: string)
    ensures text == Text(value)
  {
    var output := new Output();
    WriteCanonical(value, output);
    text := output.text;
  }
}
