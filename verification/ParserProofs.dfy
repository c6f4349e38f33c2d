/** Reading back what was printed: `canonicalize` loses nothing and ignores member order. */
module ParserProofs {
  import opened Prelude
  import opened Json
  import opened Decimal
  import opened Canonical
  import opened Parser
  import Ordering

  // ---- Strings and numbers ----

  lemma EscapeReadsBack(c: char, rest: string)
    ensures ParseChar(Escape(c) + rest) == Got(c, rest)
    ensures (Escape(c) + rest)[0] != '\"'
  {
    var s := Escape(c) + rest;
    if c == '\"' || c == '\\' || c == '\U{0008}' || c == '\U{0009}' || c == '\U{000A}' || c == '\U{000C}' || c == '\U{000D}' {
      assert s[2..] == rest;
    } else if c < ' ' {
      assert s[2..][4..] == rest;
      assert Hex4(s[2..]) == Some(c as int);
    } else {
      assert s[1..] == rest;
    }
  }

  lemma {:induction false} StringReadsBack(text: string, rest: string)
    ensures ParseString(EscapeAll(text) + "\"" + rest) == Got(text, rest)
  {
    hide Escape, ParseChar;
    var s := EscapeAll(text) + "\"" + rest;
    if text == "" {
      assert s[1..] == rest;
    } else {
      var tail := EscapeAll(text[1..]) + "\"" + rest;
      assert s == Escape(text[0]) + tail;
      EscapeReadsBack(text[0], tail);
      StringReadsBack(text[1..], rest);
      assert [text[0]] + text[1..] == text;
    }
  }

  /** What may follow a value inside a document: its end, a comma or a closing bracket. */
  predicate EndsValue(rest: string) {
    rest == "" || rest[0] == ',' || rest[0] == ']' || rest[0] == '}'
  }

  lemma NumberReadsBack(n: JsonInt, rest: string)
    requires EndsValue(rest)
    ensures ParseNumber(NumberText(n) + rest) == Got(n, rest)
  {
    hide DigitRun, ValueOf, Numeral;
    var digits := if n < 0 then Numeral(-n) else Numeral(n);
    var s := NumberText(n) + rest;
    var t := if n < 0 then s[1..] else s;
    assert t == digits + rest;
    ValueOfNumeral(if n < 0 then -n else n);
    DigitRunOf(digits, rest);
    assert t[..|digits|] == digits && t[|digits|..] == rest;
    assert s[0] == '-' <==> n < 0;
  }

  // ---- Documents ----

  /** What a parser must answer for a document of which only `depth` levels may be open. */
  function Expected<T>(fits: bool, value: T, rest: string): Parsed<T> {
    if fits then Got(value, rest) else Fail
  }

  lemma {:induction false} ValueReadsBack(doc: Doc, rest: string, depth: nat)
    requires EndsValue(rest)
    ensures ParseValue(Print(doc) + rest, depth) == Expected(Nesting(doc) <= depth, Meaning(doc), rest)
    decreases doc, 1
  {
    hide Escape, EscapeAll, Numeral, ParseNumber, ParseString, ParseItems, ParseMembers;
    var s := Print(doc) + rest;
    match doc {
      case DocNull => assert s[4..] == rest;
      case DocBool(flag) => assert s[if flag then 4 else 5..] == rest;
      case DocNumber(n) =>
        NumberReadsBack(n, rest);
        NumberStart(n);
        assert SkipSpace(s) == s;
      case DocString(text) =>
        assert s[1..] == EscapeAll(text) + "\"" + rest;
        StringReadsBack(text, rest);
      case DocArray(items) => ArrayReadsBack(items, rest, depth);
      case DocObject(members) => ObjectReadsBack(members, rest, depth);
    }
  }

  lemma NumberStart(n: int)
    ensures NumberText(n) != "" && (NumberText(n)[0] == '-' || IsDigit(NumberText(n)[0]))
  {}

  lemma {:induction false} ArrayReadsBack(items: seq<Doc>, rest: string, depth: nat)
    requires EndsValue(rest)
    ensures ParseValue(Print(DocArray(items)) + rest, depth)
      == Expected(Nesting(DocArray(items)) <= depth, Meaning(DocArray(items)), rest)
    decreases items, 3
  {
    hide ParseItems, ParseMembers, ParseNumber, ParseString;
    var s := Print(DocArray(items)) + rest;
    var u := PrintItems(items) + "]" + rest;
    assert s[1..] == u;
    if items == [] {
      assert u == "]" + rest && u[1..] == rest;
    } else {
      ItemsStart(items, "]" + rest);
      assert u == PrintItems(items) + ("]" + rest);
      if depth > 0 { ItemsReadBack(items, rest, depth - 1); }
    }
  }

  lemma {:induction false} ObjectReadsBack(members: seq<(string, Doc)>, rest: string, depth: nat)
    requires EndsValue(rest)
    ensures ParseValue(Print(DocObject(members)) + rest, depth)
      == Expected(Nesting(DocObject(members)) <= depth, Meaning(DocObject(members)), rest)
    decreases members, 3
  {
    hide ParseItems, ParseMembers, ParseNumber, ParseString;
    hide Quote, PrintMembers, MemberMeanings, MembersNesting, Ordering.SortedKeys;
    var s := Print(DocObject(members)) + rest;
    var u := PrintMembers(members) + "}" + rest;
    assert s[1..] == u;
    if members == [] {
      EmptyMembers();
      assert u == "}" + rest && u[1..] == rest;
    } else {
      MembersStart(members, "}" + rest);
      assert u == PrintMembers(members) + ("}" + rest);
      if depth > 0 { MembersReadBack(members, rest, depth - 1, map[]); }
    }
  }

  lemma EmptyMembers()
    ensures PrintMembers([]) == "" && MemberMeanings([], map[]) == map[] && MembersNesting([]) == 0
  {}

  /** No document text begins with white space or a closing bracket. */
  lemma {:induction false} DocStart(doc: Doc)
    ensures Print(doc) != "" && !IsJsonSpace(Print(doc)[0]) && Print(doc)[0] != ']'
  {
    if doc.DocNumber? { NumberStart(doc.number); }
  }

  lemma ItemsStart(items: seq<Doc>, rest: string)
    requires items != []
    ensures PrintItems(items) != "" && SkipSpace(PrintItems(items) + rest) == PrintItems(items) + rest
    ensures PrintItems(items)[0] != ']'
  {
    DocStart(items[0]);
  }

  lemma MembersStart(members: seq<(string, Doc)>, rest: string)
    requires members != []
    ensures PrintMembers(members) != "" && PrintMembers(members)[0] == '\"'
    ensures SkipSpace(PrintMembers(members) + rest) == PrintMembers(members) + rest
  {
    hide EscapeAll, Print;
    assert PrintMember(members[0])[0] == '\"';
  }

  lemma {:induction false} ItemsReadBack(items: seq<Doc>, rest: string, depth: nat)
    requires items != []
    ensures ParseItems(PrintItems(items) + "]" + rest, depth)
      == Expected(ItemsNesting(items) <= depth, ItemMeanings(items), rest)
    decreases items, 2
  {
    hide Print, Meaning, Nesting, ParseValue;
    var s := PrintItems(items) + "]" + rest;
    var tail := if |items| == 1 then "]" + rest else "," + (PrintItems(items[1..]) + "]" + rest);
    assert s == Print(items[0]) + tail;
    ValueReadsBack(items[0], tail, depth);
    assert SkipSpace(tail) == tail;
    var more := items[1..];
    assert ItemMeanings(items) == [Meaning(items[0])] + ItemMeanings(more);
    assert ItemsNesting(items) == Max(Nesting(items[0]), ItemsNesting(more));
    if |items| == 1 {
      assert ItemMeanings(items) == [Meaning(items[0])];
      assert tail[1..] == rest;
    } else {
      assert tail[1..] == PrintItems(more) + "]" + rest;
      ItemsReadBack(more, rest, depth);
    }
  }

  lemma {:induction false} MemberReadsBack(member: (string, Doc), rest: string, depth: nat)
    requires EndsValue(rest)
    ensures ParseMember(PrintMember(member) + rest, depth)
      == Expected(MemberNesting(member) <= depth, (member.0, MemberMeaning(member)), rest)
    decreases member, 2
  {
    hide Print, Meaning, Nesting, ParseValue, ParseString, EscapeAll;
    var s := PrintMember(member) + rest;
    var tail := ":" + (Print(member.1) + rest);
    assert s[1..] == EscapeAll(member.0) + "\"" + tail;
    StringReadsBack(member.0, tail);
    assert tail[1..] == Print(member.1) + rest;
    ValueReadsBack(member.1, rest, depth);
  }

  lemma {:induction false} MembersReadBack(
    members: seq<(string, Doc)>, rest: string, depth: nat, sofar: map<string, Value>)
    requires members != []
    ensures ParseMembers(PrintMembers(members) + "}" + rest, depth, sofar)
      == Expected(MembersNesting(members) <= depth, MemberMeanings(members, sofar), rest)
    decreases members, 2
  {
    hide PrintMember, MemberMeaning, MemberNesting, ParseMember;
    var s := PrintMembers(members) + "}" + rest;
    var tail := if |members| == 1 then "}" + rest else "," + (PrintMembers(members[1..]) + "}" + rest);
    assert s == PrintMember(members[0]) + tail;
    MemberReadsBack(members[0], tail, depth);
    assert SkipSpace(tail) == tail;
    var sofar' := sofar[members[0].0 := MemberMeaning(members[0])];
    if |members| == 1 {
      assert tail[1..] == rest;
      assert members[1..] == [];
    } else {
      assert tail[1..] == PrintMembers(members[1..]) + "}" + rest;
      MembersReadBack(members[1..], rest, depth, sofar');
    }
  }

  // ---- The canonical text is the text of one arrangement ----

  /** The syntax tree whose objects list their members in ascending key order. */
  function Arrange(value: Value): Doc
    decreases value, 1
  {
    match value
    case Null => DocNull
    case Bool(flag) => DocBool(flag)
    case Number(n) => DocNumber(n)
    case String(text) => DocString(text)
    case Array(items) => DocArray(ArrangeItems(items))
    case Object(fields) => DocObject(ArrangeMembers(value, Ordering.SortedKeys(fields.Keys)))
  }

  function ArrangeItems(items: seq<Value>): seq<Doc>
    decreases items, 0
  {
    if items == [] then [] else [Arrange(items[0])] + ArrangeItems(items[1..])
  }

  function ArrangeMembers(owner: Value, keys: seq<string>): seq<(string, Doc)>
    requires owner.Object? && forall k <- keys :: k in owner.fields
    decreases owner, 0, |keys|
  {
    if keys == [] then []
    else [(keys[0], Arrange(owner.fields[keys[0]]))] + ArrangeMembers(owner, keys[1..])
  }

  lemma {:induction false} ArrangeKeepsText(value: Value)
    ensures Print(Arrange(value)) == Text(value)
    decreases value, 1
  {
    hide Ordering.SortedKeys, Quote;
    match value {
      case Array(items) => ArrangeItemsKeepsText(items);
      case Object(fields) => ArrangeMembersKeepsText(value, Ordering.SortedKeys(fields.Keys));
      case _ =>
    }
  }

  lemma {:induction false} ArrangeItemsKeepsText(items: seq<Value>)
    ensures PrintItems(ArrangeItems(items)) == ItemsText(items)
    ensures |ArrangeItems(items)| == |items|
    decreases items, 0
  {
    hide Print, Text, Arrange;
    if items != [] {
      ArrangeKeepsText(items[0]);
      ArrangeItemsKeepsText(items[1..]);
      assert ArrangeItems(items)[1..] == ArrangeItems(items[1..]);
    }
  }

  lemma {:induction false} ArrangeMembersKeepsText(owner: Value, keys: seq<string>)
    requires owner.Object? && forall k <- keys :: k in owner.fields
    ensures PrintMembers(ArrangeMembers(owner, keys)) == MembersText(owner, keys)
    ensures |ArrangeMembers(owner, keys)| == |keys|
    decreases owner, 0, |keys|
  {
    hide Print, Text, Arrange, Quote;
    if keys != [] {
      ArrangeKeepsText(owner.fields[keys[0]]);
      ArrangeMembersKeepsText(owner, keys[1..]);
      assert ArrangeMembers(owner, keys)[1..] == ArrangeMembers(owner, keys[1..]);
    }
  }

  lemma {:induction false} ArrangeKeepsMeaning(value: Value)
    ensures Meaning(Arrange(value)) == value
    decreases value, 1
  {
    hide Ordering.SortedKeys;
    match value {
      case Array(items) => ArrangeItemsKeepsMeaning(items);
      case Object(fields) =>
        var keys := Ordering.SortedKeys(fields.Keys);
        ArrangeMembersKeepsMeaning(value, keys, map[]);
        assert MemberMeanings(ArrangeMembers(value, keys), map[]) == fields;
      case _ =>
    }
  }

  lemma {:induction false} ArrangeItemsKeepsMeaning(items: seq<Value>)
    ensures ItemMeanings(ArrangeItems(items)) == items
    decreases items, 0
  {
    hide Meaning, Arrange;
    if items != [] {
      ArrangeKeepsMeaning(items[0]);
      ArrangeItemsKeepsMeaning(items[1..]);
      assert ArrangeItems(items)[1..] == ArrangeItems(items[1..]);
    }
  }

  lemma {:induction false} ArrangeMembersKeepsMeaning(owner: Value, keys: seq<string>, sofar: map<string, Value>)
    requires owner.Object? && forall k <- keys :: k in owner.fields
    ensures MemberMeanings(ArrangeMembers(owner, keys), sofar) == sofar + (map k | k in keys :: owner.fields[k])
    decreases owner, 0, |keys|
  {
    hide Meaning, Arrange;
    if keys != [] {
      ArrangeKeepsMeaning(owner.fields[keys[0]]);
      var members := ArrangeMembers(owner, keys);
      assert members[1..] == ArrangeMembers(owner, keys[1..]);
      ArrangeMembersKeepsMeaning(owner, keys[1..], sofar[keys[0] := owner.fields[keys[0]]]);
      assert keys == [keys[0]] + keys[1..];
    }
  }

  // ---- Main results ----

  /** How many arrays and objects are open around the deepest leaf of a value. */
  function Depth(value: Value): nat {
    Nesting(Arrange(value))
  }

  /** A compact text, with its members in any order, parses to what it means, exactly when
      it is not nested too deeply. */
  lemma CompactTextParses(doc: Doc)
    ensures Parse(Print(doc)) == if Nesting(doc) <= MAX_NESTING then Some(Meaning(doc)) else None
  {
    hide Print, Meaning, Nesting, ParseValue;
    assert Print(doc) + "" == Print(doc);
    ValueReadsBack(doc, "", MAX_NESTING);
  }

  /** Parsing canonical text gives the value back, exactly for values of at most 127 levels. */
  lemma CanonicalTextParses(value: Value)
    ensures Parse(Text(value)) == if Depth(value) <= MAX_NESTING then Some(value) else None
  {
    hide Print, Meaning, Nesting, Parse, Text, Arrange;
    CompactTextParses(Arrange(value));
    ArrangeKeepsText(value);
    ArrangeKeepsMeaning(value);
  }

  /** Two values with one canonical text are one value, however deep they are. */
  lemma CanonicalInjective(a: Value, b: Value)
    requires Text(a) == Text(b)
    ensures a == b
  {
    hide Print, Meaning, Nesting, ParseValue, Text, Arrange;
    var depth := Depth(a) + Depth(b);
    ArrangeKeepsText(a);
    ArrangeKeepsText(b);
    ArrangeKeepsMeaning(a);
    ArrangeKeepsMeaning(b);
    ValueReadsBack(Arrange(a), "", depth);
    ValueReadsBack(Arrange(b), "", depth);
  }

  /** No key is written twice. */
  predicate DistinctKeys(members: seq<(string, Doc)>) {
    forall i, j | 0 <= i < j < |members| :: members[i].0 != members[j].0
  }

  predicate Mentions(members: seq<(string, Doc)>, key: string) {
    exists m <- members :: m.0 == key
  }

  lemma {:induction false} MemberMeaningsLookup(members: seq<(string, Doc)>, sofar: map<string, Value>, key: string)
    requires DistinctKeys(members)
    ensures key in MemberMeanings(members, sofar) <==> key in sofar || Mentions(members, key)
    ensures forall m <- members | m.0 == key :: MemberMeanings(members, sofar)[key] == MemberMeaning(m)
    ensures key in sofar && !Mentions(members, key) ==> MemberMeanings(members, sofar)[key] == sofar[key]
  {
    hide MemberMeaning;
    if members != [] {
      var m0, tail := members[0], members[1..];
      MemberMeaningsLookup(tail, sofar[m0.0 := MemberMeaning(m0)], key);
      assert members == [m0] + tail;
      assert Mentions(members, key) <==> m0.0 == key || Mentions(tail, key);
      assert forall i | 0 <= i < |tail| :: tail[i] == members[i + 1] && tail[i].0 != m0.0;
    }
  }

  lemma SameMembersSameMeaning(a: seq<(string, Doc)>, b: seq<(string, Doc)>)
    requires DistinctKeys(a) && DistinctKeys(b)
    requires multiset(a) == multiset(b)
    ensures MemberMeanings(a, map[]) == MemberMeanings(b, map[])
  {
    hide MemberMeaning, MemberMeanings, DistinctKeys;
    var left, right := MemberMeanings(a, map[]), MemberMeanings(b, map[]);
    forall m ensures m in a <==> m in b {
      assert m in a <==> m in multiset(a);
      assert m in b <==> m in multiset(b);
    }
    forall k ensures k in left <==> k in right {
      MemberMeaningsLookup(a, map[], k);
      MemberMeaningsLookup(b, map[], k);
    }
    forall k | k in left ensures left[k] == right[k] {
      MemberMeaningsLookup(a, map[], k);
      MemberMeaningsLookup(b, map[], k);
      var m :| m in a && m.0 == k;
      assert m in b;
    }
  }

  /** Writing the members of an object in another order changes neither the value read nor
      its canonical text. */
  lemma MemberOrderIrrelevant(a: seq<(string, Doc)>, b: seq<(string, Doc)>)
    requires DistinctKeys(a) && DistinctKeys(b)
    requires multiset(a) == multiset(b)
    ensures Meaning(DocObject(a)) == Meaning(DocObject(b))
    ensures Nesting(DocObject(a)) <= MAX_NESTING && Nesting(DocObject(b)) <= MAX_NESTING
      ==> Parse(Print(DocObject(a))) == Parse(Print(DocObject(b)))
  {
    hide MemberMeaning, MemberMeanings, Parse, Print, DistinctKeys;
    SameMembersSameMeaning(a, b);
    CompactTextParses(DocObject(a));
    CompactTextParses(DocObject(b));
  }
}
