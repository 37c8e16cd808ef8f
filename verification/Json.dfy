/**
 Canonical JSON (packages/archive/src/canonical.ts and the copy in packages/audit/src/audit-chain.ts).

 A value is an integer, another number kept as its printed text, a string, an array or an object.
 Objects are maps, so the order in which a program inserted its keys is not part of the value.
 */
module Json {
  import opened Base
  import opened Text
  import opened Sorting

  predicate IsDigit(c: char) { '0' <= c <= '9' }

  predicate IsNumberChar(c: char) { IsDigit(c) || c in "-+.e" }

  /** The printed form of a finite number that is not a plain integer. */
  predicate IsFracText(t: string) {
    && t != ""
    && (IsDigit(t[0]) || t[0] == '-')
    && (forall i :: 0 <= i < |t| ==> IsNumberChar(t[i]))
    && (exists i :: 0 <= i < |t| && t[i] in ".e")
  }

  type FracText = t: string | IsFracText(t) witness (assert "0.5"[1] == '.'; "0.5")

  datatype Json =
    | Null
    | Bool(b: bool)
    | Int(n: int)
    | Frac(text: FracText)
    | Str(s: string)
    | Arr(items: seq<Json>)
    | Obj(fields: map<string, Json>)

  /**
   Values that JavaScript has no text for: a field "toString" hides the inherited one behind something that cannot
   be called, and an array needs the text of every item. Converting such a value to text or to a number throws.
   */
  predicate Textless(v: Json) {
    match v
    case Obj(fields) => "toString" in fields
    case Arr(items) => exists i :: 0 <= i < |items| && Textless(items[i])
    case _ => false
  }

  // ---------- numbers ----------

  function Digit(n: nat): char
    requires n < 10
  {
    '0' + n as char
  }

  function DecimalNat(n: nat): (t: string)
    ensures t != "" && forall i :: 0 <= i < |t| ==> IsDigit(t[i])
  {
    if n < 10 then [Digit(n)] else DecimalNat(n / 10) + [Digit(n % 10)]
  }

  function Decimal(n: int): string {
    if n < 0 then "-" + DecimalNat(-n) else DecimalNat(n)
  }

  function DigitValue(c: char): Option<nat> {
    if IsDigit(c) then Some(c as int - '0' as int)
    else if 'a' <= c <= 'z' then Some(c as int - 'a' as int + 10)
    else if 'A' <= c <= 'Z' then Some(c as int - 'A' as int + 10)
    else None
  }

  /** The value of a possibly empty run of digits. */
  function Digits(base: nat, t: string): Option<nat> {
    if t == "" then Some(0)
    else
      var n := |t| - 1;
      match (Digits(base, t[..n]), DigitValue(t[n]))
      case (Some(v), Some(d)) => if d < base then Some(v * base + d) else None
      case _ => None
  }

  lemma {:induction false} DigitsOfDecimal(n: nat)
    ensures Digits(10, DecimalNat(n)) == Some(n)
  {
    if n >= 10 {
      DigitsOfDecimal(n / 10);
      assert DecimalNat(n)[..|DecimalNat(n)| - 1] == DecimalNat(n / 10);
    } else {
      assert DecimalNat(n)[..0] == "";
    }
  }

  // ---------- strings ----------

  function Hex(n: nat): char
    requires n < 16
  {
    if n < 10 then Digit(n) else 'a' + (n - 10) as char
  }

  /** One character inside a JSON string, escaped as section 7 of RFC 8259 requires. */
  function EscapeChar(c: char): (e: string)
    ensures e != "" && e[0] != '\"'
  {
    var n := c as int;
    if c == '\"' then "\\\""
    else if c == '\\' then "\\\\"
    else if n == 8 then "\\b"
    else if n == 12 then "\\f"
    else if c == '\n' then "\\n"
    else if c == '\r' then "\\r"
    else if c == '\t' then "\\t"
    else if n < 0x20 then "\\u00" + [Hex(n / 16), Hex(n % 16)]
    else [c]
  }

  function Escape(s: string): string {
    if s == "" then "" else EscapeChar(s[0]) + Escape(s[1..])
  }

  function Quote(s: string): string {
    "\"" + Escape(s) + "\""
  }

  // ---------- the printer ----------

  function Canonical(v: Json): string
    decreases v, 1
  {
    match v
    case Null => "null"
    case Bool(b) => if b then "true" else "false"
    case Int(n) => Decimal(n)
    case Frac(text) => text
    case Str(s) => Quote(s)
    case Arr(items) => "[" + Items(items) + "]"
    case Obj(fields) => "{" + Members(v, SortedKeys(fields.Keys)) + "}"
  }

  function Items(items: seq<Json>): string
    decreases items, 0
  {
    if items == [] then ""
    else if |items| == 1 then Canonical(items[0])
    else Canonical(items[0]) + "," + Items(items[1..])
  }

  function Members(v: Json, keys: seq<string>): string
    requires v.Obj? && forall k :: k in keys ==> k in v.fields
    decreases v, 0, |keys|
  {
    if keys == [] then ""
    else
      var member := Quote(keys[0]) + ":" + Canonical(v.fields[keys[0]]);
      if |keys| == 1 then member else member + "," + Members(v, keys[1..])
  }

  /**
   The printed text does not depend on the order in which the keys were inserted: sorting any enumeration of them
   by code units, as the source does, prints the same text.
   */
  lemma InsertionOrderIrrelevant(v: Json, inserted: seq<string>)
    requires v.Obj? && Distinct(inserted) && forall k :: k in inserted <==> k in v.fields
    ensures forall k :: k in Sort(CodeUnitOrder(), inserted) ==> k in v.fields
    ensures Canonical(v) == "{" + Members(v, Sort(CodeUnitOrder(), inserted)) + "}"
  {
    hide Sort;
    hide Members;
    SortEnumerates(inserted);
    Text.SortedUnique(Sort(CodeUnitOrder(), inserted), SortedKeys(v.fields.Keys));
  }

  // ---------- a reader ----------

  /** One character of a JSON string and the text behind it (section 7 of RFC 8259, without surrogate escapes). */
  function ReadChar(t: string): (r: Option<(char, string)>)
    requires t != ""
    ensures r.Some? ==> |r.value.1| < |t|
  {
    if t[0] as int < 0x20 then None
    else if t[0] != '\\' then Some((t[0], t[1..]))
    else if |t| == 1 then None
    else if t[1] in "\"\\/" then Some((t[1], t[2..]))
    else if t[1] == 'b' then Some((8 as char, t[2..]))
    else if t[1] == 'f' then Some((12 as char, t[2..]))
    else if t[1] == 'n' then Some(('\n', t[2..]))
    else if t[1] == 'r' then Some(('\r', t[2..]))
    else if t[1] == 't' then Some(('\t', t[2..]))
    else if t[1] == 'u' && |t| >= 6 then
      match Digits(16, t[2..6])
      case Some(n) => if n < 0xD800 || 0xE000 <= n < 0x10000 then Some((n as char, t[6..])) else None
      case None => None
    else None
  }

  /** A string up to its closing quote, and the text behind that. */
  function ReadString(t: string): (r: Option<(string, string)>)
    ensures r.Some? ==> |r.value.1| < |t|
    decreases |t|
  {
    if t == "" then None
    else if t[0] == '\"' then Some(("", t[1..]))
    else
      match ReadChar(t)
      case None => None
      case Some((c, rest)) =>
        match ReadString(rest)
        case None => None
        case Some((s, rest')) => Some(([c] + s, rest'))
  }

  /** The number characters at the front of a text. */
  function NumberRun(t: string): (r: string)
    ensures r <= t
  {
    if t == "" || !IsNumberChar(t[0]) then ""
    else
      assert t == [t[0]] + t[1..];
      [t[0]] + NumberRun(t[1..])
  }

  /** A numeral of digits only is an integer; any other is kept as it is. */
  function ReadNumeral(t: string): Option<Json> {
    var digits := if t != "" && t[0] == '-' then t[1..] else t;
    match Digits(10, digits)
    case Some(n) => if digits == "" then None else Some(Int(if t[0] == '-' then -(n as int) else n))
    case None => if IsFracText(t) then Some(Frac(t)) else None
  }

  function ReadNumber(t: string): (r: Option<(Json, string)>)
    ensures r.Some? ==> |r.value.1| < |t|
  {
    var numeral := NumberRun(t);
    if numeral == "" then None
    else
      match ReadNumeral(numeral)
      case Some(v) => Some((v, t[|numeral|..]))
      case None => None
  }

  function ReadWord(t: string, word: string, v: Json): (r: Option<(Json, string)>)
    requires word != ""
    ensures r.Some? ==> |r.value.1| < |t|
  {
    if word <= t then Some((v, t[|word|..])) else None
  }

  /** A JSON text without white space (section 2 of RFC 8259) at the front of a text, and what is behind it. */
  function ReadValue(t: string): (r: Option<(Json, string)>)
    ensures r.Some? ==> |r.value.1| < |t|
    decreases |t|, 0
  {
    if t == "" then None
    else
      match t[0]
      case 'n' => ReadWord(t, "null", Null)
      case 't' => ReadWord(t, "true", Bool(true))
      case 'f' => ReadWord(t, "false", Bool(false))
      case '\"' =>
        (match ReadString(t[1..])
         case Some((s, rest)) => Some((Str(s), rest))
         case None => None)
      case '[' =>
        (match ReadArray(t[1..])
         case Some((items, rest)) => Some((Arr(items), rest))
         case None => None)
      case '{' =>
        (match ReadObject(t[1..])
         case Some((members, rest)) => Some((Obj(Fields(members)), rest))
         case None => None)
      case _ => ReadNumber(t)
  }

  /** The items of an array, behind its opening bracket. */
  function ReadArray(t: string): (r: Option<(seq<Json>, string)>)
    ensures r.Some? ==> |r.value.1| < |t|
    decreases |t|, 2
  {
    if t != "" && t[0] == ']' then Some(([], t[1..])) else ReadItems(t)
  }

  type Member = (string, Json)

  /** The object with these members; of several with one name the last counts. */
  function Fields(members: seq<Member>): map<string, Json> {
    if members == [] then map[]
    else
      var last := members[|members| - 1];
      Fields(members[..|members| - 1])[last.0 := last.1]
  }

  /** The members of an object, behind its opening brace. */
  function ReadObject(t: string): (r: Option<(seq<Member>, string)>)
    ensures r.Some? ==> |r.value.1| < |t|
    decreases |t|, 2
  {
    if t != "" && t[0] == '}' then Some(([], t[1..])) else ReadMembers(t)
  }

  /** One or more items up to the closing bracket. */
  function ReadItems(t: string): (r: Option<(seq<Json>, string)>)
    ensures r.Some? ==> |r.value.1| < |t|
    decreases |t|, 1
  {
    match ReadValue(t)
    case None => None
    case Some((v, rest)) =>
      if rest == "" then None
      else if rest[0] == ']' then Some(([v], rest[1..]))
      else if rest[0] == ',' then
        match ReadItems(rest[1..])
        case Some((items, rest')) => Some(([v] + items, rest'))
        case None => None
      else None
  }

  /** One or more members up to the closing brace. */
  function ReadMembers(t: string): (r: Option<(seq<Member>, string)>)
    ensures r.Some? ==> |r.value.1| < |t|
    decreases |t|, 1
  {
    if t == "" || t[0] != '\"' then None
    else
      match ReadString(t[1..])
      case None => None
      case Some((k, colon)) =>
        if colon == "" || colon[0] != ':' then None
        else
          match ReadValue(colon[1..])
          case None => None
          case Some((v, rest)) =>
            if rest == "" then None
            else if rest[0] == '}' then Some(([(k, v)], rest[1..]))
            else if rest[0] == ',' then
              match ReadMembers(rest[1..])
              case Some((members, rest')) => Some(([(k, v)] + members, rest'))
              case None => None
            else None
  }

  // ---------- printing and reading back ----------

  lemma Assoc(a: string, b: string, c: string)
    ensures a + b + c == a + (b + c)
  {
  }

  lemma HexReads(n: nat)
    requires n < 0x100
    ensures Digits(16, ['0', '0', Hex(n / 16), Hex(n % 16)]) == Some(n)
  {
    var t := ['0', '0', Hex(n / 16), Hex(n % 16)];
    assert t[..3][..2][..1] == "0" && t[..3][..2] == "00" && t[..3] == ['0', '0', Hex(n / 16)];
    assert Digits(16, "0"[..0]) == Some(0) && Digits(16, "0") == Some(0);
    assert "00"[..1] == "0" && Digits(16, "00") == Some(0);
    assert DigitValue(Hex(n / 16)) == Some(n / 16) && DigitValue(Hex(n % 16)) == Some(n % 16);
    assert t[..3][..2] == "00" && Digits(16, t[..3]) == Some(n / 16);
  }

  lemma CharReadsBack(c: char, x: string)
    ensures ReadChar(EscapeChar(c) + x) == Some((c, x))
  {
    var e, n := EscapeChar(c), c as int;
    var t := e + x;
    assert t[|e|..] == x && t[0] == e[0];
    if |e| == 2 {
      assert t[1] == e[1];
    } else if |e| == 6 {
      assert t[1] == e[1] && t[2..6] == e[2..6] == ['0', '0', Hex(n / 16), Hex(n % 16)];
      HexReads(n);
    }
  }

  lemma {:induction false} StringReadsBack(s: string, x: string)
    ensures ReadString(Escape(s) + ("\"" + x)) == Some((s, x))
  {
    var t := Escape(s) + ("\"" + x);
    if s == "" {
      assert t == "\"" + x && t[1..] == x;
    } else {
      var rest := Escape(s[1..]) + ("\"" + x);
      Assoc(EscapeChar(s[0]), Escape(s[1..]), "\"" + x);
      assert t[0] == EscapeChar(s[0])[0];
      CharReadsBack(s[0], rest);
      StringReadsBack(s[1..], x);
      assert s == [s[0]] + s[1..];
    }
  }

  predicate IsNumber(v: Json) { v.Int? || v.Frac? }

  /** Text that may follow a value: a number must not be continued by it. */
  predicate Follows(v: Json, rest: string) {
    IsNumber(v) && rest != "" ==> !IsNumberChar(rest[0])
  }

  lemma {:induction false} RunOf(t: string, x: string)
    requires forall i :: 0 <= i < |t| ==> IsNumberChar(t[i])
    requires x != "" ==> !IsNumberChar(x[0])
    ensures NumberRun(t + x) == t
  {
    if t == "" {
      assert t + x == x;
    } else {
      assert (t + x)[1..] == t[1..] + x;
      RunOf(t[1..], x);
    }
  }

  lemma {:induction false} NotDigits(t: string, i: nat)
    requires i < |t| && !IsDigit(t[i])
    ensures Digits(10, t) == None
  {
    if i < |t| - 1 {
      NotDigits(t[..|t| - 1], i);
    }
  }

  lemma NumeralReadsBack(v: Json)
    requires IsNumber(v)
    ensures ReadNumeral(Canonical(v)) == Some(v)
    ensures Canonical(v) != "" && forall i :: 0 <= i < |Canonical(v)| ==> IsNumberChar(Canonical(v)[i])
  {
    var t := Canonical(v);
    match v {
      case Int(n) =>
        DigitsOfDecimal(if n < 0 then -n else n);
        assert n < 0 ==> t[1..] == DecimalNat(-n);
        assert n >= 0 ==> IsDigit(t[0]);
      case Frac(_) =>
        var i :| 0 <= i < |t| && t[i] in ".e";
        if t[0] == '-' {
          assert t[1..][i - 1] == t[i];
          NotDigits(t[1..], i - 1);
        } else {
          NotDigits(t, i);
        }
    }
  }

  lemma NumberReadsBack(v: Json, x: string)
    requires IsNumber(v) && Follows(v, x)
    ensures ReadValue(Canonical(v) + x) == Some((v, x))
  {
    hide ReadNumeral;
    var n := Canonical(v);
    var t := n + x;
    NumeralReadsBack(v);
    RunOf(n, x);
    assert t[0] == n[0] && t[|n|..] == x;
    assert ReadNumber(t) == Some((v, x));
    hide ReadNumber;
    assert t[0] !in "ntf\"[{";
  }

  lemma FirstChar(v: Json)
    ensures Canonical(v) != "" && Canonical(v)[0] !in "]},:"
  {
    if IsNumber(v) {
      NumeralReadsBack(v);
    }
  }

  /**
   Reading what was printed gives back the value and whatever text was behind it, if that does not continue a
   number.
   */
  lemma {:induction false} ValueReadsBack(v: Json, x: string)
    requires Follows(v, x)
    ensures ReadValue(Canonical(v) + x) == Some((v, x))
    decreases v, 2
  {
    match v {
      case Null => WordReadsBack(v, x);
      case Bool(_) => WordReadsBack(v, x);
      case Int(_) => NumberReadsBack(v, x);
      case Frac(_) => NumberReadsBack(v, x);
      case Str(s) =>
        Bracketed("\"", Escape(s), "\"", x);
        StringReadsBack(s, x);
      case Arr(items) =>
        ArrayReadsBack(items, x);
        Bracketed("[", Items(items), "]", x);
        OpenedRead(Items(items) + ("]" + x));
      case Obj(_) => ObjectReadsBack(v, x);
    }
  }

  lemma WordReadsBack(v: Json, x: string)
    requires v.Null? || v.Bool?
    ensures ReadValue(Canonical(v) + x) == Some((v, x))
  {
    var word := Canonical(v);
    var t := word + x;
    assert word <= t && t[0] == word[0] && t[|word|..] == x;
  }

  lemma OpenedRead(t: string)
    ensures ReadArray(t).Some? ==> ReadValue("[" + t) == Some((Arr(ReadArray(t).value.0), ReadArray(t).value.1))
    ensures ReadObject(t).Some? ==>
              ReadValue("{" + t) == Some((Obj(Fields(ReadObject(t).value.0)), ReadObject(t).value.1))
  {
    hide ReadArray;
    hide ReadObject;
    hide ReadString;
    hide ReadNumber;
    hide Fields;
    assert ("[" + t)[1..] == t && ("{" + t)[1..] == t;
  }

  /** The members under the given names, in that order. */
  function MembersOf(v: Json, keys: seq<string>): (r: seq<Member>)
    requires v.Obj? && forall k :: k in keys ==> k in v.fields
    ensures |r| == |keys|
  {
    seq(|keys|, i requires 0 <= i < |keys| => (keys[i], v.fields[keys[i]]))
  }

  lemma {:induction false} FieldsOfMembers(v: Json, keys: seq<string>)
    requires v.Obj? && forall k :: k in keys ==> k in v.fields
    ensures Fields(MembersOf(v, keys)) == map k | k in keys :: v.fields[k]
  {
    if keys != [] {
      var n := |keys| - 1;
      assert keys == keys[..n] + [keys[n]];
      FieldsOfMembers(v, keys[..n]);
      assert MembersOf(v, keys)[..n] == MembersOf(v, keys[..n]);
    }
  }

  lemma AllFields(v: Json)
    requires v.Obj?
    ensures Fields(MembersOf(v, SortedKeys(v.fields.Keys))) == v.fields
  {
    var keys := SortedKeys(v.fields.Keys);
    FieldsOfMembers(v, keys);
    assert v.fields == map k | k in keys :: v.fields[k];
  }

  /** An object is printed with its members in the order of the sorted names. */
  lemma {:induction false} PrintedInOrder(v: Json, x: string)
    requires v.Obj?
    ensures ReadObject(Members(v, SortedKeys(v.fields.Keys)) + ("}" + x)) ==
            Some((MembersOf(v, SortedKeys(v.fields.Keys)), x))
    decreases v, 0
  {
    hide ReadMembers;
    var keys := SortedKeys(v.fields.Keys);
    if keys != [] {
      MembersReadBack(v, keys, x);
      MembersUnfold(v, keys, x);
    } else {
      assert Members(v, keys) + ("}" + x) == "}" + x && ("}" + x)[1..] == x;
    }
  }

  lemma {:induction false} ObjectReadsBack(v: Json, x: string)
    requires v.Obj?
    ensures ReadValue(Canonical(v) + x) == Some((v, x))
    decreases v, 1
  {
    hide ReadValue;
    hide ReadObject;
    hide ReadArray;
    hide Fields;
    hide MembersOf;
    var keys := SortedKeys(v.fields.Keys);
    PrintedInOrder(v, x);
    Bracketed("{", Members(v, keys), "}", x);
    assert Canonical(v) + x == "{" + (Members(v, keys) + ("}" + x));
    hide Canonical;
    hide Members;
    OpenedRead(Members(v, keys) + ("}" + x));
    AllFields(v);
  }

  lemma Bracketed(o: string, a: string, c: string, x: string)
    requires |o| == 1
    ensures o + a + c + x == o + (a + (c + x)) && (o + a + c + x)[0] == o[0] && (o + a + c + x)[1..] == a + (c + x)
  {
  }

  /** What is left of an array's text after its first item. */
  ghost function ItemsTail(items: seq<Json>, x: string): string
    requires items != []
  {
    if |items| == 1 then "]" + x else "," + (Items(items[1..]) + ("]" + x))
  }

  lemma ItemsUnfold(items: seq<Json>, x: string)
    requires items != []
    ensures Items(items) + ("]" + x) == Canonical(items[0]) + ItemsTail(items, x)
  {
    if |items| > 1 {
      var first, rest := Canonical(items[0]), Items(items[1..]);
      Assoc(first + ",", rest, "]" + x);
      Assoc(first, ",", rest + ("]" + x));
    }
  }

  /** Reading on after one item or member. */
  lemma ItemsRead(t: string, v: Json, tail: string)
    requires ReadValue(t) == Some((v, tail)) && tail != ""
    ensures tail[0] == ']' ==> ReadItems(t) == Some(([v], tail[1..]))
    ensures tail[0] == ',' && ReadItems(tail[1..]).Some? ==>
              ReadItems(t) == Some(([v] + ReadItems(tail[1..]).value.0, ReadItems(tail[1..]).value.1))
  {
    hide ReadValue;
  }

  lemma MembersRead(t: string, k: string, v: Json, colon: string, tail: string)
    requires ReadString(t) == Some((k, ":" + colon)) && ReadValue(colon) == Some((v, tail)) && tail != ""
    ensures tail[0] == '}' ==> ReadMembers("\"" + t) == Some(([(k, v)], tail[1..]))
    ensures tail[0] == ',' && ReadMembers(tail[1..]).Some? ==>
              ReadMembers("\"" + t) ==
              Some(([(k, v)] + ReadMembers(tail[1..]).value.0, ReadMembers(tail[1..]).value.1))
  {
    hide ReadValue;
    hide ReadString;
    assert ("\"" + t)[1..] == t && (":" + colon)[1..] == colon;
  }

  lemma {:induction false} ArrayReadsBack(items: seq<Json>, x: string)
    ensures ReadArray(Items(items) + ("]" + x)) == Some((items, x))
    decreases items, 1
  {
    hide ReadItems;
    if items == [] {
      assert Items(items) + ("]" + x) == "]" + x && ("]" + x)[1..] == x;
    } else {
      ItemsReadBack(items, x);
      ItemsUnfold(items, x);
      FirstChar(items[0]);
    }
  }

  lemma {:induction false} ItemsReadBack(items: seq<Json>, x: string)
    requires items != []
    ensures ReadItems(Items(items) + ("]" + x)) == Some((items, x))
    decreases items, 0
  {
    hide ReadValue;
    hide ReadItems;
    var t, tail := Items(items) + ("]" + x), ItemsTail(items, x);
    ItemsUnfold(items, x);
    ValueReadsBack(items[0], tail);
    hide Items;
    ItemsRead(t, items[0], tail);
    if |items| == 1 {
      assert tail[1..] == x && items == [items[0]];
    } else {
      ItemsReadBack(items[1..], x);
      assert tail[1..] == Items(items[1..]) + ("]" + x) && items == [items[0]] + items[1..];
    }
  }

  lemma MembersUnfold(v: Json, keys: seq<string>, x: string)
    requires keys != [] && v.Obj? && forall k :: k in keys ==> k in v.fields
    ensures Members(v, keys) + ("}" + x) ==
            "\"" + (Escape(keys[0]) + ("\"" + (":" + (Canonical(v.fields[keys[0]]) + MembersTail(v, keys, x)))))
  {
    var e, c, tail := Escape(keys[0]), Canonical(v.fields[keys[0]]), MembersTail(v, keys, x);
    var member := Quote(keys[0]) + ":" + c;
    if |keys| > 1 {
      var rest := Members(v, keys[1..]);
      Assoc(member + ",", rest, "}" + x);
      Assoc(member, ",", rest + ("}" + x));
    }
    Assoc(Quote(keys[0]) + ":", c, tail);
    Assoc(Quote(keys[0]), ":", c + tail);
    Assoc("\"" + e, "\"", ":" + (c + tail));
    Assoc("\"", e, "\"" + (":" + (c + tail)));
  }

  ghost function MembersTail(v: Json, keys: seq<string>, x: string): string
    requires keys != [] && v.Obj? && forall k :: k in keys ==> k in v.fields
  {
    if |keys| == 1 then "}" + x else "," + (Members(v, keys[1..]) + ("}" + x))
  }

  lemma {:induction false} MembersReadBack(v: Json, keys: seq<string>, x: string)
    requires keys != [] && v.Obj? && forall k :: k in keys ==> k in v.fields
    ensures ReadMembers(Members(v, keys) + ("}" + x)) == Some((MembersOf(v, keys), x))
    decreases v, 0, |keys|
  {
    hide ReadString;
    hide ReadValue;
    hide ReadMembers;
    hide Escape;
    var value, tail := v.fields[keys[0]], MembersTail(v, keys, x);
    var colon := Canonical(value) + tail;
    var t := Escape(keys[0]) + ("\"" + (":" + colon));
    MembersUnfold(v, keys, x);
    StringReadsBack(keys[0], ":" + colon);
    ValueReadsBack(value, tail);
    hide Members;
    hide Canonical;
    MembersRead(t, keys[0], value, colon, tail);
    if |keys| == 1 {
      assert tail[1..] == x && MembersOf(v, keys) == [(keys[0], value)];
    } else {
      MembersReadBack(v, keys[1..], x);
      assert tail[1..] == Members(v, keys[1..]) + ("}" + x);
      assert MembersOf(v, keys) == [(keys[0], value)] + MembersOf(v, keys[1..]);
    }
  }

  /** What a whole text says, if it is the text of one value. */
  function Read(t: string): Option<Json> {
    match ReadValue(t)
    case Some((v, rest)) => if rest == "" then Some(v) else None
    case None => None
  }

  /** The printed text is JSON for the value. */
  lemma CanonicalReadsBack(v: Json)
    ensures Read(Canonical(v)) == Some(v)
  {
    assert Canonical(v) + "" == Canonical(v);
    ValueReadsBack(v, "");
  }

  // ---------- unique readability ----------

  /** Equal output means equal values. */
  lemma CanonicalInjective(v: Json, w: Json)
    ensures Canonical(v) == Canonical(w) <==> v == w
  {
    CanonicalReadsBack(v);
    CanonicalReadsBack(w);
  }

  /** Two object texts with arbitrary text behind them: objects and trailing texts agree. */
  lemma ObjectsSelfDelimiting(v: Json, w: Json, x: string, y: string)
    requires v.Obj? && w.Obj?
    ensures Canonical(v) + x == Canonical(w) + y <==> v == w && x == y
  {
    ValueReadsBack(v, x);
    ValueReadsBack(w, y);
  }
}
