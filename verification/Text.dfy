/**
 Strings as the source sees them: sequences of Unicode scalar values, compared by their
 UTF-16 code units, which is the order JavaScript's default sort uses.
 */
module Text {
  import opened Base
  import opened Sorting

  predicate IsHigh(unit: nat) { 0xD800 <= unit <= 0xDBFF }

  predicate IsLow(unit: nat) { 0xDC00 <= unit <= 0xDFFF }

  /** A character is one unit outside the surrogates or a surrogate pair, and decoding gives it back. */
  function CharUnits(c: char): (u: seq<nat>)
    ensures |u| == 1 ==> u[0] < 0x10000 && !IsHigh(u[0]) && !IsLow(u[0])
    ensures |u| == 1 || (|u| == 2 && IsHigh(u[0]) && IsLow(u[1]))
    ensures Decoded(u) == [c as int]
  {
    var n := c as int;
    if n < 0x10000 then [n] else [0xD800 + (n - 0x10000) / 0x400, 0xDC00 + (n - 0x10000) % 0x400]
  }

  /** The code points of UTF-16 text (section 3.9 of the Unicode Standard): a surrogate pair stands for one. */
  function Decoded(units: seq<nat>): seq<nat> {
    if units == [] then []
    else if |units| > 1 && IsHigh(units[0]) && IsLow(units[1])
    then [0x10000 + (units[0] - 0xD800) * 0x400 + (units[1] - 0xDC00)] + Decoded(units[2..])
    else [units[0]] + Decoded(units[1..])
  }

  function Units(s: string): seq<nat> {
    if s == "" then [] else CharUnits(s[0]) + Units(s[1..])
  }

  function UnitsLeq(a: seq<nat>, b: seq<nat>): bool {
    if a == [] then true
    else if b == [] then false
    else a[0] < b[0] || (a[0] == b[0] && UnitsLeq(a[1..], b[1..]))
  }

  /** Code-unit order on strings. */
  predicate Leq(a: string, b: string) {
    UnitsLeq(Units(a), Units(b))
  }

  predicate Less(a: string, b: string) {
    a != b && Leq(a, b)
  }

  lemma {:induction false} DecodedFirst(c: char, rest: seq<nat>)
    ensures Decoded(CharUnits(c) + rest) == [c as int] + Decoded(rest)
  {
    var u := CharUnits(c);
    assert u == if |u| == 1 then [u[0]] else [u[0], u[1]];
    assert (u + rest)[0] == u[0] && (u + rest)[|u|..] == rest;
    assert Decoded(u) == [Decoded(u)[0]] + Decoded([]);
  }

  /** The code units of a text are its UTF-16 encoding: decoding them gives the characters of the text in order. */
  lemma {:induction false} DecodesToText(s: string)
    ensures Decoded(Units(s)) == seq(|s|, i requires 0 <= i < |s| => s[i] as int)
  {
    if s != "" {
      DecodesToText(s[1..]);
      DecodedFirst(s[0], Units(s[1..]));
      assert forall i :: 0 <= i < |s| - 1 ==> s[1..][i] == s[i + 1];
    }
  }

  /** `a` ends where `b` goes on, or the first place where they differ holds the smaller number in `a`. */
  ghost predicate ComesFirst(a: seq<nat>, b: seq<nat>) {
    a < b || exists i :: 0 <= i < |a| && i < |b| && a[..i] == b[..i] && a[i] < b[i]
  }

  lemma {:induction false} UnitsLeqMeans(a: seq<nat>, b: seq<nat>)
    ensures UnitsLeq(a, b) <==> a == b || ComesFirst(a, b)
  {
    if a != [] && b != [] {
      var x, y := a[1..], b[1..];
      assert a == [a[0]] + x && b == [b[0]] + y;
      UnitsLeqMeans(x, y);
      if a[0] < b[0] {
        assert a[..0] == b[..0];
      } else if a[0] == b[0] {
        TailsDecide(a, b);
      } else {
        assert forall i :: 0 < i <= |a| && i <= |b| ==> a[..i][0] != b[..i][0];
      }
    }
  }

  lemma TailsDecide(a: seq<nat>, b: seq<nat>)
    requires a != [] && b != [] && a[0] == b[0]
    ensures ComesFirst(a, b) <==> ComesFirst(a[1..], b[1..])
  {
    var x, y := a[1..], b[1..];
    assert a == [a[0]] + x && b == [b[0]] + y;
    if i :| 0 <= i < |a| && i < |b| && a[..i] == b[..i] && a[i] < b[i] {
      assert a[..i][1..] == x[..i - 1] && b[..i][1..] == y[..i - 1];
      assert x[i - 1] < y[i - 1];
    }
    if i :| 0 <= i < |x| && i < |y| && x[..i] == y[..i] && x[i] < y[i] {
      assert a[..i + 1] == [a[0]] + x[..i] && b[..i + 1] == [b[0]] + y[..i];
      assert a[i + 1] < b[i + 1];
    }
  }

  /** The order compares the numbers of the code units, at the first place where they differ. */
  lemma LessMeans(a: string, b: string)
    ensures Less(a, b) <==> ComesFirst(Units(a), Units(b))
  {
    UnitsLeqMeans(Units(a), Units(b));
    if Units(a) == Units(b) {
      UnitsInjective(a, b);
    }
  }

  lemma {:induction false} BasicUnits(s: string)
    requires forall i :: 0 <= i < |s| ==> s[i] as int < 0xD800
    ensures Units(s) == seq(|s|, i requires 0 <= i < |s| => s[i] as int)
  {
    if s != "" {
      BasicUnits(s[1..]);
    }
  }

  /** For characters below the surrogates this is the alphabetical order of the characters. */
  lemma LessAlphabetical(a: string, b: string)
    requires forall i :: 0 <= i < |a| ==> a[i] as int < 0xD800
    requires forall i :: 0 <= i < |b| ==> b[i] as int < 0xD800
    ensures Less(a, b) <==> a < b || exists i :: 0 <= i < |a| && i < |b| && a[..i] == b[..i] && a[i] < b[i]
  {
    LessMeans(a, b);
    BasicUnits(a);
    BasicUnits(b);
    SameOrder(Units(a), Units(b), a, b);
  }

  lemma SameOrder(u: seq<nat>, v: seq<nat>, a: string, b: string)
    requires |u| == |a| && forall i :: 0 <= i < |a| ==> u[i] == a[i] as int
    requires |v| == |b| && forall i :: 0 <= i < |b| ==> v[i] == b[i] as int
    ensures ComesFirst(u, v) <==> a < b || exists i :: 0 <= i < |a| && i < |b| && a[..i] == b[..i] && a[i] < b[i]
  {
    if a < b {
      SamePrefixes(u, v, a, b, |a|);
    }
    if u < v {
      SamePrefixes(u, v, a, b, |a|);
      assert a == b[..|a|];
    }
    if i :| 0 <= i < |a| && i < |b| && a[..i] == b[..i] && a[i] < b[i] {
      SamePrefixes(u, v, a, b, i);
    }
    if i :| 0 <= i < |u| && i < |v| && u[..i] == v[..i] && u[i] < v[i] {
      SamePrefixes(u, v, a, b, i);
    }
  }

  lemma SamePrefixes(u: seq<nat>, v: seq<nat>, a: string, b: string, n: nat)
    requires |u| == |a| && forall i :: 0 <= i < |a| ==> u[i] == a[i] as int
    requires |v| == |b| && forall i :: 0 <= i < |b| ==> v[i] == b[i] as int
    requires n <= |a| && n <= |b|
    ensures u[..n] == v[..n] <==> a[..n] == b[..n]
  {
    if u[..n] == v[..n] {
      forall i | 0 <= i < n ensures a[i] == b[i] {
        assert u[..n][i] == u[i] && v[..n][i] == v[i];
      }
    }
    if a[..n] == b[..n] {
      forall i | 0 <= i < n ensures u[i] == v[i] {
        assert a[..n][i] == a[i] && b[..n][i] == b[i];
      }
    }
  }

  lemma CharUnitsInjective(c: char, d: char, x: seq<nat>, y: seq<nat>)
    requires CharUnits(c) + x == CharUnits(d) + y
    ensures c == d && x == y
  {
    var u, v := CharUnits(c), CharUnits(d);
    assert u[0] == (u + x)[0] == (v + y)[0] == v[0];
    assert |u| == |v|;
    assert x == (u + x)[|u|..] == (v + y)[|v|..] == y;
    if |u| == 2 {
      assert u[1] == (u + x)[1] == (v + y)[1] == v[1];
    }
    assert c as int == d as int;
  }

  lemma {:induction false} UnitsInjective(a: string, b: string)
    requires Units(a) == Units(b)
    ensures a == b
  {
    if a == "" || b == "" {
    } else {
      CharUnitsInjective(a[0], b[0], Units(a[1..]), Units(b[1..]));
      UnitsInjective(a[1..], b[1..]);
      assert a == [a[0]] + a[1..] && b == [b[0]] + b[1..];
    }
  }

  lemma {:induction false} UnitsLeqOrder(a: seq<nat>, b: seq<nat>, c: seq<nat>)
    ensures UnitsLeq(a, b) || UnitsLeq(b, a)
    ensures UnitsLeq(a, b) && UnitsLeq(b, a) ==> a == b
    ensures UnitsLeq(a, b) && UnitsLeq(b, c) ==> UnitsLeq(a, c)
  {
    if a != [] && b != [] {
      UnitsLeqOrder(a[1..], b[1..], if c == [] then [] else c[1..]);
      assert a == [a[0]] + a[1..] && b == [b[0]] + b[1..];
    }
  }

  /** `Leq` is a total order: total, antisymmetric and transitive. */
  lemma LeqOrder(a: string, b: string, c: string)
    ensures Leq(a, b) || Leq(b, a)
    ensures Leq(a, b) && Leq(b, a) ==> a == b
    ensures Leq(a, b) && Leq(b, c) ==> Leq(a, c)
  {
    UnitsLeqOrder(Units(a), Units(b), Units(c));
    if Leq(a, b) && Leq(b, a) {
      UnitsInjective(a, b);
    }
  }

  predicate StrictlySorted(s: seq<string>) {
    forall i, j :: 0 <= i < j < |s| ==> Less(s[i], s[j])
  }

  lemma {:induction false} LeastExists(keys: set<string>) returns (m: string)
    requires keys != {}
    ensures m in keys && forall k :: k in keys ==> Leq(m, k)
  {
    m :| m in keys;
    var rest := keys - {m};
    if rest == {} {
      forall k | k in keys ensures Leq(m, k) {
        assert k !in rest;
        LeqOrder(m, m, m);
      }
    } else {
      var n := LeastExists(rest);
      LeqOrder(m, n, n);
      if Leq(n, m) {
        forall k | k in keys ensures Leq(n, k) {
          if k != m { assert k in rest; }
        }
        m := n;
      } else {
        forall k | k in keys ensures Leq(m, k) {
          LeqOrder(m, n, k);
          LeqOrder(m, m, m);
          if k != m { assert k in rest; }
        }
      }
    }
  }

  /** The keys of an object in the order the printer visits them. */
  function SortedKeys(keys: set<string>): (r: seq<string>)
    ensures StrictlySorted(r)
    ensures forall k :: k in r <==> k in keys
    decreases |keys|
  {
    if keys == {} then []
    else
      var w := LeastKey(keys);
      var rest := SortedKeys(keys - {w});
      LeastFirst(keys, w, rest);
      [w] + rest
  }

  function LeastKey(keys: set<string>): (m: string)
    requires keys != {}
    ensures m in keys && forall k :: k in keys ==> Leq(m, k)
  {
    LeastUnique(keys);
    var m :| m in keys && forall k :: k in keys ==> Leq(m, k);
    m
  }

  lemma LeastUnique(keys: set<string>)
    requires keys != {}
    ensures exists m :: m in keys && forall k :: k in keys ==> Leq(m, k)
    ensures forall m, n :: m in keys && n in keys && Leq(m, n) && Leq(n, m) ==> m == n
  {
    var m := LeastExists(keys);
    forall m, n | m in keys && n in keys && Leq(m, n) && Leq(n, m) ensures m == n {
      LeqOrder(m, n, n);
    }
  }

  lemma LeastFirst(keys: set<string>, m: string, rest: seq<string>)
    requires m in keys && forall k :: k in keys ==> Leq(m, k)
    requires StrictlySorted(rest) && forall k :: k in rest <==> k in keys - {m}
    ensures StrictlySorted([m] + rest)
    ensures forall k :: k in [m] + rest <==> k in keys
  {
    var r := [m] + rest;
    forall i, j | 0 <= i < j < |r| ensures Less(r[i], r[j]) {
      assert r[j] == rest[j - 1];
      assert rest[j - 1] in rest;
      if i > 0 { assert r[i] == rest[i - 1]; }
    }
    assert forall k :: k in r <==> k == m || k in rest;
  }

  /** A set of keys has one sorted enumeration, so any correct sort finds the same one. */
  lemma {:induction false} SortedUnique(a: seq<string>, b: seq<string>)
    requires StrictlySorted(a) && StrictlySorted(b)
    requires forall k :: k in a <==> k in b
    ensures a == b
  {
    if a == [] || b == [] {
      SameElements(a, b);
      SameElements(b, a);
    } else {
      assert a[0] in a && a[0] in b && b != [] && b[0] in b && b[0] in a;
      var i :| 0 <= i < |b| && b[i] == a[0];
      var j :| 0 <= j < |a| && a[j] == b[0];
      if i > 0 && j > 0 {
        LeqOrder(a[0], b[0], a[0]);
        assert false;
      }
      assert a[0] == b[0];
      forall k ensures k in a[1..] <==> k in b[1..] {
        TailMember(a, k);
        TailMember(b, k);
      }
      SortedUnique(a[1..], b[1..]);
      assert a == [a[0]] + a[1..] && b == [b[0]] + b[1..];
    }
  }

  lemma SameElements(a: seq<string>, b: seq<string>)
    requires forall k :: k in a <==> k in b
    ensures a == [] ==> b == []
  {
    if b != [] {
      assert b[0] in b;
    }
  }

  lemma TailMember(s: seq<string>, k: string)
    requires s != [] && StrictlySorted(s)
    ensures k in s[1..] <==> k in s && k != s[0]
  {
    if k in s && k != s[0] {
      var i :| 0 <= i < |s| && s[i] == k;
      assert s[1..][i - 1] == k;
    }
    if k in s[1..] {
      var i :| 0 <= i < |s[1..]| && s[1..][i] == k;
      assert s[i + 1] == k && Less(s[0], s[i + 1]);
    }
  }

  // ---------- sorting by code units ----------

  /** The order of JavaScript's default sort. */
  function CodeUnitOrder(): (string, string) -> bool {
    (a: string, b: string) => Leq(a, b)
  }

  lemma CodeUnitsOrder()
    ensures TotalOrder(CodeUnitOrder())
  {
    forall a: string, b: string, c: string
      ensures Leq(a, b) || Leq(b, a)
      ensures Leq(a, b) && Leq(b, a) ==> a == b
      ensures Leq(a, b) && Leq(b, c) ==> Leq(a, c)
    {
      LeqOrder(a, b, c);
    }
    hide Leq;
    assert forall a, b :: CodeUnitOrder()(a, b) == Leq(a, b);
  }

  /** Sorting a list without repetitions enumerates its members in strictly increasing order. */
  lemma SortEnumerates(keys: seq<string>)
    requires Distinct(keys)
    ensures StrictlySorted(Sort(CodeUnitOrder(), keys))
    ensures forall k :: k in Sort(CodeUnitOrder(), keys) <==> k in keys
  {
    var sorted := Sort(CodeUnitOrder(), keys);
    CodeUnitsOrder();
    SortSorted(CodeUnitOrder(), keys);
    SameMembers(sorted, keys);
    DistinctPermutes(sorted, keys);
    hide Leq;
  }

  // ---------- trimming ----------

  /** The white space and line terminators that `trim` and `trimEnd` remove. */
  predicate IsSpace(c: char) {
    var n := c as int;
    || 9 <= n <= 13 || n == 0x20 || n == 0xA0 || n == 0x1680 || 0x2000 <= n <= 0x200A
    || n == 0x2028 || n == 0x2029 || n == 0x202F || n == 0x205F || n == 0x3000 || n == 0xFEFF
  }

  function TrimEnd(s: string): (r: string)
    ensures r <= s && (r != "" ==> !IsSpace(r[|r| - 1]))
  {
    if s != "" && IsSpace(s[|s| - 1]) then TrimEnd(s[..|s| - 1]) else s
  }

  function TrimStart(s: string): string {
    if s != "" && IsSpace(s[0]) then TrimStart(s[1..]) else s
  }

  function Trim(s: string): string {
    TrimStart(TrimEnd(s))
  }

  // ---------- lines ----------

  /** `s.split(sep)` for a separator of one character. */
  function Split(sep: char, s: string): (r: seq<string>)
    ensures r != []
  {
    if s == "" then [""]
    else
      var rest := Split(sep, s[1..]);
      if s[0] == sep then [""] + rest else [[s[0]] + rest[0]] + rest[1..]
  }

  function Join(sep: char, parts: seq<string>): string {
    if parts == [] then ""
    else if |parts| == 1 then parts[0]
    else parts[0] + [sep] + Join(sep, parts[1..])
  }

  lemma JoinFew(sep: char, a: string, b: string, c: string)
    ensures Join(sep, [a, b]) == a + [sep] + b
    ensures Join(sep, [a, b, c]) == a + [sep] + (b + [sep] + c)
  {
    assert [a, b][1..] == [b];
    assert [a, b, c][1..] == [b, c];
    assert [b, c][1..] == [c];
    assert Join(sep, [c]) == c;
    assert Join(sep, [b, c]) == b + [sep] + c;
    assert Join(sep, [a, b, c]) == a + [sep] + Join(sep, [b, c]);
  }

  lemma {:induction false} SplitFirst(sep: char, a: string, rest: string)
    requires sep !in a
    ensures Split(sep, a + [sep] + rest) == [a] + Split(sep, rest)
  {
    var s := a + [sep] + rest;
    if a == "" {
      assert s[1..] == rest;
    } else {
      assert s[1..] == a[1..] + [sep] + rest;
      assert forall c :: c in a[1..] ==> c in a;
      SplitFirst(sep, a[1..], rest);
      assert a == [a[0]] + a[1..];
    }
  }

  lemma {:induction false} SplitWhole(sep: char, a: string)
    requires sep !in a
    ensures Split(sep, a) == [a]
  {
    if a != "" {
      assert forall c :: c in a[1..] ==> c in a;
      SplitWhole(sep, a[1..]);
      assert a == [a[0]] + a[1..];
    }
  }

  /** Splitting undoes joining when no part holds the separator. */
  lemma {:induction false} SplitJoin(sep: char, parts: seq<string>)
    requires parts != [] && forall p :: p in parts ==> sep !in p
    ensures Split(sep, Join(sep, parts)) == parts
  {
    if |parts| == 1 {
      SplitWhole(sep, parts[0]);
    } else {
      assert forall p :: p in parts[1..] ==> p in parts;
      SplitJoin(sep, parts[1..]);
      SplitFirst(sep, parts[0], Join(sep, parts[1..]));
      assert parts == [parts[0]] + parts[1..];
    }
  }

  /** Joining undoes splitting, and no part holds the separator. */
  lemma {:induction false} JoinSplit(sep: char, s: string)
    ensures Join(sep, Split(sep, s)) == s && forall p :: p in Split(sep, s) ==> sep !in p
  {
    if s != "" {
      var rest := Split(sep, s[1..]);
      JoinSplit(sep, s[1..]);
      assert s == [s[0]] + s[1..] && rest == [rest[0]] + rest[1..];
      if s[0] == sep {
        JoinFront(sep, "", rest);
      } else {
        assert rest[0] in rest && forall p :: p in rest[1..] ==> p in rest;
        JoinMore(sep, s[0], rest);
      }
    }
  }

  lemma JoinFront(sep: char, first: string, rest: seq<string>)
    requires rest != []
    ensures Join(sep, [first] + rest) == first + [sep] + Join(sep, rest)
  {
    assert ([first] + rest)[1..] == rest;
  }

  /** One more character in the first part. */
  lemma JoinMore(sep: char, c: char, parts: seq<string>)
    requires parts != []
    ensures Join(sep, [[c] + parts[0]] + parts[1..]) == [c] + Join(sep, parts)
  {
    var more := [[c] + parts[0]] + parts[1..];
    assert more[1..] == parts[1..];
    if |parts| > 1 {
      assert [c] + parts[0] + [sep] + Join(sep, parts[1..]) == [c] + (parts[0] + [sep] + Join(sep, parts[1..]));
    }
  }

  /** Trimming takes white space from the ends and nothing else, and leaves none there. */
  lemma TrimMeans(s: string) returns (before: string, after: string)
    ensures s == before + Trim(s) + after && forall c :: c in before || c in after ==> IsSpace(c)
    ensures Trim(s) != "" ==> !IsSpace(Trim(s)[0]) && !IsSpace(Trim(s)[|Trim(s)| - 1])
  {
    hide IsSpace;
    var t := TrimEnd(s);
    TrimEndMeans(s);
    TrimStartMeans(t);
    hide TrimEnd;
    hide TrimStart;
    before, after := t[..|t| - |Trim(s)|], s[|t|..];
    assert t == before + Trim(s) && s == t + after;
  }

  lemma {:induction false} TrimEndMeans(s: string)
    ensures TrimEnd(s) <= s && forall i :: |TrimEnd(s)| <= i < |s| ==> IsSpace(s[i])
  {
    if s != "" && IsSpace(s[|s| - 1]) {
      TrimEndMeans(s[..|s| - 1]);
    }
  }

  lemma {:induction false} TrimStartMeans(s: string)
    ensures var n := |s| - |TrimStart(s)|;
            0 <= n && TrimStart(s) == s[n..] && (forall i :: 0 <= i < n ==> IsSpace(s[i]))
    ensures TrimStart(s) != "" ==> !IsSpace(TrimStart(s)[0])
  {
    if s != "" && IsSpace(s[0]) {
      TrimStartMeans(s[1..]);
      assert forall i :: 0 < i < |s| ==> s[i] == s[1..][i - 1];
    }
  }

  lemma {:induction false} JoinEnd(sep: char, parts: seq<string>)
    requires parts != [] && parts[|parts| - 1] != ""
    ensures Join(sep, parts) != ""
    ensures Join(sep, parts)[|Join(sep, parts)| - 1] == parts[|parts| - 1][|parts[|parts| - 1]| - 1]
  {
    if |parts| > 1 {
      JoinEnd(sep, parts[1..]);
    }
  }

  /** The line break behind the last line is all that trimming removes. */
  lemma TrimLines(lines: seq<string>)
    requires lines != [] && lines[|lines| - 1] != "" && !IsSpace(lines[|lines| - 1][|lines[|lines| - 1]| - 1])
    ensures TrimEnd(Join('\n', lines) + "\n") == Join('\n', lines)
  {
    JoinEnd('\n', lines);
    var text := Join('\n', lines);
    assert (text + "\n")[..|text|] == text;
    assert TrimEnd(text) == text;
  }
}
