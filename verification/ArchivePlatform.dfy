/** The laws asked of the platform do not contradict each other: some platform meets them all. */
module ArchivePlatform {
  import opened Base
  import opened Text
  import opened Json
  import opened ArchiveFormat

  /** A number as that many ones and a zero. */
  function Unary(n: nat): Bytes {
    if n == 0 then [0] else [1] + Unary(n - 1)
  }

  function Encoded(s: string): Bytes {
    if s == "" then [] else Unary(s[0] as int) + Encoded(s[1..])
  }

  lemma {:induction false} UnaryPrefixFree(n: nat, m: nat, x: Bytes, y: Bytes)
    requires Unary(n) + x == Unary(m) + y
    ensures n == m && x == y
  {
    var a, b := Unary(n) + x, Unary(m) + y;
    assert a[0] == (if n == 0 then 0 else 1) && b[0] == (if m == 0 then 0 else 1);
    assert a[1..] == (if n == 0 then x else Unary(n - 1) + x);
    assert b[1..] == (if m == 0 then y else Unary(m - 1) + y);
    if n > 0 {
      UnaryPrefixFree(n - 1, m - 1, x, y);
    }
  }

  lemma UnaryStart(n: nat, x: Bytes)
    ensures Unary(n) + x != []
  {
  }

  lemma {:induction false} EncodedInjective(s: string, t: string)
    requires Encoded(s) == Encoded(t)
    ensures s == t
  {
    if s == "" {
      if t != "" {
        UnaryStart(t[0] as int, Encoded(t[1..]));
      }
    } else if t == "" {
      UnaryStart(s[0] as int, Encoded(s[1..]));
    } else {
      UnaryPrefixFree(s[0] as int, t[0] as int, Encoded(s[1..]), Encoded(t[1..]));
      EncodedInjective(s[1..], t[1..]);
      assert s == [s[0]] + s[1..] && t == [t[0]] + t[1..];
    }
  }

  /** The text of a value, with or without a line break behind it. */
  predicate Prints(v: Json, text: string) { text == Canonical(v) || text == Canonical(v) + "\n" }

  lemma PrintsOnce(v: Json, w: Json, text: string)
    requires Prints(v, text) && Prints(w, text)
    ensures v == w
  {
    CanonicalPrintable(v);
    CanonicalPrintable(w);
    CanonicalInjective(v, w);
    hide Canonical;
    NoBreak(Canonical(v), Canonical(w));
    NoBreak(Canonical(w), Canonical(v));
    assert (Canonical(v) + "\n")[..|Canonical(v)|] == Canonical(v);
    assert (Canonical(w) + "\n")[..|Canonical(w)|] == Canonical(w);
  }

  lemma NoBreak(a: string, b: string)
    requires Printable(a)
    ensures a != b + "\n"
  {
    assert (b + "\n")[|b|] == '\n' && '\n' < ' ';
  }

  ghost function Decode(b: Bytes): Option<string> {
    if exists s :: Encoded(s) == b then (var s :| Encoded(s) == b; Some(s)) else None
  }

  ghost function Parse(text: string): Option<Json> {
    if exists v :: Prints(v, text) then (var v :| Prints(v, text); Some(v)) else None
  }

  function AsText(b: Bytes): string { seq(|b|, i requires 0 <= i < |b| => b[i] as char) }

  ghost function FromText(text: string): Option<Bytes> {
    if exists b :: AsText(b) == text then (var b :| AsText(b) == text; Some(b)) else None
  }

  lemma TextInjective(a: Bytes, b: Bytes)
    requires AsText(a) == AsText(b)
    ensures a == b
  {
    assert |a| == |b|;
    forall i | 0 <= i < |a| ensures a[i] == b[i] {
      assert AsText(a)[i] == AsText(b)[i];
      assert a[i] as char == b[i] as char;
    }
  }

  lemma LawsHold() returns (p: Platform)
    ensures Lawful(p)
  {
    var zeros := seq(64, _ => '0');
    p := Platform((b: Bytes) => zeros, (s: string) => Encoded(s), (b: Bytes) => Decode(b), (t: string) => Parse(t),
                  CodeUnitOrder(),
                  (b: Bytes) => AsText(b), (t: string) => FromText(t));
    CodeUnitsOrder();
    forall s ensures Decode(Encoded(s)) == Some(s) {
      EncodedInjective(s, Decode(Encoded(s)).value);
    }
    forall v ensures Parse(Canonical(v)) == Some(v) && Parse(Canonical(v) + "\n") == Some(v) {
      assert Prints(v, Canonical(v)) && Prints(v, Canonical(v) + "\n");
      PrintsOnce(v, Parse(Canonical(v)).value, Canonical(v));
      PrintsOnce(v, Parse(Canonical(v) + "\n").value, Canonical(v) + "\n");
    }
    forall b ensures FromText(AsText(b)) == Some(b) {
      TextInjective(b, FromText(AsText(b)).value);
    }
  }
}
