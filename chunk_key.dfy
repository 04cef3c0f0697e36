/** The string keys of the `chunks` map (anim.js:243, anim.js:256).

    A chunk coordinate (cx, cz) is written into the key with the template
    `${cx},${cz}`, and a key is read back with `key.split(",").map(Number)`,
    of which the first two numbers are taken. This module models both
    directions on `string` = `seq<char>` and proves that they are inverse,
    negative coordinates included. */
module ChunkKey {

  datatype Option<T> = None | Some(value: T)

  predicate IsDigit(ch: char) { '0' <= ch <= '9' }

  predicate AllDigits(s: string) { forall i | 0 <= i < |s| :: IsDigit(s[i]) }

  function DigitChar(d: nat): (ch: char)
    requires d < 10
    ensures IsDigit(ch) && ch as int - '0' as int == d
  {
    ('0' as int + d) as char
  }

  function DigitValue(ch: char): (d: nat)
    requires IsDigit(ch)
    ensures d < 10
  {
    ch as int - '0' as int
  }

  /** The decimal digits of a non-negative integer, most significant first,
      with no leading zero: how JavaScript prints an integer-valued Number of
      magnitude at most 2^53. */
  function NatToDecimal(n: nat): (s: string)
    ensures 1 <= |s| && AllDigits(s)
    ensures s[0] == '0' ==> n == 0
  {
    if n < 10 then [DigitChar(n)] else NatToDecimal(n / 10) + [DigitChar(n % 10)]
  }

  /** An integer as a template string prints it (for magnitudes at most 2^53). */
  function IntToDecimal(n: int): (s: string)
    ensures 1 <= |s| && ',' !in s
    ensures s[0] == '-' <==> n < 0
  {
    if n < 0 then "-" + NatToDecimal(-n) else NatToDecimal(n)
  }

  /** The value of a string of decimal digits (the empty string is 0). */
  function DigitsValue(s: string): nat
    requires AllDigits(s)
  {
    if s == [] then 0 else DigitsValue(s[..|s| - 1]) * 10 + DigitValue(s[|s| - 1])
  }

  /** `Number(field)` on the fields a key splits into: the empty string is 0,
      an optional sign followed by decimal digits is that integer, and None
      stands for NaN. */
  function ToNumber(s: string): Option<int>
  {
    if s == [] then Some(0)
    else if (s[0] == '-' || s[0] == '+') && 1 < |s| && AllDigits(s[1..]) then
      var magnitude: int := DigitsValue(s[1..]);
      Some(if s[0] == '-' then -magnitude else magnitude)
    else if AllDigits(s) then Some(DigitsValue(s))
    else None
  }

  /** `s.split(",")`: the maximal comma-free pieces of s, in order. */
  function Split(s: string): (fields: seq<string>)
    ensures 1 <= |fields|
    ensures forall i | 0 <= i < |fields| :: ',' !in fields[i]
  {
    if s == [] then [[]]
    else
      var rest := Split(s[1..]);
      if s[0] == ',' then [[]] + rest
      else [[s[0]] + rest[0]] + rest[1..]
  }

  /** `fields.join(",")`, the inverse of Split. */
  function Join(fields: seq<string>): string
    requires 1 <= |fields|
  {
    if |fields| == 1 then fields[0] else fields[0] + "," + Join(fields[1..])
  }

  /** The key of chunk (cx, cz): the template `${cx},${cz}` (anim.js:243). */
  function KeyOf(cx: int, cz: int): string
  {
    IntToDecimal(cx) + "," + IntToDecimal(cz)
  }

  /** `const [chunkX, chunkZ] = key.split(",").map(Number)` (anim.js:256):
      None when either number is NaN, including when there is no second field. */
  function ParseKey(key: string): Option<(int, int)>
  {
    var fields := Split(key);
    if |fields| < 2 then None
    else
      match (ToNumber(fields[0]), ToNumber(fields[1]))
      case (Some(x), Some(z)) => Some((x, z))
      case _ => None
  }

  /** The keys of a set of chunk coordinates. */
  function KeysOf(cells: set<(int, int)>): set<string>
  {
    set p | p in cells :: KeyOf(p.0, p.1)
  }

  lemma {:induction false} DecimalRoundTrip(n: nat)
    ensures DigitsValue(NatToDecimal(n)) == n
  {
    if n >= 10 {
      var s := NatToDecimal(n);
      assert s[..|s| - 1] == NatToDecimal(n / 10);
      DecimalRoundTrip(n / 10);
    } else {
      assert NatToDecimal(n)[..0] == [];
    }
  }

  /** Number(`${n}`) == n for every integer n, negatives included. */
  lemma NumberOfDecimal(n: int)
    ensures ToNumber(IntToDecimal(n)) == Some(n)
  {
    var s := IntToDecimal(n);
    if n < 0 {
      assert s[1..] == NatToDecimal(-n);
      DecimalRoundTrip(-n);
    } else {
      assert IsDigit(s[0]);
      DecimalRoundTrip(n);
    }
  }

  lemma {:induction false} SplitCommaFree(a: string)
    requires ',' !in a
    ensures Split(a) == [a]
  {
    if a != [] {
      assert a[0] in a && forall ch | ch in a[1..] :: ch in a;
      SplitCommaFree(a[1..]);
      assert [a[0]] + a[1..] == a;
    }
  }

  lemma {:induction false} SplitAtFirstComma(a: string, b: string)
    requires ',' !in a
    ensures Split(a + "," + b) == [a] + Split(b)
  {
    if a == [] {
      assert a + "," + b == "," + b;
      assert ("," + b)[1..] == b;
    } else {
      assert (a + "," + b)[1..] == a[1..] + "," + b;
      assert a[0] in a && forall ch | ch in a[1..] :: ch in a;
      SplitAtFirstComma(a[1..], b);
      assert [a[0]] + a[1..] == a;
    }
  }

  /** Splitting undoes joining comma-free fields. */
  lemma {:induction false} SplitJoin(fields: seq<string>)
    requires 1 <= |fields|
    requires forall i | 0 <= i < |fields| :: ',' !in fields[i]
    ensures Split(Join(fields)) == fields
  {
    if |fields| == 1 {
      SplitCommaFree(fields[0]);
    } else {
      SplitJoin(fields[1..]);
      SplitAtFirstComma(fields[0], Join(fields[1..]));
    }
  }

  /** Joining undoes splitting. */
  lemma {:induction false} JoinSplit(s: string)
    ensures Join(Split(s)) == s
  {
    if s != [] {
      var rest := Split(s[1..]);
      JoinSplit(s[1..]);
      if s[0] != ',' && |rest| > 1 {
        assert Join(Split(s)) == [s[0]] + rest[0] + "," + Join(rest[1..]);
      }
    }
  }

  /** Decoding a key built from (cx, cz) yields (cx, cz), negatives included. */
  lemma KeyRoundTrip(cx: int, cz: int)
    ensures ParseKey(KeyOf(cx, cz)) == Some((cx, cz))
  {
    SplitAtFirstComma(IntToDecimal(cx), IntToDecimal(cz));
    SplitCommaFree(IntToDecimal(cz));
    NumberOfDecimal(cx);
    NumberOfDecimal(cz);
  }

  /** Distinct coordinates get distinct keys. */
  lemma KeyOfInjective(cx: int, cz: int, cx': int, cz': int)
    ensures KeyOf(cx, cz) == KeyOf(cx', cz') <==> cx == cx' && cz == cz'
  {
    KeyRoundTrip(cx, cz);
    KeyRoundTrip(cx', cz');
  }

  /** A set of coordinates has as many keys as it has elements. */
  lemma {:induction false} KeysOfCard(cells: set<(int, int)>)
    ensures |KeysOf(cells)| == |cells|
  {
    if cells != {} {
      var p :| p in cells;
      var rest := cells - {p};
      KeysOfCard(rest);
      assert KeysOf(cells) == KeysOf(rest) + {KeyOf(p.0, p.1)};
      if KeyOf(p.0, p.1) in KeysOf(rest) {
        var q :| q in rest && KeyOf(q.0, q.1) == KeyOf(p.0, p.1);
        KeyOfInjective(q.0, q.1, p.0, p.1);
        assert false;
      }
    }
  }

  /** Every key pair that two coordinates share forces the coordinates equal. */
  lemma KeysDistinct()
    ensures forall x, z, x', z' | KeyOf(x, z) == KeyOf(x', z') :: x == x' && z == z'
  {
    forall x, z, x', z' | KeyOf(x, z) == KeyOf(x', z')
      ensures x == x' && z == z'
    {
      KeyOfInjective(x, z, x', z');
    }
  }

  /** The string-keyed map that holds the entries of m under the keys of
      their coordinates: the shape of `chunks` in anim.js. */
  function Encoded<V>(m: map<(int, int), V>): map<string, V>
  {
    KeysDistinct();
    map c | c in m :: KeyOf(c.0, c.1) := m[c]
  }

  /** The key of c holds the entry of c. */
  lemma EncodedAt<V>(m: map<(int, int), V>, c: (int, int))
    requires c in m
    ensures KeyOf(c.0, c.1) in Encoded(m) && Encoded(m)[KeyOf(c.0, c.1)] == m[c]
  {
    var e := Encoded(m);
    var k := KeyOf(c.0, c.1);
    assert k in e;
    var c' :| c' in m && KeyOf(c'.0, c'.1) == k && e[k] == m[c'];
    KeyOfInjective(c.0, c.1, c'.0, c'.1);
  }

  /** Every key decodes back to the coordinate whose entry it holds. */
  lemma EncodedKey<V>(m: map<(int, int), V>, k: string)
    requires k in Encoded(m)
    ensures ParseKey(k).Some? && ParseKey(k).value in m && Encoded(m)[k] == m[ParseKey(k).value]
  {
    var c :| c in m && KeyOf(c.0, c.1) == k;
    KeyRoundTrip(c.0, c.1);
    EncodedAt(m, c);
  }

  /** Keying by coordinate loses nothing: the string-keyed map has one key
      per coordinate. */
  lemma EncodedCard<V>(m: map<(int, int), V>)
    ensures |Encoded(m)| == |m|
  {
    assert Encoded(m).Keys == KeysOf(m.Keys);
    KeysOfCard(m.Keys);
  }
}
