/** The two pieces of string handling the middleware relies on: Integer#to_s for
    Content-length headers and Array#join for the validation message. Each comes
    with an independent decoder and a proof that decoding undoes encoding. */
module Text {

  predicate IsDigit(c: char) {
    '0' <= c <= '9'
  }

  function DigitValue(c: char): nat {
    if IsDigit(c) then c as int - '0' as int else 0
  }

  function DigitChar(d: nat): (c: char)
    requires d < 10
    ensures IsDigit(c) && DigitValue(c) == d
  {
    ('0' as int + d) as char
  }

  /** The number a string of decimal digits denotes, most significant digit first. */
  function DecimalValue(s: string): nat {
    if |s| == 0 then 0 else 10 * DecimalValue(s[..|s| - 1]) + DigitValue(s[|s| - 1])
  }

  /** A decimal numeral as Integer#to_s prints it: digits only, no leading zero. */
  predicate IsCanonicalDecimal(s: string) {
    && 0 < |s|
    && (forall i :: 0 <= i < |s| ==> IsDigit(s[i]))
    && (s[0] == '0' ==> |s| == 1)
  }

  /** Integer#to_s on a non-negative integer. */
  function Decimal(n: nat): (s: string)
    ensures IsCanonicalDecimal(s)
    ensures DecimalValue(s) == n
    ensures s == "0" <==> n == 0
  {
    if n < 10 then [DigitChar(n)]
    else
      var prefix := Decimal(n / 10);
      var s := prefix + [DigitChar(n % 10)];
      assert s[..|s| - 1] == prefix;
      s
  }

  /** Every canonical numeral is the one Decimal prints for its value, so Decimal
      is a bijection between naturals and canonical numerals. */
  lemma {:induction false} DecimalOfValue(s: string)
    requires IsCanonicalDecimal(s)
    ensures Decimal(DecimalValue(s)) == s
  {
    var t := s[..|s| - 1];
    var c := s[|s| - 1];
    assert s == t + [c];
    if |t| == 0 {
      assert DigitChar(DigitValue(c)) == c;
    } else {
      assert IsCanonicalDecimal(t) by {
        assert forall i :: 0 <= i < |t| ==> t[i] == s[i];
      }
      DecimalOfValue(t);
      var v := DecimalValue(t);
      assert 0 < v;
      var n := DecimalValue(s);
      assert n == 10 * v + DigitValue(c);
      assert n / 10 == v && n % 10 == DigitValue(c);
      assert DigitChar(DigitValue(c)) == c;
    }
  }

  /** Array#join: the parts with sep between each neighbouring pair. */
  function Join(parts: seq<string>, sep: string): string {
    if |parts| == 0 then ""
    else if |parts| == 1 then parts[0]
    else parts[0] + sep + Join(parts[1..], sep)
  }

  /** sep occurs in s starting at index k. */
  predicate MatchAt(s: string, sep: string, k: nat) {
    k + |sep| <= |s| && s[k..k + |sep|] == sep
  }

  /** Index of the first occurrence of sep in s at or after i, or |s| when there is none. */
  function Find(s: string, sep: string, i: nat): (j: nat)
    requires 0 < |sep| && i <= |s|
    ensures i <= j <= |s|
    ensures j < |s| ==> MatchAt(s, sep, j)
    ensures forall k :: i <= k < j ==> !MatchAt(s, sep, k)
    decreases |s| - i
  {
    if i + |sep| > |s| then |s|
    else if MatchAt(s, sep, i) then i
    else Find(s, sep, i + 1)
  }

  /** Cuts s at every occurrence of sep, scanning left to right; the decoder for Join. */
  function Split(s: string, sep: string): (parts: seq<string>)
    requires 0 < |sep|
    ensures 0 < |parts|
    decreases |s|
  {
    var j := Find(s, sep, 0);
    if j == |s| then [s] else [s[..j]] + Split(s[j + |sep|..], sep)
  }

  /** Joining parts that do not contain the separator's first character and
      splitting the result again gives back exactly those parts, in order. */
  lemma {:induction false} SplitJoin(parts: seq<string>, sep: string)
    requires 0 < |sep| && 0 < |parts|
    requires forall p :: p in parts ==> sep[0] !in p
    ensures Split(Join(parts, sep), sep) == parts
  {
    var s := Join(parts, sep);
    var head := parts[0];
    assert sep[0] !in head;
    if |parts| == 1 {
      assert s == head;
      assert Find(s, sep, 0) == |s|;
    } else {
      var rest := Join(parts[1..], sep);
      var m := |head|;
      assert s == head + sep + rest;
      assert MatchAt(s, sep, m);
      assert Find(s, sep, 0) == m;
      assert s[..m] == head;
      assert s[m + |sep|..] == rest;
      assert forall p :: p in parts[1..] ==> p in parts;
      SplitJoin(parts[1..], sep);
      assert parts == [head] + parts[1..];
    }
  }
}
