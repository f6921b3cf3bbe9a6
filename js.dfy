/** The pieces of JavaScript value semantics that the modelled files rely on:
    absent values, truthiness of strings, `startsWith`, `a || b`, the
    conversion of an integer to its decimal text, and the browser's `File`. */
module Js {

  /** A value that may be `null`/`undefined` (None) or present. */
  datatype Option<+T> = None | Some(value: T)

  /** A browser `File` as the pages see it: its name, its MIME type and its size in bytes. */
  datatype File = File(name: string, mimeType: string, size: nat)

  /** `s.startsWith(prefix)` */
  predicate StartsWith(s: string, prefix: string)
  {
    |prefix| <= |s| && s[..|prefix|] == prefix
  }

  /** Truthiness of a string that may be absent: `null`, `undefined` and `""` are falsy. */
  predicate Truthy(v: Option<string>)
  {
    v.Some? && v.value != ""
  }

  /** `v || fallback` for a string that may be absent. */
  function Or(v: Option<string>, fallback: string): (r: string)
    ensures Truthy(v) ==> r == v.value
    ensures !Truthy(v) ==> r == fallback
  {
    if Truthy(v) then v.value else fallback
  }

  /** The characters '0'..'9'. */
  predicate IsDigit(c: char)
  {
    '0' <= c <= '9'
  }

  function DigitChar(d: nat): (c: char)
    requires d < 10
    ensures IsDigit(c) && DigitValue(c) == d
  {
    ('0' as int + d) as char
  }

  function DigitValue(c: char): nat
    requires IsDigit(c)
  {
    (c as int - '0' as int) as nat
  }

  /** `String(n)` for a natural number: its shortest decimal text. */
  function NatText(n: nat): (s: string)
    decreases n
  {
    if n < 10 then [DigitChar(n)] else NatText(n / 10) + [DigitChar(n % 10)]
  }

  /** `String(n)` for an integer: a minus sign in front of negative numbers. */
  function IntText(n: int): string
  {
    if n < 0 then "-" + NatText(-n) else NatText(n)
  }

  /** Reads a string of decimal digits back as a number. */
  function ParseNat(s: string): nat
    requires forall i :: 0 <= i < |s| ==> IsDigit(s[i])
  {
    if s == [] then 0 else ParseNat(s[..|s| - 1]) * 10 + DigitValue(s[|s| - 1])
  }

  /** Reads the text produced by IntText back as a number: an optional minus
      sign followed by digits; None for anything else. */
  function ParseInt(s: string): (r: Option<int>)
  {
    if |s| > 1 && s[0] == '-' && (forall i :: 1 <= i < |s| ==> IsDigit(s[i])) then
      Some(0 - ParseNat(s[1..]) as int)
    else if |s| > 0 && (forall i :: 0 <= i < |s| ==> IsDigit(s[i])) then
      Some(ParseNat(s))
    else
      None
  }

  /** A natural number written the way `String(n)` writes it: digits, and no
      leading zero unless the number is 0 itself. */
  predicate CanonicalNat(s: string)
  {
    |s| > 0 && (forall i :: 0 <= i < |s| ==> IsDigit(s[i])) && (|s| > 1 ==> s[0] != '0')
  }

  /** An integer written the way `String(n)` writes it: a canonical natural
      number, or a minus sign before a canonical natural number other than 0. */
  predicate CanonicalInt(s: string)
  {
    CanonicalNat(s) || (|s| > 1 && s[0] == '-' && CanonicalNat(s[1..]) && s[1..] != "0")
  }

  /** NatText produces digits only, without a superfluous leading zero. */
  lemma {:induction false} NatTextWellFormed(n: nat)
    ensures |NatText(n)| > 0
    ensures forall i :: 0 <= i < |NatText(n)| ==> IsDigit(NatText(n)[i])
    ensures |NatText(n)| > 1 ==> NatText(n)[0] != '0'
    decreases n
  {
    if n >= 10 {
      NatTextWellFormed(n / 10);
      var s := NatText(n / 10) + [DigitChar(n % 10)];
      assert NatText(n) == s;
      assert forall i :: 0 <= i < |s| ==> IsDigit(s[i]) by {
        forall i | 0 <= i < |s| ensures IsDigit(s[i]) {
          if i < |s| - 1 { assert s[i] == NatText(n / 10)[i]; }
        }
      }
      assert s[0] == NatText(n / 10)[0];
      if n / 10 < 10 {
        assert NatText(n / 10) == [DigitChar(n / 10)];
        assert DigitChar(n / 10) != '0' by { assert n / 10 != 0; }
      }
    }
  }

  /** Reading NatText back gives the number it was made from. */
  lemma {:induction false} NatTextRoundTrip(n: nat)
    ensures forall i :: 0 <= i < |NatText(n)| ==> IsDigit(NatText(n)[i])
    ensures ParseNat(NatText(n)) == n
    decreases n
  {
    NatTextWellFormed(n);
    var s := NatText(n);
    if n < 10 {
      assert s[..|s| - 1] == [];
      assert DigitValue(DigitChar(n)) == n;
    } else {
      NatTextRoundTrip(n / 10);
      assert s[..|s| - 1] == NatText(n / 10);
      assert s[|s| - 1] == DigitChar(n % 10);
      assert DigitValue(DigitChar(n % 10)) == n % 10;
    }
  }

  /** Reading IntText back gives the number it was made from, for every integer. */
  lemma IntTextRoundTrip(n: int)
    ensures ParseInt(IntText(n)) == Some(n)
  {
    if n < 0 {
      NatTextRoundTrip(-n);
      NatTextWellFormed(-n);
      var s := IntText(n);
      assert s[1..] == NatText(-n);
      assert forall i :: 1 <= i < |s| ==> IsDigit(s[i]) by {
        forall i | 1 <= i < |s| ensures IsDigit(s[i]) {
          assert s[i] == NatText(-n)[i - 1];
        }
      }
    } else {
      NatTextRoundTrip(n);
      NatTextWellFormed(n);
      if |NatText(n)| > 1 {
        assert NatText(n)[0] != '-';
      }
    }
  }

  /** IntText writes every integer canonically: no leading zero and no "-0". */
  lemma IntTextCanonical(n: int)
    ensures CanonicalInt(IntText(n))
  {
    var m := if n < 0 then -n else n;
    NatTextWellFormed(m);
    if n < 0 {
      var s := IntText(n);
      assert s[1..] == NatText(m);
      NatTextRoundTrip(m);
    }
  }

  /** A nonempty digit string without a leading zero, other than "0", denotes a positive number. */
  lemma {:induction false} ParseNatPositive(s: string)
    requires CanonicalNat(s) && s != "0"
    ensures ParseNat(s) > 0
    decreases |s|
  {
    if |s| > 1 {
      var p := s[..|s| - 1];
      assert p[0] == s[0];
      assert p != "0";
      ParseNatPositive(p);
    } else {
      assert s == [s[0]];
    }
  }

  /** Printing a parsed canonical natural number gives back the text. */
  lemma {:induction false} NatTextOfParse(s: string)
    requires CanonicalNat(s)
    ensures NatText(ParseNat(s)) == s
    decreases |s|
  {
    var n := ParseNat(s);
    var p := s[..|s| - 1];
    var c := s[|s| - 1];
    if |s| == 1 {
      assert p == [];
      assert DigitChar(DigitValue(c)) == c;
      assert s == [c];
    } else {
      assert p[0] == s[0];
      assert p != "0";
      ParseNatPositive(p);
      NatTextOfParse(p);
      assert n / 10 == ParseNat(p) && n % 10 == DigitValue(c);
      assert DigitChar(DigitValue(c)) == c;
      assert s == p + [c];
    }
  }

  /** The converse of IntTextRoundTrip: a canonical integer text is parsed,
      and printing the number gives the text back. With IntTextRoundTrip this
      makes IntText a bijection between the integers and the canonical texts,
      so a canonical text that parses to n is IntText(n). */
  lemma CanonicalIntRoundTrip(s: string)
    requires CanonicalInt(s)
    ensures ParseInt(s).Some? && IntText(ParseInt(s).value) == s
  {
    if CanonicalNat(s) {
      assert !IsDigit('-');
      NatTextOfParse(s);
    } else {
      var m := s[1..];
      ParseNatPositive(m);
      NatTextOfParse(m);
      assert forall i :: 1 <= i < |s| ==> IsDigit(s[i]) by {
        forall i | 1 <= i < |s| ensures IsDigit(s[i]) { assert s[i] == m[i - 1]; }
      }
      assert s == "-" + m;
    }
  }

  /** The canonical text of an integer is unique. */
  lemma CanonicalIntUnique(s: string, n: int)
    requires CanonicalInt(s) && ParseInt(s) == Some(n)
    ensures s == IntText(n)
  {
    CanonicalIntRoundTrip(s);
  }
}
