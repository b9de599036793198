/** Strings and small helpers shared by the backend and frontend models.
  * Python and JavaScript strings are modelled as `string` (a sequence of Unicode scalar values). */
module Text {

  datatype Option<+T> = None | Some(value: T)

  datatype Result<+T, +E> = Ok(value: T) | Err(error: E)

  // ---------------------------------------------------------------------------
  // Substrings

  /** `pat` occurs in `s` at offset `i`. */
  predicate OccursAt(s: string, pat: string, i: nat)
  {
    i + |pat| <= |s| && s[i..i + |pat|] == pat
  }

  /** Python's `pat in s`, JavaScript's `s.includes(pat)`: a left-to-right scan for `pat`. */
  predicate Contains(s: string, pat: string)
    decreases |s|
  {
    pat <= s || (|s| > 0 && Contains(s[1..], pat))
  }

  lemma OccursShift(s: string, pat: string, i: nat)
    requires |s| > 0
    ensures OccursAt(s[1..], pat, i) <==> OccursAt(s, pat, i + 1)
  {
    if i + 1 + |pat| <= |s| {
      assert s[1..][i..i + |pat|] == s[i + 1..i + 1 + |pat|];
    }
  }

  lemma {:induction false} ContainsIffOccurs(s: string, pat: string)
    ensures Contains(s, pat) <==> exists i: nat :: OccursAt(s, pat, i)
    decreases |s|
  {
    if pat <= s {
      assert OccursAt(s, pat, 0);
    } else if |s| == 0 {
      forall i: nat | OccursAt(s, pat, i) ensures false { }
    } else {
      ContainsIffOccurs(s[1..], pat);
      if Contains(s[1..], pat) {
        var i: nat :| OccursAt(s[1..], pat, i);
        OccursShift(s, pat, i);
      } else {
        forall i: nat | OccursAt(s, pat, i) ensures false {
          if i > 0 {
            OccursShift(s, pat, i - 1);
          }
        }
      }
    }
  }

  // ---------------------------------------------------------------------------
  // Case mapping and whitespace (restricted to ASCII letters)

  function LowerChar(c: char): char
  {
    if 'A' <= c <= 'Z' then (c as int + 32) as char else c
  }

  /** `str.lower()` / `String.prototype.toLowerCase()` on ASCII letters; other characters are kept. */
  function Lower(s: string): (r: string)
    ensures |r| == |s|
    ensures forall i :: 0 <= i < |s| ==> r[i] == LowerChar(s[i])
  {
    seq(|s|, i requires 0 <= i < |s| => LowerChar(s[i]))
  }

  lemma LowerSlice(s: string, i: nat, j: nat)
    requires i <= j <= |s|
    ensures Lower(s)[i..j] == Lower(s[i..j])
  {
    var t := s[i..j];
    forall k | 0 <= k < |t| ensures Lower(t)[k] == Lower(s)[i + k] {
      assert t[k] == s[i + k];
    }
  }

  /** `Contains` survives lower-casing both sides. */
  lemma ContainsLower(s: string, pat: string)
    requires Contains(s, pat)
    ensures Contains(Lower(s), Lower(pat))
  {
    ContainsIffOccurs(s, pat);
    var i: nat :| OccursAt(s, pat, i);
    LowerSlice(s, i, i + |pat|);
    assert OccursAt(Lower(s), Lower(pat), i);
    ContainsIffOccurs(Lower(s), Lower(pat));
  }

  /** The characters Python's `str.isspace()` accepts. */
  predicate IsSpace(c: char)
  {
    ('\t' <= c <= '\r') || ('\U{1c}' <= c <= ' ') || c == '\U{85}' || c == '\U{a0}'
    || c == '\U{1680}' || ('\U{2000}' <= c <= '\U{200a}') || c == '\U{2028}' || c == '\U{2029}'
    || c == '\U{202f}' || c == '\U{205f}' || c == '\U{3000}'
  }

  function StripLeft(s: string): (r: string)
    ensures |r| <= |s| && r == s[|s| - |r|..]
    ensures forall j :: 0 <= j < |s| - |r| ==> IsSpace(s[j])
    ensures r != [] ==> !IsSpace(r[0])
  {
    if s != [] && IsSpace(s[0]) then StripLeft(s[1..]) else s
  }

  function StripRight(s: string): (r: string)
    ensures |r| <= |s| && r == s[..|r|]
    ensures forall j :: |r| <= j < |s| ==> IsSpace(s[j])
    ensures r != [] ==> !IsSpace(r[|r| - 1])
  {
    if s != [] && IsSpace(s[|s| - 1]) then StripRight(s[..|s| - 1]) else s
  }

  /** Python's `str.strip()` with no argument. */
  function Strip(s: string): string
  {
    StripRight(StripLeft(s))
  }

  lemma OccursStripLeft(s: string, pat: string, i: nat)
    requires OccursAt(s, pat, i) && pat != [] && !IsSpace(pat[0])
    ensures |s| - |StripLeft(s)| <= i && OccursAt(StripLeft(s), pat, i - (|s| - |StripLeft(s)|))
  {
    var l := StripLeft(s);
    var k := |s| - |l|;
    assert s[i] == pat[0];
    assert l[i - k..i - k + |pat|] == s[i..i + |pat|];
  }

  lemma OccursStripRight(s: string, pat: string, i: nat)
    requires OccursAt(s, pat, i) && pat != [] && !IsSpace(pat[|pat| - 1])
    ensures OccursAt(StripRight(s), pat, i)
  {
    var r := StripRight(s);
    assert s[i + |pat| - 1] == pat[|pat| - 1];
    assert r[i..i + |pat|] == s[i..i + |pat|];
  }

  lemma OccursStrip(s: string, pat: string, i: nat) returns (j: nat)
    requires OccursAt(s, pat, i)
    requires pat != [] && !IsSpace(pat[0]) && !IsSpace(pat[|pat| - 1])
    ensures OccursAt(Strip(s), pat, j)
  {
    OccursStripLeft(s, pat, i);
    j := i - (|s| - |StripLeft(s)|);
    OccursStripRight(StripLeft(s), pat, j);
  }

  /** Stripping cannot remove an occurrence of a pattern that begins and ends with non-whitespace. */
  lemma ContainsStrip(s: string, pat: string)
    requires Contains(s, pat)
    requires pat != [] && !IsSpace(pat[0]) && !IsSpace(pat[|pat| - 1])
    ensures Contains(Strip(s), pat)
  {
    ContainsIffOccurs(s, pat);
    var i: nat :| OccursAt(s, pat, i);
    var j := OccursStrip(s, pat, i);
    ContainsIffOccurs(Strip(s), pat);
  }

  // ---------------------------------------------------------------------------
  // Code-point lexicographic order (Python `str` comparison)

  predicate Less(a: string, b: string)
    decreases |a|
  {
    if a == [] then b != []
    else if b == [] then false
    else if a[0] != b[0] then a[0] < b[0]
    else Less(a[1..], b[1..])
  }

  lemma {:induction false} LessIrreflexive(a: string)
    ensures !Less(a, a)
    decreases |a|
  {
    if a != [] { LessIrreflexive(a[1..]); }
  }

  lemma {:induction false} LessAsymmetric(a: string, b: string)
    ensures !(Less(a, b) && Less(b, a))
    decreases |a|
  {
    if a != [] && b != [] && a[0] == b[0] { LessAsymmetric(a[1..], b[1..]); }
  }

  lemma {:induction false} LessTransitive(a: string, b: string, c: string)
    requires Less(a, b) && Less(b, c)
    ensures Less(a, c)
    decreases |a|
  {
    if a != [] && a[0] == b[0] && b[0] == c[0] { LessTransitive(a[1..], b[1..], c[1..]); }
  }

  lemma {:induction false} LessTotal(a: string, b: string)
    requires a != b
    ensures Less(a, b) || Less(b, a)
    decreases |a|
  {
    if a != [] && b != [] && a[0] == b[0] {
      assert a == [a[0]] + a[1..] && b == [b[0]] + b[1..];
      LessTotal(a[1..], b[1..]);
    }
  }

  predicate StrictlySorted(s: seq<string>)
  {
    forall i, j :: 0 <= i < j < |s| ==> Less(s[i], s[j])
  }

  predicate IsLeast(m: string, s: set<string>)
  {
    m in s && forall x :: x in s && x != m ==> Less(m, x)
  }

  lemma {:induction false} LeastExists(s: set<string>)
    requires s != {}
    ensures exists m :: IsLeast(m, s)
    decreases |s|
  {
    var x :| x in s;
    if s != {x} {
      var rest := s - {x};
      LeastExists(rest);
      var m :| IsLeast(m, rest);
      if Less(x, m) {
        forall y | y in s && y != x ensures Less(x, y) {
          if y != m { LessTransitive(x, m, y); }
        }
        assert IsLeast(x, s);
      } else {
        LessTotal(x, m);
        assert IsLeast(m, s);
      }
    } else {
      assert IsLeast(x, s);
    }
  }

  lemma LeastUnique(s: set<string>)
    ensures forall a, b :: IsLeast(a, s) && IsLeast(b, s) ==> a == b
  {
    forall a, b | IsLeast(a, s) && IsLeast(b, s) ensures a == b {
      if a != b { LessAsymmetric(a, b); }
    }
  }

  /** Python's `sorted` on a set of distinct names. */
  function SortedSet(s: set<string>): (r: seq<string>)
    ensures StrictlySorted(r)
    ensures forall x :: x in r <==> x in s
    decreases |s|
  {
    if s == {} then []
    else
      LeastExists(s);
      LeastUnique(s);
      var m :| IsLeast(m, s);
      var rest := SortedSet(s - {m});
      assert forall j :: 0 <= j < |rest| ==> rest[j] in s - {m};
      [m] + rest
  }

  // ---------------------------------------------------------------------------
  // Rendering

  function DigitChar(d: nat): (c: char)
    requires d < 10
    ensures '0' <= c <= '9'
  {
    ('0' as int + d) as char
  }

  predicate IsDigit(c: char)
  {
    '0' <= c <= '9'
  }

  /** The number a string of decimal digits denotes. */
  function DigitsValue(s: string): nat
    requires forall i :: 0 <= i < |s| ==> IsDigit(s[i])
  {
    if s == [] then 0
    else
      assert IsDigit(s[|s| - 1]);
      DigitsValue(s[..|s| - 1]) * 10 + (s[|s| - 1] as int - '0' as int)
  }

  /** The decimal rendering of `n`: digits only, no leading zero unless `n` is 0, reading back as `n`. */
  function NatToString(n: nat): (r: string)
    ensures r != [] && forall i :: 0 <= i < |r| ==> IsDigit(r[i])
    ensures r[0] == '0' ==> r == "0"
    ensures DigitsValue(r) == n
    decreases n
  {
    if n < 10 then [DigitChar(n)]
    else
      var r := NatToString(n / 10) + [DigitChar(n % 10)];
      assert r[..|r| - 1] == NatToString(n / 10);
      r
  }

  /** Distinct numbers render differently. */
  lemma NatToStringInjective(m: nat, n: nat)
    requires NatToString(m) == NatToString(n)
    ensures m == n
  {
  }

  /** Python's `str(i)` / JavaScript's `i.toString()` for an integer. */
  function IntToString(i: int): string
  {
    if i < 0 then "-" + NatToString(-i) else NatToString(i)
  }

  /** Python's `sep.join(parts)`. */
  function JoinWith(parts: seq<string>, sep: string): string
  {
    if parts == [] then ""
    else if |parts| == 1 then parts[0]
    else parts[0] + sep + JoinWith(parts[1..], sep)
  }

  /** Python's `s.replace(pat, "")`: every non-overlapping occurrence, scanning left to right, is removed. */
  function RemoveAll(s: string, pat: string): string
    requires pat != []
    decreases |s|
  {
    if s == [] then []
    else if pat <= s then RemoveAll(s[|pat|..], pat)
    else [s[0]] + RemoveAll(s[1..], pat)
  }

  /** Number of bytes of the UTF-8 encoding of `s` (Python's `len(s.encode('utf-8'))`). */
  function Utf8Length(s: string): (n: nat)
    ensures |s| <= n <= 4 * |s|
  {
    if s == [] then 0
    else
      var c := s[0] as int;
      (if c < 0x80 then 1 else if c < 0x800 then 2 else if c < 0x10000 then 3 else 4) + Utf8Length(s[1..])
  }

  lemma {:induction false} Utf8LengthAscii(s: string)
    requires forall i :: 0 <= i < |s| ==> s[i] as int < 0x80
    ensures Utf8Length(s) == |s|
  {
    if s != [] { Utf8LengthAscii(s[1..]); }
  }
}
