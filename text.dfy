/** The string operations the forms use: `trim`, `includes`, and the
    `replace(/\D/g, '')` digit filter. */
module Text {
  import Seqs

  /** The characters `String.prototype.trim` removes (white space and line terminators). */
  predicate IsWhitespace(c: char)
  {
    || c == '\U{0009}' || c == '\U{000A}' || c == '\U{000B}' || c == '\U{000C}' || c == '\U{000D}'
    || c == ' ' || c == '\U{00A0}' || c == '\U{1680}'
    || ('\U{2000}' <= c <= '\U{200A}')
    || c == '\U{2028}' || c == '\U{2029}' || c == '\U{202F}' || c == '\U{205F}' || c == '\U{3000}'
    || c == '\U{FEFF}'
  }

  function TrimStart(s: string): (r: string)
    ensures |r| <= |s| && r == s[|s| - |r|..]
    ensures forall i | 0 <= i < |s| - |r| :: IsWhitespace(s[i])
    ensures r == [] || !IsWhitespace(r[0])
  {
    if s != [] && IsWhitespace(s[0]) then TrimStart(s[1..]) else s
  }

  function TrimEnd(s: string): (r: string)
    ensures |r| <= |s| && r == s[..|r|]
    ensures forall i | |r| <= i < |s| :: IsWhitespace(s[i])
    ensures r == [] || !IsWhitespace(r[|r| - 1])
  {
    if s != [] && IsWhitespace(s[|s| - 1]) then TrimEnd(s[..|s| - 1]) else s
  }

  /** `String.prototype.trim`. */
  function Trim(s: string): string
  {
    TrimEnd(TrimStart(s))
  }

  /** `!s.trim()`: the field holds nothing but white space. */
  predicate IsBlank(s: string)
  {
    Trim(s) == ""
  }

  /** A field is blank exactly when every character in it is white space. */
  lemma BlankIffAllWhitespace(s: string)
    ensures IsBlank(s) <==> forall i | 0 <= i < |s| :: IsWhitespace(s[i])
  {
    var t := TrimStart(s);
    var r := TrimEnd(t);
    if r == [] {
      forall i | |s| - |t| <= i < |s| ensures IsWhitespace(s[i]) {
        assert s[i] == t[i - (|s| - |t|)];
      }
    } else {
      var k := |s| - |t| + |r| - 1;
      assert s[k] == t[|r| - 1] == r[|r| - 1];
    }
  }

  function IsPrefix(t: string, s: string): bool
  {
    |t| <= |s| && s[..|t|] == t
  }

  /** `s.includes(t)`. */
  function Contains(s: string, t: string): bool
    decreases |s|
  {
    IsPrefix(t, s) || (s != [] && Contains(s[1..], t))
  }

  /** `t` occurring at position `i` of `s` is a witness for `s.includes(t)`. */
  lemma {:induction false} ContainsAt(s: string, t: string, i: nat)
    requires i + |t| <= |s| && s[i..i + |t|] == t
    ensures Contains(s, t)
    decreases i
  {
    if i > 0 {
      assert s[1..][i - 1..i - 1 + |t|] == s[i..i + |t|];
      ContainsAt(s[1..], t, i - 1);
    }
  }

  /** Every occurrence is found at some position. */
  lemma {:induction false} ContainsWitness(s: string, t: string) returns (i: nat)
    requires Contains(s, t)
    ensures i + |t| <= |s| && s[i..i + |t|] == t
    decreases |s|
  {
    if IsPrefix(t, s) {
      i := 0;
    } else {
      var j := ContainsWitness(s[1..], t);
      assert s[1..][j..j + |t|] == s[j + 1..j + 1 + |t|];
      i := j + 1;
    }
  }

  /** A string containing `u` contains everything `u` contains. */
  lemma ContainsTransitive(s: string, u: string, t: string)
    requires Contains(s, u) && Contains(u, t)
    ensures Contains(s, t)
  {
    var i := ContainsWitness(s, u);
    var j := ContainsWitness(u, t);
    assert forall k | 0 <= k < |u| :: s[i + k] == u[k] by {
      forall k | 0 <= k < |u| ensures s[i + k] == u[k] {
        assert s[i..i + |u|][k] == s[i + k];
      }
    }
    assert s[i + j..i + j + |t|] == u[j..j + |t|];
    ContainsAt(s, t, i + j);
  }

  /** Every string includes the empty string. */
  lemma ContainsEmpty(s: string)
    ensures Contains(s, "")
  {
    ContainsAt(s, "", 0);
  }

  predicate IsDigit(c: char)
  {
    '0' <= c <= '9'
  }

  /** `s.replace(/\D/g, '')`: keeps exactly the ASCII digits, in order. */
  function KeepDigits(s: string): (r: string)
    ensures |r| <= |s|
    ensures forall i | 0 <= i < |r| :: IsDigit(r[i])
    ensures forall c :: multiset(r)[c] == if IsDigit(c) then multiset(s)[c] else 0
  {
    Seqs.Filter(s, IsDigit)
  }

  /** The digits of a concatenation are the digits of each part, in order; with `KeepDigitsOfChar`
      this fixes the result character by character. */
  lemma KeepDigitsAppend(a: string, b: string)
    ensures KeepDigits(a + b) == KeepDigits(a) + KeepDigits(b)
  {
    Seqs.FilterAppend(a, b, IsDigit);
  }

  /** One character is kept exactly when it is a digit. */
  lemma KeepDigitsOfChar(c: char)
    ensures KeepDigits([c]) == if IsDigit(c) then [c] else []
  {
    assert [c][1..] == [];
  }

  lemma KeepDigitsOfDigits(s: string)
    requires forall i | 0 <= i < |s| :: IsDigit(s[i])
    ensures KeepDigits(s) == s
  {
    Seqs.FilterKeepsAll(s, IsDigit);
  }
}
