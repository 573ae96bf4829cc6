/**
 * The string operations the views rely on: digit tests, `toLowerCase`,
 * `includes` and `trim`, over strings as sequences of characters.
 */
module Text {

  predicate IsDigit(c: char) {
    '0' <= c <= '9'
  }

  predicate AllDigits(s: string) {
    forall i :: 0 <= i < |s| ==> IsDigit(s[i])
  }

  /** `toLowerCase` on one character, restricted to the ASCII letters. */
  function LowerChar(c: char): char {
    if 'A' <= c <= 'Z' then (c as int + 32) as char else c
  }

  function ToLower(s: string): (r: string)
    ensures |r| == |s|
    ensures forall i :: 0 <= i < |s| ==> r[i] == LowerChar(s[i])
  {
    seq(|s|, i requires 0 <= i < |s| => LowerChar(s[i]))
  }

  predicate StartsWith(s: string, prefix: string) {
    |prefix| <= |s| && s[..|prefix|] == prefix
  }

  /** `s.includes(t)`: scans every start position of `s` in turn. */
  predicate Contains(s: string, t: string)
    decreases |s|
  {
    StartsWith(s, t) || (|s| > 0 && Contains(s[1..], t))
  }

  /** `t` sits in `s` starting at index `i`. */
  ghost predicate OccursAt(s: string, t: string, i: int) {
    0 <= i && i + |t| <= |s| && s[i..i + |t|] == t
  }

  /** The scan finds `t` exactly when `t` occurs somewhere in `s`. */
  lemma {:induction false} ContainsIffOccurs(s: string, t: string)
    ensures Contains(s, t) <==> exists i :: OccursAt(s, t, i)
    decreases |s|
  {
    if StartsWith(s, t) {
      assert s[0..|t|] == s[..|t|];
      assert OccursAt(s, t, 0);
    }
    if |s| > 0 {
      ContainsIffOccurs(s[1..], t);
      if Contains(s[1..], t) {
        var i :| OccursAt(s[1..], t, i);
        assert s[1..][i..i + |t|] == s[i + 1..i + 1 + |t|];
        assert OccursAt(s, t, i + 1);
      }
      if i :| OccursAt(s, t, i) {
        if i == 0 {
          assert StartsWith(s, t);
        } else {
          assert s[1..][i - 1..i - 1 + |t|] == s[i..i + |t|];
          assert OccursAt(s[1..], t, i - 1);
        }
      }
    } else {
      if i :| OccursAt(s, t, i) {
        assert |t| == 0 && i == 0;
        assert StartsWith(s, t);
      }
    }
  }

  /** Every string contains the empty string, so an empty search term matches everything. */
  lemma ContainsEmpty(s: string)
    ensures Contains(s, "")
  {
    assert s[..0] == "";
  }

  /**
   * The characters `trim` strips (ECMAScript WhiteSpace and LineTerminator):
   * tab, vertical tab, form feed, BOM, the space separators of Unicode
   * category Zs, and the four line terminators.
   */
  predicate IsSpace(c: char) {
    || c == '\t' || c == '\U{B}' || c == '\U{C}' || c == '\U{FEFF}'
    || c == ' ' || c == '\U{A0}' || c == '\U{1680}' || '\U{2000}' <= c <= '\U{200A}'
    || c == '\U{202F}' || c == '\U{205F}' || c == '\U{3000}'
    || c == '\n' || c == '\r' || c == '\U{2028}' || c == '\U{2029}'
  }

  predicate AllSpace(s: string) {
    forall i :: 0 <= i < |s| ==> IsSpace(s[i])
  }

  lemma AllSpaceConcat(a: string, b: string)
    ensures AllSpace(a + b) <==> AllSpace(a) && AllSpace(b)
  {
    if AllSpace(a) && AllSpace(b) {
      forall i | 0 <= i < |a + b|
        ensures IsSpace((a + b)[i])
      {
        if i >= |a| {
          assert (a + b)[i] == b[i - |a|];
        }
      }
    }
    if AllSpace(a + b) {
      forall i | 0 <= i < |b|
        ensures IsSpace(b[i])
      {
        assert (a + b)[|a| + i] == b[i];
      }
      forall i | 0 <= i < |a|
        ensures IsSpace(a[i])
      {
        assert (a + b)[i] == a[i];
      }
    }
  }

  /** Drops leading white space: `s` is the dropped blank part followed by the result. */
  function TrimStart(s: string): (r: string)
    ensures |r| <= |s| && s == s[..|s| - |r|] + r
    ensures AllSpace(s[..|s| - |r|])
    ensures r == "" || !IsSpace(r[0])
    decreases |s|
  {
    if |s| > 0 && IsSpace(s[0]) then
      var r := TrimStart(s[1..]);
      assert s[..|s| - |r|] == [s[0]] + s[1..][..|s| - 1 - |r|];
      AllSpaceConcat([s[0]], s[1..][..|s| - 1 - |r|]);
      r
    else
      assert s[..0] == "";
      s
  }

  /** Drops trailing white space: `s` is the result followed by the dropped blank part. */
  function TrimEnd(s: string): (r: string)
    ensures |r| <= |s| && s == r + s[|r|..]
    ensures AllSpace(s[|r|..])
    ensures r == "" || !IsSpace(r[|r| - 1])
    decreases |s|
  {
    if |s| > 0 && IsSpace(s[|s| - 1]) then
      var init := s[..|s| - 1];
      var r := TrimEnd(init);
      assert s[|r|..] == init[|r|..] + [s[|s| - 1]];
      AllSpaceConcat(init[|r|..], [s[|s| - 1]]);
      r
    else
      assert s[|s|..] == "";
      s
  }

  /** `s.trim()`: `s` is blank, the trimmed text, blank; the trimmed text neither starts nor ends with white space. */
  function Trim(s: string): (r: string)
    ensures r == "" <==> AllSpace(s)
    ensures r != "" ==> !IsSpace(r[0]) && !IsSpace(r[|r| - 1])
    ensures exists a :: Pads(s, r, a)
  {
    var front := TrimStart(s);
    var r := TrimEnd(front);
    var lead := s[..|s| - |front|];
    var trail := front[|r|..];
    assert s == lead + r + trail;
    TrimFacts(lead, r, trail);
    assert Pads(s, r, |lead|);
    r
  }

  /** `s` is `r` with only white space before (the first `a` characters) and after it. */
  ghost predicate Pads(s: string, r: string, a: int) {
    && 0 <= a <= |s| - |r|
    && s == s[..a] + r + s[a + |r|..]
    && AllSpace(s[..a]) && AllSpace(s[a + |r|..])
  }

  lemma TrimFacts(lead: string, r: string, trail: string)
    requires AllSpace(lead) && AllSpace(trail)
    requires r == "" || !IsSpace(r[0])
    ensures r == "" <==> AllSpace(lead + r + trail)
    ensures (lead + r + trail)[..|lead|] == lead
    ensures (lead + r + trail)[|lead| + |r|..] == trail
  {
    AllSpaceConcat(lead, r);
    AllSpaceConcat(lead + r, trail);
    assert lead + r + trail == lead + (r + trail);
  }

  /** `Pads` read character by character. */
  lemma PadsAt(s: string, r: string, a: int)
    requires Pads(s, r, a)
    ensures forall i :: 0 <= i < a ==> IsSpace(s[i])
    ensures forall j :: 0 <= j < |r| ==> s[a + j] == r[j]
    ensures forall i :: a + |r| <= i < |s| ==> IsSpace(s[i])
  {
    forall i | 0 <= i < a
      ensures IsSpace(s[i])
    {
      assert s[..a][i] == s[i];
    }
    forall i | a + |r| <= i < |s|
      ensures IsSpace(s[i])
    {
      assert s[a + |r|..][i - a - |r|] == s[i];
    }
  }

  /** Two paddings of `s` whose texts have non-space ends have the same text. */
  lemma PadsAgree(s: string, r: string, a: int, t: string, b: int)
    requires Pads(s, r, a) && Pads(s, t, b)
    requires r != "" && !IsSpace(r[0]) && !IsSpace(r[|r| - 1])
    requires t != "" && !IsSpace(t[0]) && !IsSpace(t[|t| - 1])
    ensures r == t
  {
    PadsAt(s, r, a);
    PadsAt(s, t, b);
    assert s[a + 0] == r[0] && s[b + 0] == t[0];
    assert a == b;
    assert s[a + (|r| - 1)] == r[|r| - 1] && s[b + (|t| - 1)] == t[|t| - 1];
    assert |r| == |t|;
    forall j | 0 <= j < |r|
      ensures r[j] == t[j]
    {
      assert s[a + j] == r[j] && s[b + j] == t[j];
    }
  }

  /**
   * The trimmed text is the only way to write `s` as white space, text with
   * non-space ends, white space; in particular inner white space stays.
   */
  lemma TrimUnique(s: string, r: string, a: int)
    requires Pads(s, r, a)
    requires r == "" || (!IsSpace(r[0]) && !IsSpace(r[|r| - 1]))
    ensures Trim(s) == r
  {
    var t := Trim(s);
    var b :| Pads(s, t, b);
    PadsAt(s, r, a);
    if r == "" {
      assert AllSpace(s);
    } else if t != "" {
      PadsAgree(s, r, a, t, b);
    }
  }

  /** Only the ends are trimmed: white space inside the text is kept. */
  lemma TrimKeepsInnerSpace()
    ensures Trim(" a b ") == "a b"
  {
    TrimUnique(" a b ", "a b", 1);
  }
}
