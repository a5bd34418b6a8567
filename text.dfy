/** The few Python string operations the bot relies on, over `seq<char>` (one char per code point). */
module Text {

  /** The characters Python's `str.isspace()` accepts. */
  predicate IsSpace(c: char) {
    || c == ' '
    || '\t' <= c <= '\r'
    || '\U{1C}' <= c <= '\U{1F}'
    || c == '\U{85}'
    || c == '\U{A0}'
    || c == '\U{1680}'
    || '\U{2000}' <= c <= '\U{200A}'
    || c == '\U{2028}'
    || c == '\U{2029}'
    || c == '\U{202F}'
    || c == '\U{205F}'
    || c == '\U{3000}'
  }

  predicate AllSpace(s: string) {
    forall i :: 0 <= i < |s| ==> IsSpace(s[i])
  }

  /** Neither the first nor the last character is whitespace. */
  predicate NoEdgeSpace(s: string) {
    s == [] || (!IsSpace(s[0]) && !IsSpace(s[|s| - 1]))
  }

  /** Drops leading whitespace: what is dropped is whitespace, what is kept is a suffix. */
  function TrimStart(s: string): (r: string)
    ensures |r| <= |s| && r == s[|s| - |r|..]
    ensures forall i :: 0 <= i < |s| - |r| ==> IsSpace(s[i])
    ensures r == [] || !IsSpace(r[0])
    decreases |s|
  {
    if s != [] && IsSpace(s[0]) then
      var r := TrimStart(s[1..]);
      assert s[1..][|s| - 1 - |r|..] == s[|s| - |r|..];
      assert forall i :: 1 <= i < |s| - |r| ==> IsSpace(s[i]) by {
        forall i | 1 <= i < |s| - |r| ensures IsSpace(s[i]) {
          assert s[1..][i - 1] == s[i];
        }
      }
      r
    else
      s
  }

  /** Drops trailing whitespace: what is dropped is whitespace, what is kept is a prefix. */
  function TrimEnd(s: string): (r: string)
    ensures |r| <= |s| && r == s[..|r|]
    ensures forall i :: |r| <= i < |s| ==> IsSpace(s[i])
    ensures r == [] || !IsSpace(r[|r| - 1])
    decreases |s|
  {
    if s != [] && IsSpace(s[|s| - 1]) then
      var r := TrimEnd(s[..|s| - 1]);
      assert s[..|s| - 1][..|r|] == s[..|r|];
      assert forall i :: |r| <= i < |s| - 1 ==> IsSpace(s[i]) by {
        forall i | |r| <= i < |s| - 1 ensures IsSpace(s[i]) {
          assert s[..|s| - 1][i] == s[i];
        }
      }
      r
    else
      s
  }

  /** Python's `str.strip()` with no argument: the slice of `s` left once the whitespace at
      both ends is dropped. */
  function Strip(s: string): (r: string)
    ensures |r| <= |s|
    ensures NoEdgeSpace(r)
    ensures r == [] <==> AllSpace(s)
    ensures NoEdgeSpace(s) ==> r == s
  {
    TrimBoth(s);
    TrimStart(TrimEnd(s))
  }

  /** The stripped text is a slice of `s` with only whitespace before and after it. */
  lemma StripIsSlice(s: string)
    ensures exists a, b :: 0 <= a <= b <= |s| && Strip(s) == s[a..b] && AllSpace(s[..a]) && AllSpace(s[b..])
  {
    TrimBounds(s);
  }

  /** Where the trimmed text sits in `s`: between two runs of whitespace. */
  lemma TrimBounds(s: string)
    ensures var t := TrimEnd(s); var a := |t| - |TrimStart(t)|;
            && 0 <= a <= |t| <= |s| && TrimStart(t) == s[a..|t|]
            && AllSpace(s[..a]) && AllSpace(s[|t|..])
  {
    var t := TrimEnd(s);
    var r := TrimStart(t);
    var a, b := |t| - |r|, |t|;
    assert r == s[a..b] by {
      assert t == s[..b] && r == t[a..];
    }
    assert AllSpace(s[..a]) by {
      forall i | 0 <= i < a
        ensures IsSpace(s[..a][i])
      {
        assert s[..a][i] == t[i];
      }
    }
    assert AllSpace(s[b..]) by {
      forall i | 0 <= i < |s| - b
        ensures IsSpace(s[b..][i])
      {
        assert s[b..][i] == s[b + i];
      }
    }
  }

  /** `str.strip()` is determined by what it promises: a non-empty slice of `s` without edge
      whitespace, with only whitespace around it, is the stripped text. */
  lemma StripCharacterised(s: string, a: nat, b: nat)
    requires a < b <= |s| && NoEdgeSpace(s[a..b])
    requires AllSpace(s[..a]) && AllSpace(s[b..])
    ensures Strip(s) == s[a..b]
  {
    assert s[a..b][0] == s[a] && s[a..b][b - a - 1] == s[b - 1];
    TrimEndAt(s, b);
    assert s[..b][..a] == s[..a];
    TrimStartAt(s[..b], a);
    assert s[..b][a..] == s[a..b];
  }

  /** Dropping trailing whitespace stops at the last character that is not whitespace. */
  lemma {:induction false} TrimEndAt(s: string, b: nat)
    requires 0 < b <= |s| && !IsSpace(s[b - 1]) && AllSpace(s[b..])
    ensures TrimEnd(s) == s[..b]
    decreases |s|
  {
    if b < |s| {
      assert IsSpace(s[b..][|s| - 1 - b]);
      var s' := s[..|s| - 1];
      assert s'[b..] == s[b..][..|s| - 1 - b];
      TrimEndAt(s', b);
      assert s'[..b] == s[..b];
    }
  }

  /** Dropping leading whitespace stops at the first character that is not whitespace. */
  lemma {:induction false} TrimStartAt(s: string, a: nat)
    requires a < |s| && !IsSpace(s[a]) && AllSpace(s[..a])
    ensures TrimStart(s) == s[a..]
    decreases a
  {
    if 0 < a {
      assert IsSpace(s[..a][0]);
      assert s[1..][..a - 1] == s[1..a];
      assert forall i :: 0 <= i < a - 1 ==> s[1..a][i] == s[..a][i + 1];
      TrimStartAt(s[1..], a - 1);
      assert s[1..][a - 1..] == s[a..];
    }
  }

  /** Trimming the end and then the start keeps no edge whitespace, drops everything exactly
      when everything is whitespace, and leaves a string without edge whitespace alone. */
  lemma {:induction false} TrimBoth(s: string)
    ensures NoEdgeSpace(TrimStart(TrimEnd(s)))
    ensures TrimStart(TrimEnd(s)) == [] <==> AllSpace(s)
    ensures NoEdgeSpace(s) ==> TrimStart(TrimEnd(s)) == s
  {
    var t := TrimEnd(s);
    var r := TrimStart(t);
    if t != [] {
      TrimStartKeepsLast(t);
      assert r[|r| - 1] == t[|t| - 1];
      assert s[|t| - 1] == t[|t| - 1];
    }
    if NoEdgeSpace(s) && s != [] {
      assert t == s;
    }
  }

  /** A string whose last character is not whitespace keeps that character when its leading
      whitespace is dropped. */
  lemma {:induction false} TrimStartKeepsLast(s: string)
    requires s != [] && !IsSpace(s[|s| - 1])
    ensures TrimStart(s) != [] && TrimStart(s)[|TrimStart(s)| - 1] == s[|s| - 1]
    decreases |s|
  {
    if IsSpace(s[0]) {
      assert |s| > 1;
      TrimStartKeepsLast(s[1..]);
    }
  }

  /** Stripping twice is stripping once. */
  lemma StripIdempotent(s: string)
    ensures Strip(Strip(s)) == Strip(s)
  {
  }

  /** ASCII lower-casing of one character. */
  function LowerChar(c: char): char {
    if 'A' <= c <= 'Z' then (c as int + 32) as char else c
  }

  /** Python's `str.lower()`, restricted to the ASCII letters: every capital becomes its small
      letter, every other character is kept. */
  function Lower(s: string): (r: string)
    ensures |r| == |s|
    ensures forall i :: 0 <= i < |r| ==> !('A' <= r[i] <= 'Z')
    ensures forall i :: 0 <= i < |r| ==>
              if 'A' <= s[i] <= 'Z' then r[i] as int == s[i] as int + 32 else r[i] == s[i]
  {
    seq(|s|, i requires 0 <= i < |s| => LowerChar(s[i]))
  }

  /** Python's `needle in hay` for strings: `needle` occurs somewhere in `hay`. */
  function Contains(hay: string, needle: string): bool {
    needle <= hay || (hay != [] && Contains(hay[1..], needle))
  }

  /** `needle` occurs in `hay` starting at index `i`. */
  predicate OccursAt(hay: string, needle: string, i: int) {
    0 <= i && i + |needle| <= |hay| && hay[i..i + |needle|] == needle
  }

  /** `needle in hay` holds exactly when some slice of `hay` is `needle`. */
  lemma {:induction false} ContainsAt(hay: string, needle: string)
    ensures Contains(hay, needle) <==> exists i :: OccursAt(hay, needle, i)
  {
    if Contains(hay, needle) {
      ContainsHasOccurrence(hay, needle);
    }
    if exists i :: OccursAt(hay, needle, i) {
      var i :| OccursAt(hay, needle, i);
      OccurrenceIsContained(hay, needle, i);
    }
  }

  lemma {:induction false} ContainsHasOccurrence(hay: string, needle: string)
    requires Contains(hay, needle)
    ensures exists i :: OccursAt(hay, needle, i)
    decreases |hay|
  {
    if needle <= hay {
      assert hay[0..0 + |needle|] == needle;
      assert OccursAt(hay, needle, 0);
    } else {
      ContainsHasOccurrence(hay[1..], needle);
      var i :| OccursAt(hay[1..], needle, i);
      assert OccursAt(hay, needle, i + 1) by {
        assert hay[i + 1..i + 1 + |needle|] == hay[1..][i..i + |needle|];
      }
    }
  }

  lemma {:induction false} OccurrenceIsContained(hay: string, needle: string, i: int)
    requires OccursAt(hay, needle, i)
    ensures Contains(hay, needle)
    decreases i
  {
    if i == 0 {
      assert hay[..|needle|] == needle;
    } else {
      assert hay[1..][i - 1..i - 1 + |needle|] == hay[i..i + |needle|];
      OccurrenceIsContained(hay[1..], needle, i - 1);
    }
  }

  /** The empty string contains only the empty string. */
  lemma EmptyContainsOnlyEmpty(needle: string)
    ensures Contains("", needle) <==> needle == ""
  {
  }

  /** A needle longer than the text is not contained in it. */
  lemma {:induction false} LongerNeverContained(hay: string, needle: string)
    requires |needle| > |hay|
    ensures !Contains(hay, needle)
    decreases |hay|
  {
    if hay != [] {
      LongerNeverContained(hay[1..], needle);
    }
  }

  /** Python's `s.replace(pat, "")`: scanning left to right, every non-overlapping occurrence
      of `pat` is cut out. */
  function RemoveAll(s: string, pat: string): (r: string)
    requires pat != []
    ensures |r| <= |s|
    ensures !Contains(s, pat) ==> r == s
    decreases |s|
  {
    if s == [] then []
    else if pat <= s then RemoveAll(s[|pat|..], pat)
    else [s[0]] + RemoveAll(s[1..], pat)
  }

  /** Cutting proceeds from the left: when the first occurrence of `pat` in `s` starts right
      after `a`, the text before it is kept whole, the occurrence is dropped, and the cutting
      resumes after it. */
  lemma {:induction false} RemoveAllFirstOccurrence(a: string, pat: string, b: string)
    requires pat != []
    requires !Contains(a + pat[..|pat| - 1], pat)
    ensures RemoveAll(a + pat + b, pat) == a + RemoveAll(b, pat)
    decreases |a|
  {
    var s := a + pat + b;
    if a == [] {
      assert s == pat + b && pat <= s && s[|pat|..] == b;
    } else {
      var p' := pat[..|pat| - 1];
      assert !(pat <= s) by {
        EarlierTextHidesPattern(a, pat, b);
      }
      assert !Contains(a[1..] + p', pat) by {
        assert (a + p')[1..] == a[1..] + p';
      }
      assert s[1..] == a[1..] + pat + b;
      calc {
        RemoveAll(s, pat);
        [a[0]] + RemoveAll(a[1..] + pat + b, pat);
        { RemoveAllFirstOccurrence(a[1..], pat, b); }
        [a[0]] + (a[1..] + RemoveAll(b, pat));
        { assert [a[0]] + a[1..] == a; }
        a + RemoveAll(b, pat);
      }
    }
  }

  /** `pat` cannot start at the front of `a + pat + b` when it does not occur at the front of
      `a` followed by all but the last character of `pat`. */
  lemma EarlierTextHidesPattern(a: string, pat: string, b: string)
    requires a != [] && pat != []
    requires !(pat <= a + pat[..|pat| - 1])
    ensures !(pat <= a + pat + b)
  {
  }

  /** The digit character for `d < 10`. */
  function DigitChar(d: nat): (c: char)
    requires d < 10
    ensures '0' <= c <= '9'
  {
    (48 + d) as char
  }

  predicate IsDigit(c: char) {
    '0' <= c <= '9'
  }

  /** Python's `str(n)` for a non-negative integer. */
  function Decimal(n: nat): (r: string)
    ensures r != []
    ensures forall i :: 0 <= i < |r| ==> IsDigit(r[i])
    ensures r[0] == '0' ==> n == 0
  {
    if n < 10 then [DigitChar(n)] else Decimal(n / 10) + [DigitChar(n % 10)]
  }

  function DigitValue(c: char): nat
    requires IsDigit(c)
  {
    c as int - 48
  }

  /** The number a string of decimal digits denotes (Python's `int(s)` on digits). */
  function DecimalValue(s: string): nat
    requires forall i :: 0 <= i < |s| ==> IsDigit(s[i])
  {
    if s == [] then 0 else 10 * DecimalValue(s[..|s| - 1]) + DigitValue(s[|s| - 1])
  }

  /** `int(str(n)) == n`. */
  lemma {:induction false} DecimalRoundTrip(n: nat)
    ensures DecimalValue(Decimal(n)) == n
  {
    if n >= 10 {
      var d := Decimal(n);
      assert d[..|d| - 1] == Decimal(n / 10);
      DecimalRoundTrip(n / 10);
    }
  }

  /** Decimal digits contain no whitespace. */
  lemma DecimalHasNoSpace(n: nat)
    ensures NoEdgeSpace(Decimal(n)) && !AllSpace(Decimal(n))
  {
    var d := Decimal(n);
    assert IsDigit(d[0]) && IsDigit(d[|d| - 1]);
  }
}
