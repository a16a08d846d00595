/**
 * String operations of JavaScript and Python that the modelled code relies on:
 * substring tests (`includes`, `in`), `String.prototype.replace` with a string
 * pattern, `toLowerCase`/`lower`, `trim`, and decimal rendering of integers.
 */
module Text {

  // ---------------------------------------------------------------------------
  // Substring tests
  // ---------------------------------------------------------------------------

  /** k occurs in s starting at index i. */
  predicate OccursAt(s: string, k: string, i: nat)
  {
    i + |k| <= |s| && s[i..i + |k|] == k
  }

  /** `s.includes(k)` in JavaScript, `k in s` in Python. */
  predicate Contains(s: string, k: string)
  {
    exists i: nat | i <= |s| :: OccursAt(s, k, i)
  }

  /** Any of the keywords occurs in s (a chain of `||`-ed `includes` tests). */
  predicate ContainsAny(s: string, keys: seq<string>)
  {
    exists k | k in keys :: Contains(s, k)
  }

  /** An occurrence one character further into s is an occurrence in s[1..]. */
  lemma OccursAtTail(s: string, k: string, j: nat)
    requires s != []
    ensures OccursAt(s[1..], k, j) <==> OccursAt(s, k, j + 1)
  {
    if j + 1 + |k| <= |s| {
      assert s[1..][j..j + |k|] == s[j + 1..j + 1 + |k|];
    }
  }

  /** The number of positions of s at which k occurs. */
  function Occurrences(s: string, k: string): nat
    requires k != []
  {
    if |s| < |k| then 0 else (if OccursAt(s, k, 0) then 1 else 0) + Occurrences(s[1..], k)
  }

  /** A prefix that lacks the first character of k adds no occurrence of k. */
  lemma {:induction false} OccurrencesSkip(a: string, b: string, k: string)
    requires k != [] && k[0] !in a
    ensures Occurrences(a + b, k) == Occurrences(b, k)
    decreases |a|
  {
    if a != [] {
      assert (a + b)[1..] == a[1..] + b;
      OccurrencesSkip(a[1..], b, k);
      if |a + b| >= |k| {
        assert (a + b)[0] == a[0];
      }
    } else {
      assert a + b == b;
    }
  }

  /** k is found at the very start of k + b. */
  lemma ContainsStart(k: string, b: string)
    ensures Contains(k + b, k)
  {
    assert (k + b)[0..|k|] == k;
    assert OccursAt(k + b, k, 0);
  }

  /** k is found at the very end of a + k. */
  lemma ContainsEnd(a: string, k: string)
    ensures Contains(a + k, k)
  {
    assert (a + k)[|a|..|a| + |k|] == k;
    assert OccursAt(a + k, k, |a|);
  }

  /** Text found in s is still found after something is appended to s. */
  lemma ContainsLeft(s: string, t: string, k: string)
    requires Contains(s, k)
    ensures Contains(s + t, k)
  {
    var i: nat :| i <= |s| && OccursAt(s, k, i);
    assert (s + t)[i..i + |k|] == s[i..i + |k|];
    assert OccursAt(s + t, k, i);
  }

  /** Text found in t is still found after something is prepended to t. */
  lemma ContainsRight(s: string, t: string, k: string)
    requires Contains(t, k)
    ensures Contains(s + t, k)
  {
    var i: nat :| i <= |t| && OccursAt(t, k, i);
    assert (s + t)[|s| + i..|s| + i + |k|] == t[i..i + |k|];
    assert OccursAt(s + t, k, |s| + i);
  }

  /** A text that lacks one character of k cannot contain k. */
  /** b is the tail of a + b. */
  lemma EndsWith(a: string, b: string)
    ensures |b| <= |a + b| && (a + b)[|a + b| - |b|..] == b
  {
  }

  lemma MissingChar(s: string, k: string, c: char)
    requires c in k && c !in s
    ensures !Contains(s, k)
  {
    var j :| 0 <= j < |k| && k[j] == c;
    forall i: nat | i <= |s| ensures !OccursAt(s, k, i) {
      if i + |k| <= |s| {
        assert s[i..i + |k|][j] == s[i + j];
      }
    }
  }

  /** No keyword occurs when each one has a character (its mark) that s lacks. */
  lemma MissingFromAll(s: string, keys: seq<string>, marks: string)
    requires |marks| == |keys|
    requires forall i | 0 <= i < |keys| :: marks[i] in keys[i] && marks[i] !in s
    ensures !ContainsAny(s, keys)
  {
    forall k | k in keys ensures !Contains(s, k) {
      var i :| 0 <= i < |keys| && keys[i] == k;
      MissingChar(s, k, marks[i]);
    }
  }

  // ---------------------------------------------------------------------------
  // String.prototype.replace with a string pattern
  // ---------------------------------------------------------------------------

  /**
   * `s.replace(pat, rep)` where `pat` is a string: only the FIRST occurrence
   * of pat is replaced, and s is returned unchanged when pat does not occur.
   * The replacement is inserted literally.
   */
  function ReplaceFirst(s: string, pat: string, rep: string): string
    decreases |s|
  {
    if |s| < |pat| then s
    else if s[..|pat|] == pat then rep + s[|pat|..]
    else [s[0]] + ReplaceFirst(s[1..], pat, rep)
  }

  /** i is the index of the first occurrence of pat in s (`s.indexOf(pat)`). */
  predicate FirstAt(s: string, pat: string, i: nat)
  {
    OccursAt(s, pat, i) && forall j: nat | j < i :: !OccursAt(s, pat, j)
  }

  /** Where pat does not start s, replace keeps the first character and moves on. */
  lemma ReplaceFirstStep(s: string, pat: string, rep: string)
    requires s != [] && !OccursAt(s, pat, 0)
    ensures ReplaceFirst(s, pat, rep) == [s[0]] + ReplaceFirst(s[1..], pat, rep)
  {
    if |s| >= |pat| {
      assert s[..|pat|] == s[0..|pat|];
    }
  }

  /** The first occurrence in s, seen from s[1..]. */
  lemma FirstAtTail(s: string, pat: string, i: nat)
    requires FirstAt(s, pat, i) && i > 0
    ensures s != [] && !OccursAt(s, pat, 0) && FirstAt(s[1..], pat, i - 1)
  {
    OccursAtTail(s, pat, i - 1);
    forall j: nat | j < i - 1 ensures !OccursAt(s[1..], pat, j) {
      OccursAtTail(s, pat, j);
    }
  }

  /** ReplaceFirst splices rep in place of the first occurrence and keeps everything else. */
  lemma {:induction false} ReplaceFirstAt(s: string, pat: string, rep: string, i: nat)
    requires FirstAt(s, pat, i)
    ensures ReplaceFirst(s, pat, rep) == s[..i] + rep + s[i + |pat|..]
    decreases i
  {
    if i == 0 {
      assert s[..|pat|] == pat;
    } else {
      FirstAtTail(s, pat, i);
      var t := s[1..];
      ReplaceFirstStep(s, pat, rep);
      ReplaceFirstAt(t, pat, rep, i - 1);
      assert s[..i] == [s[0]] + t[..i - 1];
      assert t[i - 1 + |pat|..] == s[i + |pat|..];
    }
  }

  /** When pat does not occur, replace leaves the text alone. */
  lemma {:induction false} ReplaceFirstAbsent(s: string, pat: string, rep: string)
    requires !Contains(s, pat)
    ensures ReplaceFirst(s, pat, rep) == s
    decreases |s|
  {
    if |s| >= |pat| {
      assert !OccursAt(s, pat, 0);
      ReplaceFirstStep(s, pat, rep);
      forall j: nat | j <= |s[1..]| ensures !OccursAt(s[1..], pat, j) {
        OccursAtTail(s, pat, j);
      }
      ReplaceFirstAbsent(s[1..], pat, rep);
      assert s == [s[0]] + s[1..];
    }
  }

  /** A prefix that lacks the pattern's first character is copied unchanged. */
  lemma {:induction false} SkipPrefix(a: string, b: string, pat: string, rep: string)
    requires |pat| > 0 && pat[0] !in a
    ensures ReplaceFirst(a + b, pat, rep) == a + ReplaceFirst(b, pat, rep)
    decreases |a|
  {
    if a == [] {
      assert a + b == b;
    } else {
      var s := a + b;
      var r := ReplaceFirst(a[1..] + b, pat, rep);
      assert s[1..] == a[1..] + b;
      assert ReplaceFirst(s, pat, rep) == [a[0]] + r by {
        assert s[0] == a[0];
        if |s| >= |pat| {
          assert s[..|pat|][0] == a[0];
        }
      }
      SkipPrefix(a[1..], b, pat, rep);
      assert [a[0]] + (a[1..] + ReplaceFirst(b, pat, rep)) == a + ReplaceFirst(b, pat, rep) by {
        assert a == [a[0]] + a[1..];
      }
    }
  }

  /**
   * A word that starts like pat but differs from it at the second character
   * (another `{placeholder}`) is copied unchanged.
   */
  lemma SkipWord(w: string, b: string, pat: string, rep: string)
    requires |w| >= 2 && |pat| >= 2 && w[1] != pat[1] && pat[0] !in w[1..]
    ensures ReplaceFirst(w + b, pat, rep) == w + ReplaceFirst(b, pat, rep)
  {
    var s := w + b;
    var t := w[1..] + b;
    assert s == [w[0]] + t;
    assert s[1..] == t;
    assert s[1] == w[1];
    if |s| >= |pat| {
      assert s[..|pat|] != pat by {
        assert s[..|pat|][1] == s[1];
      }
    }
    assert ReplaceFirst(s, pat, rep) == [w[0]] + ReplaceFirst(t, pat, rep);
    SkipPrefix(w[1..], b, pat, rep);
    assert w == [w[0]] + w[1..];
  }

  /** A text that starts with the pattern has it replaced right there. */
  lemma FillStart(pat: string, post: string, rep: string)
    ensures ReplaceFirst(pat + post, pat, rep) == rep + post
  {
    var s := pat + post;
    assert s[..|pat|] == pat;
    assert s[|pat|..] == post;
  }

  /** Filling the first slot of a template: the text before it lacks the slot's opening character. */
  lemma FillSlotRight(pre: string, pat: string, post: string, rep: string)
    requires |pat| > 0 && pat[0] !in pre
    ensures ReplaceFirst(pre + (pat + post), pat, rep) == pre + (rep + post)
  {
    SkipPrefix(pre, pat + post, pat, rep);
    FillStart(pat, post, rep);
  }

  // ---------------------------------------------------------------------------
  // Case folding and whitespace trimming
  // ---------------------------------------------------------------------------

  predicate IsUpperAscii(c: char)
  {
    'A' <= c <= 'Z'
  }

  /** `toLowerCase` / `lower`, on the ASCII letters. */
  function LowerChar(c: char): (d: char)
    ensures !IsUpperAscii(d)
    ensures !IsUpperAscii(c) ==> d == c
  {
    if IsUpperAscii(c) then (c as int + 32) as char else c
  }

  function Lower(s: string): string
  {
    if s == [] then [] else [LowerChar(s[0])] + Lower(s[1..])
  }

  /** Case folding maps each character on its own and keeps the length. */
  lemma {:induction false} LowerSpec(s: string)
    ensures |Lower(s)| == |s|
    ensures forall i | 0 <= i < |s| :: Lower(s)[i] == LowerChar(s[i])
  {
    if s != [] {
      LowerSpec(s[1..]);
    }
  }

  /** Folding the case of a folded text changes nothing. */
  lemma {:induction false} LowerIdempotent(s: string)
    ensures Lower(Lower(s)) == Lower(s)
  {
    if s != [] {
      LowerIdempotent(s[1..]);
      var r := Lower(s);
      assert r[0] == LowerChar(s[0]) && r[1..] == Lower(s[1..]);
    }
  }

  /** Text without ASCII capitals is its own lower-case form. */
  lemma {:induction false} LowerOfLowercase(s: string)
    requires forall i | 0 <= i < |s| :: !IsUpperAscii(s[i])
    ensures Lower(s) == s
  {
    if s != [] {
      LowerOfLowercase(s[1..]);
      assert s == [s[0]] + s[1..];
    }
  }

  /** Case folding works piece by piece. */
  lemma {:induction false} LowerConcat(a: string, b: string)
    ensures Lower(a + b) == Lower(a) + Lower(b)
  {
    if a == [] {
      assert a + b == b;
    } else {
      assert (a + b)[1..] == a[1..] + b;
      LowerConcat(a[1..], b);
    }
  }

  /** The characters `String.prototype.trim` removes: WhiteSpace and LineTerminator of ECMAScript. */
  predicate IsSpace(c: char)
  {
    var n := c as int;
    n == 0x09 || n == 0x0A || n == 0x0B || n == 0x0C || n == 0x0D || n == 0x20 ||
    n == 0xA0 || n == 0x1680 || (0x2000 <= n <= 0x200A) || n == 0x2028 || n == 0x2029 ||
    n == 0x202F || n == 0x205F || n == 0x3000 || n == 0xFEFF
  }

  predicate AllSpace(s: string)
  {
    forall i | 0 <= i < |s| :: IsSpace(s[i])
  }

  /** Drop leading whitespace. */
  function TrimStart(s: string): string
    decreases |s|
  {
    if s != [] && IsSpace(s[0]) then TrimStart(s[1..]) else s
  }

  /** Drop trailing whitespace. */
  function TrimEnd(s: string): string
    decreases |s|
  {
    if s != [] && IsSpace(s[|s| - 1]) then TrimEnd(s[..|s| - 1]) else s
  }

  /** TrimStart keeps a suffix of s that does not start with whitespace, and drops only whitespace. */
  lemma {:induction false} TrimStartSpec(s: string)
    ensures var r := TrimStart(s);
      && |r| <= |s| && r == s[|s| - |r|..]
      && AllSpace(s[..|s| - |r|])
      && (r == [] || !IsSpace(r[0]))
    decreases |s|
  {
    if s != [] && IsSpace(s[0]) {
      TrimStartSpec(s[1..]);
      var r := TrimStart(s);
      assert s[1..][..|s| - 1 - |r|] == s[1..|s| - |r|];
      assert s[1..][|s| - 1 - |r|..] == s[|s| - |r|..];
    }
  }

  /** TrimEnd keeps a prefix of s that does not end with whitespace, and drops only whitespace. */
  lemma {:induction false} TrimEndSpec(s: string)
    ensures var r := TrimEnd(s);
      && |r| <= |s| && r == s[..|r|]
      && AllSpace(s[|r|..])
      && (r == [] || !IsSpace(r[|r| - 1]))
    decreases |s|
  {
    if s != [] && IsSpace(s[|s| - 1]) {
      TrimEndSpec(s[..|s| - 1]);
      var r := TrimEnd(s);
      assert r == TrimEnd(s[..|s| - 1]);
      assert s[..|s| - 1][..|r|] == s[..|r|];
      assert s[|r|..] == s[..|s| - 1][|r|..] + [s[|s| - 1]];
    }
  }

  /** `s.trim()`: the text between the leading and the trailing whitespace. */
  function Trim(s: string): string
  {
    TrimEnd(TrimStart(s))
  }

  /**
   * Trim keeps a slice of s that neither starts nor ends with whitespace and
   * drops only whitespace around it; it is empty exactly when s is blank.
   */
  lemma TrimSpec(s: string)
    ensures var r := Trim(s);
      && (r == [] || (!IsSpace(r[0]) && !IsSpace(r[|r| - 1])))
      && (exists i: nat | i <= |s| :: OccursAt(s, r, i) && AllSpace(s[..i]) && AllSpace(s[i + |r|..]))
      && (r == [] <==> AllSpace(s))
  {
    var t := TrimStart(s);
    TrimStartSpec(s);
    TrimEndSpec(t);
    TrimSlice(s, t, TrimEnd(t));
    TrimBlank(s, t, TrimEnd(t));
  }

  lemma TrimSlice(s: string, t: string, r: string)
    requires |t| <= |s| && t == s[|s| - |t|..] && AllSpace(s[..|s| - |t|])
    requires |r| <= |t| && r == t[..|r|] && AllSpace(t[|r|..])
    ensures OccursAt(s, r, |s| - |t|) && AllSpace(s[..|s| - |t|]) && AllSpace(s[|s| - |t| + |r|..])
  {
    var i := |s| - |t|;
    assert s[i..i + |r|] == r;
    assert s[i + |r|..] == t[|r|..];
  }

  lemma TrimBlank(s: string, t: string, r: string)
    requires |t| <= |s| && t == s[|s| - |t|..] && AllSpace(s[..|s| - |t|]) && (t == [] || !IsSpace(t[0]))
    requires |r| <= |t| && r == t[..|r|] && AllSpace(t[|r|..])
    ensures r == [] <==> AllSpace(s)
  {
    var i := |s| - |t|;
    if r == [] {
      AllSpaceJoin(s[..i], t);
      assert s == s[..i] + t;
    }
  }

  lemma AllSpaceJoin(a: string, b: string)
    requires AllSpace(a) && AllSpace(b)
    ensures AllSpace(a + b)
  {
  }

  /** Trimming twice is trimming once. */
  lemma TrimIdempotent(s: string)
    ensures Trim(Trim(s)) == Trim(s)
  {
    var r := Trim(s);
    TrimSpec(s);
    if r != [] {
      assert TrimStart(r) == r;
      assert TrimEnd(r) == r;
    }
  }

  /** Text with no whitespace at either end is its own trim. */
  lemma TrimUnpadded(s: string)
    requires s == [] || (!IsSpace(s[0]) && !IsSpace(s[|s| - 1]))
    ensures Trim(s) == s
  {
    assert TrimStart(s) == s;
    assert TrimEnd(s) == s;
  }

  /** Case folding leaves whitespace alone, so it commutes with trimming. */
  lemma {:induction false} TrimLower(s: string)
    ensures Trim(Lower(s)) == Lower(Trim(s))
  {
    TrimStartLower(s);
    TrimEndLower(TrimStart(s));
  }

  lemma {:induction false} TrimStartLower(s: string)
    ensures TrimStart(Lower(s)) == Lower(TrimStart(s))
    decreases |s|
  {
    if s != [] {
      assert Lower(s)[1..] == Lower(s[1..]);
      if IsSpace(s[0]) {
        TrimStartLower(s[1..]);
      }
    }
  }

  lemma {:induction false} TrimEndLower(s: string)
    ensures TrimEnd(Lower(s)) == Lower(TrimEnd(s))
    decreases |s|
  {
    if s != [] {
      LowerConcat(s[..|s| - 1], [s[|s| - 1]]);
      assert s == s[..|s| - 1] + [s[|s| - 1]];
      LowerSpec(s[..|s| - 1]);
      assert Lower(s)[..|s| - 1] == Lower(s[..|s| - 1]);
      if IsSpace(s[|s| - 1]) {
        TrimEndLower(s[..|s| - 1]);
      }
    }
  }

  // ---------------------------------------------------------------------------
  // Decimal rendering of non-negative integers (`${n}`, f"{n}")
  // ---------------------------------------------------------------------------

  predicate IsDigit(c: char)
  {
    '0' <= c <= '9'
  }

  function DigitChar(d: nat): (c: char)
    requires d < 10
    ensures IsDigit(c) && c as int - '0' as int == d
  {
    ('0' as int + d) as char
  }

  /** The shortest decimal numeral of n, as JavaScript and Python print integers. */
  function Decimal(n: nat): (r: string)
    ensures |r| > 0 && forall i | 0 <= i < |r| :: IsDigit(r[i])
    ensures |r| > 1 ==> r[0] != '0'
  {
    if n < 10 then [DigitChar(n)] else Decimal(n / 10) + [DigitChar(n % 10)]
  }

  function DigitValue(c: char): nat
    requires IsDigit(c)
  {
    c as int - '0' as int
  }

  /** The value of a numeral (the partner of Decimal). */
  function ParseDecimal(s: string): nat
    requires forall i | 0 <= i < |s| :: IsDigit(s[i])
  {
    if s == [] then 0 else ParseDecimal(s[..|s| - 1]) * 10 + DigitValue(s[|s| - 1])
  }

  lemma {:induction false} DecimalRoundTrip(n: nat)
    ensures ParseDecimal(Decimal(n)) == n
  {
    if n >= 10 {
      var r := Decimal(n);
      assert r[..|r| - 1] == Decimal(n / 10);
      DecimalRoundTrip(n / 10);
    }
  }

  /** The leading run of digits of s. */
  function LeadingDigits(s: string): (r: string)
    ensures |r| <= |s| && r == s[..|r|] && forall i | 0 <= i < |r| :: IsDigit(r[i])
    ensures |r| < |s| ==> !IsDigit(s[|r|])
  {
    if s != [] && IsDigit(s[0]) then [s[0]] + LeadingDigits(s[1..]) else []
  }

  lemma {:induction false} LeadingDigitsOf(digits: string, rest: string)
    requires forall i | 0 <= i < |digits| :: IsDigit(digits[i])
    requires rest == [] || !IsDigit(rest[0])
    ensures LeadingDigits(digits + rest) == digits
    decreases |digits|
  {
    if digits == [] {
      assert digits + rest == rest;
    } else {
      assert (digits + rest)[1..] == digits[1..] + rest;
      LeadingDigitsOf(digits[1..], rest);
    }
  }
}
