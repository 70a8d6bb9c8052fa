/**
 * The Python string built-ins the service relies on, over `string` (a sequence
 * of Unicode scalar values, as a Python `str` is a sequence of code points):
 * `in` on strings, `any(w in s for w in words)`, `str.lower`, `str.strip`,
 * `re.sub(r'\s+', ' ', s)`, slicing `s[:n]`, `str.replace(' ', '')` and
 * decimal formatting of a non-negative integer.
 */
module Text {

  /** Python's `str.isspace()`: the characters `\s` matches and `strip()` removes. */
  predicate IsSpace(c: char) {
    ('\t' <= c <= '\r') || ('\U{001C}' <= c <= ' ') || c == '\U{0085}' || c == '\U{00A0}'
    || c == '\U{1680}' || ('\U{2000}' <= c <= '\U{200A}') || c == '\U{2028}' || c == '\U{2029}'
    || c == '\U{202F}' || c == '\U{205F}' || c == '\U{3000}'
  }

  // ---------------------------------------------------------------------
  // Substring search: Python's `pat in text`
  // ---------------------------------------------------------------------

  /** `pat` occurs somewhere in `text` (the meaning of `pat in text`). */
  ghost predicate Occurs(pat: string, text: string) {
    exists i :: 0 <= i <= |text| && pat <= text[i..]
  }

  lemma {:induction false} OccursAfterFirst(pat: string, text: string)
    requires text != [] && !(pat <= text)
    ensures Occurs(pat, text) <==> Occurs(pat, text[1..])
  {
    if Occurs(pat, text) {
      var i :| 0 <= i <= |text| && pat <= text[i..];
      assert i != 0 by { assert text[0..] == text; }
      assert text[1..][i - 1..] == text[i..];
    }
    if Occurs(pat, text[1..]) {
      var i :| 0 <= i <= |text[1..]| && pat <= text[1..][i..];
      assert text[1..][i..] == text[i + 1..];
    }
  }

  /** A string occurs in any concatenation it is the middle part of. */
  lemma {:induction false} OccursInMiddle(a: string, x: string, b: string)
    ensures Occurs(x, a + x + b)
  {
    assert x <= (a + x + b)[|a|..];
  }

  /** An occurrence in either part is an occurrence in the concatenation. */
  lemma {:induction false} OccursInConcat(x: string, a: string, b: string)
    requires Occurs(x, a) || Occurs(x, b)
    ensures Occurs(x, a + b)
  {
    if Occurs(x, a) {
      var i :| 0 <= i <= |a| && x <= a[i..];
      assert (a + b)[i..] == a[i..] + b;
    } else {
      var i :| 0 <= i <= |b| && x <= b[i..];
      assert (a + b)[|a| + i..] == b[i..];
    }
  }

  /** An occurrence inside an occurrence is an occurrence. */
  lemma {:induction false} OccursTransitive(x: string, y: string, z: string)
    requires Occurs(x, y) && Occurs(y, z)
    ensures Occurs(x, z)
  {
    var i :| 0 <= i <= |y| && x <= y[i..];
    var j :| 0 <= j <= |z| && y <= z[j..];
    assert x <= z[j + i..] by {
      forall k | 0 <= k < |x| ensures x[k] == z[j + i + k] {
        assert x[k] == y[i + k];
      }
    }
  }

  /** Python's `pat in text`, searched from the left. */
  function Contains(text: string, pat: string): (r: bool)
    ensures r <==> Occurs(pat, text)
    decreases |text|
  {
    if pat <= text then
      assert text[0..] == text;
      true
    else if text == [] then
      false
    else
      OccursAfterFirst(pat, text);
      Contains(text[1..], pat)
  }

  /** Python's `any(w in text for w in words)`. */
  function ContainsAny(text: string, words: seq<string>): (r: bool)
    ensures r <==> exists k :: 0 <= k < |words| && Occurs(words[k], text)
  {
    if words == [] then false
    else
      var rest := ContainsAny(text, words[1..]);
      assert forall k :: 1 <= k < |words| ==> words[k] == words[1..][k - 1];
      Contains(text, words[0]) || rest
  }

  // ---------------------------------------------------------------------
  // Case folding: `str.lower()`
  // ---------------------------------------------------------------------

  /**
   * `str.lower()` on one character, for the capitals of ASCII, Latin-1 and the
   * Vietnamese alphabet (Ă Đ Ĩ Ũ Ơ Ư and the precomposed letters U+1EA0..U+1EF9);
   * any other character is kept.
   */
  function LowerChar(c: char): (r: char)
  {
    if 'A' <= c <= 'Z' then (c as int + 32) as char
    else if '\U{00C0}' <= c <= '\U{00DE}' && c != '\U{00D7}' then (c as int + 32) as char
    else if c == '\U{0102}' || c == '\U{0110}' || c == '\U{0128}' || c == '\U{0168}'
         || c == '\U{01A0}' || c == '\U{01AF}' then (c as int + 1) as char
    else if '\U{1EA0}' <= c <= '\U{1EF8}' && (c as int) % 2 == 0 then (c as int + 1) as char
    else c
  }

  /** `s.lower()`, character by character. */
  function Lower(s: string): (r: string)
    ensures |r| == |s|
    ensures forall i :: 0 <= i < |s| ==> r[i] == LowerChar(s[i])
  {
    seq(|s|, i requires 0 <= i < |s| => LowerChar(s[i]))
  }

  /** Lower-casing a concatenation lower-cases each part. */
  lemma {:induction false} LowerAppend(a: string, b: string)
    ensures Lower(a + b) == Lower(a) + Lower(b)
  {
  }

  /** Lower-casing a lower-case character changes nothing. */
  lemma LowerCharIdempotent(c: char)
    ensures LowerChar(LowerChar(c)) == LowerChar(c)
  {
  }

  /** Lower-casing twice is lower-casing once. */
  lemma {:induction false} LowerIdempotent(s: string)
    ensures Lower(Lower(s)) == Lower(s)
  {
    forall i | 0 <= i < |s| ensures Lower(Lower(s))[i] == Lower(s)[i] {
      LowerCharIdempotent(s[i]);
    }
  }

  // ---------------------------------------------------------------------
  // Whitespace: `strip()` and `re.sub(r'\s+', ' ', s)`
  // ---------------------------------------------------------------------

  /** The number of whitespace characters `s` starts with. */
  function LeadSpaces(s: string): (n: nat)
    ensures n <= |s|
    ensures forall k :: 0 <= k < n ==> IsSpace(s[k])
    ensures n == |s| || !IsSpace(s[n])
  {
    if s != [] && IsSpace(s[0]) then
      var m := LeadSpaces(s[1..]);
      assert forall k :: 1 <= k < 1 + m ==> s[k] == s[1..][k - 1];
      1 + m
    else 0
  }

  /** `s.lstrip()`: the suffix of `s` left after its leading whitespace. */
  function LStrip(s: string): (r: string)
    ensures |r| <= |s| && r == s[|s| - |r|..]
    ensures r == [] || !IsSpace(r[0])
    ensures forall k :: 0 <= k < |s| - |r| ==> IsSpace(s[k])
  {
    s[LeadSpaces(s)..]
  }

  /** Where the whitespace `s` ends with begins. */
  function TrailStart(s: string): (n: nat)
    ensures n <= |s|
    ensures forall k :: n <= k < |s| ==> IsSpace(s[k])
    ensures n == 0 || !IsSpace(s[n - 1])
  {
    if s != [] && IsSpace(s[|s| - 1]) then
      var m := TrailStart(s[..|s| - 1]);
      assert forall k :: m <= k < |s| - 1 ==> s[k] == s[..|s| - 1][k];
      m
    else |s|
  }

  /**
   * `s.strip()`: the slice of `s` left after removing whitespace, and only
   * whitespace, from both ends.
   */
  function Strip(s: string): (r: string)
    ensures LeadSpaces(s) + |r| <= |s| && r == s[LeadSpaces(s)..LeadSpaces(s) + |r|]
    ensures forall k :: 0 <= k < LeadSpaces(s) ==> IsSpace(s[k])
    ensures forall k :: LeadSpaces(s) + |r| <= k < |s| ==> IsSpace(s[k])
    ensures r == [] || (!IsSpace(r[0]) && !IsSpace(r[|r| - 1]))
    ensures r == [] <==> forall k :: 0 <= k < |s| ==> IsSpace(s[k])
  {
    var a := LeadSpaces(s);
    if a == |s| then []
    else
      var b := TrailStart(s);
      assert a < b;
      s[a..b]
  }

  /** No whitespace other than single spaces, and never two in a row. */
  ghost predicate SingleSpaced(s: string) {
    && (forall i :: 0 <= i < |s| && IsSpace(s[i]) ==> s[i] == ' ')
    && (forall i, j {:trigger s[i], s[j]} :: 0 <= i && j == i + 1 && j < |s| ==> !(IsSpace(s[i]) && IsSpace(s[j])))
  }

  /** The characters of `s` that are not whitespace, in order. */
  function Visible(s: string): (r: string)
    ensures |r| <= |s|
  {
    if s == [] then [] else (if IsSpace(s[0]) then [] else [s[0]]) + Visible(s[1..])
  }

  lemma {:induction false} VisibleAppend(a: string, b: string)
    ensures Visible(a + b) == Visible(a) + Visible(b)
  {
    if a != [] {
      assert (a + b)[0] == a[0] && (a + b)[1..] == a[1..] + b;
      VisibleAppend(a[1..], b);
    } else {
      assert a + b == b;
    }
  }

  /** Dropping leading whitespace leaves the visible characters alone. */
  lemma {:induction false} VisibleLStrip(s: string)
    ensures Visible(LStrip(s)) == Visible(s)
  {
    if s != [] && IsSpace(s[0]) {
      VisibleLStrip(s[1..]);
    }
  }

  /** Stripping keeps the visible characters. */
  lemma {:induction false} StripVisible(s: string)
    ensures Visible(Strip(s)) == Visible(s)
  {
    VisibleBetweenSpaces(s, LeadSpaces(s), LeadSpaces(s) + |Strip(s)|);
  }

  /** Cutting whitespace off both ends keeps the visible characters. */
  lemma {:induction false} VisibleBetweenSpaces(s: string, a: nat, b: nat)
    requires a <= b <= |s|
    requires forall k :: 0 <= k < a ==> IsSpace(s[k])
    requires forall k :: b <= k < |s| ==> IsSpace(s[k])
    ensures Visible(s[a..b]) == Visible(s)
  {
    var m := s[a..b];
    assert s == s[..a] + (m + s[b..]);
    VisibleAppend(s[..a], m + s[b..]);
    VisibleAppend(m, s[b..]);
    AllSpaceInvisible(s[..a]);
    AllSpaceInvisible(s[b..]);
    assert Visible(m) + [] == Visible(m);
  }

  lemma {:induction false} AllSpaceInvisible(s: string)
    requires forall k :: 0 <= k < |s| ==> IsSpace(s[k])
    ensures Visible(s) == []
  {
    if s != [] {
      AllSpaceInvisible(s[1..]);
    }
  }

  /** The visible characters of a prefix are a prefix of the visible characters. */
  lemma {:induction false} PrefixVisible(s: string, n: nat)
    requires n <= |s|
    ensures Visible(s[..n]) <= Visible(s)
  {
    assert s == s[..n] + s[n..];
    VisibleAppend(s[..n], s[n..]);
  }

  /** A slice of a single-spaced string is single-spaced. */
  lemma {:induction false} SingleSpacedSlice(s: string, a: nat, b: nat)
    requires a <= b <= |s| && SingleSpaced(s)
    ensures SingleSpaced(s[a..b])
  {
  }

  /**
   * `re.sub(r'\s+', ' ', s)`: every maximal run of whitespace becomes one space;
   * the visible characters are all kept, in order.
   */
  function CollapseSpaces(s: string): (r: string)
    ensures SingleSpaced(r)
    ensures |r| <= |s|
    ensures r == [] <==> s == []
    ensures r != [] ==> (IsSpace(r[0]) <==> IsSpace(s[0]))
    decreases |s|
  {
    if s == [] then []
    else if IsSpace(s[0]) then
      var rest := CollapseSpaces(LStrip(s[1..]));
      SingleSpacedCons(' ', rest);
      [' '] + rest
    else
      var rest := CollapseSpaces(s[1..]);
      SingleSpacedCons(s[0], rest);
      [s[0]] + rest
  }

  /** A single space before text that starts visibly, or a visible character before anything single-spaced, keeps it single-spaced. */
  lemma {:induction false} SingleSpacedCons(c: char, t: string)
    requires SingleSpaced(t)
    requires IsSpace(c) ==> c == ' ' && (t == [] || !IsSpace(t[0]))
    ensures SingleSpaced([c] + t)
  {
    var u := [c] + t;
    forall i | 1 <= i < |u| ensures u[i] == t[i - 1] {
    }
  }

  /** Collapsing keeps every visible character, in order. */
  lemma {:induction false} CollapseKeepsVisible(s: string)
    ensures Visible(CollapseSpaces(s)) == Visible(s)
    decreases |s|
  {
    if s != [] {
      if IsSpace(s[0]) {
        var rest := LStrip(s[1..]);
        CollapseKeepsVisible(rest);
        VisibleLStrip(s[1..]);
        VisibleAppend([' '], CollapseSpaces(rest));
      } else {
        CollapseKeepsVisible(s[1..]);
        VisibleAppend([s[0]], CollapseSpaces(s[1..]));
      }
    }
  }

  /** Leading whitespace followed by a visible character (or nothing) strips to what follows. */
  lemma {:induction false} LStripSpaces(w: string, b: string)
    requires forall k :: 0 <= k < |w| ==> IsSpace(w[k])
    requires b == [] || !IsSpace(b[0])
    ensures LStrip(w + b) == b
    decreases |w|
  {
    if w == [] {
      assert w + b == b;
    } else {
      assert (w + b)[0] == w[0] && (w + b)[1..] == w[1..] + b;
      LStripSpaces(w[1..], b);
    }
  }

  /** Text that ends visibly keeps what follows it when its leading whitespace is stripped. */
  lemma {:induction false} LStripConcat(a: string, b: string)
    requires a != [] && !IsSpace(a[|a| - 1])
    ensures LStrip(a + b) == LStrip(a) + b
    decreases |a|
  {
    assert (a + b)[0] == a[0] && (a + b)[1..] == a[1..] + b;
    if IsSpace(a[0]) {
      LStripConcat(a[1..], b);
    }
  }

  /** Collapsing text that ends visibly, then what follows, is collapsing the two together. */
  lemma {:induction false} CollapseConcat(a: string, b: string)
    requires a == [] || !IsSpace(a[|a| - 1])
    ensures CollapseSpaces(a + b) == CollapseSpaces(a) + CollapseSpaces(b)
    decreases |a|
  {
    if a == [] {
      assert a + b == b;
    } else {
      var t := a[1..];
      var h := if IsSpace(a[0]) then LStrip(t) else t;
      var c := if IsSpace(a[0]) then ' ' else a[0];
      assert CollapseSpaces(a + b) == [c] + CollapseSpaces(h + b) by {
        assert (a + b)[0] == a[0] && (a + b)[1..] == t + b;
        if IsSpace(a[0]) {
          assert t != [] && t[|t| - 1] == a[|a| - 1];
          LStripConcat(t, b);
        }
      }
      assert CollapseSpaces(h + b) == CollapseSpaces(h) + CollapseSpaces(b) by {
        assert h == [] || h[|h| - 1] == a[|a| - 1];
        CollapseConcat(h, b);
      }
      assert CollapseSpaces(a) == [c] + CollapseSpaces(h);
      ConcatAssoc([c], CollapseSpaces(h), CollapseSpaces(b));
    }
  }

  lemma {:induction false} ConcatAssoc(x: string, y: string, z: string)
    ensures x + (y + z) == (x + y) + z
  {
  }

  /** Whitespace followed by a visible character (or nothing) collapses to one space. */
  lemma {:induction false} CollapseLeadingRun(w: string, b: string)
    requires w != [] && forall k :: 0 <= k < |w| ==> IsSpace(w[k])
    requires b == [] || !IsSpace(b[0])
    ensures CollapseSpaces(w + b) == [' '] + CollapseSpaces(b)
  {
    assert (w + b)[0] == w[0] && (w + b)[1..] == w[1..] + b;
    LStripSpaces(w[1..], b);
  }

  /**
   * A run of whitespace between two visible stretches becomes exactly one
   * space, whatever its length and kind.
   */
  lemma {:induction false} CollapseRun(a: string, w: string, b: string)
    requires a == [] || !IsSpace(a[|a| - 1])
    requires w != [] && forall k :: 0 <= k < |w| ==> IsSpace(w[k])
    requires b == [] || !IsSpace(b[0])
    ensures CollapseSpaces(a + w + b) == CollapseSpaces(a) + " " + CollapseSpaces(b)
  {
    ConcatAssoc(a, w, b);
    CollapseConcat(a, w + b);
    CollapseLeadingRun(w, b);
    ConcatAssoc(CollapseSpaces(a), [' '], CollapseSpaces(b));
  }

  /** A text without whitespace is left as it is. */
  lemma {:induction false} CollapseVisible(s: string)
    requires forall k :: 0 <= k < |s| ==> !IsSpace(s[k])
    ensures CollapseSpaces(s) == s
    decreases |s|
  {
    if s != [] {
      CollapseVisible(s[1..]);
    }
  }

  // ---------------------------------------------------------------------
  // Slicing and replacing

  // ---------------------------------------------------------------------

  /** Python's `s[:n]`. */
  function Prefix(s: string, n: nat): (r: string)
    ensures |r| <= n && r <= s
    ensures |s| <= n ==> r == s
    ensures |s| > n ==> |r| == n
  {
    if |s| <= n then s else s[..n]
  }

  /** Stripping then cutting keeps a prefix of the visible characters; all of them when nothing is cut. */
  lemma {:induction false} StripPrefixVisible(c: string, n: nat)
    ensures Visible(Prefix(Strip(c), n)) <= Visible(c)
    ensures |Strip(c)| <= n ==> Visible(Prefix(Strip(c), n)) == Visible(c)
  {
    var s := Strip(c);
    StripVisible(c);
    PrefixVisible(s, |Prefix(s, n)|);
    assert Prefix(s, n) == s[..|Prefix(s, n)|];
  }

  /** Stripping then cutting a single-spaced string leaves it single-spaced, without leading whitespace. */
  lemma {:induction false} StripPrefixSingleSpaced(c: string, n: nat)
    requires SingleSpaced(c)
    ensures var r := Prefix(Strip(c), n); SingleSpaced(r) && (r == [] || !IsSpace(r[0]))
  {
    var s := Strip(c);
    var a, b :| 0 <= a <= b <= |c| && s == c[a..b];
    SingleSpacedSlice(c, a, b);
    SingleSpacedSlice(s, 0, |Prefix(s, n)|);
    assert Prefix(s, n) == s[..|Prefix(s, n)|];
  }

  /**
   * The title cleaning `re.sub(r'\s+', ' ', t).strip()[:100]`: single-spaced, no
   * leading whitespace, its visible characters a prefix of those of `t`, and all
   * of them when nothing was cut; otherwise the first 100 characters of the
   * collapsed and stripped text.
   */
  lemma {:induction false} CleanTitle(t: string)
    ensures var title := Prefix(Strip(CollapseSpaces(t)), 100);
      && SingleSpaced(title) && (title == [] || !IsSpace(title[0]))
      && Visible(title) <= Visible(t)
      && (|Strip(CollapseSpaces(t))| <= 100 ==> Visible(title) == Visible(t))
      && title <= Strip(CollapseSpaces(t))
      && (|Strip(CollapseSpaces(t))| > 100 ==> |title| == 100)
  {
    CollapseKeepsVisible(t);
    StripPrefixVisible(CollapseSpaces(t), 100);
    StripPrefixSingleSpaced(CollapseSpaces(t), 100);
  }
  /** Python's `s.replace(' ', '')`: every other character is kept, as often as it occurs. */
  function RemoveSpaces(s: string): (r: string)
    ensures ' ' !in r
    ensures forall c :: c != ' ' ==> multiset(r)[c] == multiset(s)[c]
  {
    if s == [] then []
    else
      var rest := RemoveSpaces(s[1..]);
      assert s == [s[0]] + s[1..];
      if s[0] == ' ' then rest else [s[0]] + rest
  }

  /** `replace` works piece by piece. */
  lemma {:induction false} RemoveSpacesAppend(a: string, b: string)
    ensures RemoveSpaces(a + b) == RemoveSpaces(a) + RemoveSpaces(b)
    decreases |a|
  {
    if a == [] {
      assert a + b == b;
    } else {
      assert (a + b)[0] == a[0] && (a + b)[1..] == a[1..] + b;
      RemoveSpacesAppend(a[1..], b);
    }
  }

  /** On one character: a space is dropped, anything else is kept. */
  lemma RemoveSpacesOne(c: char)
    ensures RemoveSpaces([c]) == if c == ' ' then [] else [c]
  {
    assert [c][1..] == [];
  }

  // ---------------------------------------------------------------------
  // Decimal numerals: `f"{n}"` for a non-negative `n`
  // ---------------------------------------------------------------------

  function DigitChar(d: nat): (c: char)
    requires d < 10
  {
    ('0' as int + d) as char
  }

  /** `f"{n}"`: the decimal digits of `n`, most significant first. */
  function NatToString(n: nat): (r: string)
    ensures r != []
    ensures forall i :: 0 <= i < |r| ==> '0' <= r[i] <= '9'
    ensures |r| == 1 <==> n < 10
    ensures n > 0 ==> r[0] != '0'
    ensures |r| == 1 || r[0] != '0'
  {
    if n < 10 then [DigitChar(n)] else NatToString(n / 10) + [DigitChar(n % 10)]
  }

  /** The number a string of decimal digits denotes (Python's `int(s)`). */
  function ParseNat(s: string): nat
    requires forall i :: 0 <= i < |s| ==> '0' <= s[i] <= '9'
  {
    if s == [] then 0 else ParseNat(s[..|s| - 1]) * 10 + (s[|s| - 1] as int - '0' as int)
  }

  /** The decimal numeral of `n` reads back as `n`. */
  lemma {:induction false} NatToStringRoundTrip(n: nat)
    ensures ParseNat(NatToString(n)) == n
  {
    if n >= 10 {
      var s := NatToString(n);
      assert s[..|s| - 1] == NatToString(n / 10);
      NatToStringRoundTrip(n / 10);
    }
  }
}
