/**
 * String helpers shared by the tools: JavaScript's `trim`, `toLowerCase`,
 * `replace(/\s+/g, '-')`, `includes`, `replace('_', ' ')` and decimal rendering
 * of numbers, restricted to ASCII letters and ASCII whitespace.
 */
module Text {

  /** The ASCII characters matched by JavaScript's `\s` and removed by `trim`. */
  predicate IsSpace(c: char) {
    c == ' ' || c == '\t' || c == '\n' || c == '\r' || c as int == 11 || c as int == 12
  }

  /** `!s.trim()` in the source: the string is empty after trimming. */
  predicate IsBlank(s: string) {
    forall i :: 0 <= i < |s| ==> IsSpace(s[i])
  }

  /** The text holds no whitespace character at all. */
  predicate NoSpace(s: string) {
    forall i :: 0 <= i < |s| ==> !IsSpace(s[i])
  }

  /** Drops leading whitespace. */
  function TrimStart(s: string): (r: string)
    ensures |r| <= |s|
    ensures r == [] || !IsSpace(r[0])
    ensures forall i :: 0 <= i < |s| - |r| ==> IsSpace(s[i])
    ensures s != [] && IsSpace(s[0]) ==> |r| < |s|
  {
    if s != [] && IsSpace(s[0]) then TrimStart(s[1..]) else s
  }

  /** What `TrimStart` keeps is a suffix of its input. */
  lemma {:induction false} TrimStartSuffix(s: string)
    ensures TrimStart(s) == s[|s| - |TrimStart(s)|..]
    decreases |s|
  {
    if s != [] && IsSpace(s[0]) {
      TrimStartSuffix(s[1..]);
    }
  }

  /** Drops trailing whitespace. */
  function TrimEnd(s: string): (r: string)
    ensures |r| <= |s| && r == s[..|r|]
    ensures r == [] || !IsSpace(r[|r| - 1])
    ensures forall i :: |r| <= i < |s| ==> IsSpace(s[i])
  {
    if s != [] && IsSpace(s[|s| - 1]) then TrimEnd(s[..|s| - 1]) else s
  }

  /** `String.prototype.trim`: a contiguous slice of `s` with no whitespace at either end. */
  function Trim(s: string): (r: string)
    ensures r == [] || (!IsSpace(r[0]) && !IsSpace(r[|r| - 1]))
    ensures |r| <= |s|
    ensures r == "" <==> IsBlank(s)
  {
    TrimSlice(s);
    TrimEnd(TrimStart(s))
  }

  lemma TrimSlice(s: string)
    ensures TrimEnd(TrimStart(s)) == "" <==> IsBlank(s)
  {
    var t := TrimStart(s);
    if TrimEnd(t) == "" {
      assert t == [];
    }
  }

  lemma BlankIffTrimEmpty(s: string)
    ensures IsBlank(s) <==> Trim(s) == ""
  {
  }

  function LowerChar(c: char): char {
    if 'A' <= c <= 'Z' then (c as int + 32) as char else c
  }

  /** `String.prototype.toLowerCase` on ASCII letters. */
  function ToLower(s: string): (r: string)
    ensures |r| == |s|
    ensures forall i :: 0 <= i < |s| ==> r[i] == LowerChar(s[i])
  {
    seq(|s|, i requires 0 <= i < |s| => LowerChar(s[i]))
  }

  /** `s.replace(/\s+/g, '-')`: every maximal run of whitespace becomes one hyphen. */
  function HyphenateSpaces(s: string): (r: string)
    ensures |r| <= |s|
    ensures forall i :: 0 <= i < |r| ==> !IsSpace(r[i])
    ensures s != [] && IsBlank(s) ==> r == "-"
    decreases |s|
  {
    if s == [] then []
    else if IsSpace(s[0]) then
      TrimStartSuffix(s);
      "-" + HyphenateSpaces(TrimStart(s))
    else [s[0]] + HyphenateSpaces(s[1..])
  }

  /** Text without whitespace passes through `replace(/\s+/g, '-')` unchanged. */
  lemma {:induction false} HyphenateNoSpace(s: string)
    requires NoSpace(s)
    ensures HyphenateSpaces(s) == s
    decreases |s|
  {
    if s != [] {
      HyphenateNoSpace(s[1..]);
      assert [s[0]] + s[1..] == s;
    }
  }

  /**
   * The file-name slug of the PRD exports: `title.replace(/\s+/g, '-').toLowerCase()`.
   * The result has no whitespace and no upper-case ASCII letter.
   */
  function Slug(s: string): (r: string)
    ensures |r| <= |s|
    ensures forall i :: 0 <= i < |r| ==> !IsSpace(r[i]) && !('A' <= r[i] <= 'Z')
  {
    var h := HyphenateSpaces(s);
    assert forall i :: 0 <= i < |h| ==> !IsSpace(LowerChar(h[i]));
    ToLower(h)
  }

  lemma LowerKeepsSpace(c: char)
    ensures IsSpace(LowerChar(c)) <==> IsSpace(c)
  {
  }

  lemma {:induction false} TrimStartLower(s: string)
    ensures TrimStart(ToLower(s)) == ToLower(TrimStart(s))
    decreases |s|
  {
    if s != [] {
      LowerKeepsSpace(s[0]);
      assert ToLower(s)[1..] == ToLower(s[1..]);
      if IsSpace(s[0]) {
        TrimStartLower(s[1..]);
      }
    }
  }

  /**
   * The persona and template exports lower-case first and hyphenate second
   * (`name.toLowerCase().replace(/\s+/g, '-')`); on ASCII the two orders agree.
   */
  lemma {:induction false} LowerThenHyphenate(s: string)
    ensures HyphenateSpaces(ToLower(s)) == Slug(s)
    decreases |s|
  {
    if s != [] {
      var l := ToLower(s);
      LowerKeepsSpace(s[0]);
      if IsSpace(s[0]) {
        var rest := TrimStart(s);
        assert HyphenateSpaces(l) == "-" + HyphenateSpaces(TrimStart(l));
        TrimStartLower(s);
        LowerThenHyphenate(rest);
        ToLowerAppend("-", HyphenateSpaces(rest));
        assert Slug(s) == ToLower("-" + HyphenateSpaces(rest));
      } else {
        assert l == [LowerChar(s[0])] + ToLower(s[1..]);
        assert HyphenateSpaces(l) == [LowerChar(s[0])] + HyphenateSpaces(ToLower(s[1..]));
        LowerThenHyphenate(s[1..]);
        ToLowerAppend([s[0]], HyphenateSpaces(s[1..]));
        assert Slug(s) == ToLower([s[0]] + HyphenateSpaces(s[1..]));
      }
    }
  }

  lemma ToLowerAppend(a: string, b: string)
    ensures ToLower(a + b) == ToLower(a) + ToLower(b)
  {
  }

  /** Whitespace followed by text that starts with a non-space trims to that text. */
  lemma {:induction false} TrimStartBlank(w: string, b: string)
    requires IsBlank(w)
    requires b == [] || !IsSpace(b[0])
    ensures TrimStart(w + b) == b
    decreases |w|
  {
    if w != [] {
      assert (w + b)[1..] == w[1..] + b;
      TrimStartBlank(w[1..], b);
    }
  }

  /** Leading whitespace of `a` is all that `TrimStart` removes when `a` ends in a non-space. */
  lemma {:induction false} TrimStartAppend(a: string, s: string)
    requires a != [] && !IsSpace(a[|a| - 1])
    ensures TrimStart(a + s) == TrimStart(a) + s
    decreases |a|
  {
    if IsSpace(a[0]) {
      assert (a + s)[1..] == a[1..] + s;
      TrimStartAppend(a[1..], s);
    }
  }

  /** A cut after a non-space character is not inside a whitespace run, so the text hyphenates piecewise. */
  lemma {:induction false} HyphenateAppend(a: string, s: string)
    requires a == [] || !IsSpace(a[|a| - 1])
    ensures HyphenateSpaces(a + s) == HyphenateSpaces(a) + HyphenateSpaces(s)
    decreases |a|
  {
    if a == [] {
      assert a + s == s;
    } else {
      var as_ := a + s;
      assert as_[0] == a[0];
      if IsSpace(a[0]) {
        var t := TrimStart(a);
        TrimStartAppend(a, s);
        TrimStartSuffix(a);
        assert t != [] && t[|t| - 1] == a[|a| - 1];
        HyphenateAppend(t, s);
        calc {
          HyphenateSpaces(as_);
          "-" + HyphenateSpaces(TrimStart(as_));
          "-" + HyphenateSpaces(t + s);
          "-" + (HyphenateSpaces(t) + HyphenateSpaces(s));
          ("-" + HyphenateSpaces(t)) + HyphenateSpaces(s);
        }
      } else {
        var rest := a[1..];
        assert as_[1..] == rest + s;
        assert rest == [] || !IsSpace(rest[|rest| - 1]);
        HyphenateAppend(rest, s);
        calc {
          HyphenateSpaces(as_);
          [a[0]] + HyphenateSpaces(as_[1..]);
          [a[0]] + (HyphenateSpaces(rest) + HyphenateSpaces(s));
          ([a[0]] + HyphenateSpaces(rest)) + HyphenateSpaces(s);
        }
      }
    }
  }

  /**
   * `replace(/\s+/g, '-')` on a maximal whitespace run `w` between `a` and `b`: the run becomes a single
   * `-` and the text on either side is hyphenated on its own.
   */
  lemma {:induction false} HyphenateRun(a: string, w: string, b: string)
    requires a == [] || !IsSpace(a[|a| - 1])
    requires w != [] && IsBlank(w)
    requires b == [] || !IsSpace(b[0])
    ensures HyphenateSpaces(a + w + b) == HyphenateSpaces(a) + "-" + HyphenateSpaces(b)
  {
    var wb := w + b;
    assert a + w + b == a + wb;
    HyphenateAppend(a, wb);
    HyphenateBlankPrefix(w, b);
    var ha, hb := HyphenateSpaces(a), HyphenateSpaces(b);
    assert ha + ("-" + hb) == ha + "-" + hb;
  }

  lemma HyphenateBlankPrefix(w: string, b: string)
    requires w != [] && IsBlank(w)
    requires b == [] || !IsSpace(b[0])
    ensures HyphenateSpaces(w + b) == "-" + HyphenateSpaces(b)
  {
    var wb := w + b;
    assert wb[0] == w[0];
    TrimStartBlank(w, b);
  }

  /**
   * The slug of a title with a whitespace run: the part before, one `-`, the part after, each
   * lower-cased; text without whitespace is only lower-cased.
   */
  lemma {:induction false} SlugRun(a: string, w: string, b: string)
    requires a == [] || !IsSpace(a[|a| - 1])
    requires w != [] && IsBlank(w)
    requires b == [] || !IsSpace(b[0])
    ensures Slug(a + w + b) == Slug(a) + "-" + Slug(b)
    ensures NoSpace(a) ==> Slug(a) == ToLower(a)
  {
    if NoSpace(a) {
      HyphenateNoSpace(a);
    }
    var ha, hb := HyphenateSpaces(a), HyphenateSpaces(b);
    HyphenateRun(a, w, b);
    ToLowerAppend(ha + "-", hb);
    ToLowerAppend(ha, "-");
    assert ToLower("-") == "-";
    calc {
      Slug(a + w + b);
      ToLower(ha + "-" + hb);
      ToLower(ha + "-") + ToLower(hb);
      ToLower(ha) + ToLower("-") + ToLower(hb);
      Slug(a) + "-" + Slug(b);
    }
  }

  /** `needle` occurs in `hay` starting at index `i`. */
  predicate OccursAt(hay: string, needle: string, i: int) {
    0 <= i <= |hay| - |needle| && hay[i..i + |needle|] == needle
  }

  /** `hay.includes(needle)`, a left-to-right search. */
  function Contains(hay: string, needle: string): (b: bool)
    ensures b <==> exists i :: OccursAt(hay, needle, i)
    decreases |hay|
  {
    if needle <= hay then
      assert OccursAt(hay, needle, 0);
      true
    else if hay == [] then
      assert forall i :: !OccursAt(hay, needle, i);
      false
    else
      var b := Contains(hay[1..], needle);
      assert forall i :: OccursAt(hay[1..], needle, i) <==> OccursAt(hay, needle, i + 1) by {
        forall i ensures OccursAt(hay[1..], needle, i) <==> OccursAt(hay, needle, i + 1) {
          if 0 <= i <= |hay| - 1 - |needle| {
            assert hay[1..][i..i + |needle|] == hay[i + 1..i + 1 + |needle|];
          }
        }
      }
      assert !OccursAt(hay, needle, 0);
      if b then
        var j :| OccursAt(hay[1..], needle, j);
        assert OccursAt(hay, needle, j + 1);
        b
      else
        assert forall i :: OccursAt(hay, needle, i) ==> OccursAt(hay[1..], needle, i - 1);
        b
  }

  /** Position of the first `c` in `s`, or `|s|` when there is none. */
  function IndexOf(s: string, c: char): (k: nat)
    ensures k <= |s|
    ensures k < |s| <==> c in s
    ensures k < |s| ==> s[k] == c
    ensures forall i :: 0 <= i < k ==> s[i] != c
  {
    if s == [] then 0 else if s[0] == c then 0 else 1 + IndexOf(s[1..], c)
  }

  /** `s.replace(from, to)` with a one-character string pattern: only the first match is replaced. */
  function ReplaceFirst(s: string, from: char, to: char): (r: string)
    ensures r == if from in s then s[IndexOf(s, from) := to] else s
  {
    if s == [] then []
    else if s[0] == from then [to] + s[1..]
    else [s[0]] + ReplaceFirst(s[1..], from, to)
  }

  /** The first `from` is the one after a prefix free of `from`, and only it is replaced. */
  lemma ReplaceFirstSplit(a: string, b: string, from: char, to: char)
    requires from !in a
    ensures ReplaceFirst(a + [from] + b, from, to) == a + [to] + b
  {
    var s := a + [from] + b;
    assert s[|a|] == from;
    var k := IndexOf(s, from);
    assert forall i :: 0 <= i < |a| ==> s[i] == a[i];
    assert k == |a|;
    assert s[|a| := to] == a + [to] + b;
  }

  function DigitChar(d: nat): char
    requires d < 10
  {
    ('0' as int + d) as char
  }

  predicate IsDigits(s: string) {
    forall i :: 0 <= i < |s| ==> '0' <= s[i] <= '9'
  }

  /** JavaScript's decimal rendering of a non-negative integer (`${n}`): no leading zeros. */
  function NatToString(n: nat): (r: string)
    ensures |r| >= 1 && IsDigits(r)
    ensures |r| > 1 ==> r[0] != '0'
  {
    if n < 10 then [DigitChar(n)] else NatToString(n / 10) + [DigitChar(n % 10)]
  }

  /** The value of a string of decimal digits. */
  function DecimalValue(s: string): nat
    requires IsDigits(s)
  {
    if s == [] then 0 else DecimalValue(s[..|s| - 1]) * 10 + (s[|s| - 1] as int - '0' as int)
  }

  /** Rendering a number and reading it back gives the number: the rendering loses nothing. */
  lemma {:induction false} DecimalRoundTrip(n: nat)
    ensures DecimalValue(NatToString(n)) == n
  {
    if n >= 10 {
      DecimalRoundTrip(n / 10);
      var s := NatToString(n);
      assert s[..|s| - 1] == NatToString(n / 10);
    }
  }

  /** Distinct numbers render differently, so ids built from distinct clock readings are distinct. */
  lemma NatToStringInjective(m: nat, n: nat)
    ensures NatToString(m) == NatToString(n) ==> m == n
  {
    DecimalRoundTrip(m);
    DecimalRoundTrip(n);
  }

  /** String concatenation of a list of pieces, left to right (`pieces.join('')`, or a run of `+=`). */
  function Concat(ss: seq<string>): string {
    if ss == [] then "" else Concat(ss[..|ss| - 1]) + ss[|ss| - 1]
  }

  lemma {:induction false} ConcatAppend(a: seq<string>, b: seq<string>)
    ensures Concat(a + b) == Concat(a) + Concat(b)
    decreases |b|
  {
    if b == [] {
      assert a + b == a;
    } else {
      var b' := b[..|b| - 1];
      assert (a + b)[..|a + b| - 1] == a + b';
      ConcatAppend(a, b');
    }
  }

  /** Piece `i` sits between the pieces before it and the pieces after it. */
  lemma ConcatAt(ss: seq<string>, i: nat)
    requires i < |ss|
    ensures Concat(ss) == Concat(ss[..i]) + ss[i] + Concat(ss[i + 1..])
  {
    var pre, post := ss[..i + 1], ss[i + 1..];
    assert ss == pre + post;
    ConcatAppend(pre, post);
    ConcatSnoc(ss, i);
  }

  /** One step of a left-to-right build: the prefix of length `i + 1` adds piece `i`. */
  lemma ConcatSnoc(ss: seq<string>, i: nat)
    requires i < |ss|
    ensures Concat(ss[..i + 1]) == Concat(ss[..i]) + ss[i]
  {
    assert ss[..i + 1][..i] == ss[..i];
  }

  /** One piece per element, in order (`xs.map(f)`). */
  function Pieces<T>(xs: seq<T>, f: T -> string): (r: seq<string>)
    ensures |r| == |xs|
    ensures forall i :: 0 <= i < |xs| ==> r[i] == f(xs[i])
  {
    seq(|xs|, i requires 0 <= i < |xs| => f(xs[i]))
  }

  /** The piece of element `j` sits between the pieces of the elements before and after it. */
  lemma PiecesAt<T>(xs: seq<T>, f: T -> string, j: nat)
    requires j < |xs|
    ensures Concat(Pieces(xs, f)) == Concat(Pieces(xs[..j], f)) + f(xs[j]) + Concat(Pieces(xs[j + 1..], f))
  {
    var ps := Pieces(xs, f);
    ConcatAt(ps, j);
    assert ps[..j] == Pieces(xs[..j], f);
    assert ps[j + 1..] == Pieces(xs[j + 1..], f);
  }

  lemma PiecesAppend<T>(a: seq<T>, b: seq<T>, f: T -> string)
    ensures Concat(Pieces(a + b, f)) == Concat(Pieces(a, f)) + Concat(Pieces(b, f))
  {
    assert Pieces(a + b, f) == Pieces(a, f) + Pieces(b, f);
    ConcatAppend(Pieces(a, f), Pieces(b, f));
  }

  lemma AppendAssoc<T>(a: seq<T>, b: seq<T>, c: seq<T>)
    ensures a + b + c == a + (b + c)
  {
  }

  lemma PrefixOfAppend(a: string, b: string)
    ensures a <= a + b
  {
    assert (a + b)[..|a|] == a;
  }

  /** An id of the form `${prefix}-${Date.now()}`, from a clock reading in milliseconds. */
  function StampId(prefix: string, now: nat): string {
    prefix + "-" + NatToString(now)
  }

  /** Ids stamped with the same prefix at different clock readings differ. */
  lemma StampIdsDistinct(prefix: string, m: nat, n: nat)
    requires m != n
    ensures StampId(prefix, m) != StampId(prefix, n)
  {
    NatToStringInjective(m, n);
    assert StampId(prefix, m)[|prefix| + 1..] == NatToString(m);
    assert StampId(prefix, n)[|prefix| + 1..] == NatToString(n);
  }
}
