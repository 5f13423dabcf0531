/** Text helpers shared by both generations: separator joins (what a StringBuilder
    loop followed by a trim produces), whitespace tests and ordinal case folding. */
module Strings {
  import opened Common

  /** `parts` separated by `sep`: String.Join, and what the builders below are proved to produce. */
  function Join(sep: string, parts: seq<string>): string
    decreases |parts|
  {
    if |parts| == 0 then ""
    else if |parts| == 1 then parts[0]
    else Join(sep, parts[..|parts| - 1]) + sep + parts[|parts| - 1]
  }

  /** Every part followed by `sep`: a builder filled with `Append(part).Append(sep)`. */
  function Suffixed(parts: seq<string>, sep: string): string
    decreases |parts|
  {
    if |parts| == 0 then "" else Suffixed(parts[..|parts| - 1], sep) + parts[|parts| - 1] + sep
  }

  /** Every part preceded by `sep`: a builder filled with `Append(sep).Append(part)`. */
  function Prefixed(parts: seq<string>, sep: string): string
    decreases |parts|
  {
    if |parts| == 0 then "" else Prefixed(parts[..|parts| - 1], sep) + sep + parts[|parts| - 1]
  }

  lemma SuffixedAppend(parts: seq<string>, x: string, sep: string)
    ensures Suffixed(parts + [x], sep) == Suffixed(parts, sep) + x + sep
  {
    assert (parts + [x])[..|parts|] == parts;
  }

  lemma PrefixedAppend(parts: seq<string>, x: string, sep: string)
    ensures Prefixed(parts + [x], sep) == Prefixed(parts, sep) + sep + x
  {
    assert (parts + [x])[..|parts|] == parts;
  }

  /** Removing the final separator from a suffixed builder leaves the join. */
  lemma {:induction false} SuffixedIsJoin(parts: seq<string>, sep: string)
    requires |parts| > 0
    ensures Suffixed(parts, sep) == Join(sep, parts) + sep
  {
    if |parts| > 1 {
      SuffixedIsJoin(parts[..|parts| - 1], sep);
    } else {
      assert parts[..0] == [];
    }
  }

  /** Removing the leading separator from a prefixed builder leaves the join. */
  lemma {:induction false} PrefixedIsJoin(parts: seq<string>, sep: string)
    requires |parts| > 0
    ensures Prefixed(parts, sep) == sep + Join(sep, parts)
  {
    if |parts| > 1 {
      PrefixedIsJoin(parts[..|parts| - 1], sep);
    } else {
      assert parts[..0] == [];
    }
  }

  /** A prefixed builder is empty exactly when there are no parts; otherwise dropping its
      leading separator (`Remove(0, |sep|)` guarded by `Length > 0`) leaves the join. */
  lemma TrimmedLeading(parts: seq<string>, sep: string)
    requires |sep| > 0
    ensures var b := Prefixed(parts, sep);
            (|b| > 0 <==> |parts| > 0)
            && (|parts| > 0 ==> |b| >= |sep| && b[|sep|..] == Join(sep, parts))
  {
    if |parts| > 0 {
      PrefixedIsJoin(parts, sep);
    }
  }

  /** A suffixed builder is empty exactly when there are no parts; otherwise dropping its
      trailing separator leaves the join. */
  lemma TrimmedTrailing(parts: seq<string>, sep: string)
    requires |sep| > 0
    ensures var b := Suffixed(parts, sep);
            (|b| > 0 <==> |parts| > 0)
            && (|parts| > 0 ==> |b| >= |sep| && b[..|b| - |sep|] == Join(sep, parts))
  {
    if |parts| > 0 {
      SuffixedIsJoin(parts, sep);
    }
  }

  lemma AppendAssoc(a: string, b: string, c: string)
    ensures a + b + c == a + (b + c)
  {
  }

  lemma AppendAssoc4(a: string, b: string, c: string, d: string)
    ensures a + (b + c + d) == a + b + c + d
  {
  }

  /** Cutting `h + p + q + r` right after `h` and putting `x + y` into the cut. */
  lemma SpliceAfter(h: string, x: string, y: string, p: string, q: string, r: string)
    ensures var s := h + p + q + r;
            |h| <= |s| && s[..|h|] + x + y + s[|h|..] == h + x + y + p + q + r
  {
    var s := h + p + q + r;
    assert s[..|h|] == h;
    assert s[|h|..] == p + q + r;
  }

  /** Cutting the one-character closer `c` off `a + c`, appending `x + y` and closing again. */
  lemma ReopenAppend(a: string, c: string, x: string, y: string)
    requires |c| == 1
    ensures var s := a + c;
            |s| >= 1 && s[|s| - 1] == c[0] && s[..|s| - 1] + x + y + c == a + x + y + c
  {
    var s := a + c;
    assert s[..|s| - 1] == a;
  }

  /** A join is at least as long as its last part, so joining non-empty parts is non-empty. */
  lemma JoinAppend(sep: string, parts: seq<string>, x: string)
    requires |parts| > 0
    ensures Join(sep, parts + [x]) == Join(sep, parts) + sep + x
  {
    assert (parts + [x])[..|parts|] == parts;
  }

  lemma JoinCoversLast(sep: string, parts: seq<string>)
    requires |parts| > 0
    ensures |Join(sep, parts)| >= |parts[|parts| - 1]|
  {
  }

  /** `char.IsWhiteSpace`: the Unicode separator categories plus the control characters 9-13, 0x85. */
  predicate IsWhiteSpace(c: char)
  {
    c == ' ' || ('\t' <= c <= '\r') || c == '\U{0085}' || c == '\U{00A0}' || c == '\U{1680}'
    || ('\U{2000}' <= c <= '\U{200A}') || c == '\U{2028}' || c == '\U{2029}' || c == '\U{202F}'
    || c == '\U{205F}' || c == '\U{3000}'
  }

  /** `string.IsNullOrWhiteSpace`; `None` stands for a null string. */
  predicate IsNullOrWhiteSpace(s: Option<string>)
  {
    s.None? || forall i :: 0 <= i < |s.value| ==> IsWhiteSpace(s.value[i])
  }

  function ToUpperAscii(c: char): char
  {
    if 'a' <= c <= 'z' then (c as int - 32) as char else c
  }

  /** The key under which `StringComparer.OrdinalIgnoreCase` files a string (ASCII letters folded). */
  function FoldCase(s: string): (r: string)
    ensures |r| == |s|
  {
    seq(|s|, i requires 0 <= i < |s| => ToUpperAscii(s[i]))
  }

  /** Two characters are the same ignoring ASCII case: equal, or a lower-case ASCII letter and
      its upper-case partner. */
  predicate SameIgnoringAsciiCase(c: char, d: char)
  {
    c == d || ('a' <= c <= 'z' && d as int == c as int - 32) || ('a' <= d <= 'z' && c as int == d as int - 32)
  }

  /** Two names get the same key exactly when they have the same length and agree character by
      character up to ASCII case. */
  lemma FoldCaseSameKeyIff(a: string, b: string)
    ensures FoldCase(a) == FoldCase(b)
            <==> |a| == |b| && forall i :: 0 <= i < |a| ==> SameIgnoringAsciiCase(a[i], b[i])
  {
    if FoldCase(a) == FoldCase(b) {
      forall i | 0 <= i < |a|
        ensures SameIgnoringAsciiCase(a[i], b[i])
      {
        assert FoldCase(a)[i] == FoldCase(b)[i];
      }
    }
    if |a| == |b| && forall i :: 0 <= i < |a| ==> SameIgnoringAsciiCase(a[i], b[i]) {
      assert forall i :: 0 <= i < |a| ==> FoldCase(a)[i] == FoldCase(b)[i];
    }
  }

  /** Decimal rendering of a count, as `StringBuilder.Append(int)` writes it. */
  function NatToString(n: nat): (r: string)
    ensures |r| > 0
    decreases n
  {
    if n < 10 then [DigitChar(n)] else NatToString(n / 10) + [DigitChar(n % 10)]
  }

  function DigitChar(d: nat): char
    requires d < 10
  {
    ('0' as int + d) as char
  }
}
