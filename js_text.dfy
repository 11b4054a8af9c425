/** The JavaScript string operations the routes rely on:
    `String.prototype.trim`, `split(",")`, `join(",")`, `.map(trim).filter(Boolean)`,
    and a code-point approximation of `localeCompare` used for brand sorting. */
module JsText {

  /** The characters `trim` removes: ECMAScript WhiteSpace and LineTerminator. */
  predicate IsSpace(c: char) {
    || c == '\t' || c == '\n' || c == '\U{B}' || c == '\U{C}' || c == '\r' || c == ' '
    || c == '\U{A0}' || c == '\U{1680}' || ('\U{2000}' <= c <= '\U{200A}')
    || c == '\U{2028}' || c == '\U{2029}' || c == '\U{202F}' || c == '\U{205F}'
    || c == '\U{3000}' || c == '\U{FEFF}'
  }

  /** No white space at either end. */
  predicate Trimmed(s: string) {
    s == [] || (!IsSpace(s[0]) && !IsSpace(s[|s| - 1]))
  }

  /** Number of leading white-space characters `trim` drops. */
  function Lead(s: string): (n: nat)
    ensures n <= |s|
    ensures forall i :: 0 <= i < n ==> IsSpace(s[i])
    ensures n < |s| ==> !IsSpace(s[n])
    decreases |s|
  {
    if s != [] && IsSpace(s[0]) then
      var m := Lead(s[1..]);
      assert forall i :: 1 <= i < |s| ==> s[i] == s[1..][i - 1];
      1 + m
    else 0
  }

  /** Number of trailing white-space characters `trim` drops. */
  function Trail(s: string): (n: nat)
    ensures n <= |s|
    ensures forall i :: |s| - n <= i < |s| ==> IsSpace(s[i])
    ensures n < |s| ==> !IsSpace(s[|s| - n - 1])
    decreases |s|
  {
    if s != [] && IsSpace(s[|s| - 1]) then
      var m := Trail(s[..|s| - 1]);
      assert forall i :: 0 <= i < |s| - 1 ==> s[..|s| - 1][i] == s[i];
      1 + m
    else 0
  }

  /** `s.trim()`: the slice of `s` left after dropping white space at both ends. */
  function Trim(s: string): (r: string)
    ensures Trimmed(r)
    ensures Lead(s) + |r| <= |s| && r == s[Lead(s)..Lead(s) + |r|]
    ensures forall i :: 0 <= i < Lead(s) ==> IsSpace(s[i])
    ensures forall i :: Lead(s) + |r| <= i < |s| ==> IsSpace(s[i])
  {
    var a := Lead(s);
    var b := Trail(s[a..]);
    BothEnds(s, a, b);
    s[a..|s| - b]
  }

  /** Cutting `a` white-space characters from the front and then `b` from the back
      leaves a trimmed slice of `s`. */
  lemma BothEnds(s: string, a: nat, b: nat)
    requires a <= |s|
    requires a < |s| ==> !IsSpace(s[a])
    requires b <= |s| - a
    requires forall i :: |s| - a - b <= i < |s| - a ==> IsSpace(s[a..][i])
    requires b < |s| - a ==> !IsSpace(s[a..][|s| - a - b - 1])
    ensures Trimmed(s[a..|s| - b])
    ensures forall i :: |s| - b <= i < |s| ==> IsSpace(s[i])
  {
    var r := s[a..|s| - b];
    if r != [] {
      assert r[0] == s[a];
      assert r[|r| - 1] == s[a..][|s| - a - b - 1];
    }
    forall i | |s| - b <= i < |s| ensures IsSpace(s[i]) {
      assert s[i] == s[a..][i - a];
    }
  }

  lemma TrimmedIsFixed(s: string)
    requires Trimmed(s)
    ensures Trim(s) == s
  {
  }

  lemma TrimKeepsOut(s: string, c: char)
    requires c !in s
    ensures c !in Trim(s)
  {
    var r := Trim(s);
    forall i | 0 <= i < |r| ensures r[i] != c {
      assert r[i] == s[Lead(s) + i];
    }
  }

  /** `s.split(sep)` for a one-character separator: `""` gives `[""]`,
      and adjacent separators give empty pieces. */
  function Split(s: string, sep: char): (r: seq<string>)
    ensures |r| >= 1
    ensures forall i :: 0 <= i < |r| ==> sep !in r[i]
    decreases |s|
  {
    if s == [] then [[]]
    else
      var rest := Split(s[1..], sep);
      if s[0] == sep then [[]] + rest else [[s[0]] + rest[0]] + rest[1..]
  }

  /** `parts.join(sep)`. */
  function Join(parts: seq<string>, sep: char): string
    decreases |parts|
  {
    if parts == [] then []
    else if |parts| == 1 then parts[0]
    else parts[0] + [sep] + Join(parts[1..], sep)
  }

  lemma {:induction false} JoinSplit(s: string, sep: char)
    ensures Join(Split(s, sep), sep) == s
    decreases |s|
  {
    if s != [] {
      var rest := Split(s[1..], sep);
      JoinSplit(s[1..], sep);
      if s[0] == sep {
        assert Split(s, sep) == [[]] + rest;
        assert ([[]] + rest)[1..] == rest;
        assert Join(Split(s, sep), sep) == [] + [sep] + Join(rest, sep);
      } else {
        var parts := [[s[0]] + rest[0]] + rest[1..];
        assert Split(s, sep) == parts;
        assert parts[1..] == rest[1..];
        if |rest| == 1 {
          assert Join(rest, sep) == rest[0];
        } else {
          assert Join(rest, sep) == rest[0] + [sep] + Join(rest[1..], sep);
          assert Join(parts, sep) == [s[0]] + rest[0] + [sep] + Join(rest[1..], sep);
        }
        assert s == [s[0]] + s[1..];
      }
    }
  }

  lemma {:induction false} SplitPrefix(p: string, t: string, sep: char)
    requires sep !in p
    ensures Split(p + t, sep) == [p + Split(t, sep)[0]] + Split(t, sep)[1..]
    decreases |p|
  {
    if p == [] {
      assert p + t == t;
      var st := Split(t, sep);
      assert p + st[0] == st[0];
      assert [st[0]] + st[1..] == st;
    } else {
      assert (p + t)[0] == p[0] && (p + t)[1..] == p[1..] + t;
      SplitPrefix(p[1..], t, sep);
      assert [p[0]] + (p[1..] + Split(t, sep)[0]) == p + Split(t, sep)[0];
    }
  }

  lemma {:induction false} SplitJoin(parts: seq<string>, sep: char)
    requires |parts| >= 1
    requires forall i :: 0 <= i < |parts| ==> sep !in parts[i]
    ensures Split(Join(parts, sep), sep) == parts
    decreases |parts|
  {
    if |parts| == 1 {
      SplitPrefix(parts[0], [], sep);
      assert parts[0] + [] == parts[0];
    } else {
      var tail := Join(parts[1..], sep);
      SplitJoin(parts[1..], sep);
      var st := [sep] + tail;
      assert Join(parts, sep) == parts[0] + st;
      assert st[0] == sep && st[1..] == tail;
      assert Split(st, sep) == [[]] + parts[1..];
      SplitPrefix(parts[0], st, sep);
      assert parts[0] + Split(st, sep)[0] == parts[0];
      assert Split(st, sep)[1..] == parts[1..];
      assert [parts[0]] + parts[1..] == parts;
    }
  }

  /** `xs.map(s => s.trim())`. */
  function TrimAll(parts: seq<string>): (r: seq<string>)
    ensures |r| == |parts|
    ensures forall i :: 0 <= i < |parts| ==> r[i] == Trim(parts[i])
  {
    seq(|parts|, i requires 0 <= i < |parts| => Trim(parts[i]))
  }

  /** `xs.filter(Boolean)` on strings: keep the non-empty ones, in order. */
  function NonEmpty(xs: seq<string>): (r: seq<string>)
    ensures |r| <= |xs|
    ensures forall i :: 0 <= i < |r| ==> r[i] != [] && r[i] in xs
    decreases |xs|
  {
    if xs == [] then []
    else (if xs[0] == [] then [] else [xs[0]]) + NonEmpty(xs[1..])
  }

  lemma {:induction false} NonEmptyKeeps(xs: seq<string>, i: nat)
    requires i < |xs| && xs[i] != []
    ensures xs[i] in NonEmpty(xs)
    decreases |xs|
  {
    if i > 0 {
      assert xs[i] == xs[1..][i - 1];
      NonEmptyKeeps(xs[1..], i - 1);
    }
  }

  /** `xs.map(s => s.trim()).filter(Boolean)`: trim every piece, drop empty ones. */
  function TrimNonEmpty(parts: seq<string>): (r: seq<string>)
    ensures |r| <= |parts|
    ensures forall i :: 0 <= i < |r| ==> r[i] != [] && Trimmed(r[i])
  {
    var t := TrimAll(parts);
    assert forall x :: x in t ==> Trimmed(x);
    NonEmpty(t)
  }

  /** Every piece that is not all white space survives, trimmed. */
  lemma TrimNonEmptyKeeps(parts: seq<string>, i: nat)
    requires i < |parts| && Trim(parts[i]) != []
    ensures Trim(parts[i]) in TrimNonEmpty(parts)
  {
    NonEmptyKeeps(TrimAll(parts), i);
  }

  lemma TrimNonEmptyKeepsOut(parts: seq<string>, c: char)
    requires forall i :: 0 <= i < |parts| ==> c !in parts[i]
    ensures forall i :: 0 <= i < |TrimNonEmpty(parts)| ==> c !in TrimNonEmpty(parts)[i]
  {
    var t := TrimAll(parts);
    forall k | 0 <= k < |t| ensures c !in t[k] {
      TrimKeepsOut(parts[k], c);
    }
    var r := NonEmpty(t);
    forall i | 0 <= i < |r| ensures c !in r[i] {
      var k :| 0 <= k < |t| && t[k] == r[i];
    }
  }

  lemma {:induction false} NonEmptyFixed(xs: seq<string>)
    requires forall i :: 0 <= i < |xs| ==> xs[i] != []
    ensures NonEmpty(xs) == xs
    decreases |xs|
  {
    if xs != [] {
      NonEmptyFixed(xs[1..]);
      assert [xs[0]] + xs[1..] == xs;
    }
  }

  /** Pieces that are already trimmed and non-empty pass through unchanged. */
  lemma TrimNonEmptyFixed(parts: seq<string>)
    requires forall i :: 0 <= i < |parts| ==> parts[i] != [] && Trimmed(parts[i])
    ensures TrimNonEmpty(parts) == parts
  {
    forall i | 0 <= i < |parts| ensures TrimAll(parts)[i] == parts[i] {
      TrimmedIsFixed(parts[i]);
    }
    assert TrimAll(parts) == parts;
    NonEmptyFixed(parts);
  }

  /** `s.split(",").map(s => s.trim()).filter(Boolean)`. */
  function CommaList(s: string): (r: seq<string>)
    ensures forall i :: 0 <= i < |r| ==> r[i] != [] && Trimmed(r[i]) && ',' !in r[i]
  {
    TrimNonEmptyKeepsOut(Split(s, ','), ',');
    TrimNonEmpty(Split(s, ','))
  }

  /** Joining a normalised comma list and normalising it again gives the same list. */
  lemma {:induction false} CommaListRoundTrip(s: string)
    ensures CommaList(Join(CommaList(s), ',')) == CommaList(s)
  {
    CommaListOfJoin(CommaList(s));
  }

  lemma {:induction false} CommaListOfJoin(r: seq<string>)
    requires forall i :: 0 <= i < |r| ==> r[i] != [] && Trimmed(r[i]) && ',' !in r[i]
    ensures CommaList(Join(r, ',')) == r
  {
    if r == [] {
      var e: string := [];
      assert Split(e, ',') == [e];
      assert Trim(e) == e;
      assert TrimNonEmpty([e]) == [];
    } else {
      SplitJoin(r, ',');
      TrimNonEmptyFixed(r);
    }
  }

  /** Lexicographic order on code points: the model of `a.localeCompare(b) <= 0`. */
  predicate StrLe(a: string, b: string)
    decreases |a|
  {
    if a == [] then true
    else if b == [] then false
    else if a[0] != b[0] then a[0] < b[0]
    else StrLe(a[1..], b[1..])
  }

  lemma {:induction false} StrLeTotal(a: string, b: string)
    ensures StrLe(a, b) || StrLe(b, a)
    decreases |a|
  {
    if a != [] && b != [] && a[0] == b[0] {
      StrLeTotal(a[1..], b[1..]);
    }
  }

  lemma {:induction false} StrLeTrans(a: string, b: string, c: string)
    requires StrLe(a, b) && StrLe(b, c)
    ensures StrLe(a, c)
    decreases |a|
  {
    if a != [] && b != [] && c != [] && a[0] == b[0] && b[0] == c[0] {
      StrLeTrans(a[1..], b[1..], c[1..]);
    }
  }
}
