/**
 * The string operations the client and the server rely on, with the
 * semantics of the libraries they come from: JavaScript's `trim`,
 * `toLowerCase` and `split` with a string separator, and Go's
 * `strings.TrimPrefix` and `strings.ReplaceAll`. Lower-casing is modelled
 * for ASCII letters only.
 */
module Strings {
  import opened Wrappers

  /**
   * JavaScript's WhiteSpace and LineTerminator characters: what `trim`
   * removes and what the regular-expression class `\s` matches.
   */
  predicate IsSpace(c: char) {
    if c <= ' ' then c == ' ' || '\t' <= c <= '\r'
    else if c < '\U{A0}' then false
    else
      c == '\U{A0}' || c == '\U{1680}' || '\U{2000}' <= c <= '\U{200A}' || c == '\U{2028}' || c == '\U{2029}'
      || c == '\U{202F}' || c == '\U{205F}' || c == '\U{3000}' || c == '\U{FEFF}'
  }

  predicate IsDigit(c: char) {
    '0' <= c <= '9'
  }

  /** `s` has no character `c`. */
  predicate NoChar(s: string, c: char) {
    forall i :: 0 <= i < |s| ==> s[i] != c
  }

  /** `s` neither starts nor ends with whitespace: `trim` leaves it as it is. */
  predicate Trimmed(s: string) {
    s == [] || (!IsSpace(s[0]) && !IsSpace(s[|s| - 1]))
  }

  function TrimStart(s: string): string {
    if |s| > 0 && IsSpace(s[0]) then TrimStart(s[1..]) else s
  }

  function TrimEnd(s: string): string {
    if |s| > 0 && IsSpace(s[|s| - 1]) then TrimEnd(s[..|s| - 1]) else s
  }

  /** JavaScript `String.prototype.trim`. */
  function Trim(s: string): string {
    TrimEnd(TrimStart(s))
  }

  /** `trimStart` removes the leading whitespace and nothing else. */
  lemma {:induction false} TrimStartShape(s: string)
    ensures var r := TrimStart(s);
      && |r| <= |s| && r == s[|s| - |r|..]
      && (r == [] || !IsSpace(r[0]))
      && forall i :: 0 <= i < |s| - |r| ==> IsSpace(s[i])
    decreases |s|
  {
    if |s| > 0 && IsSpace(s[0]) {
      TrimStartShape(s[1..]);
    }
  }

  /** `trimEnd` removes the trailing whitespace and nothing else. */
  lemma {:induction false} TrimEndShape(s: string)
    ensures var r := TrimEnd(s);
      && |r| <= |s| && r == s[..|r|]
      && (r == [] || !IsSpace(r[|r| - 1]))
      && forall i :: |r| <= i < |s| ==> IsSpace(s[i])
    decreases |s|
  {
    if |s| > 0 && IsSpace(s[|s| - 1]) {
      TrimEndShape(s[..|s| - 1]);
    }
  }

  /** The result of `trim` neither starts nor ends with whitespace. */
  lemma TrimIsTrimmed(s: string)
    ensures Trimmed(Trim(s))
  {
    var t := TrimStart(s);
    TrimStartShape(s);
    TrimEndShape(t);
    var r := TrimEnd(t);
    if r != [] {
      assert r[0] == t[0];
    }
  }

  /** `trim` changes exactly the strings that start or end with whitespace. */
  lemma TrimFixesTrimmed(s: string)
    ensures Trim(s) == s <==> Trimmed(s)
  {
    TrimIsTrimmed(s);
    if Trimmed(s) && s != [] {
      assert TrimStart(s) == s;
      assert TrimEnd(s) == s;
    }
  }

  /** `trim` of a string made only of whitespace is empty. */
  lemma TrimAllSpace(s: string)
    requires forall i :: 0 <= i < |s| ==> IsSpace(s[i])
    ensures Trim(s) == []
  {
    TrimStartShape(s);
  }

  /** Trailing whitespace after a trimmed, non-empty text is removed by `trim`, and nothing else. */
  lemma TrimDropsTrailingSpace(x: string, tail: string)
    requires x != [] && Trimmed(x)
    requires forall i :: 0 <= i < |tail| ==> IsSpace(tail[i])
    ensures Trim(x + tail) == x
  {
    var s := x + tail;
    assert TrimStart(s) == s;
    TrimEndDropsTail(x, tail);
  }

  lemma {:induction false} TrimEndDropsTail(x: string, tail: string)
    requires x != [] && !IsSpace(x[|x| - 1])
    requires forall i :: 0 <= i < |tail| ==> IsSpace(tail[i])
    ensures TrimEnd(x + tail) == x
    decreases |tail|
  {
    if tail == [] {
      assert x + tail == x;
    } else {
      var s := x + tail;
      assert s[..|s| - 1] == x + tail[..|tail| - 1];
      TrimEndDropsTail(x, tail[..|tail| - 1]);
    }
  }

  function LowerChar(c: char): (r: char)
    ensures 'A' <= c <= 'Z' ==> 'a' <= r <= 'z' && r as int - c as int == 32
    ensures !('A' <= c <= 'Z') ==> r == c
  {
    if 'A' <= c <= 'Z' then (c as int + 32) as char else c
  }

  /** JavaScript `String.prototype.toLowerCase`, ASCII letters only. */
  function ToLower(s: string): (r: string)
    ensures |r| == |s|
    ensures forall i :: 0 <= i < |s| ==> r[i] == LowerChar(s[i])
  {
    if s == [] then [] else [LowerChar(s[0])] + ToLower(s[1..])
  }

  /** `sep` occurs in `s` starting at index `i`. */
  predicate OccursAt(s: string, sep: string, i: nat) {
    i + |sep| <= |s| && s[i..i + |sep|] == sep
  }

  /** The first occurrence of `sep` in `s` at or after index `i` (JavaScript `indexOf`). */
  function FindFrom(s: string, sep: string, i: nat): (r: Option<nat>)
    requires |sep| > 0 && i <= |s|
    ensures r.Some? ==> i <= r.value && r.value + |sep| <= |s|
    decreases |s| - i
  {
    if i + |sep| > |s| then None
    else if s[i..i + |sep|] == sep then Some(i)
    else FindFrom(s, sep, i + 1)
  }

  /** `FindFrom` finds an occurrence at or after `i`, and none before the one it finds. */
  lemma {:induction false} FindFromSpec(s: string, sep: string, i: nat)
    requires |sep| > 0 && i <= |s|
    ensures var r := FindFrom(s, sep, i);
      (r.Some? ==> i <= r.value && OccursAt(s, sep, r.value)) &&
      (r.Some? ==> forall j :: i <= j < r.value ==> !OccursAt(s, sep, j)) &&
      (r.None? ==> forall j :: i <= j ==> !OccursAt(s, sep, j))
    decreases |s| - i
  {
    if i + |sep| <= |s| && s[i..i + |sep|] != sep {
      FindFromSpec(s, sep, i + 1);
    }
  }

  /** What `Find` promises: the first occurrence of `sep` in `s`, or none at all. */
  lemma FindSpec(s: string, sep: string)
    requires |sep| > 0
    ensures Find(s, sep).Some? ==> OccursAt(s, sep, Find(s, sep).value)
    ensures Find(s, sep).Some? ==> forall j :: 0 <= j < Find(s, sep).value ==> !OccursAt(s, sep, j)
    ensures Find(s, sep).None? ==> forall j :: 0 <= j ==> !OccursAt(s, sep, j)
  {
    FindFromSpec(s, sep, 0);
  }

  function Find(s: string, sep: string): Option<nat>
    requires |sep| > 0
  {
    FindFrom(s, sep, 0)
  }

  predicate Contains(s: string, sep: string)
    requires |sep| > 0
  {
    Find(s, sep).Some?
  }

  /**
   * JavaScript `String.prototype.split` with a non-empty string separator:
   * the text up to the first occurrence, then the split of what follows it.
   * The empty string splits into one empty piece.
   */
  function Split(s: string, sep: string): (parts: seq<string>)
    requires |sep| > 0
    ensures |parts| >= 1
    decreases |s|
  {
    match Find(s, sep)
    case None => [s]
    case Some(i) => [s[..i]] + Split(s[i + |sep|..], sep)
  }

  /** The inverse of `Split`: the parts with `sep` between them. */
  function Join(parts: seq<string>, sep: string): string
    requires |parts| >= 1
  {
    if |parts| == 1 then parts[0] else parts[0] + sep + Join(parts[1..], sep)
  }

  /** The strings one after the other, like successive writes to one stream. */
  function Concat(ss: seq<string>): string {
    if ss == [] then "" else ss[0] + Concat(ss[1..])
  }

  lemma {:induction false} ConcatSnoc(ss: seq<string>, s: string)
    ensures Concat(ss + [s]) == Concat(ss) + s
    decreases |ss|
  {
    if ss == [] {
      assert [s][1..] == [];
    } else {
      assert (ss + [s])[1..] == ss[1..] + [s];
      ConcatSnoc(ss[1..], s);
    }
  }

  /** No proper suffix of `sep` is also a prefix of it, so occurrences of `sep` cannot overlap. */
  predicate BorderFree(sep: string) {
    forall k :: 0 < k < |sep| ==> sep[k..] != sep[..|sep| - k]
  }

  /** A string without the first character of `sep` cannot contain `sep`. */
  lemma NoHeadNoOccurrence(s: string, sep: string)
    requires |sep| > 0 && NoChar(s, sep[0])
    ensures !Contains(s, sep)
  {
    FindSpec(s, sep);
  }

  /** Gluing two texts without `sep` cannot create one across the seam of a two-character `sep`. */
  lemma ConcatNoOccurrence(a: string, b: string, sep: string)
    requires |sep| == 2 && !Contains(a, sep) && !Contains(b, sep)
    requires a == [] || b == [] || a[|a| - 1] != sep[0] || b[0] != sep[1]
    ensures !Contains(a + b, sep)
  {
    var s := a + b;
    FindSpec(s, sep);
    FindSpec(a, sep);
    FindSpec(b, sep);
    forall i | 0 <= i ensures !OccursAt(s, sep, i) {
      if i + 2 <= |a| {
        assert s[i..i + 2] == a[i..i + 2] && !OccursAt(a, sep, i);
      } else if i >= |a| && i + 2 <= |s| {
        assert s[i..i + 2] == b[i - |a|..i - |a| + 2] && !OccursAt(b, sep, i - |a|);
      } else if i + 2 <= |s| {
        var w := s[i..i + 2];
        assert w[0] == a[|a| - 1] && w[1] == b[0];
        assert w != sep;
      }
    }
  }

  /** With a border-free `sep`, the first occurrence in `a + sep + rest` is the one after `a`. */
  lemma FirstOccurrence(a: string, sep: string, rest: string)
    requires |sep| > 0 && BorderFree(sep) && !Contains(a, sep)
    ensures Find(a + sep + rest, sep) == Some(|a|)
  {
    var s := a + sep + rest;
    FindSpec(s, sep);
    FindSpec(a, sep);
    assert OccursAt(s, sep, |a|) by {
      assert s[|a|..|a| + |sep|] == sep;
    }
    forall j | 0 <= j < |a| ensures !OccursAt(s, sep, j) {
      if j + |sep| <= |a| {
        assert s[j..j + |sep|] == a[j..j + |sep|] && !OccursAt(a, sep, j);
      } else if OccursAt(s, sep, j) {
        assert sep[|a| - j..] != sep[..|sep| - (|a| - j)];
        OverlapIsBorder(s, sep, j, |a|);
      }
    }
  }

  /** Two occurrences of `sep` that overlap exhibit a border of `sep`. */
  lemma OverlapIsBorder(s: string, sep: string, j: nat, p: nat)
    requires OccursAt(s, sep, j) && OccursAt(s, sep, p) && j < p < j + |sep|
    ensures sep[p - j..] == sep[..|sep| - (p - j)]
  {
    var k := p - j;
    assert sep[k..] == s[j..j + |sep|][k..] == s[p..j + |sep|];
    assert sep[..|sep| - k] == s[p..p + |sep|][..|sep| - k] == s[p..j + |sep|];
  }

  /** `split` undoes `Join` when no part contains the (border-free) separator. */
  lemma {:induction false} SplitJoin(parts: seq<string>, sep: string)
    requires |parts| >= 1 && |sep| > 0 && BorderFree(sep)
    requires forall i :: 0 <= i < |parts| ==> !Contains(parts[i], sep)
    ensures Split(Join(parts, sep), sep) == parts
    decreases |parts|
  {
    if |parts| > 1 {
      var rest := Join(parts[1..], sep);
      FirstOccurrence(parts[0], sep, rest);
      var s := parts[0] + sep + rest;
      assert s[..|parts[0]|] == parts[0];
      assert s[|parts[0]| + |sep|..] == rest;
      SplitJoin(parts[1..], sep);
      assert [parts[0]] + parts[1..] == parts;
    }
  }

  /** Go `strings.TrimPrefix`. */
  function TrimPrefix(s: string, prefix: string): (r: string)
    ensures |prefix| <= |s| && s[..|prefix|] == prefix ==> prefix + r == s
    ensures !(|prefix| <= |s| && s[..|prefix|] == prefix) ==> r == s
  {
    if |prefix| <= |s| && s[..|prefix|] == prefix then s[|prefix|..] else s
  }

  /** Go `strings.ReplaceAll(s, from, to)` for a one-character `from` and `to`. */
  function ReplaceChar(s: string, from: char, to: char): (r: string)
    ensures |r| == |s|
    ensures forall i :: 0 <= i < |s| ==> r[i] == (if s[i] == from then to else s[i])
  {
    if s == [] then [] else [if s[0] == from then to else s[0]] + ReplaceChar(s[1..], from, to)
  }
}
