/**
 * Character classes, case mapping, tokenisation and substring search on
 * ASCII text: the regular expressions and string methods the scorer relies
 * on, written out.
 */
module Text {

  /** `\w` on ASCII characters: letters, digits and the underscore. */
  predicate IsWordChar(c: char) {
    ('a' <= c <= 'z') || ('A' <= c <= 'Z') || ('0' <= c <= '9') || c == '_'
  }

  /** `\d` on ASCII characters. */
  predicate IsDigit(c: char) {
    '0' <= c <= '9'
  }

  /** `str.isupper()` of a one-character string, on ASCII characters. */
  predicate IsUpper(c: char) {
    'A' <= c <= 'Z'
  }

  /** The ASCII characters that `str.split()` treats as whitespace: tab, line
      feed, vertical tab, form feed, carriage return, the four separators
      0x1C to 0x1F and the space. */
  predicate IsSpace(c: char) {
    (9 <= c as int <= 13) || (28 <= c as int <= 32)
  }

  predicate IsNonSpace(c: char) {
    !IsSpace(c)
  }

  function LowerChar(c: char): char {
    if IsUpper(c) then (c as int + 32) as char else c
  }

  /** `str.lower()` on ASCII text: same length, each character lowered, no
      upper-case letter left, and every character keeps its word-character
      class. */
  function Lower(s: string): (r: string)
    ensures |r| == |s|
    ensures forall i :: 0 <= i < |s| ==> r[i] == LowerChar(s[i])
    ensures forall i :: 0 <= i < |s| ==> !IsUpper(r[i])
    ensures forall i :: 0 <= i < |s| ==> (IsWordChar(r[i]) <==> IsWordChar(s[i]))
  {
    seq(|s|, i requires 0 <= i < |s| => LowerChar(s[i]))
  }

  /** Lower-casing works character by character, so it distributes over
      concatenation. */
  lemma LowerConcat(a: string, b: string)
    ensures Lower(a + b) == Lower(a) + Lower(b)
  {
  }

  /** Length of the longest prefix of `s` whose characters all satisfy `p`. */
  function RunLength(s: string, p: char -> bool): (n: nat)
    ensures n <= |s|
    ensures forall i :: 0 <= i < n ==> p(s[i])
    ensures n < |s| ==> !p(s[n])
  {
    if s == [] || !p(s[0]) then 0 else 1 + RunLength(s[1..], p)
  }

  /** A token: a non-empty string of characters that all satisfy `p`. */
  ghost predicate IsRun(w: string, p: char -> bool) {
    w != [] && forall i :: 0 <= i < |w| ==> p(w[i])
  }

  /**
   * The maximal runs of characters satisfying `p`, from left to right.
   * `Runs(s, IsWordChar)` is `re.findall(r'\b\w+\b', s)` and
   * `Runs(s, IsNonSpace)` is `s.split()`.
   */
  function Runs(s: string, p: char -> bool): (rs: seq<string>)
    ensures forall k :: 0 <= k < |rs| ==> IsRun(rs[k], p)
    ensures rs == [] <==> forall i :: 0 <= i < |s| ==> !p(s[i])
    decreases |s|
  {
    if s == [] then []
    else if !p(s[0]) then
      assert forall i :: 1 <= i < |s| ==> s[i] == s[1..][i - 1];
      Runs(s[1..], p)
    else
      var n := RunLength(s, p);
      [s[..n]] + Runs(s[n..], p)
  }

  /** `re.findall(r'\b\w+\b', s)`. */
  function Words(s: string): seq<string> {
    Runs(s, IsWordChar)
  }

  /** `s.split()` with no separator argument: the maximal runs of
      non-whitespace characters; none exactly when the text is all
      whitespace. */
  function Split(s: string): (ts: seq<string>)
    ensures forall k :: 0 <= k < |ts| ==> IsRun(ts[k], IsNonSpace)
    ensures ts == [] <==> forall i :: 0 <= i < |s| ==> IsSpace(s[i])
  {
    Runs(s, IsNonSpace)
  }

  /** Characters that fail `p` in front of the text do not change its runs. */
  lemma {:induction false} RunsSkipSeparator(sep: string, s: string, p: char -> bool)
    requires forall i :: 0 <= i < |sep| ==> !p(sep[i])
    ensures Runs(sep + s, p) == Runs(s, p)
    decreases |sep|
  {
    if sep == [] {
      assert sep + s == s;
    } else {
      assert (sep + s)[0] == sep[0];
      assert (sep + s)[1..] == sep[1..] + s;
      RunsSkipSeparator(sep[1..], s, p);
    }
  }

  /** A run followed by the end of the text or by a character failing `p` is
      the first run. */
  lemma RunsFront(w: string, s: string, p: char -> bool)
    requires IsRun(w, p)
    requires s == [] || !p(s[0])
    ensures Runs(w + s, p) == [w] + Runs(s, p)
  {
    var t := w + s;
    var n := RunLength(t, p);
    assert forall i :: 0 <= i < |w| ==> t[i] == w[i];
    assert |w| < |t| ==> t[|w|] == s[0];
    assert n == |w|;
    assert t[..n] == w && t[n..] == s;
  }

  /** A prefix ending in a character that fails `p` keeps its run length. */
  lemma {:induction false} RunLengthPrefix(a: string, b: string, p: char -> bool)
    requires a != [] && !p(a[|a| - 1])
    ensures RunLength(a + b, p) == RunLength(a, p)
    decreases |a|
  {
    assert (a + b)[0] == a[0];
    if p(a[0]) {
      assert |a| > 1;
      assert (a + b)[1..] == a[1..] + b;
      RunLengthPrefix(a[1..], b, p);
    }
  }

  /** Text cut after a character that fails `p` has the runs of its two
      parts, one after the other. */
  lemma {:induction false} RunsConcat(a: string, b: string, p: char -> bool)
    requires a == [] || !p(a[|a| - 1])
    ensures Runs(a + b, p) == Runs(a, p) + Runs(b, p)
    decreases |a|, 1
  {
    if a == [] {
      assert a + b == b;
    } else if !p(a[0]) {
      RunsSkipFirst(a, b, p);
      var rest := a[1..];
      assert rest == [] || !p(rest[|rest| - 1]) by {
        if rest != [] {
          assert rest[|rest| - 1] == a[|a| - 1];
        }
      }
      RunsConcat(rest, b, p);
    } else {
      RunsConcatRun(a, b, p);
    }
  }

  /** The case of `RunsConcat` where the text starts with a run. */
  lemma {:induction false} RunsConcatRun(a: string, b: string, p: char -> bool)
    requires a != [] && p(a[0]) && !p(a[|a| - 1])
    ensures Runs(a + b, p) == Runs(a, p) + Runs(b, p)
    decreases |a|, 0
  {
    var n := RunLength(a, p);
    RunsTakeFirst(a, b, p);
    var rest := a[n..];
    assert rest[|rest| - 1] == a[|a| - 1];
    RunsConcat(rest, b, p);
    ConcatAssoc([a[..n]], Runs(rest, p), Runs(b, p));
  }

  lemma ConcatAssoc<T>(x: seq<T>, y: seq<T>, z: seq<T>)
    ensures x + (y + z) == (x + y) + z
  {
  }

  /** A leading character failing `p` is skipped in `a` and in `a + b` alike. */
  lemma RunsSkipFirst(a: string, b: string, p: char -> bool)
    requires a != [] && !p(a[0])
    ensures Runs(a + b, p) == Runs(a[1..] + b, p)
    ensures Runs(a, p) == Runs(a[1..], p)
  {
    assert (a + b)[0] == a[0];
    assert (a + b)[1..] == a[1..] + b;
  }

  /** The first run of `a` is the first run of `a + b` when `a` ends in a
      character failing `p`. */
  lemma RunsTakeFirst(a: string, b: string, p: char -> bool)
    requires a != [] && p(a[0]) && !p(a[|a| - 1])
    ensures var n := RunLength(a, p);
      0 < n < |a| &&
      Runs(a + b, p) == [a[..n]] + Runs(a[n..] + b, p) &&
      Runs(a, p) == [a[..n]] + Runs(a[n..], p)
  {
    var n := RunLength(a, p);
    RunLengthPrefix(a, b, p);
    assert (a + b)[0] == a[0];
    assert (a + b)[..n] == a[..n];
    assert (a + b)[n..] == a[n..] + b;
  }

  /**
   * Text made of words separated by strings without word characters:
   * `seps[0] + ws[0] + seps[1] + ws[1] + ... + seps[|ws|]`.
   */
  function Interleave(seps: seq<string>, ws: seq<string>): string
    requires |seps| == |ws| + 1
  {
    if ws == [] then seps[0] else seps[0] + ws[0] + Interleave(seps[1..], ws[1..])
  }

  /** A joined text whose first separator is not empty starts with that
      separator's first character. */
  lemma InterleaveHead(seps: seq<string>, ws: seq<string>)
    requires |seps| == |ws| + 1
    requires seps[0] != []
    ensures Interleave(seps, ws) != [] && Interleave(seps, ws)[0] == seps[0][0]
  {
  }

  /**
   * Tokenising recovers exactly the runs a text was built from, provided the
   * separators hold no character satisfying `p` and the separators between
   * two runs are not empty.
   */
  lemma {:induction false} RunsOfInterleave(seps: seq<string>, ws: seq<string>, p: char -> bool)
    requires |seps| == |ws| + 1
    requires forall k :: 0 <= k < |ws| ==> IsRun(ws[k], p)
    requires forall k, i :: 0 <= k < |seps| && 0 <= i < |seps[k]| ==> !p(seps[k][i])
    requires forall k :: 0 < k < |ws| ==> seps[k] != []
    ensures Runs(Interleave(seps, ws), p) == ws
    decreases |ws|
  {
    if ws == [] {
      RunsSkipSeparator(seps[0], [], p);
      assert seps[0] + [] == seps[0];
    } else {
      var rest := Interleave(seps[1..], ws[1..]);
      assert Interleave(seps, ws) == seps[0] + (ws[0] + rest);
      RunsSkipSeparator(seps[0], ws[0] + rest, p);
      if |ws| == 1 {
        assert rest == seps[1];
      } else {
        InterleaveHead(seps[1..], ws[1..]);
      }
      RunsFront(ws[0], rest, p);
      RunsOfInterleave(seps[1..], ws[1..], p);
    }
  }

  /** The parts concatenated, `"".join(parts)`. */
  function Join(parts: seq<string>): string {
    if parts == [] then [] else parts[0] + Join(parts[1..])
  }

  /** Each part lower-cased. */
  function LowerEach(parts: seq<string>): seq<string> {
    if parts == [] then [] else [Lower(parts[0])] + LowerEach(parts[1..])
  }

  /** The runs of each part, one list after the other. */
  function RunsOfParts(parts: seq<string>, p: char -> bool): seq<string> {
    if parts == [] then [] else Runs(parts[0], p) + RunsOfParts(parts[1..], p)
  }

  /** Lower-casing joined parts lower-cases each part. */
  lemma {:induction false} LowerJoin(parts: seq<string>)
    ensures Lower(Join(parts)) == Join(LowerEach(parts))
  {
    if parts != [] {
      LowerJoin(parts[1..]);
      LowerConcat(parts[0], Join(parts[1..]));
    }
  }

  /** Joined parts that each end in a character failing `p`, except perhaps
      the last, have the runs of the parts, in order: no run spans two
      parts. */
  lemma {:induction false} RunsJoin(parts: seq<string>, p: char -> bool)
    requires forall k :: 0 <= k < |parts| - 1 ==> parts[k] != [] && !p(parts[k][|parts[k]| - 1])
    ensures Runs(Join(parts), p) == RunsOfParts(parts, p)
  {
    if |parts| == 1 {
      assert Join(parts) == parts[0] + [] == parts[0];
      assert RunsOfParts(parts, p) == Runs(parts[0], p) + [];
    } else if |parts| > 1 {
      var rest := parts[1..];
      assert forall k :: 0 <= k < |rest| - 1 ==> rest[k] == parts[k + 1];
      RunsJoin(rest, p);
      RunsConcat(parts[0], Join(rest), p);
    }
  }

  /** `sub` occurs in `s` starting at index `i`. */
  ghost predicate OccursAt(s: string, sub: string, i: nat) {
    i + |sub| <= |s| && s[i..i + |sub|] == sub
  }

  /** Python's `sub in s` for strings. */
  function Contains(s: string, sub: string): (b: bool)
    ensures b <==> exists i: nat :: OccursAt(s, sub, i)
    decreases |s|
  {
    if |sub| > |s| then false
    else if s[..|sub|] == sub then
      assert OccursAt(s, sub, 0);
      true
    else
      var b := Contains(s[1..], sub);
      assert b ==> exists i: nat :: OccursAt(s, sub, i) by {
        if b {
          var j: nat :| OccursAt(s[1..], sub, j);
          assert s[j + 1..j + 1 + |sub|] == s[1..][j..j + |sub|];
          assert OccursAt(s, sub, j + 1);
        }
      }
      assert (exists i: nat :: OccursAt(s, sub, i)) ==> b by {
        if exists i: nat :: OccursAt(s, sub, i) {
          var i: nat :| OccursAt(s, sub, i);
          assert i != 0;
          assert s[1..][i - 1..i - 1 + |sub|] == s[i..i + |sub|];
          assert OccursAt(s[1..], sub, i - 1);
        }
      }
      b
  }

  /** A text containing `sub` still contains it with text added on either side. */
  lemma ContainsExtend(a: string, s: string, b: string, sub: string)
    requires Contains(s, sub)
    ensures Contains(a + s + b, sub)
  {
    var i: nat :| OccursAt(s, sub, i);
    assert (a + s + b)[|a| + i..|a| + i + |sub|] == s[i..i + |sub|];
    assert OccursAt(a + s + b, sub, |a| + i);
  }

  /** `any(sub in s for sub in subs)`. */
  predicate ContainsAny(s: string, subs: seq<string>) {
    exists k :: 0 <= k < |subs| && Contains(s, subs[k])
  }

  /** A text containing `sub` at a known place contains it. */
  lemma ContainsWitness(a: string, sub: string, b: string)
    ensures Contains(a + sub + b, sub)
  {
    assert OccursAt(a + sub + b, sub, |a|);
  }

  /** `sum(1 for x in s if p(x))`. */
  function Count<T>(s: seq<T>, p: T -> bool): (n: nat)
    ensures n <= |s|
  {
    if s == [] then 0 else Count(s[..|s| - 1], p) + (if p(s[|s| - 1]) then 1 else 0)
  }

  /** Counting over two sequences one after the other. */
  lemma {:induction false} CountAppend<T>(s: seq<T>, t: seq<T>, p: T -> bool)
    ensures Count(s + t, p) == Count(s, p) + Count(t, p)
    decreases |t|
  {
    if t == [] {
      assert s + t == s;
    } else {
      var init := t[..|t| - 1];
      CountAppend(s, init, p);
      assert s + t == (s + init) + [t[|t| - 1]];
      CountSnoc(s + init, t[|t| - 1], p);
      CountSnoc(init, t[|t| - 1], p);
      assert init + [t[|t| - 1]] == t;
    }
  }

  /** Counting one element more. */
  lemma CountSnoc<T>(s: seq<T>, x: T, p: T -> bool)
    ensures Count(s + [x], p) == Count(s, p) + (if p(x) then 1 else 0)
  {
    assert (s + [x])[..|s|] == s;
  }

  /** The count is positive exactly when some element satisfies `p`. */
  lemma {:induction false} CountPositive<T>(s: seq<T>, p: T -> bool)
    ensures Count(s, p) > 0 <==> exists i :: 0 <= i < |s| && p(s[i])
  {
    if s != [] {
      var t := s[..|s| - 1];
      CountPositive(t, p);
      if exists i :: 0 <= i < |t| && p(t[i]) {
        var i :| 0 <= i < |t| && p(t[i]);
        assert p(s[i]);
      }
    }
  }

  /** When every element satisfies `p`, every element is counted. */
  lemma {:induction false} CountAll<T>(s: seq<T>, p: T -> bool)
    requires forall i :: 0 <= i < |s| ==> p(s[i])
    ensures Count(s, p) == |s|
  {
    if s != [] {
      CountAll(s[..|s| - 1], p);
    }
  }

  /** A weaker predicate counts at least as many elements. */
  lemma {:induction false} CountMonotone<T>(s: seq<T>, p: T -> bool, q: T -> bool)
    requires forall i :: 0 <= i < |s| ==> p(s[i]) ==> q(s[i])
    ensures Count(s, p) <= Count(s, q)
  {
    if s != [] {
      CountMonotone(s[..|s| - 1], p, q);
    }
  }

  /** Predicates that agree on every element count the same. */
  lemma CountSame<T>(s: seq<T>, p: T -> bool, q: T -> bool)
    requires forall i :: 0 <= i < |s| ==> (p(s[i]) <==> q(s[i]))
    ensures Count(s, p) == Count(s, q)
  {
    CountMonotone(s, p, q);
    CountMonotone(s, q, p);
  }

  /** Pairwise distinct elements are as many as the elements. */
  lemma {:induction false} DistinctCount<T>(s: seq<T>)
    requires forall i, j :: 0 <= i < j < |s| ==> s[i] != s[j]
    ensures |set x | x in s| == |s|
  {
    if s != [] {
      var t := s[..|s| - 1];
      DistinctCount(t);
      assert s == t + [s[|s| - 1]];
      assert (set x | x in s) == (set x | x in t) + {s[|s| - 1]};
      assert s[|s| - 1] !in (set x | x in t);
    }
  }

  /** A sequence has at most as many distinct elements as it has elements,
      and at least one when it is not empty. */
  lemma {:induction false} DistinctBounds<T>(s: seq<T>)
    ensures |set x | x in s| <= |s|
    ensures s != [] ==> |set x | x in s| >= 1
  {
    if s != [] {
      var t := s[..|s| - 1];
      DistinctBounds(t);
      assert s == t + [s[|s| - 1]];
      assert (set x | x in s) == (set x | x in t) + {s[|s| - 1]};
    }
  }
}
