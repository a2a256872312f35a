/** The Python string operations the application relies on: `sep.join`, `str.split` on one
    character, `str.startswith` and the substring test `p in s`. */
module Text {

  /** `sep.join(parts)`: the parts with `sep` between neighbours, none before or after. */
  function Join(parts: seq<string>, sep: string): string {
    if |parts| == 0 then ""
    else if |parts| == 1 then parts[0]
    else parts[0] + sep + Join(parts[1..], sep)
  }

  lemma JoinFour(a: string, b: string, c: string, d: string, sep: string)
    ensures Join([a, b, c, d], sep) == a + sep + b + sep + c + sep + d
  {
    var l := [a, b, c, d];
    assert l[1..] == [b, c, d] && l[1..][1..] == [c, d] && l[1..][1..][1..] == [d];
    assert Join([c, d], sep) == c + sep + d;
    assert Join([b, c, d], sep) == b + sep + (c + sep + d);
    assert Join(l, sep) == a + sep + (b + sep + (c + sep + d));
  }

  /** `s.startswith(p)`. */
  predicate StartsWith(s: string, p: string) {
    |p| <= |s| && s[..|p|] == p
  }

  /** `p in s` for strings: `p` occurs in `s` at some position. */
  predicate Contains(s: string, p: string) {
    exists i :: 0 <= i <= |s| - |p| && OccursAt(s, p, i)
  }

  /** `p` occurs in `s` starting at index `i`. */
  predicate OccursAt(s: string, p: string, i: int) {
    0 <= i <= |s| - |p| && s[i..i + |p|] == p
  }

  /** Index of the first `c` in `s`, or `|s|` when `s` has none. */
  function IndexOf(s: string, c: char): (i: nat)
    ensures i <= |s|
    ensures i < |s| ==> s[i] == c
    ensures forall k :: 0 <= k < i ==> s[k] != c
  {
    if s == [] then 0 else if s[0] == c then 0 else 1 + IndexOf(s[1..], c)
  }

  /** `s.split(c)` for a one-character separator: the pieces between occurrences of `c`;
      an empty `s` gives one empty piece, as in Python. */
  function Split(s: string, c: char): (r: seq<string>)
    ensures |r| >= 1
    ensures forall k :: 0 <= k < |r| ==> c !in r[k]
    decreases |s|
  {
    var i := IndexOf(s, c);
    if i == |s| then [s] else [s[..i]] + Split(s[i + 1..], c)
  }

  /** Joining two non-empty lists puts one separator between the two joined halves. */
  lemma {:induction false} JoinConcat(a: seq<string>, b: seq<string>, sep: string)
    requires a != [] && b != []
    ensures Join(a + b, sep) == Join(a, sep) + sep + Join(b, sep)
  {
    if |a| == 1 {
      assert (a + b)[1..] == b;
    } else {
      assert (a + b)[1..] == a[1..] + b;
      JoinConcat(a[1..], b, sep);
    }
  }

  /** A joined list begins with its first part, and with that part and a separator when
      more parts follow. */
  lemma JoinStartsWithFirst(parts: seq<string>, sep: string)
    requires parts != []
    ensures StartsWith(Join(parts, sep), parts[0])
    ensures |parts| >= 2 ==> StartsWith(Join(parts, sep), parts[0] + sep)
  {
    var s := Join(parts, sep);
    if |parts| >= 2 {
      assert s == (parts[0] + sep) + Join(parts[1..], sep);
      assert s[..|parts[0] + sep|] == parts[0] + sep;
      assert s[..|parts[0]|] == parts[0];
    }
  }

  /** Starting with `p + q` implies starting with `p`. */
  lemma StartsWithPrefix(s: string, p: string, q: string)
    requires StartsWith(s, p + q)
    ensures StartsWith(s, p)
  {
    assert s[..|p|] == (p + q)[..|p|];
  }

  /** The first separator in `l + [c] + t` is the one right after `l` when `l` has none. */
  lemma IndexOfAfter(l: string, c: char, t: string)
    requires c !in l
    ensures IndexOf(l + [c] + t, c) == |l|
  {
    var s := l + [c] + t;
    var i := IndexOf(s, c);
    assert s[|l|] == c;
  }

  /** `sep.join(lines).split(sep)` gives the lines back, provided there is at least one line
      and no line holds the separator. */
  lemma {:induction false} SplitJoin(lines: seq<string>, c: char)
    requires lines != []
    requires forall k :: 0 <= k < |lines| ==> c !in lines[k]
    ensures Split(Join(lines, [c]), c) == lines
  {
    var s := Join(lines, [c]);
    if |lines| > 1 {
      var rest := Join(lines[1..], [c]);
      assert s == lines[0] + [c] + rest;
      IndexOfAfter(lines[0], c, rest);
      assert s[..|lines[0]|] == lines[0];
      assert s[|lines[0]| + 1..] == rest;
      SplitJoin(lines[1..], c);
    }
  }

  /** A string that starts with `p` contains `p`. */
  lemma StartsWithContains(s: string, p: string)
    requires StartsWith(s, p)
    ensures Contains(s, p)
  {
    assert OccursAt(s, p, 0);
  }

  /** A non-empty joined list followed by `sep` and `tail` is its first part, then `sep`, then
      the rest. */
  lemma JoinHead(parts: seq<string>, sep: string, tail: string)
    requires parts != []
    ensures Join(parts, sep) + (sep + tail) ==
      parts[0] + (sep + (if |parts| == 1 then "" else Join(parts[1..], sep) + sep) + tail)
    ensures StartsWith(sep + (if |parts| == 1 then "" else Join(parts[1..], sep) + sep) + tail, sep)
  {
    var mid := if |parts| == 1 then "" else Join(parts[1..], sep) + sep;
    assert (sep + mid + tail)[..|sep|] == sep;
    if |parts| > 1 {
      assert Join(parts, sep) == parts[0] + (sep + Join(parts[1..], sep));
    }
  }

  /** Putting the same string in front keeps a prefix a prefix. */
  lemma StartsWithAppend(a: string, b: string, p: string)
    requires StartsWith(b, p)
    ensures StartsWith(a + b, a + p)
  {
    assert (a + b)[..|a + p|] == a + b[..|p|];
  }

  /** A string contains whatever sits between its first and last piece. */
  lemma ContainsMiddle(a: string, b: string, c: string)
    ensures Contains(a + b + c, b)
  {
    assert (a + b + c)[|a|..|a| + |b|] == b;
    assert OccursAt(a + b + c, b, |a|);
  }

  /** A string starting with `q`, where `q` starts with `p`, starts with `p`. */
  lemma StartsWithTrans(s: string, q: string, p: string)
    requires StartsWith(s, q) && StartsWith(q, p)
    ensures StartsWith(s, p)
  {
    assert s[..|p|] == q[..|p|];
  }

  /** `s` and `p` differ at some position that both of them have. */
  predicate Clash(s: string, p: string) {
    exists i :: 0 <= i < |s| && i < |p| && s[i] != p[i]
  }

  /** Whatever follows a string that clashes with `p`, the result neither starts with `p`
      nor equals it. */
  lemma ClashExtend(s: string, t: string, p: string)
    requires Clash(s, p)
    ensures Clash(s + t, p) && !StartsWith(s + t, p) && s + t != p
  {
    var i :| 0 <= i < |s| && i < |p| && s[i] != p[i];
    var u := s + t;
    assert u[i] == s[i];
    assert |p| <= |u| ==> u[..|p|][i] == u[i];
  }

  /** A string that clashes with `p` neither starts with `p` nor equals it. */
  lemma ClashNotPrefix(s: string, p: string)
    requires Clash(s, p)
    ensures !StartsWith(s, p) && s != p
  {
    ClashExtend(s, "", p);
    assert s + "" == s;
  }

  /** Clashing is symmetric. */
  lemma ClashSymmetric(s: string, p: string)
    requires Clash(s, p)
    ensures Clash(p, s)
  {
    var i :| 0 <= i < |s| && i < |p| && s[i] != p[i];
    assert p[i] != s[i];
  }
}
