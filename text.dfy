/** The string operations of Go's standard library that the webhook
    transformer uses: `strings.Contains`, `strings.ToLower`,
    `strings.SplitN(s, ":", 2)`, and `FindStringSubmatch` of a regular
    expression of the form `<literal>(.+)`. */
module Text {
  import opened Core

  /** `sub` occurs in `s` at offset `i`. */
  predicate OccursAt(s: string, sub: string, i: int) {
    0 <= i && i + |sub| <= |s| && forall k :: 0 <= k < |sub| ==> s[i + k] == sub[k]
  }

  /** Occurrences in `s[1..]` are the occurrences in `s` after offset 0. */
  lemma OccursAtShift(s: string, sub: string, i: int)
    requires |s| > 0 && i >= 1
    ensures OccursAt(s, sub, i) <==> OccursAt(s[1..], sub, i - 1)
  {
    if OccursAt(s[1..], sub, i - 1) {
      forall k | 0 <= k < |sub| ensures s[i + k] == sub[k] {
        assert s[1..][i - 1 + k] == sub[k];
      }
    }
  }

  lemma OccursAtStart(s: string, sub: string)
    requires |sub| <= |s|
    ensures OccursAt(s, sub, 0) <==> s[..|sub|] == sub
  {
    if OccursAt(s, sub, 0) {
      assert s[..|sub|] == sub;
    }
  }

  /** `strings.Contains(s, sub)`. */
  predicate Contains(s: string, sub: string)
    ensures Contains(s, sub) <==> exists i :: OccursAt(s, sub, i)
    decreases |s|
  {
    if |s| < |sub| then
      false
    else if s[..|sub|] == sub then
      OccursAtStart(s, sub);
      true
    else
      var r := Contains(s[1..], sub);
      OccursAtStart(s, sub);
      if r then
        var j :| OccursAt(s[1..], sub, j);
        OccursAtShift(s, sub, j + 1);
        true
      else
        assert forall i :: !OccursAt(s, sub, i) by {
          forall i | i >= 1 ensures !OccursAt(s, sub, i) {
            OccursAtShift(s, sub, i);
          }
        }
        false
  }

  /** ASCII upper case to lower case; every other character is kept. */
  function LowerChar(c: char): (d: char)
    ensures !('A' <= d <= 'Z')
    ensures !('A' <= c <= 'Z') ==> d == c
  {
    if 'A' <= c <= 'Z' then (c as int + 32) as char else c
  }

  /** `strings.ToLower`, restricted to ASCII letters. */
  function ToLower(s: string): (r: string)
    ensures |r| == |s|
    ensures forall i :: 0 <= i < |s| ==> r[i] == LowerChar(s[i])
  {
    seq(|s|, i requires 0 <= i < |s| => LowerChar(s[i]))
  }

  lemma ToLowerIdempotent(s: string)
    ensures ToLower(ToLower(s)) == ToLower(s)
  {
  }

  /** The index of the first occurrence of `c` in `s`. */
  function IndexOf(s: string, c: char): (r: Option<nat>)
    ensures r.None? <==> c !in s
    ensures r.Some? ==> r.value < |s| && s[r.value] == c && c !in s[..r.value]
  {
    if |s| == 0 then None
    else if s[0] == c then Some(0)
    else
      match IndexOf(s[1..], c)
      case None => None
      case Some(k) =>
        assert s[..k + 1] == [s[0]] + s[1..][..k];
        Some(k + 1)
  }

  /** `strings.SplitN(s, sep, 2)` when it yields two tokens: the text before
      the first `sep` and everything after it. `None` when `sep` does not occur. */
  function SplitFirst(s: string, sep: char): (r: Option<(string, string)>)
    ensures r.None? <==> sep !in s
    ensures r.Some? ==> s == r.value.0 + [sep] + r.value.1 && sep !in r.value.0
  {
    match IndexOf(s, sep)
    case None => None
    case Some(k) =>
      assert s == s[..k] + [sep] + s[k + 1..];
      Some((s[..k], s[k + 1..]))
  }

  /** Joining with `sep` and splitting at the first `sep` are inverse when
      the head holds no `sep`. */
  lemma SplitFirstOfJoin(head: string, sep: char, tail: string)
    requires sep !in head
    ensures SplitFirst(head + [sep] + tail, sep) == Some((head, tail))
  {
    var s := head + [sep] + tail;
    assert s[|head|] == sep;
    assert s[..|head|] == head;
    var r := SplitFirst(s, sep);
    assert r.Some?;
    var (h, t) := r.value;
    assert h == s[..|h|];
    assert t == s[|h| + 1..];
  }

  /** The longest prefix of `s` without a line feed. */
  function LineOf(s: string): (r: string)
    ensures r <= s && '\n' !in r
    ensures |r| < |s| ==> s[|r|] == '\n'
  {
    if s == [] || s[0] == '\n' then [] else [s[0]] + LineOf(s[1..])
  }

  /** The regular expression `lit(.+)` matches at offset `i`: the literal is
      there and is followed by at least one character other than a line feed
      (RE2's `.` does not match a line feed). */
  predicate MatchesAt(s: string, lit: string, i: int) {
    OccursAt(s, lit, i) && i + |lit| < |s| && s[i + |lit|] != '\n'
  }

  /** The leftmost offset at or after `from` where `lit(.+)` matches. */
  function FirstMatch(s: string, lit: string, from: nat): (r: Option<nat>)
    ensures r.None? ==> forall i :: from <= i ==> !MatchesAt(s, lit, i)
    ensures r.Some? ==> from <= r.value && MatchesAt(s, lit, r.value)
    ensures r.Some? ==> forall i :: from <= i < r.value ==> !MatchesAt(s, lit, i)
    decreases |s| - from
  {
    if from + |lit| >= |s| then None
    else if MatchesAt(s, lit, from) then Some(from)
    else FirstMatch(s, lit, from + 1)
  }

  /** A match followed by the captured text is an occurrence of both together. */
  lemma OccursWithGroup(s: string, lit: string, i: nat, g: string)
    requires OccursAt(s, lit, i) && i + |lit| <= |s| && g <= s[i + |lit|..]
    ensures OccursAt(s, lit + g, i)
  {
    forall k | 0 <= k < |lit + g| ensures s[i + k] == (lit + g)[k] {
      if k >= |lit| {
        assert s[i + |lit|..][k - |lit|] == g[k - |lit|];
      }
    }
  }

  /** The captured group of `FindStringSubmatch` for `lit(.+)`: the search is
      unanchored and takes the leftmost match, and the greedy `.+` runs to the
      next line feed or the end of the string. `None` when there is no match. */
  function FindGroup(s: string, lit: string): (r: Option<string>)
    ensures r.None? <==> forall i :: !MatchesAt(s, lit, i)
    ensures r.Some? ==> exists i :: && MatchesAt(s, lit, i)
                                    && (forall j :: 0 <= j < i ==> !MatchesAt(s, lit, j))
                                    && r.value == LineOf(s[i + |lit|..])
    ensures r.Some? ==> |r.value| > 0 && '\n' !in r.value && Contains(s, lit + r.value)
  {
    match FirstMatch(s, lit, 0)
    case None => None
    case Some(i) =>
      var g := LineOf(s[i + |lit|..]);
      OccursWithGroup(s, lit, i, g);
      Some(g)
  }
}
