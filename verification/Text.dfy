/** The parts of Go's strings package that runbook parsing relies on, on sequences of
    characters, and the laws about them that parsing needs. */
module Text {
  import opened Wrappers

  /** unicode.IsSpace. */
  predicate IsSpace(c: char) {
    || c in {'\t', '\n', '\U{0b}', '\U{0c}', '\r', ' ', '\U{85}', '\U{a0}', '\U{1680}'}
    || '\U{2000}' <= c <= '\U{200a}'
    || c in {'\U{2028}', '\U{2029}', '\U{202f}', '\U{205f}', '\U{3000}'}
  }

  predicate Blank(s: string) {
    forall i | 0 <= i < |s| :: IsSpace(s[i])
  }

  /** Where the leading space ends. */
  function Leading(s: string, from: nat): (k: nat)
    requires from <= |s|
    ensures from <= k <= |s|
    ensures forall i | from <= i < k :: IsSpace(s[i])
    ensures k < |s| ==> !IsSpace(s[k])
    decreases |s| - from
  {
    if from < |s| && IsSpace(s[from]) then Leading(s, from + 1) else from
  }

  /** Where the trailing space starts. */
  function Trailing(s: string, to: nat): (k: nat)
    requires to <= |s|
    ensures k <= to
    ensures forall i | k <= i < to :: IsSpace(s[i])
    ensures k > 0 ==> !IsSpace(s[k - 1])
  {
    if to > 0 && IsSpace(s[to - 1]) then Trailing(s, to - 1) else to
  }

  function TrimSpace(s: string): string {
    var t := s[Leading(s, 0)..];
    t[..Trailing(t, |t|)]
  }

  /** Nothing to trim on either side. */
  predicate Trimmed(s: string) {
    s == "" || (!IsSpace(s[0]) && !IsSpace(s[|s| - 1]))
  }

  /** What TrimSpace is: the one trimmed string with only space around it. */
  lemma TrimSpaceOf(before: string, s: string, after: string)
    requires Blank(before) && Trimmed(s) && Blank(after)
    ensures TrimSpace(before + s + after) == s
  {
    hide IsSpace;
    var all := before + s + after;
    var k := Leading(all, 0);
    var t := all[k..];
    if s == "" {
      assert forall i | 0 <= i < |all| :: IsSpace(all[i]);
      assert k == |all|;
    } else {
      assert all[|before|] == s[0];
      assert k == |before|;
      assert t == s + after;
      assert t[|s| - 1] == s[|s| - 1];
      assert Trailing(t, |t|) == |s|;
    }
  }

  lemma TrimSpaceTrims(s: string)
    ensures Trimmed(TrimSpace(s))
    ensures exists before, after :: Blank(before) && Blank(after) && s == before + TrimSpace(s) + after
  {
    hide IsSpace;
    var k := Leading(s, 0);
    var t := s[k..];
    var n := Trailing(t, |t|);
    assert Blank(s[..k]) && Blank(t[n..]);
    assert s == s[..k] + t[..n] + t[n..];
  }

  lemma TrimSpaceKeepsOut(s: string, c: char)
    requires c !in s
    ensures c !in TrimSpace(s)
  {
    hide IsSpace;
  }

  predicate HasPrefix(s: string, prefix: string) {
    prefix <= s
  }

  function TrimPrefix(s: string, prefix: string): string {
    if HasPrefix(s, prefix) then s[|prefix|..] else s
  }

  function TrimSuffix(s: string, suffix: string): string {
    if |suffix| <= |s| && s[|s| - |suffix|..] == suffix then s[..|s| - |suffix|] else s
  }

  // ------------------------------------------------------------ splitting

  predicate OccursAt(s: string, sep: string, i: nat) {
    i + |sep| <= |s| && s[i..i + |sep|] == sep
  }

  predicate Contains(s: string, sep: string) {
    exists i | 0 <= i <= |s| :: OccursAt(s, sep, i)
  }

  /** The first occurrence. */
  function Index(s: string, sep: string): (r: Option<nat>)
    requires sep != ""
    ensures r.Some? ==> OccursAt(s, sep, r.value) && forall j: nat | j < r.value :: !OccursAt(s, sep, j)
    ensures r.None? ==> !Contains(s, sep)
  {
    IndexFrom(s, sep, 0)
  }

  function IndexFrom(s: string, sep: string, from: nat): (r: Option<nat>)
    requires from <= |s|
    ensures r.Some? ==>
              from <= r.value && OccursAt(s, sep, r.value) && forall j: nat | from <= j < r.value :: !OccursAt(s, sep, j)
    ensures r.None? ==> forall j: nat | from <= j <= |s| :: !OccursAt(s, sep, j)
    decreases |s| - from
  {
    if OccursAt(s, sep, from) then Some(from)
    else if from == |s| then None
    else IndexFrom(s, sep, from + 1)
  }

  lemma FirstOccurrence(s: string, sep: string, i: nat)
    requires sep != "" && OccursAt(s, sep, i) && forall j: nat | j < i :: !OccursAt(s, sep, j)
    ensures Index(s, sep) == Some(i)
  {
  }

  /** strings.Split: cut at every occurrence, leftmost first. */
  function Split(s: string, sep: string): (parts: seq<string>)
    requires sep != ""
    ensures parts != []
  {
    var at := Index(s, sep);
    if at.None? then [s] else [s[..at.value]] + Split(s[at.value + |sep|..], sep)
  }

  function Join(parts: seq<string>, sep: string): string {
    if parts == [] then ""
    else if |parts| == 1 then parts[0]
    else parts[0] + sep + Join(parts[1..], sep)
  }

  /** No proper prefix of `sep` is also a suffix, so occurrences never overlap. */
  predicate Unbordered(sep: string) {
    sep != "" && forall k | 0 < k < |sep| :: sep[..k] != sep[|sep| - k..]
  }

  lemma OverlapIsABorder(s: string, sep: string, i: nat, j: nat)
    requires OccursAt(s, sep, i) && OccursAt(s, sep, j) && i < j < i + |sep|
    ensures var k := i + |sep| - j; sep[..k] == sep[|sep| - k..]
  {
    var k := i + |sep| - j;
    assert sep[..k] == s[j..j + |sep|][..k] == s[j..j + k];
    assert sep[|sep| - k..] == s[i..i + |sep|][|sep| - k..] == s[j..j + k];
  }

  lemma NoOverlap(s: string, sep: string, i: nat, j: nat)
    requires Unbordered(sep) && OccursAt(s, sep, i) && OccursAt(s, sep, j) && i < j
    ensures i + |sep| <= j
  {
    if j < i + |sep| {
      OverlapIsABorder(s, sep, i, j);
      assert false;
    }
  }

  lemma OccursIn(x: string, y: string, sep: string, i: nat)
    requires i + |sep| <= |x|
    ensures OccursAt(x + y, sep, i) <==> OccursAt(x, sep, i)
  {
    assert (x + y)[i..i + |sep|] == x[i..i + |sep|];
  }

  lemma FirstCut(x: string, sep: string, y: string)
    requires Unbordered(sep)
    ensures Index(x + sep + y, sep) == Some(if Index(x, sep).Some? then Index(x, sep).value else |x|)
  {
    var s, at := x + sep + y, Index(x, sep);
    var first := if at.Some? then at.value else |x|;
    hide Index, Unbordered;
    assert s == x + (sep + y) && OccursAt(s, sep, |x|);
    if at.Some? {
      OccursIn(x, sep + y, sep, first);
    }
    forall j: nat | j < first
      ensures !OccursAt(s, sep, j)
    {
      if OccursAt(s, sep, j) {
        NoOverlap(s, sep, j, |x|);
        OccursIn(x, sep + y, sep, j);
      }
    }
    FirstOccurrence(s, sep, first);
  }

  lemma SlicesAtCut(x: string, sep: string, y: string, at: nat)
    requires at + |sep| <= |x|
    ensures (x + sep + y)[..at] == x[..at]
    ensures (x + sep + y)[at + |sep|..] == x[at + |sep|..] + sep + y
  {
  }

  lemma SlicesAtEnd(x: string, sep: string, y: string)
    ensures (x + sep + y)[..|x|] == x && (x + sep + y)[|x| + |sep|..] == y
  {
  }

  lemma SplitFound(s: string, sep: string, at: nat)
    requires sep != "" && Index(s, sep) == Some(at)
    ensures at + |sep| <= |s| && Split(s, sep) == [s[..at]] + Split(s[at + |sep|..], sep)
  {
    hide Index;
  }

  lemma SplitAbsent(s: string, sep: string)
    requires sep != "" && Index(s, sep).None?
    ensures Split(s, sep) == [s]
  {
    hide Index;
  }

  lemma CutInside(x: string, sep: string, y: string, at: nat)
    requires Unbordered(sep) && Index(x, sep) == Some(at)
    ensures at + |sep| <= |x|
    ensures Split(x, sep) == [x[..at]] + Split(x[at + |sep|..], sep)
    ensures Split(x + sep + y, sep) == [x[..at]] + Split(x[at + |sep|..] + sep + y, sep)
  {
    assert sep != "";
    hide *;
    FirstCut(x, sep, y);
    SplitFound(x, sep, at);
    SplitFound(x + sep + y, sep, at);
    SlicesAtCut(x, sep, y, at);
  }

  lemma CutAtEnd(x: string, sep: string, y: string)
    requires Unbordered(sep) && Index(x, sep).None?
    ensures Split(x, sep) == [x] && Split(x + sep + y, sep) == [x] + Split(y, sep)
  {
    assert sep != "";
    hide *;
    FirstCut(x, sep, y);
    SplitAbsent(x, sep);
    SplitFound(x + sep + y, sep, |x|);
    SlicesAtEnd(x, sep, y);
  }

  /** Where an unbordered separator stands, Split cuts, and the two sides are split
      independently of each other. */
  lemma {:induction false} SplitAt(x: string, sep: string, y: string)
    requires Unbordered(sep)
    ensures Split(x + sep + y, sep) == Split(x, sep) + Split(y, sep)
    decreases |x|
  {
    assert sep != "";
    hide *;
    if Index(x, sep).Some? {
      var at := Index(x, sep).value;
      SplitFound(x, sep, at);
      SplitAt(x[at + |sep|..], sep, y);
      SplitFromRest(x, sep, y, at);
    } else {
      CutAtEnd(x, sep, y);
    }
  }

  lemma SplitFromRest(x: string, sep: string, y: string, at: nat)
    requires Unbordered(sep) && Index(x, sep) == Some(at) && at + |sep| <= |x|
    requires var rest := x[at + |sep|..]; Split(rest + sep + y, sep) == Split(rest, sep) + Split(y, sep)
    ensures Split(x + sep + y, sep) == Split(x, sep) + Split(y, sep)
  {
    assert sep != "";
    hide *;
    var rest := x[at + |sep|..];
    CutInside(x, sep, y, at);
    Regroup(Split(x + sep + y, sep), Split(x, sep), [x[..at]], Split(rest, sep), Split(y, sep));
  }

  lemma Regroup<T>(all: seq<T>, front: seq<T>, a: seq<T>, b: seq<T>, c: seq<T>)
    requires all == a + (b + c) && front == a + b
    ensures all == front + c
  {
  }

  lemma SplitUnfolds(s: string, sep: string)
    requires sep != ""
    ensures var at := Index(s, sep);
            Split(s, sep) == if at.None? then [s] else [s[..at.value]] + Split(s[at.value + |sep|..], sep)
  {
  }

  lemma SplitWhole(s: string, sep: string)
    requires sep != "" && !Contains(s, sep)
    ensures Split(s, sep) == [s]
  {
    var at := Index(s, sep);
    assert at.Some? ==> OccursAt(s, sep, at.value);
  }

  /** Split undoes Join when no part holds the separator. */
  lemma {:induction false} SplitJoin(parts: seq<string>, sep: string)
    requires Unbordered(sep) && parts != [] && forall i | 0 <= i < |parts| :: !Contains(parts[i], sep)
    ensures Split(Join(parts, sep), sep) == parts
  {
    SplitWhole(parts[0], sep);
    if |parts| > 1 {
      SplitJoin(parts[1..], sep);
      SplitAt(parts[0], sep, Join(parts[1..], sep));
      assert parts == [parts[0]] + parts[1..];
    }
  }

  /** Join undoes Split, for every separator. */
  lemma {:induction false} JoinSplit(s: string, sep: string)
    requires sep != ""
    ensures Join(Split(s, sep), sep) == s
    decreases |s|
  {
    var at := Index(s, sep);
    if at.Some? {
      var rest := s[at.value + |sep|..];
      JoinSplit(rest, sep);
      assert Split(s, sep)[1..] == Split(rest, sep);
      assert s == s[..at.value] + sep + rest;
    }
  }

  lemma ContainsInside(a: string, s: string, b: string, sep: string)
    requires Contains(s, sep)
    ensures Contains(a + s + b, sep)
  {
    var i :| 0 <= i <= |s| && OccursAt(s, sep, i);
    assert (a + s + b)[|a| + i..|a| + i + |sep|] == s[i..i + |sep|];
    assert OccursAt(a + s + b, sep, |a| + i);
  }

  lemma TrimmingAddsNothing(s: string, suffix: string, sep: string)
    ensures Contains(TrimSpace(s), sep) ==> Contains(s, sep)
    ensures Contains(TrimSuffix(s, suffix), sep) ==> Contains(s, sep)
  {
    TrimSpaceTrims(s);
    hide TrimSpace, Contains, IsSpace, Trimmed;
    var before, after :| Blank(before) && Blank(after) && s == before + TrimSpace(s) + after;
    if Contains(TrimSpace(s), sep) {
      ContainsInside(before, TrimSpace(s), after, sep);
    }
    var t := TrimSuffix(s, suffix);
    assert s == "" + t + s[|t|..];
    if Contains(t, sep) {
      ContainsInside("", t, s[|t|..], sep);
    }
  }

  /** No part holds the separator. */
  lemma {:induction false} PartsAreClean(s: string, sep: string, i: nat)
    requires sep != "" && i < |Split(s, sep)|
    ensures !Contains(Split(s, sep)[i], sep)
    decreases |s|
  {
    var at := Index(s, sep);
    if at.Some? {
      if i > 0 {
        PartsAreClean(s[at.value + |sep|..], sep, i - 1);
      } else {
        CleanBefore(s, sep, at.value);
      }
    }
  }

  lemma {:induction false} PartsKeepOut(s: string, sep: string, i: nat, c: char)
    requires sep != "" && i < |Split(s, sep)| && c !in s
    ensures c !in Split(s, sep)[i]
    decreases |s|
  {
    SplitUnfolds(s, sep);
    hide Split, Contains;
    var at := Index(s, sep);
    if at.Some? && i > 0 {
      PartsKeepOut(s[at.value + |sep|..], sep, i - 1, c);
    }
  }

  lemma CleanBefore(s: string, sep: string, at: nat)
    requires sep != "" && at <= |s| && forall j: nat | j < at :: !OccursAt(s, sep, j)
    ensures !Contains(s[..at], sep)
  {
    forall j: nat | OccursAt(s[..at], sep, j)
      ensures OccursAt(s, sep, j) && j < at
    {
      assert s[..at][j..j + |sep|] == s[j..j + |sep|];
    }
  }

  /** A one-character separator splits between characters. */
  lemma OneCharacter(s: string, c: char)
    ensures Unbordered([c])
    ensures Contains(s, [c]) <==> c in s
  {
    if i :| 0 <= i <= |s| && OccursAt(s, [c], i) {
      assert s[i..i + 1][0] == c;
    }
    if c in s {
      var i :| 0 <= i < |s| && s[i] == c;
      assert OccursAt(s, [c], i);
    }
  }
}
