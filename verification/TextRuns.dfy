// Replacing every run of separators by one and stripping the ends: the pipeline behind the slug of a title and
// the word count of a body, against the maximal runs it leaves.
module TextRuns {

  // `replace(/[...]+/g, sep)`.
  function Collapse<T>(s: seq<T>, isSep: T -> bool, sep: T): seq<T>
    decreases |s|
  {
    if s == [] then []
    else if isSep(s[0]) then [sep] + Collapse(SkipLeft(s, isSep), isSep, sep)
    else [s[0]] + Collapse(s[1..], isSep, sep)
  }

  function SkipLeft<T>(s: seq<T>, drop: T -> bool): (r: seq<T>)
    ensures |r| <= |s| && (s != [] && drop(s[0]) ==> |r| < |s|)
    ensures r != [] ==> !drop(r[0])
  {
    if s != [] && drop(s[0]) then SkipLeft(s[1..], drop) else s
  }

  function SkipRight<T>(s: seq<T>, drop: T -> bool): seq<T> {
    if s != [] && drop(s[|s| - 1]) then SkipRight(s[..|s| - 1], drop) else s
  }

  // `trim`, or `replace(/^-+|-+$/g, '')`.
  function Strip<T>(s: seq<T>, drop: T -> bool): seq<T> {
    SkipRight(SkipLeft(s, drop), drop)
  }

  // The maximal runs of non-separators, from left to right.
  function Runs<T>(s: seq<T>, isSep: T -> bool): (rs: seq<seq<T>>)
    ensures s != [] && !isSep(s[0]) ==> rs != []
  {
    if s == [] then []
    else if isSep(s[0]) then Runs(s[1..], isSep)
    else if |s| > 1 && !isSep(s[1]) then
      var rest := Runs(s[1..], isSep);
      [[s[0]] + rest[0]] + rest[1..]
    else [[s[0]]] + Runs(s[1..], isSep)
  }

  // Where a run starts.
  predicate StartsAt<T>(s: seq<T>, isSep: T -> bool, i: int) {
    0 <= i < |s| && !isSep(s[i]) && (i == 0 || isSep(s[i - 1]))
  }

  // How many of the first `n` positions start a run.
  function Starts<T>(s: seq<T>, isSep: T -> bool, n: nat): nat
    requires n <= |s|
  {
    if n == 0 then 0 else Starts(s, isSep, n - 1) + if StartsAt(s, isSep, n - 1) then 1 else 0
  }

  function Join<T>(rs: seq<seq<T>>, sep: T): seq<T> {
    if rs == [] then [] else if |rs| == 1 then rs[0] else rs[0] + [sep] + Join(rs[1..], sep)
  }

  predicate IsRun<T(==)>(r: seq<T>, isSep: T -> bool) {
    r != [] && forall c :: c in r ==> !isSep(c)
  }

  // `split(sep)`.
  function Split<T(==)>(s: seq<T>, sep: T): (parts: seq<seq<T>>)
    ensures parts != []
  {
    if s == [] then [[]]
    else
      var rest := Split(s[1..], sep);
      if s[0] == sep then [[]] + rest else [[s[0]] + rest[0]] + rest[1..]
  }

  lemma {:induction false} RunsAreRuns<T>(s: seq<T>, isSep: T -> bool)
    ensures forall r :: r in Runs(s, isSep) ==> IsRun(r, isSep)
    decreases |s|
  {
    if s != [] {
      RunsAreRuns(s[1..], isSep);
      var rest := Runs(s[1..], isSep);
      assert !isSep(s[0]) && |s| > 1 && !isSep(s[1]) ==> rest[0] in rest && forall r :: r in rest[1..] ==> r in rest;
    }
  }

  // Dropping the first character moves every start, and makes one of the second character of a run.
  lemma {:induction false} StartsShift<T>(s: seq<T>, isSep: T -> bool, n: nat)
    requires 1 <= n <= |s|
    ensures Starts(s, isSep, n) + (if n > 1 && !isSep(s[0]) && !isSep(s[1]) then 1 else 0) ==
            Starts(s[1..], isSep, n - 1) + (if isSep(s[0]) then 0 else 1)
  {
    if n > 1 {
      StartsShift(s, isSep, n - 1);
    }
  }

  lemma {:induction false} RunsCountStarts<T>(s: seq<T>, isSep: T -> bool)
    ensures |Runs(s, isSep)| == Starts(s, isSep, |s|)
    decreases |s|
  {
    if s != [] {
      RunsCountStarts(s[1..], isSep);
      StartsShift(s, isSep, |s|);
    }
  }

  // ---------- Collapse and strip is join ----------

  function Edge<T>(present: bool, sep: T): seq<T> {
    if present then [sep] else []
  }

  predicate EndsWithSep<T>(s: seq<T>, isSep: T -> bool) {
    Runs(s, isSep) != [] && s != [] && isSep(s[|s| - 1])
  }

  // What `Collapse` leaves: the runs, with a separator on each side where the text had one.
  function Kept<T>(s: seq<T>, isSep: T -> bool, sep: T): seq<T> {
    Edge(s != [] && isSep(s[0]), sep) + Join(Runs(s, isSep), sep) + Edge(EndsWithSep(s, isSep), sep)
  }

  lemma {:induction false} CollapseIsKept<T>(s: seq<T>, isSep: T -> bool, sep: T)
    ensures Collapse(s, isSep, sep) == Kept(s, isSep, sep)
    decreases |s|
  {
    if s != [] {
      if isSep(s[0]) {
        KeptSkips(s, isSep, sep);
        CollapseIsKept(SkipLeft(s, isSep), isSep, sep);
      } else {
        KeptGrows(s, isSep, sep);
        CollapseIsKept(s[1..], isSep, sep);
      }
    }
  }

  lemma KeptSkips<T>(s: seq<T>, isSep: T -> bool, sep: T)
    requires s != [] && isSep(s[0])
    ensures Kept(s, isSep, sep) == [sep] + Kept(SkipLeft(s, isSep), isSep, sep)
  {
    var rest := SkipLeft(s, isSep);
    SkippedRuns(s, isSep);
    assert Edge(rest != [] && isSep(rest[0]), sep) == [] && EndsWithSep(rest, isSep) == EndsWithSep(s, isSep);
  }

  lemma JoinHead<T>(c: T, rs: seq<seq<T>>, sep: T)
    requires rs != []
    ensures Join([[c] + rs[0]] + rs[1..], sep) == [c] + Join(rs, sep)
  {
    var longer := [[c] + rs[0]] + rs[1..];
    assert longer[1..] == rs[1..] && longer[0] == [c] + rs[0];
    if |rs| > 1 {
      assert ([c] + rs[0]) + [sep] + Join(rs[1..], sep) == [c] + (rs[0] + [sep] + Join(rs[1..], sep));
    }
  }

  lemma JoinCons<T>(r: seq<T>, rs: seq<seq<T>>, sep: T)
    requires rs != []
    ensures Join([r] + rs, sep) == r + [sep] + Join(rs, sep)
  {
    assert ([r] + rs)[1..] == rs;
  }

  // One more character at the head of the text is one more character at the head of the first run.
  lemma KeptGrows<T>(s: seq<T>, isSep: T -> bool, sep: T)
    requires s != [] && !isSep(s[0])
    ensures Kept(s, isSep, sep) == [s[0]] + Kept(s[1..], isSep, sep)
  {
    var rest := s[1..];
    if Runs(rest, isSep) == [] {
      OneRun(s, isSep, sep);
    } else {
      SameEnd(s, isSep);
      if isSep(rest[0]) {
        RunClosed(s[0], rest, isSep, sep);
      } else {
        RunLonger(s[0], rest, isSep, sep);
      }
      assert s == [s[0]] + rest;
    }
  }

  lemma SameEnd<T>(s: seq<T>, isSep: T -> bool)
    requires s != [] && !isSep(s[0]) && Runs(s[1..], isSep) != []
    ensures EndsWithSep(s, isSep) == EndsWithSep(s[1..], isSep)
  {
  }

  lemma RunLonger<T>(c: T, rest: seq<T>, isSep: T -> bool, sep: T)
    requires !isSep(c) && rest != [] && !isSep(rest[0]) && EndsWithSep([c] + rest, isSep) == EndsWithSep(rest, isSep)
    ensures Kept([c] + rest, isSep, sep) == [c] + Kept(rest, isSep, sep)
  {
    var rs, tail := Runs(rest, isSep), Edge(EndsWithSep(rest, isSep), sep);
    assert ([c] + rest)[1..] == rest;
    JoinHead(c, rs, sep);
    assert Kept([c] + rest, isSep, sep) == [c] + Join(rs, sep) + tail;
    assert Kept(rest, isSep, sep) == Join(rs, sep) + tail;
  }

  lemma RunClosed<T>(c: T, rest: seq<T>, isSep: T -> bool, sep: T)
    requires !isSep(c) && rest != [] && isSep(rest[0]) && EndsWithSep([c] + rest, isSep) == EndsWithSep(rest, isSep)
    requires Runs(rest, isSep) != []
    ensures Kept([c] + rest, isSep, sep) == [c] + Kept(rest, isSep, sep)
  {
    var rs, tail := Runs(rest, isSep), Edge(EndsWithSep(rest, isSep), sep);
    assert ([c] + rest)[1..] == rest;
    JoinCons([c], rs, sep);
    assert Runs([c] + rest, isSep) == [[c]] + rs;
    assert Kept([c] + rest, isSep, sep) == [] + ([c] + [sep] + Join(rs, sep)) + tail;
    assert Kept(rest, isSep, sep) == [sep] + Join(rs, sep) + tail;
    Regroup(c, sep, Join(rs, sep), tail);
  }

  lemma Regroup<T>(c: T, sep: T, j: seq<T>, tail: seq<T>)
    ensures [] + ([c] + [sep] + j) + tail == [c] + ([sep] + j + tail)
  {
  }

  lemma OneRun<T>(s: seq<T>, isSep: T -> bool, sep: T)
    requires s != [] && !isSep(s[0]) && Runs(s[1..], isSep) == []
    ensures Kept(s, isSep, sep) == [s[0]] + Kept(s[1..], isSep, sep)
  {
    var rest := s[1..];
    NoRuns(rest, isSep);
    assert Runs(s, isSep) == [[s[0]]];
    assert rest != [] ==> s[|s| - 1] == rest[|rest| - 1] && isSep(rest[|rest| - 1]);
    assert Kept(s, isSep, sep) == [s[0]] + Edge(rest != [], sep);
    assert Kept(rest, isSep, sep) == Edge(rest != [], sep);
  }

  lemma {:induction false} NoRuns<T>(s: seq<T>, isSep: T -> bool)
    requires Runs(s, isSep) == []
    ensures forall i :: 0 <= i < |s| ==> isSep(s[i])
    decreases |s|
  {
    if s != [] {
      NoRuns(s[1..], isSep);
    }
  }

  lemma {:induction false} SkippedRuns<T>(s: seq<T>, isSep: T -> bool)
    ensures Runs(SkipLeft(s, isSep), isSep) == Runs(s, isSep)
    ensures SkipLeft(s, isSep) != [] ==> s != [] && SkipLeft(s, isSep)[|SkipLeft(s, isSep)| - 1] == s[|s| - 1]
    ensures SkipLeft(s, isSep) == [] ==> Runs(s, isSep) == []
    decreases |s|
  {
    if s != [] && isSep(s[0]) {
      SkippedRuns(s[1..], isSep);
    }
  }

  // ---------- Stripping ----------

  lemma JoinEnds<T>(rs: seq<seq<T>>, isSep: T -> bool, sep: T)
    requires rs != [] && forall r :: r in rs ==> IsRun(r, isSep)
    ensures var j := Join(rs, sep); j != [] && !isSep(j[0]) && !isSep(j[|j| - 1])
    decreases |rs|
  {
    assert rs[0] in rs;
    if |rs| > 1 {
      JoinEnds(rs[1..], isSep, sep);
    }
  }

  lemma StripEdges<T>(j: seq<T>, left: bool, right: bool, drop: T -> bool, sep: T)
    requires drop(sep) && (j == [] ==> !right) && (j != [] ==> !drop(j[0]) && !drop(j[|j| - 1]))
    ensures Strip(Edge(left, sep) + j + Edge(right, sep), drop) == j
  {
    var s := Edge(left, sep) + j + Edge(right, sep);
    var tail := j + Edge(right, sep);
    if left {
      assert s[0] == sep && s[1..] == tail;
    } else {
      assert s == tail;
    }
    assert SkipLeft(tail, drop) == tail;
    if right {
      assert tail[|tail| - 1] == sep && tail[..|tail| - 1] == j;
    } else {
      assert tail == j;
    }
    assert SkipRight(j, drop) == j;
  }

  lemma DropsSeparators<T>(c: T, isSep: T -> bool, drop: T -> bool)
    requires (forall x :: drop(x) ==> isSep(x)) && !isSep(c)
    ensures !drop(c)
  {
  }

  // The whole pipeline: whatever `strip` drops besides the separator, the result is the runs joined by it.
  lemma CollapseStripIsJoin<T>(s: seq<T>, isSep: T -> bool, drop: T -> bool, sep: T)
    requires isSep(sep) && drop(sep) && forall c :: drop(c) ==> isSep(c)
    ensures Strip(Collapse(s, isSep, sep), drop) == Join(Runs(s, isSep), sep)
  {
    var j := Join(Runs(s, isSep), sep);
    CollapseIsKept(s, isSep, sep);
    RunsAreRuns(s, isSep);
    if Runs(s, isSep) != [] {
      JoinEnds(Runs(s, isSep), isSep, sep);
      DropsSeparators(j[0], isSep, drop);
      DropsSeparators(j[|j| - 1], isSep, drop);
    }
    StripEdges(j, s != [] && isSep(s[0]), EndsWithSep(s, isSep), drop, sep);
  }

  // ---------- Back from a join ----------

  lemma {:induction false} SplitRun<T>(r: seq<T>, s: seq<T>, sep: T)
    requires forall c :: c in r ==> c != sep
    ensures var parts := Split(s, sep); Split(r + s, sep) == [r + parts[0]] + parts[1..]
    decreases |r|
  {
    if r == [] {
      assert r + s == s && r + Split(s, sep)[0] == Split(s, sep)[0];
    } else {
      assert (r + s)[1..] == r[1..] + s && (r + s)[0] == r[0] && r[0] in r && forall c :: c in r[1..] ==> c in r;
      SplitRun(r[1..], s, sep);
      assert [r[0]] + (r[1..] + Split(s, sep)[0]) == r + Split(s, sep)[0];
    }
  }

  lemma {:induction false} SplitJoin<T>(rs: seq<seq<T>>, sep: T)
    requires rs != [] && forall r, c :: r in rs && c in r ==> c != sep
    ensures Split(Join(rs, sep), sep) == rs
    decreases |rs|
  {
    assert rs[0] in rs;
    if |rs| == 1 {
      SplitRun(rs[0], [], sep);
      assert rs[0] + [] == rs[0];
    } else {
      var rest := [sep] + Join(rs[1..], sep);
      SplitJoin(rs[1..], sep);
      SplitRun(rs[0], rest, sep);
      assert rest[1..] == Join(rs[1..], sep);
      assert rs[0] + [sep] + Join(rs[1..], sep) == rs[0] + rest;
      assert rs[0] + [] == rs[0];
    }
  }

  lemma {:induction false} RunsOfRun<T>(r: seq<T>, s: seq<T>, isSep: T -> bool)
    requires IsRun(r, isSep) && (s != [] ==> isSep(s[0]))
    ensures Runs(r + s, isSep) == [r] + Runs(s, isSep)
    decreases |r|
  {
    assert r[0] in r;
    assert (r + s)[0] == r[0] && (r + s)[1..] == r[1..] + s;
    if |r| == 1 {
      assert r == [r[0]] && (r + s)[1..] == s;
    } else {
      assert r[1] in r && forall c :: c in r[1..] ==> c in r;
      RunsOfRun(r[1..], s, isSep);
      assert [r[0]] + r[1..] == r;
    }
  }

  lemma {:induction false} RunsOfJoin<T>(rs: seq<seq<T>>, isSep: T -> bool, sep: T)
    requires isSep(sep) && forall r :: r in rs ==> IsRun(r, isSep)
    ensures Runs(Join(rs, sep), isSep) == rs
    decreases |rs|
  {
    if rs != [] {
      assert rs[0] in rs;
      var rest := if |rs| == 1 then [] else [sep] + Join(rs[1..], sep);
      RunsOfJoin(rs[1..], isSep, sep);
      RunsOfRun(rs[0], rest, isSep);
      assert Join(rs, sep) == rs[0] + rest;
    }
  }

  // Running the pipeline on its own result changes nothing.
  lemma PipelineIdempotent<T>(s: seq<T>, isSep: T -> bool, drop: T -> bool, sep: T)
    requires isSep(sep) && drop(sep) && forall c :: drop(c) ==> isSep(c)
    ensures var t := Strip(Collapse(s, isSep, sep), drop); Strip(Collapse(t, isSep, sep), drop) == t
  {
    var t := Strip(Collapse(s, isSep, sep), drop);
    CollapseStripIsJoin(s, isSep, drop, sep);
    CollapseStripIsJoin(t, isSep, drop, sep);
    RunsAreRuns(s, isSep);
    RunsOfJoin(Runs(s, isSep), isSep, sep);
  }
}
