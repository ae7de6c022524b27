/** Slash-separated paths: lexical cleaning, joining, climbing and containment. */
module Paths {
  import opened Text

  /** A path as its segments; see IsClean. An empty relative path is the current directory. */
  datatype Path = Path(rooted: bool, segs: seq<string>)

  const SLASH := '/'
  const UP := ".."

  /** Lexical cleaning, one segment at a time: empty segments and dots vanish, and dot-dot removes the
      segment before it, stops at a root, or stays in front of a relative path. */
  function Push(rooted: bool, segs: seq<string>, name: string): seq<string> {
    if name == "" || name == "." then segs
    else if name == UP then
      if segs != [] && segs[|segs| - 1] != UP then segs[..|segs| - 1]
      else if rooted then segs
      else segs + [name]
    else segs + [name]
  }

  function Clean(rooted: bool, segs: seq<string>): seq<string> {
    if segs == [] then []
    else Push(rooted, Clean(rooted, segs[..|segs| - 1]), segs[|segs| - 1])
  }

  predicate SlashFree(segs: seq<string>) {
    forall i :: 0 <= i < |segs| ==> SLASH !in segs[i]
  }

  predicate IsClean(p: Path) {
    Clean(p.rooted, p.segs) == p.segs && SlashFree(p.segs)
  }

  /** The directory that a path stands for. */
  function Cleaned(p: Path): Path {
    Path(p.rooted, Clean(p.rooted, p.segs))
  }

  function JoinPath(dir: Path, name: string): Path {
    Path(dir.rooted, Clean(dir.rooted, dir.segs + Split(name, SLASH)))
  }

  function Render(p: Path): string {
    if p.rooted then [SLASH] + Join(p.segs, SLASH)
    else if p.segs == [] then "."
    else Join(p.segs, SLASH)
  }

  predicate Plain(segment: string) {
    segment != "" && segment != "." && segment != UP
  }

  predicate CleanName(name: string) {
    Plain(name) && SLASH !in name
  }

  // ---- cleaning

  lemma {:induction false} CleanSnoc(rooted: bool, segs: seq<string>, name: string)
    ensures Clean(rooted, segs + [name]) == Push(rooted, Clean(rooted, segs), name)
  {
    assert (segs + [name])[..|segs|] == segs;
  }

  /** Cleaning only drops segments. */
  lemma {:induction false} CleanDrops(rooted: bool, segs: seq<string>)
    ensures |Clean(rooted, segs)| <= |segs|
    ensures forall x :: x in Clean(rooted, segs) ==> x in segs
    decreases |segs|
  {
    if segs != [] {
      var front, last := segs[..|segs| - 1], segs[|segs| - 1];
      CleanDrops(rooted, front);
      assert forall x :: x in segs <==> x in front || x == last;
    }
  }

  lemma {:induction false} CleanFront(rooted: bool, segs: seq<string>)
    requires segs != [] && Clean(rooted, segs) == segs
    ensures Clean(rooted, segs[..|segs| - 1]) == segs[..|segs| - 1]
    ensures Push(rooted, segs[..|segs| - 1], segs[|segs| - 1]) == segs
  {
    CleanDrops(rooted, segs[..|segs| - 1]);
  }

  lemma {:induction false} PushStaysClean(rooted: bool, segs: seq<string>, name: string)
    requires Clean(rooted, segs) == segs
    ensures Clean(rooted, Push(rooted, segs, name)) == Push(rooted, segs, name)
  {
    if segs != [] { CleanFront(rooted, segs); }
    CleanSnoc(rooted, segs, name);
  }

  lemma {:induction false} CleanIsClean(rooted: bool, segs: seq<string>)
    ensures Clean(rooted, Clean(rooted, segs)) == Clean(rooted, segs)
    decreases |segs|
  {
    if segs != [] {
      var front := segs[..|segs| - 1];
      CleanIsClean(rooted, front);
      PushStaysClean(rooted, Clean(rooted, front), segs[|segs| - 1]);
    }
  }

  /** Cleaning the front first makes no difference. */
  lemma {:induction false} CleanAppend(rooted: bool, a: seq<string>, b: seq<string>)
    ensures Clean(rooted, Clean(rooted, a) + b) == Clean(rooted, a + b)
    decreases |b|
  {
    if b == [] {
      assert Clean(rooted, a) + b == Clean(rooted, a) && a + b == a;
      CleanIsClean(rooted, a);
    } else {
      var front, last := b[..|b| - 1], b[|b| - 1];
      assert a + b == (a + front) + [last] && Clean(rooted, a) + b == (Clean(rooted, a) + front) + [last];
      CleanAppend(rooted, a, front);
      CleanSnoc(rooted, a + front, last);
      CleanSnoc(rooted, Clean(rooted, a) + front, last);
    }
  }

  /** Nor does cleaning the rest first, as a relative path. */
  lemma {:induction false} CleanRelative(rooted: bool, a: seq<string>, b: seq<string>)
    ensures Clean(rooted, a + Clean(false, b)) == Clean(rooted, a + b)
    decreases |b|
  {
    if b != [] {
      var front, last := b[..|b| - 1], b[|b| - 1];
      var rel := Clean(false, front);
      assert a + b == (a + front) + [last];
      CleanRelative(rooted, a, front);
      CleanSnoc(rooted, a + front, last);
      PushRelative(rooted, a, rel, last);
      CleanIsClean(false, front);
      if Push(false, rel, last) != rel + [last] { PushRelativeUp(rooted, a, rel, last); }
    }
  }

  lemma {:induction false} PushRelative(rooted: bool, a: seq<string>, rel: seq<string>, name: string)
    ensures Push(false, rel, name) == rel + [name] ==>
      Clean(rooted, a + Push(false, rel, name)) == Push(rooted, Clean(rooted, a + rel), name)
  {
    assert a + (rel + [name]) == (a + rel) + [name];
    CleanSnoc(rooted, a + rel, name);
  }

  lemma {:induction false} PushRelativeUp(rooted: bool, a: seq<string>, rel: seq<string>, name: string)
    requires Clean(false, rel) == rel && Push(false, rel, name) != rel + [name]
    ensures Clean(rooted, a + Push(false, rel, name)) == Push(rooted, Clean(rooted, a + rel), name)
  {
    if Plain(name) || name != UP {
      assert Push(false, rel, name) == rel;
    } else {
      var front, last := rel[..|rel| - 1], rel[|rel| - 1];
      CleanFront(false, rel);
      assert Plain(last);
      assert a + rel == (a + front) + [last];
      CleanSnoc(rooted, a + front, last);
      var c := Clean(rooted, a + front);
      assert (c + [last])[..|c|] == c;
    }
  }

  /** A join cleans the directory, too. */
  lemma {:induction false} JoinCleans(dir: Path, name: string)
    ensures JoinPath(Cleaned(dir), name) == JoinPath(dir, name)
  {
    CleanAppend(dir.rooted, dir.segs, Split(name, SLASH));
  }

  lemma {:induction false} CleanedIsClean(p: Path)
    requires SlashFree(p.segs)
    ensures IsClean(Cleaned(p))
  {
    CleanIsClean(p.rooted, p.segs);
    CleanDrops(p.rooted, p.segs);
    var segs := Clean(p.rooted, p.segs);
    forall i | 0 <= i < |segs| ensures SLASH !in segs[i] {
      assert segs[i] in p.segs;
    }
  }

  lemma {:induction false} JoinIsClean(dir: Path, name: string)
    requires IsClean(dir)
    ensures IsClean(JoinPath(dir, name))
  {
    SplitPieces(name, SLASH);
    CleanedIsClean(Path(dir.rooted, dir.segs + Split(name, SLASH)));
  }

  /** Plain segments are kept as they are. */
  lemma {:induction false} CleanPlain(rooted: bool, a: seq<string>, b: seq<string>)
    requires Clean(rooted, a) == a && forall i :: 0 <= i < |b| ==> Plain(b[i])
    ensures Clean(rooted, a + b) == a + b
    decreases |b|
  {
    if b == [] {
      assert a + b == a;
    } else {
      var front := b[..|b| - 1];
      CleanPlain(rooted, a, front);
      assert a + b == (a + front) + [b[|b| - 1]];
      CleanSnoc(rooted, a + front, b[|b| - 1]);
    }
  }

  /** Different clean paths are written differently. */
  lemma {:induction false} RenderIsInjective(p: Path, q: Path)
    requires IsClean(p) && IsClean(q)
    ensures Render(p) == Render(q) <==> p == q
  {
    RenderStart(p);
    RenderStart(q);
    if p.rooted && q.rooted {
      assert Render(p)[1..] == Join(p.segs, SLASH) && Render(q)[1..] == Join(q.segs, SLASH);
    }
    if p.segs != [] && q.segs != [] {
      JoinEqualIff(p.segs, q.segs, SLASH);
      SplitAllFree(p.segs, SLASH);
      SplitAllFree(q.segs, SLASH);
    }
  }

  /** A written path, cut at its slashes and cleaned, is the path it was written for; it begins with a slash
      exactly if the path is rooted, and the current directory is a dot. */
  lemma {:induction false} RenderReadsBack(p: Path)
    requires IsClean(p)
    ensures Clean(p.rooted, Split(Render(p), '/')) == p.segs
    ensures Render(p) != "" && (Render(p)[0] == '/' <==> p.rooted) && (Render(p) == "." <==> p == Path(false, []))
  {
    RenderStart(p);
    var text := Join(p.segs, SLASH);
    if p.segs != [] {
      SplitOfJoin(p.segs, SLASH);
      SplitAllFree(p.segs, SLASH);
      assert Split(text, SLASH) == p.segs;
    }
    if p.rooted {
      assert Render(p) == "" + [SLASH] + text;
      SplitAtSeparator("", text, SLASH);
      CleanAppend(true, [""], Split(text, SLASH));
      assert Clean(true, [""]) == [];
      assert [] + Split(text, SLASH) == Split(text, SLASH);
    } else if p.segs == [] {
      SplitFree(".", SLASH);
    }
  }

  lemma {:induction false} RenderStart(p: Path)
    requires IsClean(p)
    ensures Render(p) != "" && (Render(p)[0] == SLASH <==> p.rooted)
    ensures p.segs != [] ==> Join(p.segs, SLASH) != "" && Join(p.segs, SLASH) != "."
  {
    if p.segs != [] {
      CleanShape(p.rooted, p.segs);
      assert p.segs[0] != "" && p.segs[0] != "." && SLASH !in p.segs[0];
      assert Join(p.segs, SLASH)[0] == p.segs[0][0];
      if |p.segs| > 1 { assert |Join(p.segs, SLASH)| > 1; }
    }
  }

  // ---- climbing

  /** The dot-dots in front of a path. */
  function Ups(segs: seq<string>): (n: nat)
    ensures n <= |segs|
    ensures forall i :: 0 <= i < n ==> segs[i] == UP
    ensures n < |segs| ==> segs[n] != UP
  {
    if segs != [] && segs[0] == UP then 1 + Ups(segs[1..]) else 0
  }

  /** A clean path has dot-dots only in front, and none behind a root. */
  lemma {:induction false} CleanShape(rooted: bool, segs: seq<string>)
    requires Clean(rooted, segs) == segs
    ensures forall i :: 0 <= i < |segs| ==> segs[i] != "" && segs[i] != "."
    ensures forall i :: 0 <= i < |segs| ==> (segs[i] == UP <==> i < Ups(segs))
    ensures rooted ==> Ups(segs) == 0
    decreases |segs|
  {
    if segs != [] {
      var n := |segs| - 1;
      var front := segs[..n];
      CleanFront(rooted, segs);
      CleanShape(rooted, front);
      assert forall i :: 0 <= i < n ==> segs[i] == front[i];
      if segs[n] == UP {
        assert front == [] || front[n - 1] == UP;
        assert !rooted;
        assert Ups(front) == n;
      }
      if Ups(segs) < n { assert segs[Ups(segs)] == front[Ups(segs)]; }
      if Ups(front) < n { assert segs[Ups(front)] == front[Ups(front)]; }
    }
  }

  function Dots(n: nat): seq<string> {
    seq(n, _ => UP)
  }

  /** Where climbing `n` times from a clean directory leads. */
  function Climb(dir: Path, n: nat): seq<string> {
    var base := Ups(dir.segs);
    if n <= |dir.segs| - base then dir.segs[..|dir.segs| - n]
    else if dir.rooted then []
    else Dots(n - (|dir.segs| - base) + base)
  }

  /** Where a relative path leads: up as often as it begins with dot-dot, then down. */
  function Follow(dir: Path, rel: seq<string>): seq<string> {
    Climb(dir, Ups(rel)) + rel[Ups(rel)..]
  }

  lemma {:induction false} ClimbStep(dir: Path, n: nat)
    requires n > 0 && (forall i :: 0 <= i < |dir.segs| ==> (dir.segs[i] == UP <==> i < Ups(dir.segs)))
    requires dir.rooted ==> Ups(dir.segs) == 0
    ensures Push(dir.rooted, Climb(dir, n - 1), UP) == Climb(dir, n)
  {
    var here, base := Climb(dir, n - 1), Ups(dir.segs);
    if n <= |dir.segs| - base {
      assert here[|here| - 1] == dir.segs[|here| - 1] && here[|here| - 1] != UP;
      assert here[..|here| - 1] == Climb(dir, n);
    } else if !dir.rooted {
      assert n - 1 == |dir.segs| - base ==> here == dir.segs[..base];
      assert here == Dots(|here|);
      assert Climb(dir, n) == here + [UP];
    }
  }

  lemma {:induction false} ClimbIs(dir: Path, n: nat)
    requires IsClean(dir)
    ensures Clean(dir.rooted, dir.segs + Dots(n)) == Climb(dir, n)
    decreases n
  {
    if n == 0 {
      assert dir.segs + Dots(0) == dir.segs;
    } else {
      ClimbIs(dir, n - 1);
      ClimbOnce(dir, n);
    }
  }

  lemma {:induction false} ClimbOnce(dir: Path, n: nat)
    requires n > 0 && IsClean(dir) && Clean(dir.rooted, dir.segs + Dots(n - 1)) == Climb(dir, n - 1)
    ensures Clean(dir.rooted, dir.segs + Dots(n)) == Climb(dir, n)
  {
    hide Clean, Climb, Push, IsClean;
    ClimbStepOfClean(dir, n);
    DotsSnoc(dir.segs, n);
    CleanSnoc(dir.rooted, dir.segs + Dots(n - 1), UP);
  }

  lemma {:induction false} DotsSnoc(segs: seq<string>, n: nat)
    requires n > 0
    ensures segs + Dots(n) == (segs + Dots(n - 1)) + [UP]
  {
  }

  lemma {:induction false} ClimbStepOfClean(dir: Path, n: nat)
    requires n > 0 && IsClean(dir)
    ensures Push(dir.rooted, Climb(dir, n - 1), UP) == Climb(dir, n)
  {
    hide Push, Climb;
    CleanShape(dir.rooted, dir.segs);
    ClimbStep(dir, n);
  }

  /** A path lies in a directory: it begins with the directory's segments and does not leave again. */
  predicate Contained(dir: Path, segs: seq<string>) {
    dir.segs <= segs && (|segs| > |dir.segs| ==> segs[|dir.segs|] != UP)
  }

  function Least(a: nat, b: nat): nat {
    if a < b then a else b
  }

  /** A relative path that climbs `up` times and then descends by `down` leads back into the directory. */
  predicate Returns(dir: Path, up: nat, down: seq<string>) {
    (dir.rooted || up <= |dir.segs| - Ups(dir.segs)) &&
    dir.segs[|dir.segs| - Least(up, |dir.segs|)..] <= down
  }

  predicate LeadsBack(dir: Path, rel: seq<string>) {
    Returns(dir, Ups(rel), rel[Ups(rel)..])
  }

  lemma {:induction false} RelativeParts(rel: seq<string>)
    requires Clean(false, rel) == rel
    ensures rel == Dots(Ups(rel)) + rel[Ups(rel)..]
    ensures forall i :: Ups(rel) <= i < |rel| ==> Plain(rel[i])
  {
    CleanShape(false, rel);
  }

  lemma {:induction false} FollowIs(dir: Path, rel: seq<string>)
    requires IsClean(dir) && Clean(false, rel) == rel
    ensures Clean(dir.rooted, dir.segs + rel) == Follow(dir, rel)
  {
    RelativeParts(rel);
    ClimbAndDescend(dir, Ups(rel), rel[Ups(rel)..]);
  }

  /** From the current directory, a clean relative path leads to itself. */
  lemma {:induction false} FollowFromHere(rel: seq<string>)
    requires Clean(false, rel) == rel
    ensures Follow(Path(false, []), rel) == rel
  {
    RelativeParts(rel);
    assert Climb(Path(false, []), Ups(rel)) == Dots(Ups(rel));
  }

  lemma {:induction false} FollowContainedIff(dir: Path, rel: seq<string>)
    requires IsClean(dir) && Clean(false, rel) == rel
    ensures Contained(dir, Follow(dir, rel)) <==> LeadsBack(dir, rel)
  {
    RelativeParts(rel);
    ContainedIff(dir, Ups(rel), rel[Ups(rel)..]);
  }

  lemma {:induction false} ClimbAndDescend(dir: Path, up: nat, down: seq<string>)
    requires IsClean(dir) && forall i :: 0 <= i < |down| ==> Plain(down[i])
    ensures Clean(dir.rooted, dir.segs + (Dots(up) + down)) == Climb(dir, up) + down
  {
    hide Clean, Climb, Plain, Dots;
    assert dir.segs + (Dots(up) + down) == dir.segs + Dots(up) + down;
    CleanAppend(dir.rooted, dir.segs + Dots(up), down);
    ClimbIs(dir, up);
    CleanIsClean(dir.rooted, dir.segs + Dots(up));
    CleanPlain(dir.rooted, Climb(dir, up), down);
  }

  lemma {:induction false} ContainedIff(dir: Path, up: nat, down: seq<string>)
    requires IsClean(dir) && forall i :: 0 <= i < |down| ==> Plain(down[i])
    ensures Contained(dir, Climb(dir, up) + down) <==> Returns(dir, up, down)
  {
    hide Clean, Plain;
    CleanShape(dir.rooted, dir.segs);
    var n, base := |dir.segs|, Ups(dir.segs);
    if dir.rooted || up <= n - base {
      DescentReturns(dir, up, down);
    } else {
      assert (Climb(dir, up) + down)[base] == UP;
    }
  }

  lemma {:induction false} DescentReturns(dir: Path, up: nat, down: seq<string>)
    requires dir.rooted || up <= |dir.segs| - Ups(dir.segs)
    requires dir.rooted ==> Ups(dir.segs) == 0
    requires forall i :: 0 <= i < |down| ==> Plain(down[i])
    ensures Contained(dir, Climb(dir, up) + down) <==> Returns(dir, up, down)
  {
    var k := |dir.segs| - Least(up, |dir.segs|);
    assert Climb(dir, up) == dir.segs[..k];
  }

  lemma {:induction false} PrefixOfBoth(m: seq<string>, a: seq<string>, b: seq<string>)
    ensures m + a <= m + b <==> a <= b
  {
    assert (m + a)[|m|..] == a && (m + b)[|m|..] == b;
  }
}
