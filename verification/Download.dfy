/** The recursive downloader: it gives every leaf of a literal tree a place in the file system and
    rewrites the locations of blobs and schemas to these places. */
module Download {
  import opened Options
  import opened Paths
  import opened Text

  function Place(dir: Path, index: nat): Path {
    JoinPath(dir, NatToString(index))
  }

  // ---- literals

  /** `Value` stands for every scalar that is passed through: primitives, binaries, errors, structs
      and none. The content of an offloaded literal is what the store holds under its location, or
      None if it cannot be read. */
  datatype Scalar =
    | Value(text: string)
    | Blob(uri: string, metadata: string)
    | Schema(uri: string, columns: string)
    | Union(chosen: string, value: Literal)
    | UnsetScalar

  datatype Literal =
    | Scalar(scalar: Scalar)
    | Collection(items: seq<Literal>)
    | Map(entries: map<string, Literal>)
    | NilMap
    | Offloaded(uri: string, content: Option<Literal>)
    | Unset

  /** Which file system and store operations succeed. */
  datatype World = World(
    fetch: (string, Path) -> bool,
    write: Path -> bool,
    mkdir: Path -> bool)

  function HandleScalar(w: World, s: Scalar, at: Path, writeToFile: bool): Option<Scalar>
    decreases s, 0
  {
    match s
    case Value(_) => if writeToFile && !w.write(at) then None else Some(s)
    case Blob(uri, metadata) => if w.fetch(uri, at) then Some(Blob(Render(at), metadata)) else None
    case Schema(uri, columns) => if w.fetch(uri, at) then Some(Schema(Render(at), columns)) else None
    case Union(chosen, value) =>
      var r := HandleLiteral(w, value, at, writeToFile);
      if r.Some? then Some(Union(chosen, r.value)) else None
    case UnsetScalar => None
  }

  function HandleLiteral(w: World, lit: Literal, at: Path, writeToFile: bool): Option<Literal>
    decreases lit, 1
  {
    match lit
    case Scalar(s) =>
      var r := HandleScalar(w, s, at, writeToFile);
      if r.Some? then Some(Scalar(r.value)) else None
    case Collection(items) =>
      if !w.mkdir(at) then None
      else if exists i :: 0 <= i < |items| && HandleLiteral(w, items[i], Place(at, i), writeToFile) == None then None
      else Some(Collection(seq(|items|, i requires 0 <= i < |items| =>
        HandleLiteral(w, items[i], Place(at, i), writeToFile).value)))
    case Map(entries) =>
      if !w.mkdir(at) then None
      else if entries == map[] then Some(NilMap)
      else if exists k :: k in entries && HandleEntry(w, entries[k], JoinPath(at, k), writeToFile) == None then None
      else Some(Map(map k | k in entries :: HandleEntry(w, entries[k], JoinPath(at, k), writeToFile).value))
    case NilMap => if w.mkdir(at) then Some(NilMap) else None
    case Offloaded(_, _) => None
    case Unset => None
  }

  function HandleEntry(w: World, lit: Literal, at: Path, writeToFile: bool): Option<Literal>
    decreases lit, 2
  {
    match lit
    case Offloaded(_, content) => if content.Some? then HandleLiteral(w, content.value, at, writeToFile) else None
    case _ => HandleLiteral(w, lit, at, writeToFile)
  }

  // ---- the tree, seen from outside

  datatype Move = At(index: nat) | Key(name: string) | Inside

  /** What a literal is, apart from its children. */
  datatype Node =
    | Leaf(scalar: Scalar)
    | ListOf(count: nat)
    | MapOf(names: set<string>)
    | Nil
    | UnionOf(chosen: string)
    | Unsupported

  function NodeOf(lit: Literal): Node {
    match lit
    case Scalar(Union(chosen, _)) => UnionOf(chosen)
    case Scalar(UnsetScalar) => Unsupported
    case Scalar(s) => Leaf(s)
    case Collection(items) => ListOf(|items|)
    case Map(entries) => if entries == map[] then Nil else MapOf(entries.Keys)
    case NilMap => Nil
    case Offloaded(_, _) => Unsupported
    case Unset => Unsupported
  }

  /** A map entry as the download sees it: an offloaded literal is read first, and counts as unset if
      it cannot be read. */
  function Resolved(lit: Literal): Literal {
    match lit
    case Offloaded(_, content) => if content.Some? then content.value else Unset
    case _ => lit
  }

  function Child(lit: Literal, move: Move): Option<Literal> {
    match (lit, move)
    case (Scalar(Union(_, value)), Inside) => Some(value)
    case (Collection(items), At(i)) => if i < |items| then Some(items[i]) else None
    case (Map(entries), Key(k)) => if k in entries then Some(Resolved(entries[k])) else None
    case _ => None
  }

  /** The node at a position, if the tree has that position. */
  function NodeAt(lit: Literal, pos: seq<Move>): Option<Node>
    decreases |pos|
  {
    if pos == [] then Some(NodeOf(lit))
    else
      var child := Child(lit, pos[0]);
      if child.Some? then NodeAt(child.value, pos[1..]) else None
  }

  function MovePath(at: Path, move: Move): Path {
    match move
    case At(i) => Place(at, i)
    case Key(k) => JoinPath(at, k)
    case Inside => at
  }

  /** The path of a position: one segment for each index and key on the way. */
  function PathAt(dir: Path, pos: seq<Move>): Path
    decreases |pos|
  {
    if pos == [] then dir else PathAt(MovePath(dir, pos[0]), pos[1..])
  }

  /** A node after the download: blobs and schemas point to their place. */
  function Relocated(node: Node, at: Path): Node {
    match node
    case Leaf(Blob(_, metadata)) => Leaf(Blob(Render(at), metadata))
    case Leaf(Schema(_, columns)) => Leaf(Schema(Render(at), columns))
    case _ => node
  }

  /** The operations for one node succeed. */
  predicate NodeOk(w: World, node: Node, at: Path, writeToFile: bool) {
    match node
    case Leaf(Blob(uri, _)) => w.fetch(uri, at)
    case Leaf(Schema(uri, _)) => w.fetch(uri, at)
    case Leaf(_) => writeToFile ==> w.write(at)
    case ListOf(_) => w.mkdir(at)
    case MapOf(_) => w.mkdir(at)
    case Nil => w.mkdir(at)
    case UnionOf(_) => true
    case Unsupported => false
  }

  lemma {:induction false} EntryResult(w: World, lit: Literal, at: Path, writeToFile: bool)
    ensures HandleEntry(w, lit, at, writeToFile) == HandleLiteral(w, Resolved(lit), at, writeToFile)
    ensures HandleEntry(w, lit, at, writeToFile).Some? ==>
      var out := HandleEntry(w, lit, at, writeToFile).value; Resolved(out) == out
  {
    assert HandleLiteral(w, Unset, at, writeToFile) == None;
  }

  lemma {:induction false} NodeOfResult(w: World, lit: Literal, at: Path, writeToFile: bool)
    requires HandleLiteral(w, lit, at, writeToFile).Some?
    ensures NodeOf(HandleLiteral(w, lit, at, writeToFile).value) == Relocated(NodeOf(lit), at)
    ensures NodeOk(w, NodeOf(lit), at, writeToFile)
  {
    match lit
    case Scalar(s) => assert HandleScalar(w, s, at, writeToFile).Some?;
    case Map(entries) => if entries != map[] { EntryNames(w, lit, at, writeToFile); }
    case _ =>
  }

  lemma {:induction false} EntryNames(w: World, lit: Literal, at: Path, writeToFile: bool)
    requires lit.Map? && lit.entries != map[] && HandleLiteral(w, lit, at, writeToFile).Some?
    ensures
      var out := HandleLiteral(w, lit, at, writeToFile).value;
      out.Map? && out.entries.Keys == lit.entries.Keys && out.entries != map[] && w.mkdir(at)
  {
    var out := HandleLiteral(w, lit, at, writeToFile).value;
    var k :| k in lit.entries;
    assert k in out.entries;
  }

  lemma {:induction false} ChildOfResult(w: World, lit: Literal, at: Path, writeToFile: bool, move: Move)
    requires HandleLiteral(w, lit, at, writeToFile).Some?
    ensures
      var below := Child(HandleLiteral(w, lit, at, writeToFile).value, move);
      if Child(lit, move).None? then below.None?
      else below.Some? && below == HandleLiteral(w, Child(lit, move).value, MovePath(at, move), writeToFile)
  {
    var out := HandleLiteral(w, lit, at, writeToFile).value;
    if lit.Map? && lit.entries != map[] && move.Key? && move.name in lit.entries {
      var entry := lit.entries[move.name];
      EntryResult(w, entry, JoinPath(at, move.name), writeToFile);
      assert out.entries[move.name] == HandleEntry(w, entry, JoinPath(at, move.name), writeToFile).value;
    }
  }

  /** Download preserves shape: the result has the positions of the input and no others, every node
      is unchanged except that each blob and schema points to the path of its own position and an
      empty map becomes nil, and every operation on the way has succeeded. */
  lemma {:induction false} DownloadKeepsShape(w: World, lit: Literal, dir: Path, writeToFile: bool, pos: seq<Move>)
    requires HandleLiteral(w, lit, dir, writeToFile).Some?
    ensures
      var out := HandleLiteral(w, lit, dir, writeToFile).value;
      var node, path := NodeAt(lit, pos), PathAt(dir, pos);
      if node.None? then NodeAt(out, pos).None?
      else NodeAt(out, pos) == Some(Relocated(node.value, path)) && NodeOk(w, node.value, path, writeToFile)
    decreases |pos|
  {
    if pos == [] {
      NodeOfResult(w, lit, dir, writeToFile);
    } else {
      ChildOfResult(w, lit, dir, writeToFile, pos[0]);
      var child := Child(lit, pos[0]);
      if child.Some? { DownloadKeepsShape(w, child.value, MovePath(dir, pos[0]), writeToFile, pos[1..]); }
    }
  }

  /** Every node of the tree is supported and its operations succeed. */
  ghost predicate AllOk(w: World, lit: Literal, dir: Path, writeToFile: bool) {
    forall pos :: NodeAt(lit, pos).Some? ==> NodeOk(w, NodeAt(lit, pos).value, PathAt(dir, pos), writeToFile)
  }

  lemma {:induction false} ChildOk(w: World, lit: Literal, dir: Path, writeToFile: bool, move: Move)
    requires AllOk(w, lit, dir, writeToFile) && Child(lit, move).Some?
    ensures AllOk(w, Child(lit, move).value, MovePath(dir, move), writeToFile)
  {
    var child := Child(lit, move).value;
    forall pos | NodeAt(child, pos).Some?
      ensures NodeOk(w, NodeAt(child, pos).value, PathAt(MovePath(dir, move), pos), writeToFile)
    {
      var longer := [move] + pos;
      assert longer[0] == move && longer[1..] == pos;
      assert NodeAt(lit, longer) == NodeAt(child, pos) && PathAt(dir, longer) == PathAt(MovePath(dir, move), pos);
    }
  }

  lemma {:induction false} AllOkSucceeds(w: World, lit: Literal, dir: Path, writeToFile: bool)
    requires AllOk(w, lit, dir, writeToFile)
    ensures HandleLiteral(w, lit, dir, writeToFile).Some?
    decreases lit, 0
  {
    assert NodeAt(lit, []) == Some(NodeOf(lit)) && PathAt(dir, []) == dir;
    match lit
    case Scalar(Union(_, value)) =>
      ChildOk(w, lit, dir, writeToFile, Inside);
      AllOkSucceeds(w, value, dir, writeToFile);
    case Collection(items) =>
      forall i | 0 <= i < |items| ensures HandleLiteral(w, items[i], Place(dir, i), writeToFile).Some? {
        ChildOk(w, lit, dir, writeToFile, At(i));
        AllOkSucceeds(w, items[i], Place(dir, i), writeToFile);
      }
    case Map(entries) =>
      forall k | k in entries ensures HandleEntry(w, entries[k], JoinPath(dir, k), writeToFile).Some? {
        ChildOk(w, lit, dir, writeToFile, Key(k));
        EntrySucceeds(w, entries[k], JoinPath(dir, k), writeToFile);
      }
    case _ =>
  }

  lemma {:induction false} EntrySucceeds(w: World, lit: Literal, at: Path, writeToFile: bool)
    requires AllOk(w, Resolved(lit), at, writeToFile)
    ensures HandleEntry(w, lit, at, writeToFile).Some?
    decreases lit, 1
  {
    assert NodeAt(Resolved(lit), []) == Some(NodeOf(Resolved(lit)));
    match lit
    case Offloaded(_, content) => if content.Some? { AllOkSucceeds(w, content.value, at, writeToFile); }
    case _ => AllOkSucceeds(w, lit, at, writeToFile);
  }

  /** A download succeeds exactly when every node of the tree can be downloaded to its own path. */
  lemma {:induction false} SucceedsIff(w: World, lit: Literal, dir: Path, writeToFile: bool)
    ensures HandleLiteral(w, lit, dir, writeToFile).Some? <==> AllOk(w, lit, dir, writeToFile)
  {
    if HandleLiteral(w, lit, dir, writeToFile).Some? {
      forall pos | NodeAt(lit, pos).Some?
        ensures NodeOk(w, NodeAt(lit, pos).value, PathAt(dir, pos), writeToFile)
      {
        DownloadKeepsShape(w, lit, dir, writeToFile, pos);
      }
    }
    if AllOk(w, lit, dir, writeToFile) { AllOkSucceeds(w, lit, dir, writeToFile); }
  }

  // ---- leaf paths

  ghost predicate CleanKeys(lit: Literal) {
    forall pos, k :: NodeAt(lit, pos).Some? && NodeAt(lit, pos).value.MapOf? && k in NodeAt(lit, pos).value.names ==>
      CleanName(k)
  }

  function MoveNames(move: Move): seq<string> {
    match move
    case At(i) => [NatToString(i)]
    case Key(k) => [k]
    case Inside => []
  }

  /** The segments that a position adds to the directory. */
  function Names(pos: seq<Move>): seq<string>
    decreases |pos|
  {
    if pos == [] then [] else MoveNames(pos[0]) + Names(pos[1..])
  }

  lemma {:induction false} IndexIsClean(i: nat)
    ensures CleanName(NatToString(i))
  {
    assert forall c :: c in NatToString(i) ==> IsDigit(c);
    assert IsDigit(NatToString(i)[0]);
  }

  lemma {:induction false} CleanChild(lit: Literal, move: Move)
    requires CleanKeys(lit) && Child(lit, move).Some?
    ensures CleanKeys(Child(lit, move).value)
    ensures move.Key? ==> CleanName(move.name)
  {
    var child := Child(lit, move).value;
    forall pos, k | NodeAt(child, pos).Some? && NodeAt(child, pos).value.MapOf? && k in NodeAt(child, pos).value.names
      ensures CleanName(k)
    {
      var longer := [move] + pos;
      assert longer[0] == move && longer[1..] == pos;
      assert NodeAt(lit, longer) == NodeAt(child, pos);
    }
    if move.Key? {
      assert NodeAt(lit, []) == Some(NodeOf(lit));
      assert move.name in NodeOf(lit).names;
    }
  }

  /** The names on the way to a position, cut at every slash. */
  function Pieces(pos: seq<Move>): seq<string> {
    SplitAll(Names(pos), SLASH)
  }

  /** A position as a clean path relative to the output directory. */
  function Relative(pos: seq<Move>): seq<string> {
    Clean(false, Pieces(pos))
  }

  lemma {:induction false} MoveIsPieces(dir: Path, move: Move)
    requires IsClean(dir)
    ensures MovePath(dir, move) == Path(dir.rooted, Clean(dir.rooted, dir.segs + SplitAll(MoveNames(move), SLASH)))
    ensures IsClean(MovePath(dir, move))
  {
    match move
    case At(i) =>
      SplitOne(NatToString(i), SLASH);
      JoinIsClean(dir, NatToString(i));
    case Key(k) =>
      SplitOne(k, SLASH);
      JoinIsClean(dir, k);
    case Inside =>
      assert dir.segs + SplitAll([], SLASH) == dir.segs;
  }

  lemma {:induction false} PiecesOfNone(dir: Path)
    ensures dir.segs + Pieces([]) == dir.segs
  {
  }

  lemma {:induction false} PiecesStep(dir: Path, pos: seq<Move>)
    requires pos != []
    ensures
      var below := Clean(dir.rooted, dir.segs + SplitAll(MoveNames(pos[0]), SLASH));
      Clean(dir.rooted, below + Pieces(pos[1..])) == Clean(dir.rooted, dir.segs + Pieces(pos))
  {
    hide Clean, SplitAll, MoveNames;
    var first, rest := SplitAll(MoveNames(pos[0]), SLASH), Pieces(pos[1..]);
    SplitAllAppend(MoveNames(pos[0]), Names(pos[1..]), SLASH);
    CleanAppend(dir.rooted, dir.segs + first, rest);
    assert dir.segs + Pieces(pos) == (dir.segs + first) + rest;
  }

  /** The path of a position for all variable names, with slashes, dots or nothing in them: the names
      are cut at every slash and the result is cleaned once. */
  lemma {:induction false} PathIsPieces(dir: Path, pos: seq<Move>)
    requires IsClean(dir)
    ensures PathAt(dir, pos) == Path(dir.rooted, Clean(dir.rooted, dir.segs + Pieces(pos)))
    ensures IsClean(PathAt(dir, pos))
    decreases |pos|
  {
    hide Clean, SplitAll, MoveNames, MovePath, Pieces, SlashFree;
    if pos == [] {
      PiecesOfNone(dir);
    } else {
      MoveIsPieces(dir, pos[0]);
      PathIsPieces(MovePath(dir, pos[0]), pos[1..]);
      PiecesStep(dir, pos);
    }
  }

  /** Seen from the output directory: the path of a position is found by following its relative path. */
  lemma {:induction false} PathIsRelative(dir: Path, pos: seq<Move>)
    requires IsClean(dir)
    ensures PathAt(dir, pos).segs == Follow(dir, Relative(pos))
  {
    hide Clean, Follow;
    PathIsPieces(dir, pos);
    CleanRelative(dir.rooted, dir.segs, Pieces(pos));
    CleanIsClean(false, Pieces(pos));
    FollowIs(dir, Relative(pos));
  }

  /** The position never climbs out of the directory it is in. */
  predicate StaysBelow(pos: seq<Move>) {
    Ups(Relative(pos)) == 0
  }

  lemma {:induction false} PathBelow(dir: Path, pos: seq<Move>)
    requires IsClean(dir) && StaysBelow(pos)
    ensures PathAt(dir, pos) == Path(dir.rooted, dir.segs + Relative(pos))
  {
    PathIsPieces(dir, pos);
    PathIsRelative(dir, pos);
    FollowBelow(dir, pos);
  }

  /** Exactly when one position's path is that of another or a directory above it, for all variable
      names: when following its relative path leads there. */
  lemma {:induction false} PathsClashIff(dir: Path, p: seq<Move>, q: seq<Move>)
    requires IsClean(dir)
    ensures PathAt(dir, p).segs <= PathAt(dir, q).segs <==> Follow(dir, Relative(p)) <= Follow(dir, Relative(q))
  {
    hide Follow, Relative;
    PathIsRelative(dir, p);
    PathIsRelative(dir, q);
  }

  /** If the names do not climb out, the directory makes no difference: the relative path of one is a
      prefix of the other's. */
  lemma {:induction false} PathsBelowClashIff(dir: Path, p: seq<Move>, q: seq<Move>)
    requires IsClean(dir) && StaysBelow(p) && StaysBelow(q)
    ensures PathAt(dir, p).segs <= PathAt(dir, q).segs <==> Relative(p) <= Relative(q)
  {
    FollowBelow(dir, p);
    FollowBelow(dir, q);
    PathsClashIff(dir, p, q);
    PrefixOfBoth(dir.segs, Relative(p), Relative(q));
  }

  lemma {:induction false} FollowBelow(dir: Path, pos: seq<Move>)
    requires StaysBelow(pos)
    ensures Follow(dir, Relative(pos)) == dir.segs + Relative(pos)
  {
    assert Climb(dir, 0) == dir.segs && Relative(pos)[0..] == Relative(pos);
  }

  /** Exactly when two positions share their path in every directory: when their relative paths are equal. */
  lemma {:induction false} AlwaysSamePathIff(p: seq<Move>, q: seq<Move>)
    ensures Relative(p) == Relative(q) <==> forall dir :: IsClean(dir) ==> PathAt(dir, p) == PathAt(dir, q)
  {
    var here := Path(false, []);
    assert IsClean(here);
    PathFromHere(p);
    PathFromHere(q);
    if Relative(p) == Relative(q) {
      forall dir | IsClean(dir) ensures PathAt(dir, p) == PathAt(dir, q) {
        PathIsPieces(dir, p);
        PathIsPieces(dir, q);
        PathIsRelative(dir, p);
        PathIsRelative(dir, q);
      }
    }
  }

  lemma {:induction false} PathFromHere(pos: seq<Move>)
    ensures PathAt(Path(false, []), pos).segs == Relative(pos)
  {
    PathIsRelative(Path(false, []), pos);
    CleanIsClean(false, Pieces(pos));
    FollowFromHere(Relative(pos));
  }

  /** The output directory need not be clean: the first name that is joined cleans it. */
  lemma {:induction false} DirectoryIsCleaned(dir: Path, pos: seq<Move>)
    requires Names(pos) != []
    ensures PathAt(dir, pos) == PathAt(Cleaned(dir), pos)
    decreases |pos|
  {
    match pos[0]
    case At(i) => JoinCleans(dir, NatToString(i));
    case Key(k) => JoinCleans(dir, k);
    case Inside =>
      assert Names(pos) == Names(pos[1..]);
      DirectoryIsCleaned(dir, pos[1..]);
  }

  /** The same, seen from the names: if every piece between slashes is a plain segment, positions clash
      exactly when the pieces of one are a prefix of those of the other. */
  lemma {:induction false} PiecesClashIff(dir: Path, p: seq<Move>, q: seq<Move>)
    requires IsClean(dir)
    requires forall i :: 0 <= i < |Pieces(p)| ==> Plain(Pieces(p)[i])
    requires forall i :: 0 <= i < |Pieces(q)| ==> Plain(Pieces(q)[i])
    ensures PathAt(dir, p).segs <= PathAt(dir, q).segs <==> Pieces(p) <= Pieces(q)
  {
    PlainPieces(p);
    PlainPieces(q);
    PathsBelowClashIff(dir, p, q);
  }

  lemma {:induction false} PlainPieces(pos: seq<Move>)
    requires forall i :: 0 <= i < |Pieces(pos)| ==> Plain(Pieces(pos)[i])
    ensures Relative(pos) == Pieces(pos) && StaysBelow(pos)
  {
    CleanPlain(false, [], Pieces(pos));
    assert [] + Pieces(pos) == Pieces(pos);
  }

  /** For all names: the path of a position lies in the output directory exactly if its relative path
      leads back there. */
  lemma {:induction false} ContainedPathIff(dir: Path, pos: seq<Move>)
    requires IsClean(dir)
    ensures Contained(dir, PathAt(dir, pos).segs) <==> LeadsBack(dir, Relative(pos))
  {
    hide Clean, Follow, LeadsBack;
    PathIsRelative(dir, pos);
    CleanIsClean(false, Pieces(pos));
    FollowContainedIff(dir, Relative(pos));
  }

  /** Nothing is written outside the output directory, whatever that directory is, exactly if the
      position never climbs out. */
  lemma {:induction false} AlwaysContainedIff(pos: seq<Move>)
    ensures StaysBelow(pos) <==> forall dir :: IsClean(dir) ==> Contained(dir, PathAt(dir, pos).segs)
  {
    var here := Path(false, []);
    assert IsClean(here);
    ContainedPathIff(here, pos);
    if StaysBelow(pos) {
      forall dir | IsClean(dir) ensures Contained(dir, PathAt(dir, pos).segs) {
        ContainedPathIff(dir, pos);
      }
    }
  }

  /** What the special names do: an empty name and a dot name the directory of the map itself, and
      dot-dot the directory above it. */
  lemma {:induction false} SpecialNames(dir: Path)
    requires IsClean(dir)
    ensures PathAt(dir, [Key("")]) == dir && PathAt(dir, [Key(".")]) == dir
    ensures PathAt(dir, [Key("..")]) == Path(dir.rooted, Climb(dir, 1))
  {
    OneName(dir, "");
    OneName(dir, ".");
    OneName(dir, "..");
    CleanSnoc(dir.rooted, dir.segs, "");
    CleanSnoc(dir.rooted, dir.segs, ".");
    ClimbIs(dir, 1);
    assert Dots(1) == [".."];
  }

  lemma {:induction false} OneName(dir: Path, name: string)
    requires IsClean(dir) && SLASH !in name
    ensures PathAt(dir, [Key(name)]) == Path(dir.rooted, Clean(dir.rooted, dir.segs + [name]))
  {
    PathIsPieces(dir, [Key(name)]);
    assert [Key(name)][1..] == [] && [name] + [] == [name];
    assert Names([Key(name)]) == [name];
    SplitOne(name, SLASH);
    SplitFree(name, SLASH);
  }

  lemma {:induction false} NamesAreClean(lit: Literal, pos: seq<Move>)
    requires CleanKeys(lit) && NodeAt(lit, pos).Some?
    ensures forall i :: 0 <= i < |Names(pos)| ==> CleanName(Names(pos)[i])
    decreases |pos|
  {
    if pos != [] {
      CleanChild(lit, pos[0]);
      if pos[0].At? { IndexIsClean(pos[0].index); }
      NamesAreClean(Child(lit, pos[0]).value, pos[1..]);
    }
  }

  lemma {:induction false} NamesArePieces(lit: Literal, pos: seq<Move>)
    requires CleanKeys(lit) && NodeAt(lit, pos).Some?
    ensures Pieces(pos) == Names(pos) && Relative(pos) == Names(pos) && StaysBelow(pos)
  {
    NamesAreClean(lit, pos);
    SplitAllFree(Names(pos), SLASH);
    PlainPieces(pos);
  }

  ghost predicate IsLeaf(lit: Literal, pos: seq<Move>) {
    NodeAt(lit, pos).Some? && NodeAt(lit, pos).value.Leaf?
  }

  lemma {:induction false} LeafNamesDiffer(lit: Literal, p: seq<Move>, q: seq<Move>)
    requires IsLeaf(lit, p) && IsLeaf(lit, q) && p != q
    ensures !(Names(p) <= Names(q))
    decreases |p|
  {
    assert p != [] && q != [];
    if p[0] == q[0] {
      LeafNamesDiffer(Child(lit, p[0]).value, p[1..], q[1..]);
      PrefixOfBoth(MoveNames(p[0]), Names(p[1..]), Names(q[1..]));
    } else {
      if p[0].At? { NatToStringInjective(p[0].index, q[0].index); }
      assert Names(p)[0] != Names(q)[0];
    }
  }

  /** Leaf paths never clash: if the variable names are single clean segments, two leaves never share
      a path, and no leaf's path is a directory above another leaf's. */
  lemma {:induction false} LeafPathsNeverClash(lit: Literal, dir: Path, p: seq<Move>, q: seq<Move>)
    requires CleanKeys(lit) && IsClean(dir) && IsLeaf(lit, p) && IsLeaf(lit, q) && p != q
    ensures !(PathAt(dir, p).segs <= PathAt(dir, q).segs)
  {
    NamesArePieces(lit, p);
    NamesArePieces(lit, q);
    LeafNamesDiffer(lit, p, q);
    PathsBelowClashIff(dir, p, q);
  }

  /** No leaf of the tree shares the path of another or lies below it. */
  ghost predicate LeavesApart(lit: Literal, dir: Path) {
    forall p, q :: IsLeaf(lit, p) && IsLeaf(lit, q) && p != q ==> !(PathAt(dir, p).segs <= PathAt(dir, q).segs)
  }

  /** Exactly when a tree is free of clashes, for all names. */
  lemma {:induction false} LeavesApartIff(lit: Literal, dir: Path)
    requires IsClean(dir)
    ensures LeavesApart(lit, dir) <==>
      forall p, q :: IsLeaf(lit, p) && IsLeaf(lit, q) && p != q ==>
        !(Follow(dir, Relative(p)) <= Follow(dir, Relative(q)))
  {
    hide Follow, Relative;
    forall p, q
      ensures PathAt(dir, p).segs <= PathAt(dir, q).segs <==> Follow(dir, Relative(p)) <= Follow(dir, Relative(q))
    {
      PathsClashIff(dir, p, q);
    }
  }

  /** If no name climbs out, the directory makes no difference. */
  lemma {:induction false} LeavesBelowApartIff(lit: Literal, dir: Path)
    requires IsClean(dir) && forall p :: IsLeaf(lit, p) ==> StaysBelow(p)
    ensures LeavesApart(lit, dir) <==>
      forall p, q :: IsLeaf(lit, p) && IsLeaf(lit, q) && p != q ==> !(Relative(p) <= Relative(q))
  {
    forall p, q | IsLeaf(lit, p) && IsLeaf(lit, q)
      ensures PathAt(dir, p).segs <= PathAt(dir, q).segs <==> Relative(p) <= Relative(q)
    {
      PathsBelowClashIff(dir, p, q);
    }
  }

  /** Dot-dot shows why climbing names need the directory: at a root it stays there, above everything. */
  lemma {:induction false} DotDotAtRootClashes(name: string)
    requires CleanName(name)
    ensures
      var root, up, down := Path(true, []), [Key("..")], [Key(name)];
      PathAt(root, up).segs <= PathAt(root, down).segs && !(Relative(up) <= Relative(down))
  {
    var root := Path(true, []);
    OneName(root, "..");
    CleanSnoc(true, [], "..");
    assert PathAt(root, [Key("..")]).segs == [];
    OneRelative("..");
    OneRelative(name);
  }

  lemma {:induction false} OneRelative(name: string)
    requires SLASH !in name && name != "" && name != "."
    ensures Relative([Key(name)]) == [name]
  {
    assert [Key(name)][1..] == [] && [name] + [] == [name];
    assert Names([Key(name)]) == [name];
    SplitOne(name, SLASH);
    SplitFree(name, SLASH);
    assert [] + [name] == [name];
    CleanSnoc(false, [], name);
  }

  /** As strings, too: for all names, locations are equal exactly when paths are. */
  lemma {:induction false} LocationsEqualIff(dir: Path, p: seq<Move>, q: seq<Move>)
    requires IsClean(dir)
    ensures Render(PathAt(dir, p)) == Render(PathAt(dir, q)) <==> PathAt(dir, p) == PathAt(dir, q)
  {
    PathIsPieces(dir, p);
    PathIsPieces(dir, q);
    RenderIsInjective(PathAt(dir, p), PathAt(dir, q));
  }

  lemma {:induction false} LeafLocationsDiffer(lit: Literal, dir: Path, p: seq<Move>, q: seq<Move>)
    requires CleanKeys(lit) && IsClean(dir) && IsLeaf(lit, p) && IsLeaf(lit, q) && p != q
    ensures Render(PathAt(dir, p)) != Render(PathAt(dir, q))
  {
    LeafPathsNeverClash(lit, dir, p, q);
    LocationsEqualIff(dir, p, q);
  }

  /** A variable name with a slash can clash with an item of another variable's collection: both have
      the same pieces. */
  lemma {:induction false} SlashInNameClashes(dir: Path, name: string, index: nat)
    requires IsClean(dir)
    ensures PathAt(dir, [Key(name + [SLASH] + NatToString(index))]) == PathAt(dir, [Key(name), At(index)])
  {
    var item := NatToString(index);
    var one, two := [Key(name + [SLASH] + item)], [Key(name), At(index)];
    PathIsPieces(dir, one);
    PathIsPieces(dir, two);
    assert one[1..] == [] && two[1..] == [At(index)] && two[1..][1..] == [];
    assert Names(one) == [name + [SLASH] + item];
    assert Names(two[1..]) == [item];
    assert Names(two) == [name] + [item];
    SplitOne(name + [SLASH] + item, SLASH);
    SplitAllAppend([name], [item], SLASH);
    SplitOne(name, SLASH);
    SplitOne(item, SLASH);
    SplitAtSeparator(name, item, SLASH);
  }

  /** One of two paths is the other or a directory above it. */
  predicate Clash(a: seq<string>, b: seq<string>) {
    a <= b || b <= a
  }

  /** Exactly when the metadata file written into the output directory collides with a position, for all
      variable names; and, if the names do not climb out, seen from the names alone. */
  lemma {:induction false} MetadataClashIff(dir: Path, file: string, pos: seq<Move>)
    requires IsClean(dir) && CleanName(file)
    ensures
      var leaf, meta := PathAt(dir, pos).segs, JoinPath(dir, file).segs;
      && (Clash(meta, leaf) <==> Clash(dir.segs + [file], Follow(dir, Relative(pos))))
      && (StaysBelow(pos) ==> (Clash(meta, leaf) <==> Relative(pos) == [] || Relative(pos)[0] == file))
  {
    PathIsRelative(dir, pos);
    MetadataPath(dir, file);
    if StaysBelow(pos) {
      FollowBelow(dir, pos);
      PrefixOfBoth(dir.segs, Relative(pos), [file]);
      PrefixOfBoth(dir.segs, [file], Relative(pos));
    }
  }

  lemma {:induction false} MetadataPath(dir: Path, file: string)
    requires IsClean(dir) && CleanName(file)
    ensures JoinPath(dir, file).segs == dir.segs + [file]
  {
    CleanPlain(dir.rooted, dir.segs, [file]);
    SplitFree(file, SLASH);
  }

  /** With single clean segments as variable names: when the leaf lies under the variable that has the
      name of the file. */
  lemma {:induction false} MetadataClashesWithVariable(entries: map<string, Literal>, dir: Path, file: string,
                                                       pos: seq<Move>)
    requires CleanKeys(Map(entries)) && IsClean(dir) && CleanName(file) && IsLeaf(Map(entries), pos)
    ensures Clash(JoinPath(dir, file).segs, PathAt(dir, pos).segs) <==> pos[0] == Key(file)
  {
    hide Clean, Follow, JoinPath, PathAt, Relative;
    NamesArePieces(Map(entries), pos);
    MetadataClashIff(dir, file, pos);
    assert pos != [] && pos[0].Key?;
    assert Names(pos)[0] == pos[0].name;
  }

  // ---- the loops

  method HandleScalarStep(w: World, s: Scalar, at: Path, writeToFile: bool) returns (r: Option<Scalar>)
    ensures r == HandleScalar(w, s, at, writeToFile)
    decreases s, 0
  {
    match s
    case Union(chosen, value) =>
      var below := HandleLiteralStep(w, value, at, writeToFile);
      return if below.Some? then Some(Union(chosen, below.value)) else None;
    case Value(_) => return if writeToFile && !w.write(at) then None else Some(s);
    case Blob(uri, metadata) => return if w.fetch(uri, at) then Some(Blob(Render(at), metadata)) else None;
    case Schema(uri, columns) => return if w.fetch(uri, at) then Some(Schema(Render(at), columns)) else None;
    case UnsetScalar => return None;
  }

  method HandleLiteralStep(w: World, lit: Literal, at: Path, writeToFile: bool) returns (r: Option<Literal>)
    ensures r == HandleLiteral(w, lit, at, writeToFile)
    decreases lit, 2
  {
    match lit
    case Scalar(s) =>
      var below := HandleScalarStep(w, s, at, writeToFile);
      return if below.Some? then Some(Scalar(below.value)) else None;
    case Collection(_) =>
      if !w.mkdir(at) {
        return None;
      }
      r := HandleCollection(w, lit, at, writeToFile);
    case Map(_) =>
      if !w.mkdir(at) {
        return None;
      }
      r := RecursiveDownload(w, lit, at, writeToFile);
    case NilMap => return if w.mkdir(at) then Some(NilMap) else None;
    case Offloaded(_, _) => return None;
    case Unset => return None;
  }

  method HandleCollection(w: World, lit: Literal, dir: Path, writeToFile: bool) returns (r: Option<Literal>)
    requires lit.Collection? && w.mkdir(dir)
    ensures r == HandleLiteral(w, lit, dir, writeToFile)
    decreases lit, 0
  {
    var items := lit.items;
    if |items| == 0 {
      assert HandleLiteral(w, lit, dir, writeToFile).value.items == items;
      return Some(lit);
    }
    var collected: seq<Literal> := [];
    for i := 0 to |items|
      invariant |collected| == i
      invariant forall j :: 0 <= j < i ==> HandleLiteral(w, items[j], Place(dir, j), writeToFile) == Some(collected[j])
    {
      var below := HandleLiteralStep(w, items[i], Place(dir, i), writeToFile);
      if below.None? {
        return None;
      }
      collected := collected + [below.value];
    }
    assert HandleLiteral(w, lit, dir, writeToFile).value.items == collected;
    return Some(Collection(collected));
  }

  /** What the download of each variable will come to. */
  ghost predicate Started(w: World, entries: map<string, Literal>, dir: Path, writeToFile: bool,
                          futures: map<string, Option<Literal>>) {
    futures.Keys <= entries.Keys &&
    forall k :: k in futures ==> futures[k] == HandleEntry(w, entries[k], JoinPath(dir, k), writeToFile)
  }

  lemma {:induction false} MapFails(w: World, entries: map<string, Literal>, dir: Path, writeToFile: bool, k: string)
    requires k in entries && HandleEntry(w, entries[k], JoinPath(dir, k), writeToFile) == None
    ensures HandleLiteral(w, Map(entries), dir, writeToFile) == None
  {
  }

  lemma {:induction false} MapSucceeds(w: World, entries: map<string, Literal>, dir: Path, writeToFile: bool,
                                       results: map<string, Literal>)
    requires w.mkdir(dir) && entries != map[] && results.Keys == entries.Keys
    requires forall k :: k in entries ==>
      HandleEntry(w, entries[k], JoinPath(dir, k), writeToFile) == Some(results[k])
    ensures HandleLiteral(w, Map(entries), dir, writeToFile) == Some(Map(results))
  {
    assert HandleLiteral(w, Map(entries), dir, writeToFile).value.entries == results;
  }

  /** Starts one download for every variable, in any order; an offloaded literal is read first. */
  method StartAll(w: World, lit: Literal, dir: Path, writeToFile: bool)
    returns (ok: bool, futures: map<string, Option<Literal>>)
    requires lit.Map?
    ensures !ok ==> HandleLiteral(w, lit, dir, writeToFile) == None
    ensures ok ==> futures.Keys == lit.entries.Keys && Started(w, lit.entries, dir, writeToFile, futures)
    decreases lit, 0
  {
    var entries := lit.entries;
    futures := map[];
    var pending := entries.Keys;
    while pending != {}
      invariant pending <= entries.Keys && futures.Keys == entries.Keys - pending
      invariant Started(w, entries, dir, writeToFile, futures)
      decreases pending
    {
      var k :| k in pending;
      pending := pending - {k};
      var literal := entries[k];
      if literal.Offloaded? {
        if literal.content.None? {
          MapFails(w, entries, dir, writeToFile, k);
          return false, futures;
        }
        literal := literal.content.value;
      }
      var future := HandleLiteralStep(w, literal, JoinPath(dir, k), writeToFile);
      futures := futures[k := future];
    }
    return true, futures;
  }

  /** Waits for every download, in any order; the first that failed fails all. */
  method AwaitAll(futures: map<string, Option<Literal>>) returns (r: Option<map<string, Literal>>)
    ensures r.None? <==> exists k :: k in futures && futures[k] == None
    ensures r.Some? ==> r.value == map k | k in futures :: futures[k].value
  {
    var results: map<string, Literal> := map[];
    var waiting := futures.Keys;
    while waiting != {}
      invariant waiting <= futures.Keys && results.Keys == futures.Keys - waiting
      invariant forall k :: k in results ==> futures[k] == Some(results[k])
      decreases waiting
    {
      var k :| k in waiting;
      waiting := waiting - {k};
      if futures[k].None? {
        return None;
      }
      results := results[k := futures[k].value];
    }
    return Some(results);
  }

  method RecursiveDownload(w: World, lit: Literal, dir: Path, writeToFile: bool) returns (r: Option<Literal>)
    requires lit.Map? && w.mkdir(dir)
    ensures r == HandleLiteral(w, lit, dir, writeToFile)
    decreases lit, 1
  {
    if lit.entries == map[] {
      return Some(NilMap);
    }
    var ok, futures := StartAll(w, lit, dir, writeToFile);
    if !ok {
      return None;
    }
    var results := AwaitAll(futures);
    if results.None? {
      var k :| k in futures && futures[k] == None;
      MapFails(w, lit.entries, dir, writeToFile, k);
      return None;
    }
    MapSucceeds(w, lit.entries, dir, writeToFile, results.value);
    return Some(Map(results.value));
  }
}
