/** `internal/blob/archive.go`: the workspace archive. A directory tree maps the
    path of every entry below its root to what is there; a tar stream is a
    sequence of entries. */
module Archives {
  import opened Basics
  import opened Paths

  type Bytes = seq<bv8>

  /** `Special` stands for fifos and devices, which tar records and restore
      ignores; `Socket` for what tar refuses to record. */
  datatype Node = Dir | File(content: Bytes) | Link(target: string) | Special | Socket

  type Tree = map<Path, Node>

  datatype Payload = DirEntry | FileEntry(content: Bytes) | LinkEntry(target: string) | OtherEntry
  datatype Entry = Entry(name: string, payload: Payload)

  type Stream = seq<Entry>

  datatype ArchiveError = Unsupported | EscapesDestination | UnsafeLink | Occupied | NoSuchDirectory | TooManyLinks

  /** Entries have plain names and sit in directories of the tree. */
  predicate ValidTree(t: Tree) {
    forall p | p in t :: p != [] && AllPlain(p) && (|p| > 1 ==> Parent(p) in t && t[Parent(p)].Dir?)
  }

  /** One call of the walk function: a path and what is there. */
  datatype Visit = Visit(path: Path, node: Node)

  /** The rest of a `filepath.WalkDir` over the tree once `done` has been
      visited: every entry once, after its directory. */
  predicate WalkFrom(t: Tree, done: set<Path>, walk: seq<Visit>)
    decreases |walk|
  {
    if walk == [] then done == t.Keys
    else
      var v := walk[0];
      && v.path in t && t[v.path] == v.node && v.path !in done
      && (|v.path| > 1 ==> Parent(v.path) in done)
      && WalkFrom(t, done + {v.path}, walk[1..])
  }

  predicate IsWalk(t: Tree, walk: seq<Visit>) {
    WalkFrom(t, {}, walk)
  }

  // ---- Archive --------------------------------------------------------------

  /** writeEntry: the tar entries one visited path contributes. */
  function EntriesFor(p: Path, n: Node): Stream {
    match n
    case Dir => [Entry(Name(p) + "/", DirEntry)]
    case File(c) => [Entry(Name(p), FileEntry(c))]
    case Link(target) => if SymlinkAccepted(p, target) then [Entry(Name(p), LinkEntry(target))] else []
    case Special => [Entry(Name(p), OtherEntry)]
    case Socket => []
  }

  function Packed(walk: seq<Visit>): Stream {
    if walk == [] then [] else EntriesFor(walk[0].path, walk[0].node) + Packed(walk[1..])
  }

  predicate Archivable(t: Tree) {
    forall p | p in t :: !t[p].Socket?
  }

  /** Archive: visit the tree in walk order and append what writeEntry writes. */
  method Archive(t: Tree, walk: seq<Visit>) returns (r: Result<Stream, ArchiveError>)
    requires IsWalk(t, walk)
    ensures r.Success? <==> Archivable(t)
    ensures r.Success? <==> forall p | p in t :: t[p] != Socket
    ensures r.Success? ==> r.value == Packed(walk)
  {
    var out: Stream := [];
    var i := 0;
    ghost var done: set<Path> := {};
    while i < |walk|
      invariant 0 <= i <= |walk|
      invariant Packed(walk) == out + Packed(walk[i..])
      invariant WalkFrom(t, done, walk[i..])
      invariant forall p | p in done :: p in t && !t[p].Socket?
    {
      assert walk[i..][0] == walk[i] && walk[i..][1..] == walk[i + 1..];
      var ok, entries := WriteEntry(walk[i].path, walk[i].node);
      if !ok {
        return Failure(Unsupported);
      }
      assert out + (entries + Packed(walk[i + 1..])) == (out + entries) + Packed(walk[i + 1..]);
      out := out + entries;
      done := done + {walk[i].path};
      i := i + 1;
    }
    assert out + [] == out;
    return Success(out);
  }

  method WriteEntry(p: Path, n: Node) returns (ok: bool, entries: Stream)
    ensures ok <==> !n.Socket?
    ensures entries == EntriesFor(p, n)
    ensures if n.Socket? || (n.Link? && !SymlinkAccepted(p, n.target)) then entries == []
            else
              && |entries| == 1 && entries[0].name == Name(p) + (if n.Dir? then "/" else "")
              && match n
                 case Dir => entries[0].payload == DirEntry
                 case File(content) => entries[0].payload == FileEntry(content)
                 case Link(target) => entries[0].payload == LinkEntry(target)
                 case _ => entries[0].payload == OtherEntry
  {
    ok, entries := true, [];
    match n {
      case Link(target) =>
        if SymlinkAccepted(p, target) {
          entries := [Entry(Name(p), LinkEntry(target))];
        }
      case Dir =>
        entries := [Entry(Name(p) + "/", DirEntry)];
      case File(content) =>
        entries := [Entry(Name(p), FileEntry(content))];
      case Special =>
        entries := [Entry(Name(p), OtherEntry)];
      case Socket =>
        ok := false;
    }
  }

  // ---- os.Root ----------------------------------------------------------------

  /** `os.Root` follows this many links of one name. */
  const MAX_LINKS := 8

  /** Where the rest of a name leads from the directory `dir`, as `os.Root` walks:
      links are followed, the last component's only when `last` says so, and a step
      above the root, or an absolute link, is refused. */
  function Found(t: Tree, dir: Path, rest: seq<string>, links: nat, last: bool): Result<Path, ArchiveError>
    decreases links, |rest|
  {
    if rest == [] then Success(dir)
    else
      var c, more, p := rest[0], rest[1..], dir + [rest[0]];
      if c == "" || c == "." then Found(t, dir, more, links, last)
      else if c == ".." then
        if dir == [] then Failure(EscapesDestination) else Found(t, Parent(dir), more, links, last)
      else if p in t && t[p].Link? && (more != [] || last) then
        if links == 0 then Failure(TooManyLinks)
        else if IsAbs(t[p].target) then Failure(EscapesDestination)
        else Found(t, dir, Split(t[p].target) + more, links - 1, last)
      else if more == [] then Success(p)
      else if p !in t then Failure(NoSuchDirectory)
      else if t[p].Dir? then Found(t, p, more, links, last)
      else Failure(Occupied)
  }

  /** `Root.Stat` finds a directory. */
  predicate LeadsToDir(t: Tree, p: Path) {
    match Found(t, [], p, MAX_LINKS, true)
    case Failure(_) => false
    case Success(l) => l == [] || (l in t && t[l].Dir?)
  }

  /** `Root.MkdirAll(whole)` with `rest` still to go: like Found, but it makes the
      directories that are missing; a link in the last place has to lead to one. */
  function Made(t: Tree, dir: Path, rest: seq<string>, links: nat, whole: Path): Result<Tree, ArchiveError>
    decreases links, |rest|
  {
    if rest == [] then Success(t)
    else
      var c, more, p := rest[0], rest[1..], dir + [rest[0]];
      if c == "" || c == "." then Made(t, dir, more, links, whole)
      else if c == ".." then
        if dir == [] then Failure(EscapesDestination) else Made(t, Parent(dir), more, links, whole)
      else if p !in t then Made(t[p := Dir], p, more, links, whole)
      else if t[p].Dir? then Made(t, p, more, links, whole)
      else if !t[p].Link? then Failure(Occupied)
      else if more == [] then if LeadsToDir(t, whole) then Success(t) else Failure(Occupied)
      else if links == 0 then Failure(TooManyLinks)
      else if IsAbs(t[p].target) then Failure(EscapesDestination)
      else Made(t, dir, Split(t[p].target) + more, links - 1, whole)
  }

  function MkdirAll(t: Tree, p: Path): Result<Tree, ArchiveError> {
    Made(t, [], p, MAX_LINKS, p)
  }

  /** `Root.OpenFile` for writing: create or truncate the file the name leads to. */
  function WriteFile(t: Tree, p: Path, content: Bytes): Result<Tree, ArchiveError> {
    match Found(t, [], p, MAX_LINKS, true)
    case Failure(e) => Failure(e)
    case Success(l) => if l == [] || (l in t && !t[l].File?) then Failure(Occupied) else Success(t[l := File(content)])
  }

  /** `Root.Symlink`. */
  function MakeLink(t: Tree, p: Path, target: string): Result<Tree, ArchiveError> {
    match Found(t, [], p, MAX_LINKS, false)
    case Failure(e) => Failure(e)
    case Success(l) => if l == [] || l in t then Failure(Occupied) else Success(t[l := Link(target)])
  }

  // ---- Unarchive ------------------------------------------------------------

  /** The tree one tar entry turns the destination into. */
  function Extracted(t: Tree, e: Entry): Result<Tree, ArchiveError> {
    match EntryPath(e.name)
    case None => Failure(EscapesDestination)
    case Some(target) =>
      match e.payload
      case DirEntry => MkdirAll(t, target)
      case FileEntry(content) =>
        (match MkdirAll(t, Parent(target))
         case Failure(err) => Failure(err)
         case Success(u) => WriteFile(u, target, content))
      case LinkEntry(link) =>
        if !SymlinkAccepted(target, link) then Failure(UnsafeLink)
        else
          (match MkdirAll(t, Parent(target))
           case Failure(err) => Failure(err)
           case Success(u) => MakeLink(u, target, link))
      case OtherEntry => Success(t)
  }

  function Unpacked(t: Tree, s: Stream): Result<Tree, ArchiveError>
    decreases |s|
  {
    if s == [] then Success(t)
    else
      match Extracted(t, s[0])
      case Failure(e) => Failure(e)
      case Success(u) => Unpacked(u, s[1..])
  }

  /** A workspace directory on disk. */
  class Workspace {
    var tree: Tree

    constructor ()
      ensures tree == map[]
    {
      tree := map[];
    }

    /** Unarchive: extract entry by entry, stopping at the first one refused. */
    method Unarchive(s: Stream) returns (r: Result<(), ArchiveError>)
      modifies this
      ensures r.Success? <==> Unpacked(old(tree), s).Success?
      ensures r.Success? ==> tree == Unpacked(old(tree), s).value
      ensures r.Failure? ==> Unpacked(old(tree), s) == Failure(r.error)
    {
      var i := 0;
      while i < |s|
        invariant 0 <= i <= |s|
        invariant Unpacked(old(tree), s) == Unpacked(tree, s[i..])
      {
        assert s[i..][0] == s[i] && s[i..][1..] == s[i + 1..];
        var err := ExtractEntry(s[i]);
        if err.Some? {
          return Failure(err.value);
        }
        i := i + 1;
      }
      return Success(());
    }

    method ExtractEntry(e: Entry) returns (err: Option<ArchiveError>)
      modifies this
      ensures err.None? ==> Extracted(old(tree), e) == Success(tree)
      ensures err.Some? ==> Extracted(old(tree), e) == Failure(err.value)
    {
      var resolved := EntryPath(e.name);
      if resolved.None? {
        return Some(EscapesDestination);
      }
      var target := resolved.value;
      match e.payload {
        case DirEntry =>
          err := Store(MkdirAll(tree, target));
        case FileEntry(content) =>
          err := Store(MkdirAll(tree, Parent(target)));
          if err.None? {
            err := Store(WriteFile(tree, target, content));
          }
        case LinkEntry(link) =>
          if !SymlinkAccepted(target, link) {
            return Some(UnsafeLink);
          }
          err := Store(MkdirAll(tree, Parent(target)));
          if err.None? {
            err := Store(MakeLink(tree, target, link));
          }
        case OtherEntry =>
          err := None;
      }
    }

    /** One file-system call: it changes the tree or reports why not. */
    method Store(r: Result<Tree, ArchiveError>) returns (err: Option<ArchiveError>)
      modifies this
      ensures r.Success? ==> tree == r.value && err == None
      ensures r.Failure? ==> tree == old(tree) && err == Some(r.error)
    {
      match r
      case Success(t) => tree := t; err := None;
      case Failure(e) => err := Some(e);
    }
  }

  // ---- The round trip --------------------------------------------------------

  /** What a checkpoint of the tree preserves: directories, files and the links
      that stay inside. */
  predicate Kept(p: Path, n: Node) {
    match n
    case Dir => true
    case File(_) => true
    case Link(target) => SymlinkAccepted(p, target)
    case Special => false
    case Socket => false
  }

  function Restorable(t: Tree): Tree {
    map p | p in t && Kept(p, t[p]) :: t[p]
  }

  /** The part of it restored once the paths in `done` have been extracted. */
  function RestoredSoFar(t: Tree, done: set<Path>): Tree {
    map p | p in t && p in done && Kept(p, t[p]) :: t[p]
  }

  /** The directories above p are there, and none of them is a link. */
  predicate Reachable(u: Tree, p: Path) {
    AllPlain(p) && forall i | 0 < i < |p| :: p[..i] in u && u[p[..i]].Dir?
  }

  lemma {:induction false} ParentsAreDirs(u: Tree, p: Path)
    requires ValidTree(u) && AllPlain(p) && (|p| > 1 ==> Parent(p) in u && u[Parent(p)].Dir?)
    ensures Reachable(u, p)
    decreases |p|
  {
    if |p| > 1 {
      ParentsAreDirs(u, Parent(p));
      forall i | 0 < i < |p|
        ensures p[..i] in u && u[p[..i]].Dir?
      {
        assert i < |p| - 1 ==> Parent(p)[..i] == p[..i];
      }
    }
  }

  lemma {:induction false} FoundInPlace(u: Tree, p: Path, i: nat, links: nat, last: bool)
    requires Reachable(u, p) && i < |p| && (last && p in u ==> !u[p].Link?)
    ensures Found(u, p[..i], p[i..], links, last) == Success(p)
    decreases |p| - i
  {
    assert Plain(p[i]);
    assert p[..i] + [p[i]] == p[..i + 1];
    if i + 1 < |p| {
      FoundInPlace(u, p, i + 1, links, last);
    } else {
      assert p[..i + 1] == p;
    }
  }

  lemma {:induction false} MadeInPlace(u: Tree, p: Path, i: nat, links: nat, whole: Path)
    requires Reachable(u, p) && i < |p| && (p in u ==> u[p].Dir?)
    ensures Made(u, p[..i], p[i..], links, whole) == Success(u[p := Dir])
    decreases |p| - i
  {
    assert Plain(p[i]);
    assert p[..i] + [p[i]] == p[..i + 1];
    if i + 1 < |p| {
      MadeInPlace(u, p, i + 1, links, whole);
    } else {
      assert p[..i + 1] == p;
      assert p in u ==> u[p := Dir] == u;
    }
  }

  lemma MkdirExisting(u: Tree, p: Path)
    requires ValidTree(u) && (p == [] || (p in u && u[p].Dir?))
    ensures MkdirAll(u, p) == Success(u)
  {
    if p != [] {
      ParentsAreDirs(u, p);
      MadeInPlace(u, p, 0, MAX_LINKS, p);
      assert p[..0] == [] && p[0..] == p && u[p := Dir] == u;
    }
  }

  lemma ExtractOne(u: Tree, p: Path, n: Node)
    requires ValidTree(u) && p != [] && AllPlain(p) && p !in u && !n.Socket?
    requires |p| > 1 ==> Parent(p) in u && u[Parent(p)].Dir?
    ensures Unpacked(u, EntriesFor(p, n)) == Success(if Kept(p, n) then u[p := n] else u)
  {
    hide Found, Made, SymlinkAccepted;
    EntryPathOfName(p);
    ParentsAreDirs(u, p);
    MkdirExisting(u, Parent(p));
    MadeInPlace(u, p, 0, MAX_LINKS, p);
    FoundInPlace(u, p, 0, MAX_LINKS, true);
    FoundInPlace(u, p, 0, MAX_LINKS, false);
    assert p[..0] == [] && p[0..] == p;
    var es := EntriesFor(p, n);
    if es != [] {
      var e := es[0];
      assert es[1..] == [];
      assert Unpacked(u, es) == Extracted(u, e);
      assert EntryPath(e.name) == Some(p);
      match n {
        case Dir => assert Extracted(u, e) == MkdirAll(u, p);
        case File(c) => assert Extracted(u, e) == WriteFile(u, p, c);
        case Link(target) => assert Extracted(u, e) == MakeLink(u, p, target);
        case Special => assert Extracted(u, e) == Success(u);
      }
    }
  }

  lemma {:induction false} UnpackedAppend(t: Tree, a: Stream, b: Stream)
    requires Unpacked(t, a).Success?
    ensures Unpacked(t, a + b) == Unpacked(Unpacked(t, a).value, b)
    decreases |a|
  {
    if a == [] {
      assert a + b == b;
    } else {
      assert (a + b)[0] == a[0] && (a + b)[1..] == a[1..] + b;
      UnpackedAppend(Extracted(t, a[0]).value, a[1..], b);
    }
  }

  /** The first entry that is refused ends the extraction with its error, whatever
      comes after it. */
  lemma FirstRefusalStops(t: Tree, before: Stream, e: Entry, rest: Stream)
    requires Unpacked(t, before).Success? && Extracted(Unpacked(t, before).value, e).Failure?
    ensures Unpacked(t, before + ([e] + rest)) == Failure(Extracted(Unpacked(t, before).value, e).error)
  {
    hide Extracted;
    UnpackedAppend(t, before, [e] + rest);
    assert ([e] + rest)[0] == e && ([e] + rest)[1..] == rest;
  }

  /** An extraction fails exactly when some entry is refused in its turn. */
  lemma {:induction false} FailsAtAnEntry(t: Tree, s: Stream) returns (i: nat)
    requires Unpacked(t, s).Failure?
    ensures i < |s| && Unpacked(t, s[..i]).Success? && Extracted(Unpacked(t, s[..i]).value, s[i]) == Failure(Unpacked(t, s).error)
    decreases |s|
  {
    hide Extracted;
    if Extracted(t, s[0]).Failure? {
      i := 0;
      assert s[..0] == [];
    } else {
      var k := FailsAtAnEntry(Extracted(t, s[0]).value, s[1..]);
      i := k + 1;
      assert s[..i][0] == s[0] && s[..i][1..] == s[1..][..k];
    }
  }

  /** Every visited entry's directory has been visited. */
  predicate Closed(t: Tree, done: set<Path>) {
    forall q | q in done && |q| > 1 :: Parent(q) in done
  }

  /** What has been extracted is a tree, and holds the next entry's directory. */
  lemma RestoredIsTree(t: Tree, done: set<Path>, p: Path)
    requires ValidTree(t) && Closed(t, done) && p in t && (|p| > 1 ==> Parent(p) in done)
    ensures var u := RestoredSoFar(t, done);
            ValidTree(u) && AllPlain(p) && p != [] && (|p| > 1 ==> Parent(p) in u && u[Parent(p)].Dir?)
  {
    hide AllPlain;
  }

  lemma RestoredNext(t: Tree, done: set<Path>, p: Path)
    requires p in t && p !in done
    ensures var u := RestoredSoFar(t, done);
            p !in u && RestoredSoFar(t, done + {p}) == if Kept(p, t[p]) then u[p := t[p]] else u
  {
    hide Kept;
  }

  lemma {:induction false} UnpackRest(t: Tree, done: set<Path>, walk: seq<Visit>)
    requires ValidTree(t) && Archivable(t) && WalkFrom(t, done, walk) && Closed(t, done)
    ensures Unpacked(RestoredSoFar(t, done), Packed(walk)) == Success(Restorable(t))
    decreases |walk|
  {
    hide ValidTree, Extracted, EntriesFor, Kept, AllPlain, Unpacked;
    var u := RestoredSoFar(t, done);
    if walk == [] {
      assert u == Restorable(t);
      UnpackNothing(u);
    } else {
      var p, next := walk[0].path, done + {walk[0].path};
      RestoredIsTree(t, done, p);
      RestoredNext(t, done, p);
      ExtractOne(u, p, t[p]);
      UnpackRest(t, next, walk[1..]);
      UnpackedAppend(u, EntriesFor(p, t[p]), Packed(walk[1..]));
    }
  }

  lemma UnpackNothing(u: Tree)
    ensures Unpacked(u, []) == Success(u)
  {
  }

  /** Unarchiving an archive into an empty directory never fails and gives the
      archived tree with exactly the unsafe links (and special files) removed. */
  lemma RoundTrip(t: Tree, walk: seq<Visit>)
    requires ValidTree(t) && Archivable(t) && IsWalk(t, walk)
    ensures Unpacked(map[], Packed(walk)) == Success(Restorable(t))
  {
    assert RestoredSoFar(t, {}) == map[];
    UnpackRest(t, {}, walk);
  }

  /** Writer and reader agree on every link: what the writer drops is exactly
      what the reader would refuse. */
  lemma WriterAndReaderAgree(p: Path, target: string, u: Tree)
    requires p != [] && AllPlain(p)
    ensures EntriesFor(p, Link(target)) == []
       <==> Extracted(u, Entry(Name(p), LinkEntry(target))) == Failure(UnsafeLink)
  {
    EntryPathOfName(p);
    MadeNeverUnsafe(u, [], Parent(p), MAX_LINKS, Parent(p));
    var made := MkdirAll(u, Parent(p));
    if made.Success? {
      FoundNeverUnsafe(made.value, [], p, MAX_LINKS, false);
    }
  }

  lemma {:induction false} FoundNeverUnsafe(t: Tree, dir: Path, rest: seq<string>, links: nat, last: bool)
    ensures var r := Found(t, dir, rest, links, last); r.Failure? ==> !r.error.UnsafeLink?
    decreases links, |rest|
  {
    if rest != [] {
      var c, more, p := rest[0], rest[1..], dir + [rest[0]];
      FoundNeverUnsafe(t, dir, more, links, last);
      FoundNeverUnsafe(t, Parent(dir), more, links, last);
      FoundNeverUnsafe(t, p, more, links, last);
      if p in t && t[p].Link? && links > 0 {
        FoundNeverUnsafe(t, dir, Split(t[p].target) + more, links - 1, last);
      }
    }
  }

  lemma {:induction false} MadeNeverUnsafe(t: Tree, dir: Path, rest: seq<string>, links: nat, whole: Path)
    ensures var r := Made(t, dir, rest, links, whole); r.Failure? ==> !r.error.UnsafeLink?
    decreases links, |rest|
  {
    if rest != [] {
      var c, more, p := rest[0], rest[1..], dir + [rest[0]];
      MadeNeverUnsafe(t, dir, more, links, whole);
      MadeNeverUnsafe(t, Parent(dir), more, links, whole);
      MadeNeverUnsafe(t, p, more, links, whole);
      MadeNeverUnsafe(t[p := Dir], p, more, links, whole);
      if p in t && t[p].Link? && links > 0 {
        MadeNeverUnsafe(t, dir, Split(t[p].target) + more, links - 1, whole);
      }
    }
  }
}
