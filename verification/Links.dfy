/** Where the links of an extracted archive lead (`internal/blob/archive.go`): what
    `os.Root` writes stays in the destination, but a link that passes the check on its
    text may still lead out of it together with another one. */
module Links {
  import opened Basics
  import opened Paths
  import opened Archives

  predicate Components(rest: seq<string>) {
    forall i | 0 <= i < |rest| :: '/' !in rest[i]
  }

  /** A directory of the tree, or its root. */
  predicate Real(t: Tree, d: Path) {
    d == [] || (d in t && t[d].Dir?)
  }

  // ---- extraction stays in the tree --------------------------------------------------

  lemma RealIsPlain(t: Tree, d: Path)
    requires ValidTree(t) && Real(t, d)
    ensures AllPlain(d) && Real(t, Parent(d)) && (d in t ==> t[d].Dir?)
  {
  }

  lemma OneMore(dir: Path, c: string)
    requires AllPlain(dir) && Plain(c)
    ensures AllPlain(dir + [c]) && Parent(dir + [c]) == dir
  {
  }

  /** A new entry in a real directory. */
  lemma Entered(t: Tree, dir: Path, c: string, n: Node)
    requires ValidTree(t) && Real(t, dir) && Plain(c)
    requires dir + [c] in t ==> !t[dir + [c]].Dir?
    ensures ValidTree(t[dir + [c] := n]) && Parent(dir + [c]) == dir && AllPlain(dir + [c])
  {
  }

  /** The place a name leads to has a plain path and a real directory above it. */
  lemma {:induction false} FoundIsPlain(t: Tree, dir: Path, rest: seq<string>, links: nat, last: bool)
    requires ValidTree(t) && Real(t, dir) && Components(rest)
    ensures var r := Found(t, dir, rest, links, last);
            r.Success? ==>
              && AllPlain(r.value) && Real(t, Parent(r.value))
              && (last && r.value in t ==> !t[r.value].Link?)
    decreases links, |rest|
  {
    hide ValidTree, AllPlain, Parent;
    RealIsPlain(t, dir);
    if rest != [] {
      var c, more, p := rest[0], rest[1..], dir + [rest[0]];
      if Plain(c) {
        OneMore(dir, c);
      }
      if c == "" || c == "." {
        FoundIsPlain(t, dir, more, links, last);
      } else if c == ".." {
        FoundIsPlain(t, Parent(dir), more, links, last);
      } else if p in t && t[p].Link? && (more != [] || last) {
        if links > 0 {
          FoundIsPlain(t, dir, Split(t[p].target) + more, links - 1, last);
        }
      } else if more != [] && p in t && t[p].Dir? {
        FoundIsPlain(t, p, more, links, last);
      }
    }
  }

  /** Directories were added, nothing else. */
  predicate Widened(t: Tree, u: Tree) {
    && (forall p | p in t :: p in u && u[p] == t[p])
    && (forall p | p in u && p !in t :: u[p] == Dir)
  }

  lemma {:induction false} MadeWidens(t: Tree, dir: Path, rest: seq<string>, links: nat, whole: Path)
    requires ValidTree(t) && Real(t, dir) && Components(rest)
    ensures var r := Made(t, dir, rest, links, whole); r.Success? ==> ValidTree(r.value) && Widened(t, r.value)
    decreases links, |rest|
  {
    hide LeadsToDir, ValidTree;
    RealIsPlain(t, dir);
    if rest != [] {
      var c, more, p := rest[0], rest[1..], dir + [rest[0]];
      if c == "" || c == "." {
        MadeWidens(t, dir, more, links, whole);
      } else if c == ".." {
        MadeWidens(t, Parent(dir), more, links, whole);
      } else if p !in t {
        Entered(t, dir, c, Dir);
        MadeWidens(t[p := Dir], p, more, links, whole);
      } else if t[p].Dir? {
        MadeWidens(t, p, more, links, whole);
      } else if t[p].Link? && more != [] && links > 0 {
        MadeWidens(t, dir, Split(t[p].target) + more, links - 1, whole);
      }
    }
  }

  /** Besides new directories only the entry at l, a plain path in a real directory,
      is new or different. */
  predicate ChangedAt(t: Tree, u: Tree, l: Path) {
    && l != [] && AllPlain(l) && Real(u, Parent(l)) && l in u
    && (forall p | p in t && p != l :: p in u && u[p] == t[p])
    && (forall p | p in u && p !in t && p != l :: u[p] == Dir)
  }

  lemma PutLands(t: Tree, u: Tree, dir: Path, c: string, n: Node)
    requires ValidTree(u) && Widened(t, u) && Real(u, dir) && Plain(c)
    requires dir + [c] in u ==> !u[dir + [c]].Dir?
    ensures ValidTree(u[dir + [c] := n]) && ChangedAt(t, u[dir + [c] := n], dir + [c])
    ensures dir + [c] in t ==> dir + [c] in u && u[dir + [c]] == t[dir + [c]]
  {
    hide ValidTree, AllPlain, Parent;
    Entered(u, dir, c, n);
  }

  lemma LastOf(l: Path)
    requires l != [] && AllPlain(l)
    ensures l == Parent(l) + [l[|l| - 1]] && Plain(l[|l| - 1])
  {
  }

  /** What one entry does to the tree, whatever links are in it: it makes directories,
      and puts its content in one place of the tree, which held nothing or a file. */
  lemma EntryLandsInside(t: Tree, e: Entry) returns (l: Path)
    requires ValidTree(t) && Extracted(t, e).Success?
    ensures var u := Extracted(t, e).value;
            && ValidTree(u)
            && match e.payload
               case FileEntry(content) => ChangedAt(t, u, l) && u[l] == File(content) && (l in t ==> t[l].File?)
               case LinkEntry(target) => ChangedAt(t, u, l) && u[l] == Link(target) && l !in t
               case _ => Widened(t, u)
  {
    hide Found, Made, ValidTree, EntryPath, Widened, ChangedAt, SymlinkAccepted;
    EntryContainment(e.name);
    var p := EntryPath(e.name).value;
    l := [];
    if e.payload.FileEntry? || e.payload.LinkEntry? {
      MadeWidens(t, [], Parent(p), MAX_LINKS, Parent(p));
      var u := MkdirAll(t, Parent(p)).value;
      FoundIsPlain(u, [], p, MAX_LINKS, e.payload.FileEntry?);
      l := Found(u, [], p, MAX_LINKS, e.payload.FileEntry?).value;
      LastOf(l);
      PutLands(t, u, Parent(l), l[|l| - 1], if e.payload.FileEntry? then File(e.payload.content) else Link(e.payload.target));
    } else {
      MadeWidens(t, [], p, MAX_LINKS, p);
      WidensItself(t);
    }
  }

  lemma WidensItself(t: Tree)
    ensures Widened(t, t)
  {
  }

  /** Nothing is lost: what was there is there, though a file may hold other bytes. */
  predicate Grown(t: Tree, u: Tree) {
    forall p | p in t :: p in u && (u[p] == t[p] || (t[p].File? && u[p].File?))
  }

  /** Whatever the stream says and whatever links are in the way, extraction leaves a
      tree of plain paths below real directories, and removes nothing. */
  lemma {:induction false} ExtractionStaysInTheTree(t: Tree, s: Stream)
    requires ValidTree(t) && Unpacked(t, s).Success?
    ensures ValidTree(Unpacked(t, s).value) && Grown(t, Unpacked(t, s).value)
    decreases |s|
  {
    hide ValidTree, Extracted;
    if s != [] {
      var l := EntryLandsInside(t, s[0]);
      ExtractionStaysInTheTree(Extracted(t, s[0]).value, s[1..]);
    }
  }

  // ---- where no link is in the way ---------------------------------------------------------

  function Prefixes(p: Path): set<Path> {
    set i | 0 < i <= |p| :: p[..i]
  }

  /** The tree with p and all directories above it that were missing. */
  function WithDirs(t: Tree, p: Path): Tree {
    t + map q | q in Prefixes(p) && q !in t :: Dir
  }

  predicate NoLinkAt(t: Tree, p: Path) {
    forall i | 0 < i <= |p| && p[..i] in t :: !t[p[..i]].Link?
  }

  /** What is there of p and the directories above it are directories. */
  predicate DirsOnly(t: Tree, p: Path) {
    forall i | 0 < i <= |p| && p[..i] in t :: t[p[..i]].Dir?
  }

  /** Making the next directory changes nothing about what is to come. */
  lemma OneDirMore(t: Tree, p: Path, i: nat)
    requires i < |p| && p[..i + 1] !in t
    ensures var u := t[p[..i + 1] := Dir];
            WithDirs(u, p) == WithDirs(t, p) && (DirsOnly(u, p) <==> DirsOnly(t, p)) && (NoLinkAt(t, p) ==> NoLinkAt(u, p))
  {
    var q := p[..i + 1];
    var u := t[q := Dir];
    forall j | 0 < j <= |p| ensures p[..j] == q || (p[..j] in u <==> p[..j] in t) {
    }
    if DirsOnly(u, p) {
      forall j | 0 < j <= |p| && p[..j] in t ensures t[p[..j]].Dir? {
        assert p[..j] in u;
      }
    }
  }

  lemma {:induction false} MadeHere(t: Tree, p: Path, i: nat, links: nat, whole: Path)
    requires AllPlain(p) && i <= |p| && NoLinkAt(t, p) && forall j | 0 < j <= i :: p[..j] in t && t[p[..j]].Dir?
    ensures Made(t, p[..i], p[i..], links, whole) == if DirsOnly(t, p) then Success(WithDirs(t, p)) else Failure(Occupied)
    decreases |p| - i
  {
    hide WithDirs, LeadsToDir;
    if i == |p| {
      AllThere(t, p);
    } else {
      var q := p[..i + 1];
      assert Plain(p[i]) && p[..i] + [p[i]] == q;
      if q !in t {
        hide NoLinkAt, DirsOnly;
        var u := t[q := Dir];
        OneDirMore(t, p, i);
        forall j | 0 < j <= i + 1 ensures p[..j] in u && u[p[..j]].Dir? {
        }
        MadeHere(u, p, i + 1, links, whole);
      } else if t[q].Dir? {
        hide NoLinkAt, DirsOnly;
        MadeHere(t, p, i + 1, links, whole);
      }
    }
  }

  lemma AllThere(t: Tree, p: Path)
    requires forall j | 0 < j <= |p| :: p[..j] in t && t[p[..j]].Dir?
    ensures DirsOnly(t, p) && WithDirs(t, p) == t
  {
  }

  lemma MkdirHere(t: Tree, p: Path)
    requires AllPlain(p) && NoLinkAt(t, p)
    ensures MkdirAll(t, p) == if DirsOnly(t, p) then Success(WithDirs(t, p)) else Failure(Occupied)
    ensures p != [] && DirsOnly(t, Parent(p)) ==> Reachable(WithDirs(t, Parent(p)), p)
  {
    MadeHere(t, p, 0, MAX_LINKS, p);
    assert p[..0] == [] && p[0..] == p;
    if p != [] && DirsOnly(t, Parent(p)) {
      forall i | 0 < i < |p| ensures p[..i] in WithDirs(t, Parent(p)) && WithDirs(t, Parent(p))[p[..i]].Dir? {
        assert p[..i] == Parent(p)[..i];
      }
    }
  }

  /** Where no link is in the way an entry takes effect at the path its name spells:
      missing directories are made, a file is made or overwritten, a link made where
      nothing is; and it fails exactly when something else is in the way. */
  lemma EntryInPlace(t: Tree, e: Entry, p: Path)
    requires EntryPath(e.name) == Some(p) && p != [] && NoLinkAt(t, p)
    ensures match e.payload
            case DirEntry => Extracted(t, e) == if DirsOnly(t, p) then Success(WithDirs(t, p)) else Failure(Occupied)
            case FileEntry(content) =>
              Extracted(t, e) == if DirsOnly(t, Parent(p)) && (p in t ==> t[p].File?) then Success(WithDirs(t, Parent(p))[p := File(content)])
                                 else Failure(Occupied)
            case LinkEntry(target) =>
              Extracted(t, e) == if !SymlinkAccepted(p, target) then Failure(UnsafeLink)
                                 else if DirsOnly(t, Parent(p)) && p !in t then Success(WithDirs(t, Parent(p))[p := Link(target)])
                                 else Failure(Occupied)
            case OtherEntry => Extracted(t, e) == Success(t)
  {
    hide Found, Made, SymlinkAccepted, EntryPath, DirsOnly;
    EntryContainment(e.name);
    MkdirHere(t, p);
    var up := Parent(p);
    forall i | 0 < i <= |up| && up[..i] in t ensures !t[up[..i]].Link? {
      assert up[..i] == p[..i];
    }
    MkdirHere(t, up);
    if DirsOnly(t, up) {
      var u := WithDirs(t, up);
      NotAmongAbove(t, p);
      FoundInPlace(u, p, 0, MAX_LINKS, true);
      FoundInPlace(u, p, 0, MAX_LINKS, false);
      assert p[..0] == [] && p[0..] == p;
    }
  }

  lemma NotAmongAbove(t: Tree, p: Path)
    requires p != [] && NoLinkAt(t, p)
    ensures p in WithDirs(t, Parent(p)) <==> p in t
    ensures p in t ==> WithDirs(t, Parent(p))[p] == t[p] && !t[p].Link?
  {
    assert p[..|p|] == p;
  }

  // ---- os.Root and the kernel ------------------------------------------------------------

  /** Path resolution without a boundary, in the whole file system: above the root is
      the root, and an absolute link starts over there. */
  function Resolved(f: Tree, dir: Path, rest: seq<string>, links: nat, last: bool): Result<Path, ArchiveError>
    decreases links, |rest|
  {
    if rest == [] then Success(dir)
    else
      var c, more, p := rest[0], rest[1..], dir + [rest[0]];
      if c == "" || c == "." then Resolved(f, dir, more, links, last)
      else if c == ".." then Resolved(f, Parent(dir), more, links, last)
      else if p in f && f[p].Link? && (more != [] || last) then
        if links == 0 then Failure(TooManyLinks)
        else Resolved(f, if IsAbs(f[p].target) then [] else dir, Split(f[p].target) + more, links - 1, last)
      else if more == [] then Success(p)
      else if p !in f then Failure(NoSuchDirectory)
      else if f[p].Dir? then Resolved(f, p, more, links, last)
      else Failure(Occupied)
  }

  /** The tree is what the file system holds below `base`. */
  ghost predicate MountedAt(f: Tree, base: Path, t: Tree) {
    forall p: Path | p != [] :: (base + p in f <==> p in t) && (p in t ==> f[base + p] == t[p])
  }

  /** Unless `os.Root` refuses a name because it leads out, it is what the kernel
      makes of that name, and so a place below the destination. */
  lemma {:induction false} RootAgreesWithTheKernel(f: Tree, base: Path, t: Tree, dir: Path, rest: seq<string>, links: nat, last: bool)
    requires MountedAt(f, base, t)
    requires Found(t, dir, rest, links, last) != Failure(EscapesDestination)
    ensures var r := Found(t, dir, rest, links, last);
            Resolved(f, base + dir, rest, links, last) == if r.Success? then Success(base + r.value) else r
    decreases links, |rest|
  {
    if rest != [] {
      var c, more, p := rest[0], rest[1..], dir + [rest[0]];
      assert base + dir + [c] == base + p;
      if c == "" || c == "." {
        RootAgreesWithTheKernel(f, base, t, dir, more, links, last);
      } else if c == ".." {
        assert Parent(base + dir) == base + Parent(dir);
        RootAgreesWithTheKernel(f, base, t, Parent(dir), more, links, last);
      } else if p in t && t[p].Link? && (more != [] || last) {
        if links > 0 {
          RootAgreesWithTheKernel(f, base, t, dir, Split(t[p].target) + more, links - 1, last);
        }
      } else if more != [] && p in t && t[p].Dir? {
        RootAgreesWithTheKernel(f, base, t, p, more, links, last);
      }
    }
  }

  // ---- links that stay inside whatever the others do ---------------------------------------

  /** Following the link at p leads above the root. */
  predicate Escapes(t: Tree, p: Path) {
    Found(t, [], p, MAX_LINKS, true) == Failure(EscapesDestination)
  }

  predicate NoUps(comps: seq<string>) {
    forall i | 0 <= i < |comps| :: comps[i] != ".."
  }

  /** From `cur`, every ".." is taken in the link's own directory or in one above it,
      below the root: there the path is the real one. */
  predicate Level(p: Path, cur: Path, comps: seq<string>)
    decreases |comps|
  {
    comps == [] ||
    var c, more := comps[0], comps[1..];
    if c == "" || c == "." then Level(p, cur, more)
    else if c == ".." then cur != [] && cur <= Parent(p) && Level(p, Parent(cur), more)
    else Level(p, cur + [c], more)
  }

  /** Through such directories the text leads back to the link itself. */
  predicate Loops(p: Path, cur: Path, comps: seq<string>)
    decreases |comps|
  {
    comps != [] &&
    var c, more := comps[0], comps[1..];
    if c == "" || c == "." then Loops(p, cur, more)
    else if c == ".." then cur != [] && Loops(p, Parent(cur), more)
    else cur + [c] == p || (cur + [c] <= Parent(p) && Loops(p, cur + [c], more))
  }

  /** A condition on the link and its text alone. */
  predicate Steady(p: Path, target: string) {
    !IsAbs(target) && (Level(p, Parent(p), Split(target)) || Loops(p, Parent(p), Split(target)))
  }

  predicate AllSteady(t: Tree) {
    forall p | p in t && t[p].Link? :: Steady(p, t[p].target)
  }

  lemma {:induction false} NoUpsIsLevel(p: Path, cur: Path, comps: seq<string>)
    requires NoUps(comps)
    ensures Level(p, cur, comps)
    decreases |comps|
  {
    if comps != [] {
      NoUpsIsLevel(p, cur, comps[1..]);
      NoUpsIsLevel(p, cur + [comps[0]], comps[1..]);
    }
  }

  lemma {:induction false} LevelThen(p: Path, cur: Path, comps: seq<string>, more: seq<string>)
    requires Level(p, cur, comps) && NoUps(more)
    ensures Level(p, cur, comps + more)
    decreases |comps|
  {
    if comps == [] {
      assert comps + more == more;
      NoUpsIsLevel(p, cur, more);
    } else {
      assert (comps + more)[1..] == comps[1..] + more;
      var c := comps[0];
      LevelThen(p, if c == "" || c == "." then cur else if c == ".." then Parent(cur) else cur + [c], comps[1..], more);
    }
  }

  lemma {:induction false} LoopsThen(p: Path, cur: Path, comps: seq<string>, more: seq<string>)
    requires Loops(p, cur, comps)
    ensures Loops(p, cur, comps + more)
    decreases |comps|
  {
    assert (comps + more)[1..] == comps[1..] + more;
    var c := comps[0];
    if c == "" || c == "." {
      LoopsThen(p, cur, comps[1..], more);
    } else if c == ".." {
      LoopsThen(p, Parent(cur), comps[1..], more);
    } else if cur + [c] != p {
      LoopsThen(p, cur + [c], comps[1..], more);
    }
  }

  /** Once off the way to the link there is no ".." any more. */
  lemma {:induction false} LevelOff(p: Path, cur: Path, comps: seq<string>)
    requires Level(p, cur, comps) && !(cur <= Parent(p))
    ensures NoUps(comps)
    decreases |comps|
  {
    if comps != [] {
      var c := comps[0];
      if c == "" || c == "." {
        LevelOff(p, cur, comps[1..]);
      } else {
        assert (cur + [c])[..|cur|] == cur;
        LevelOff(p, cur + [c], comps[1..]);
      }
    }
  }

  /** The rest of a walk in a tree of steady links: it has no "..", or it is still on
      the way along the directories of one link. */
  predicate Calm(t: Tree, dir: Path, rest: seq<string>, p: Path) {
    || NoUps(rest)
    || (&& p in t && t[p].Link? && dir <= Parent(p)
        && (Level(p, dir, rest) || (Loops(p, dir, rest) && Loops(p, Parent(p), Split(t[p].target)))))
  }

  lemma Follows(t: Tree, p: Path, more: seq<string>)
    requires p in t && t[p].Link? && Steady(p, t[p].target)
    requires NoUps(more) || Loops(p, Parent(p), Split(t[p].target))
    ensures Calm(t, Parent(p), Split(t[p].target) + more, p)
  {
    if Loops(p, Parent(p), Split(t[p].target)) {
      LoopsThen(p, Parent(p), Split(t[p].target), more);
    } else {
      LevelThen(p, Parent(p), Split(t[p].target), more);
    }
  }

  lemma OnTheWay(t: Tree, p: Path, d: Path)
    requires ValidTree(t) && p in t && d <= Parent(p) && d != []
    ensures d in t && t[d].Dir?
  {
    ParentsAreDirs(t, p);
    assert d == p[..|d|];
  }

  /** What is left after one component that is a directory or in the way. */
  lemma CalmStep(t: Tree, dir: Path, rest: seq<string>, p: Path)
    requires ValidTree(t) && Calm(t, dir, rest, p) && rest != [] && rest[0] !in {"", ".", ".."}
    ensures dir + [rest[0]] in t && t[dir + [rest[0]]].Dir? ==> Calm(t, dir + [rest[0]], rest[1..], p)
    ensures dir + [rest[0]] in t && t[dir + [rest[0]]].Link? ==>
              NoUps(rest[1..]) || (dir + [rest[0]] == p && Loops(p, Parent(p), Split(t[p].target)))
  {
    var q := dir + [rest[0]];
    if !NoUps(rest) {
      if q <= Parent(p) {
        OnTheWay(t, p, q);
      } else if Level(p, dir, rest) {
        LevelOff(p, q, rest[1..]);
      }
    }
  }

  lemma {:induction false} CalmStays(t: Tree, dir: Path, rest: seq<string>, links: nat, last: bool, p: Path)
    requires ValidTree(t) && AllSteady(t) && Calm(t, dir, rest, p)
    ensures Found(t, dir, rest, links, last) != Failure(EscapesDestination)
    decreases links, |rest|
  {
    hide ValidTree, Steady;
    if rest != [] {
      var c, more, q := rest[0], rest[1..], dir + [rest[0]];
      if c == "" || c == "." {
        CalmStays(t, dir, more, links, last, p);
      } else if c == ".." {
        assert Parent(dir) <= Parent(p);
        CalmStays(t, Parent(dir), more, links, last, p);
      } else {
        CalmStep(t, dir, rest, p);
        if q in t && t[q].Link? && (more != [] || last) {
          SteadyIsRelative(q, t[q].target);
          if links > 0 {
            Follows(t, q, more);
            assert Parent(q) == dir;
            CalmStays(t, dir, Split(t[q].target) + more, links - 1, last, q);
          }
        } else if more != [] && q in t && t[q].Dir? {
          CalmStays(t, q, more, links, last, p);
        }
      }
    }
  }

  lemma SteadyIsRelative(p: Path, target: string)
    requires Steady(p, target)
    ensures !IsAbs(target)
  {
  }

  /** In a tree of steady links no path leads out, through however many of them. */
  lemma SteadyLinksStayInside(t: Tree, p: Path, links: nat, last: bool)
    requires ValidTree(t) && AllSteady(t) && AllPlain(p)
    ensures Found(t, [], p, links, last) != Failure(EscapesDestination)
  {
    CalmStays(t, [], p, links, last, p);
  }

  /** A checkpoint of a tree whose accepted links are steady is restored to a tree no
      path of which leads out. */
  lemma SteadyCheckpointsStayInside(t: Tree, walk: seq<Visit>, p: Path, links: nat, last: bool)
    requires ValidTree(t) && Archivable(t) && IsWalk(t, walk) && AllPlain(p)
    requires forall q | q in t && t[q].Link? && SymlinkAccepted(q, t[q].target) :: Steady(q, t[q].target)
    ensures Unpacked(map[], Packed(walk)).Success?
    ensures Found(Unpacked(map[], Packed(walk)).value, [], p, links, last) != Failure(EscapesDestination)
  {
    hide Found, Steady, SymlinkAccepted, IsWalk, Packed, Unpacked;
    RoundTrip(t, walk);
    SteadyLinksStayInside(Restorable(t), p, links, last);
  }
}
