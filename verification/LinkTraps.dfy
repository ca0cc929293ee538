/** The links that lead out: no condition on a link's text weaker than Links.Steady
    keeps it inside, and the check of `internal/blob/archive.go` is weaker. */
module LinkTraps {
  import opened Basics
  import opened Paths
  import opened Archives
  import opened Links

  // ---- and no weaker condition will do -------------------------------------------------------

  /** The first place where a ".." is taken at the root, or off the way to the link; none
      if the text is steady. */
  function Trouble(p: Path, cur: Path, comps: seq<string>): Option<Path>
    decreases |comps|
  {
    if comps == [] then None
    else
      var c, more := comps[0], comps[1..];
      if c == "" || c == "." then Trouble(p, cur, more)
      else if c == ".." then if cur != [] && cur <= Parent(p) then Trouble(p, Parent(cur), more) else Some(cur)
      else if cur + [c] == p then None
      else Trouble(p, cur + [c], more)
  }

  lemma {:induction false} NoTrouble(p: Path, cur: Path, comps: seq<string>)
    requires Trouble(p, cur, comps).None? && p != []
    ensures Level(p, cur, comps) || (cur <= Parent(p) && Loops(p, cur, comps))
    decreases |comps|
  {
    if comps != [] {
      var c, more := comps[0], comps[1..];
      if c == "" || c == "." {
        NoTrouble(p, cur, more);
      } else if c == ".." {
        NoTrouble(p, Parent(cur), more);
      } else if cur + [c] == p {
        assert cur == Parent(p);
      } else {
        NoTrouble(p, cur + [c], more);
        assert (cur + [c])[..|cur|] == cur;
      }
    }
  }

  lemma {:induction false} TroubleAhead(p: Path, cur: Path, comps: seq<string>)
    requires Trouble(p, cur, comps).Some? && AllPlain(cur) && Components(comps)
    ensures var d := Trouble(p, cur, comps).value;
            AllPlain(d) && (d == [] || !(d <= Parent(p))) && (cur <= Parent(p) || cur <= d)
    decreases |comps|
  {
    var c, more := comps[0], comps[1..];
    if c == "" || c == "." {
      TroubleAhead(p, cur, more);
    } else if c == ".." {
      if cur != [] && cur <= Parent(p) {
        TroubleAhead(p, Parent(cur), more);
      }
    } else {
      TroubleAhead(p, cur + [c], more);
      assert (cur + [c])[..|cur|] == cur;
    }
  }

  /** The way to p is free; so is the way to d, where a link leads to the root. */
  predicate Trapped(t: Tree, p: Path, d: Path) {
    && (forall i | 0 < i < |p| :: p[..i] in t && t[p[..i]].Dir?)
    && (forall i | 0 < i < |d| :: d[..i] in t && t[d[..i]].Dir?)
    && (d != [] ==> d in t && t[d] == Link(Ups(|d| - 1)))
  }

  function Ups(n: nat): string {
    if n == 0 then "." else "../" + Ups(n - 1)
  }

  lemma UpsSplit(n: nat)
    ensures Split(Ups(n)) == if n == 0 then ["."] else [".."] + Split(Ups(n - 1))
    ensures !IsAbs(Ups(n))
  {
    if n == 0 {
      SplitPlain(".", "");
    } else {
      SplitPlain("..", Ups(n - 1));
      assert ".." + "/" + Ups(n - 1) == "../" + Ups(n - 1);
    }
  }

  lemma {:induction false} UpsAreLevel(d: Path, k: nat)
    requires k < |d|
    ensures Level(d, d[..k], Split(Ups(k)))
    decreases k
  {
    hide Ups, Split;
    UpsSplit(k);
    if k > 0 {
      assert Parent(d[..k]) == d[..k - 1];
      assert d[..k] <= Parent(d);
      UpsAreLevel(d, k - 1);
    }
  }

  lemma {:induction false} UpsLeadToTheRoot(t: Tree, dir: Path, more: seq<string>, links: nat, last: bool)
    ensures Found(t, dir, Split(Ups(|dir|)) + more, links, last) == Found(t, [], more, links, last)
    decreases |dir|
  {
    hide Ups, Split;
    UpsSplit(|dir|);
    if dir == [] {
      assert (["."] + more)[1..] == more;
    } else {
      var rest := Split(Ups(|dir| - 1));
      assert (([".."] + rest) + more)[1..] == rest + more;
      UpsLeadToTheRoot(t, Parent(dir), more, links, last);
    }
  }

  /** At the root, what is left of the text steps above it. */
  lemma {:induction false} UpAtOnce(t: Tree, p: Path, d: Path, comps: seq<string>, links: nat, last: bool)
    requires Trouble(p, d, comps) == Some(d) && !(d <= Parent(p)) && AllPlain(d) && Components(comps)
    ensures Found(t, [], comps, links, last) == Failure(EscapesDestination)
    decreases |comps|
  {
    var c, more := comps[0], comps[1..];
    if c == "" || c == "." {
      UpAtOnce(t, p, d, more, links, last);
    } else if c != ".." {
      assert (d + [c])[..|d|] == d;
      TroubleAhead(p, d + [c], more);
    }
  }

  /** The step onto the link at d. */
  lemma StepsOnTheTrap(t: Tree, p: Path, d: Path, more: seq<string>, links: nat, last: bool)
    requires d != [] && AllPlain(d) && d in t && t[d] == Link(Ups(|d| - 1)) && Components(more) && links > 0
    requires Trouble(p, d, more) == Some(d) && !(d <= Parent(p))
    ensures Found(t, Parent(d), [d[|d| - 1]] + more, links, last) == Failure(EscapesDestination)
  {
    hide Ups, Trouble, Split, AllPlain;
    LastOf(d);
    UpsLeadToTheRoot(t, Parent(d), more, links - 1, last);
    UpAtOnce(t, p, d, more, links - 1, last);
    UpsSplit(|d| - 1);
    var comps := [d[|d| - 1]] + more;
    assert comps[1..] == more;
  }

  lemma {:induction false} WalksIntoTheTrap(t: Tree, p: Path, d: Path, cur: Path, comps: seq<string>, links: nat, last: bool)
    requires Trapped(t, p, d) && p != [] && AllPlain(cur) && Components(comps) && links > 0
    requires Trouble(p, cur, comps) == Some(d) && (cur <= Parent(p) || cur != d)
    ensures Found(t, cur, comps, links, last) == Failure(EscapesDestination)
    decreases |comps|
  {
    hide Ups;
    var c, more, q := comps[0], comps[1..], cur + [comps[0]];
    TroubleAhead(p, cur, comps);
    if c == "" || c == "." {
      WalksIntoTheTrap(t, p, d, cur, more, links, last);
    } else if c == ".." {
      if cur != [] {
        WalksIntoTheTrap(t, p, d, Parent(cur), more, links, last);
      }
    } else {
      TroubleAhead(p, q, more);
      assert Parent(q) == cur && comps == [c] + more;
      if q == d {
        StepsOnTheTrap(t, p, d, more, links, last);
      } else {
        FreeWay(t, p, d, q);
        WalksIntoTheTrap(t, p, d, q, more, links, last);
      }
    }
  }

  lemma FreeWay(t: Tree, p: Path, d: Path, q: Path)
    requires Trapped(t, p, d) && p != [] && q != [] && (q <= Parent(p) || (q <= d && q != d))
    ensures q in t && t[q].Dir?
  {
    assert if q <= Parent(p) then q == p[..|q|] else q == d[..|q|];
  }

  function TrapPaths(p: Path, d: Path): set<Path> {
    Prefixes(p) + Prefixes(d)
  }

  /** The tree in which a link that is not steady leads out. */
  function Trap(p: Path, target: string, d: Path): Tree {
    map q | q in TrapPaths(p, d) :: if q == p then Link(target) else if q == d && d != [] then Link(Ups(|d| - 1)) else Dir
  }

  lemma TrapHolds(p: Path, target: string, d: Path, q: Path)
    ensures q in Trap(p, target, d) <==> q != [] && (q <= p || q <= d)
  {
    assert q != [] && q <= p ==> q == p[..|q|];
    assert q != [] && q <= d ==> q == d[..|q|];
  }

  lemma TrapIsTree(p: Path, target: string, d: Path)
    requires p != [] && AllPlain(p) && AllPlain(d) && (d == [] || (!(d <= Parent(p)) && !(p <= d)))
    ensures ValidTree(Trap(p, target, d))
  {
    var t := Trap(p, target, d);
    forall q | q in t
      ensures q != [] && AllPlain(q) && (|q| > 1 ==> Parent(q) in t && t[Parent(q)].Dir?)
    {
      TrapHolds(p, target, d, q);
      TrapHolds(p, target, d, Parent(q));
      assert Parent(q) <= q;
      assert q <= p ==> Parent(q) <= Parent(p);
    }
  }

  lemma TrapIsSet(p: Path, target: string, d: Path)
    requires p != [] && (d == [] || (!(d <= Parent(p)) && !(p <= d)))
    ensures Trapped(Trap(p, target, d), p, d)
    ensures p in Trap(p, target, d) && Trap(p, target, d)[p] == Link(target)
  {
    var t := Trap(p, target, d);
    TrapHolds(p, target, d, p);
    TrapHolds(p, target, d, d);
    forall i | 0 < i < |p|
      ensures p[..i] in t && t[p[..i]].Dir?
    {
      TrapHolds(p, target, d, p[..i]);
      assert p[..i] <= Parent(p);
    }
    forall i | 0 < i < |d|
      ensures d[..i] in t && t[d[..i]].Dir?
    {
      TrapHolds(p, target, d, d[..i]);
      assert d[..i] <= d;
    }
  }

  lemma UpsAreSteady(d: Path)
    requires d != []
    ensures Steady(d, Ups(|d| - 1))
  {
    hide Ups, Split, Level, Loops;
    UpsSplit(|d| - 1);
    UpsAreLevel(d, |d| - 1);
    assert d[..|d| - 1] == Parent(d);
  }

  lemma OthersAreSteady(p: Path, target: string, d: Path)
    ensures OthersSteady(Trap(p, target, d), p)
  {
    hide Steady, Ups;
    if d != [] {
      UpsAreSteady(d);
    }
  }

  predicate OthersSteady(t: Tree, p: Path) {
    forall q | q in t && q != p && t[q].Link? :: Steady(q, t[q].target)
  }

  ghost predicate LeadsOutSomewhere(p: Path, target: string) {
    exists t: Tree :: ValidTree(t) && p in t && t[p] == Link(target) && OthersSteady(t, p) && Escapes(t, p)
  }

  /** The exact condition: a link stays inside in every tree whose other links are
      steady if and only if it is steady itself. */
  lemma SteadyExactly(p: Path, target: string)
    requires p != [] && AllPlain(p)
    ensures Steady(p, target) <==> !LeadsOutSomewhere(p, target)
  {
    hide Found, Level, Loops, Trouble, ValidTree;
    if Steady(p, target) {
      forall t: Tree | ValidTree(t) && p in t && t[p] == Link(target) && OthersSteady(t, p)
        ensures !Escapes(t, p)
      {
        SteadyLinksStayInside(t, p, MAX_LINKS, true);
      }
    } else {
      var t := TrapFor(p, target);
      assert ValidTree(t) && OthersSteady(t, p) && Escapes(t, p);
    }
  }

  lemma TrapFor(p: Path, target: string) returns (t: Tree)
    requires p != [] && AllPlain(p) && !Steady(p, target)
    ensures ValidTree(t) && p in t && t[p] == Link(target) && OthersSteady(t, p) && Escapes(t, p)
  {
    hide Level, Loops, ValidTree, AllSteady, OthersSteady, Found, Trap;
    var trouble := Trouble(p, Parent(p), Split(target));
    var d := if IsAbs(target) || trouble.None? then [] else trouble.value;
    if !IsAbs(target) {
      if trouble.None? {
        NoTrouble(p, Parent(p), Split(target));
      } else {
        TroubleAhead(p, Parent(p), Split(target));
        NotBehind(p, Parent(p), Split(target));
      }
    }
    t := Trap(p, target, d);
    TrapIsTree(p, target, d);
    TrapIsSet(p, target, d);
    OthersAreSteady(p, target, d);
    ReachesLink(t, p, 0, MAX_LINKS);
    assert p[..0] == [] && p[0..] == p;
    if !IsAbs(target) {
      WalksIntoTheTrap(t, p, d, Parent(p), Split(target), MAX_LINKS - 1, true);
    }
  }

  /** The text does not lead through the link itself. */
  lemma {:induction false} NotBehind(p: Path, cur: Path, comps: seq<string>)
    requires p != [] && Trouble(p, cur, comps).Some? && !(p <= cur)
    ensures !(p <= Trouble(p, cur, comps).value)
    decreases |comps|
  {
    var c, more := comps[0], comps[1..];
    if c == "" || c == "." {
      NotBehind(p, cur, more);
    } else if c == ".." {
      if cur != [] && cur <= Parent(p) {
        NotBehind(p, Parent(cur), more);
      }
    } else {
      assert p <= cur + [c] ==> p == cur + [c] || p <= cur;
      NotBehind(p, cur + [c], more);
    }
  }

  lemma {:induction false} ReachesLink(t: Tree, p: Path, i: nat, links: nat)
    requires Reachable(t, p) && i < |p| && p in t && t[p].Link? && links > 0
    ensures Found(t, p[..i], p[i..], links, true)
         == if IsAbs(t[p].target) then Failure(EscapesDestination) else Found(t, Parent(p), Split(t[p].target), links - 1, true)
    decreases |p| - i
  {
    assert Plain(p[i]);
    assert p[..i] + [p[i]] == p[..i + 1];
    if i + 1 < |p| {
      ReachesLink(t, p, i + 1, links);
    } else {
      assert p[..i + 1] == p && p[..i] == Parent(p);
      assert Split(t[p].target) + [] == Split(t[p].target);
    }
  }

  // ---- what the check on the text alone does not see -------------------------------------------

  lemma TextsSplit()
    ensures Split("..") == [".."] && Split("../..") == ["..", ".."] && Split("x/y/..") == ["x", "y", ".."]
  {
    SplitPlain("..", "");
    SplitPlain("..", "..");
    assert ".." + "/" + ".." == "../..";
    SplitPlain("y", "..");
    assert "y" + "/" + ".." == "y/..";
    SplitPlain("x", "y/..");
    assert "x" + "/" + "y/.." == "x/y/..";
  }

  lemma Down(t: Tree, dir: Path, c: string, more: seq<string>, links: nat, last: bool)
    requires Plain(c) && dir + [c] in t && t[dir + [c]].Dir? && more != []
    ensures Found(t, dir, [c] + more, links, last) == Found(t, dir + [c], more, links, last)
  {
    assert ([c] + more)[1..] == more;
  }

  lemma Up(t: Tree, dir: Path, more: seq<string>, links: nat, last: bool)
    ensures Found(t, dir, [".."] + more, links, last)
         == if dir == [] then Failure(EscapesDestination) else Found(t, Parent(dir), more, links, last)
  {
    assert ([".."] + more)[1..] == more;
  }

  lemma Along(t: Tree, dir: Path, c: string, more: seq<string>, links: nat, last: bool)
    requires Plain(c) && dir + [c] in t && t[dir + [c]].Link? && (more != [] || last) && links > 0 && !IsAbs(t[dir + [c]].target)
    ensures Found(t, dir, [c] + more, links, last) == Found(t, dir, Split(t[dir + [c]].target) + more, links - 1, last)
  {
    assert ([c] + more)[1..] == more;
  }

  const TWO_LINKS: Tree := map[["x"] := Dir, ["x", "y"] := Link(".."), ["l"] := Link("x/y/..")]

  lemma TwoLinksAreTree()
    ensures ValidTree(TWO_LINKS) && Archivable(TWO_LINKS)
  {
    assert Parent(["x", "y"]) == ["x"];
  }

  const TWO_LINKS_WALK := [Visit(["l"], Link("x/y/..")), Visit(["x"], Dir), Visit(["x", "y"], Link(".."))]

  lemma TwoLinksAreWalked()
    ensures IsWalk(TWO_LINKS, TWO_LINKS_WALK)
  {
    var walk, l, x, xy := TWO_LINKS_WALK, ["l"], ["x"], ["x", "y"];
    var none: set<Path> := {};
    assert Parent(xy) == x;
    assert {l, x, xy} == TWO_LINKS.Keys && {l, x} + {xy} == {l, x, xy} && {l} + {x} == {l, x} && none + {l} == {l};
    assert walk[1..][1..] == walk[2..] && walk[2..][1..] == [];
    assert WalkFrom(TWO_LINKS, {l, x}, walk[2..]);
    assert WalkFrom(TWO_LINKS, {l}, walk[1..]);
  }

  lemma TwoLinksAreAccepted()
    ensures SymlinkAccepted(["x", "y"], "..") && SymlinkAccepted(["l"], "x/y/..")
    ensures Steady(["x", "y"], "..") && !Steady(["l"], "x/y/..")
  {
    hide Split, Collapse;
    TextsSplit();
    assert Parent(["x", "y"]) == ["x"] && Parent(["x"]) == [] && Parent(["l"]) == [];
    var xy, y, u := ["x", "y", ".."], ["y", ".."], [".."];
    assert xy[1..] == y && y[1..] == u && u[1..] == [];
    SymlinkContainment(["x", "y"], "..");
    SymlinkContainment(["l"], "x/y/..");
    var none: Path := [];
    assert none + ["x"] == ["x"] && ["x"] + ["y"] == ["x", "y"];
    assert !Climbs(1, u) && !Climbs(2, u) && !Climbs(1, y);
    assert Level(["x", "y"], ["x"], u);
    assert !Level(["l"], ["x", "y"], u);
    assert !Level(["l"], ["x"], y);
  }

  lemma TwoLinksLeadOut()
    ensures Escapes(TWO_LINKS, ["l"])
  {
    hide Found, Split;
    TextsSplit();
    var none: Path := [];
    assert ["l"] == none + ["l"] && ["x"] == none + ["x"] && ["x", "y"] == ["x"] + ["y"];
    assert ["l"] + [] == ["l"] && ["x", "y", ".."] == ["x"] + ["y", ".."] && ["y", ".."] == ["y"] + [".."];
    assert [".."] + [] == [".."] && Parent(["x"]) == [] && ["x", "y", ".."] + [] == ["x", "y", ".."];
    Along(TWO_LINKS, [], "l", [], MAX_LINKS, true);
    Down(TWO_LINKS, [], "x", ["y", ".."], MAX_LINKS - 1, true);
    Along(TWO_LINKS, ["x"], "y", [".."], MAX_LINKS - 1, true);
    Up(TWO_LINKS, ["x"], [".."], MAX_LINKS - 2, true);
    Up(TWO_LINKS, [], [], MAX_LINKS - 2, true);
  }

  /** Two links that are accepted, archived and restored: the second leads out of the
      workspace through the first. */
  lemma AcceptedLinksLeadOut()
    ensures SymlinkAccepted(["x", "y"], "..") && SymlinkAccepted(["l"], "x/y/..")
    ensures IsWalk(TWO_LINKS, TWO_LINKS_WALK) && Unpacked(map[], Packed(TWO_LINKS_WALK)) == Success(TWO_LINKS)
    ensures Escapes(TWO_LINKS, ["l"])
  {
    hide SymlinkAccepted, Unpacked, Packed, IsWalk, Escapes, ValidTree, Steady;
    TwoLinksAreTree();
    TwoLinksAreWalked();
    TwoLinksAreAccepted();
    RoundTrip(TWO_LINKS, TWO_LINKS_WALK);
    assert Restorable(TWO_LINKS) == TWO_LINKS;
    TwoLinksLeadOut();
  }

  /** The check is on the entry's own path, and the link is made where that path leads:
      at the path itself if and only if no link is on the way. */
  lemma LandsWhereChecked(u: Tree, p: Path, l: Path)
    requires ValidTree(u) && p != [] && AllPlain(p) && Found(u, [], p, MAX_LINKS, false) == Success(l)
    ensures l == p <==> forall i | 0 < i < |p| :: p[..i] in u ==> !u[p[..i]].Link?
  {
    hide Found, ValidTree;
    assert p[..0] == [] && p[0..] == p;
    if forall i | 0 < i < |p| :: p[..i] in u ==> !u[p[..i]].Link? {
      NoLinkOnTheWay(u, p, 0, MAX_LINKS);
    }
    if l == p {
      FoundIsPlain(u, [], p, MAX_LINKS, false);
      ParentsAreDirs(u, p);
    }
  }

  lemma {:induction false} NoLinkOnTheWay(u: Tree, p: Path, i: nat, links: nat)
    requires AllPlain(p) && i < |p| && forall j | 0 < j < |p| :: p[..j] in u ==> !u[p[..j]].Link?
    requires Found(u, p[..i], p[i..], links, false).Success?
    ensures Found(u, p[..i], p[i..], links, false).value == p
    decreases |p| - i
  {
    assert Plain(p[i]);
    assert p[..i] + [p[i]] == p[..i + 1];
    if i + 1 < |p| {
      NoLinkOnTheWay(u, p, i + 1, links);
    } else {
      assert p[..i + 1] == p;
    }
  }

  /** Two accepted entries: the second passes the check at `a/s/l`, is made at `l`
      because `s` leads to the root, and from there leads out. */
  lemma CheckedWhereItDoesNotLand() returns (u: Tree)
    ensures Unpacked(map[], [Entry(Name(["a", "s"]), LinkEntry("..")), Entry(Name(["a", "s", "l"]), LinkEntry("../.."))]) == Success(u)
    ensures u == map[["a"] := Dir, ["a", "s"] := Link(".."), ["l"] := Link("../..")]
    ensures !SymlinkAccepted(["l"], "../..") && Escapes(u, ["l"])
  {
    hide Found, SymlinkAccepted, EntryPath, Extracted, Split, Name;
    u := map[["a"] := Dir, ["a", "s"] := Link(".."), ["l"] := Link("../..")];
    var e0, e1 := Entry(Name(["a", "s"]), LinkEntry("..")), Entry(Name(["a", "s", "l"]), LinkEntry("../.."));
    assert [e0, e1][1..] == [e1] && [e1][1..] == [];
    FirstIsMade();
    SecondIsMade();
    TextsSplit();
    MisplacedTexts();
    var none: Path := [];
    assert ["l"] == none + ["l"] && ["l"] + [] == ["l"] && ["..", ".."] + [] == ["..", ".."] && ["..", ".."] == [".."] + [".."];
    Along(u, [], "l", [], MAX_LINKS, true);
    Up(u, [], [".."], MAX_LINKS - 1, true);
  }

  lemma MisplacedTexts()
    ensures SymlinkAccepted(["a", "s"], "..") && SymlinkAccepted(["a", "s", "l"], "../..") && !SymlinkAccepted(["l"], "../..")
  {
    hide Split, Collapse;
    TextsSplit();
    assert Parent(["a", "s"]) == ["a"] && Parent(["a", "s", "l"]) == ["a", "s"] && Parent(["l"]) == [];
    SymlinkContainment(["a", "s"], "..");
    SymlinkContainment(["a", "s", "l"], "../..");
    SymlinkContainment(["l"], "../..");
    var two := ["..", ".."];
    assert two[1..] == [".."] && [".."][1..] == [];
    assert !Climbs(1, [".."]) && !Climbs(2, two) && Climbs(0, two);
  }

  const ONE_LINK: Tree := map[["a"] := Dir, ["a", "s"] := Link("..")]

  lemma FirstIsMade()
    ensures Extracted(map[], Entry(Name(["a", "s"]), LinkEntry(".."))) == Success(ONE_LINK)
  {
    hide SymlinkAccepted, Found, Made, EntryPath, Split, Name;
    var p: Path := ["a", "s"];
    EntryPathOfName(p);
    MisplacedTexts();
    assert Parent(p) == ["a"] && p[..1] == ["a"];
    var none: Path := [];
    assert ["a"][..0] == none && ["a"][0..] == ["a"] && p[..0] == none && p[0..] == p;
    MadeInPlace(map[], ["a"], 0, MAX_LINKS, ["a"]);
    FoundInPlace(map[["a"] := Dir], p, 0, MAX_LINKS, false);
  }

  lemma SecondIsMade()
    ensures Extracted(ONE_LINK, Entry(Name(["a", "s", "l"]), LinkEntry("../.."))) == Success(ONE_LINK[["l"] := Link("../..")])
  {
    hide SymlinkAccepted, Found, Made, EntryPath, Split, Name;
    var p: Path := ["a", "s", "l"];
    EntryPathOfName(p);
    MisplacedTexts();
    assert Parent(p) == ["a", "s"];
    ThereAlready();
    SecondIsPlaced();
  }

  lemma SecondIsPlaced()
    ensures Found(ONE_LINK, [], ["a", "s", "l"], MAX_LINKS, false) == Success(["l"])
  {
    hide Found, Split;
    TextsSplit();
    var none: Path := [];
    assert Parent(["a"]) == none && none + ["a"] == ["a"] && ["a"] + ["s"] == ["a", "s"];
    assert ["a", "s", "l"] == ["a"] + ["s", "l"] && ["s", "l"] == ["s"] + ["l"];
    Down(ONE_LINK, [], "a", ["s", "l"], MAX_LINKS, false);
    Along(ONE_LINK, ["a"], "s", ["l"], MAX_LINKS, false);
    Up(ONE_LINK, ["a"], ["l"], MAX_LINKS - 1, false);
    AtTheRoot();
  }

  lemma AtTheRoot()
    ensures Found(ONE_LINK, [], ["l"], MAX_LINKS - 1, false) == Success(["l"])
  {
    var none: Path := [];
    assert none + ["l"] == ["l"] && ["l"][1..] == [];
  }

  /** `a/s` is there: it leads to the root. */
  lemma ThereAlready()
    ensures MkdirAll(ONE_LINK, ["a", "s"]) == Success(ONE_LINK)
  {
    hide Found, Split;
    TextsSplit();
    var none: Path := [];
    assert none + ["a"] == ["a"] && ["a"] + ["s"] == ["a", "s"] && ["s"] + [] == ["s"] && [".."] + [] == [".."] && Parent(["a"]) == none;
    Down(ONE_LINK, [], "a", ["s"], MAX_LINKS, true);
    Along(ONE_LINK, ["a"], "s", [], MAX_LINKS, true);
    Up(ONE_LINK, ["a"], [], MAX_LINKS - 1, true);
    Here(ONE_LINK, MAX_LINKS - 1);
    assert ["a", "s"][1..] == ["s"] && ["s"][1..] == [];
  }

  lemma Here(t: Tree, links: nat)
    ensures Found(t, [], [], links, true) == Success([])
  {
  }
}
