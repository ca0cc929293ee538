/** Slash-separated paths, as `internal/blob/mount.go`, `internal/blob/archive.go`
    and `internal/blob/blob.go` use them. A path is a sequence of components;
    `Collapse` is Go's lexical `Clean` on components. */
module Paths {
  import opened Basics

  type Path = seq<string>

  /** A component that names one directory entry. */
  predicate Plain(c: string) {
    c != "" && c != "." && c != ".." && '/' !in c
  }

  predicate AllPlain(p: Path) {
    forall i | 0 <= i < |p| :: Plain(p[i])
  }

  /** `strings.Split(s, "/")`. */
  function Split(s: string): (r: seq<string>)
    ensures |r| >= 1
    ensures forall i | 0 <= i < |r| :: '/' !in r[i]
  {
    if s == "" then [""]
    else
      var rest := Split(s[1..]);
      if s[0] == '/' then [""] + rest else [[s[0]] + rest[0]] + rest[1..]
  }

  predicate IsAbs(s: string) {
    s != "" && s[0] == '/'
  }

  /** One component of `filepath.Clean`: `rooted` drops a ".." at the top, a
      relative path keeps it. */
  function Push(stack: Path, c: string, rooted: bool): Path {
    if c == "" || c == "." then stack
    else if c != ".." then stack + [c]
    else if stack != [] && stack[|stack| - 1] != ".." then stack[..|stack| - 1]
    else if rooted then stack
    else stack + [c]
  }

  function Collapse(stack: Path, comps: seq<string>, rooted: bool): Path
    decreases |comps|
  {
    if comps == [] then stack else Collapse(Push(stack, comps[0], rooted), comps[1..], rooted)
  }

  /** `filepath.IsLocal` of a cleaned relative path ("." is the empty one). */
  predicate IsLocal(cleaned: Path) {
    cleaned == [] || cleaned[0] != ".."
  }

  /** `filepath.Dir` of a relative path. */
  function Parent(p: Path): Path {
    if p == [] then [] else p[..|p| - 1]
  }

  // ---- archive.go: which entries and links are accepted --------------------

  /** validateArchiveSymlink accepts. */
  predicate SymlinkAccepted(link: Path, target: string) {
    !IsAbs(target) && IsLocal(Collapse([], Parent(link) + Split(target), false))
  }

  /** resolveArchivePath: the cleaned local path of a tar entry name. */
  function EntryPath(name: string): Option<Path> {
    var clean := Collapse([], Split(name), false);
    if !IsAbs(name) && IsLocal(clean) then Some(clean) else None
  }

  /** Walking the components one by one from a directory `depth` levels below
      the root steps above the root at some point. */
  predicate Climbs(depth: nat, comps: seq<string>)
    decreases |comps|
  {
    comps != [] &&
    var c := comps[0];
    if c == "" || c == "." then Climbs(depth, comps[1..])
    else if c != ".." then Climbs(depth + 1, comps[1..])
    else depth == 0 || Climbs(depth - 1, comps[1..])
  }

  lemma {:induction false} StaysAbove(stack: Path, comps: seq<string>)
    requires stack != [] && stack[0] == ".."
    ensures var r := Collapse(stack, comps, false); r != [] && r[0] == ".."
    decreases |comps|
  {
    if comps != [] {
      StaysAbove(Push(stack, comps[0], false), comps[1..]);
    }
  }

  lemma {:induction false} LocalIffNeverClimbs(stack: Path, comps: seq<string>)
    requires AllPlain(stack)
    requires forall i | 0 <= i < |comps| :: '/' !in comps[i]
    ensures IsLocal(Collapse(stack, comps, false)) <==> !Climbs(|stack|, comps)
    decreases |comps|
  {
    if comps != [] {
      var next := Push(stack, comps[0], false);
      if comps[0] == ".." && stack == [] {
        StaysAbove(next, comps[1..]);
      } else {
        LocalIffNeverClimbs(next, comps[1..]);
      }
    }
  }

  lemma {:induction false} CollapsePlain(stack: Path, p: Path, comps: seq<string>, rooted: bool)
    requires AllPlain(p)
    ensures Collapse(stack, p + comps, rooted) == Collapse(stack + p, comps, rooted)
    decreases |p|
  {
    if p == [] {
      assert p + comps == comps && stack + p == stack;
    } else {
      assert (p + comps)[0] == p[0] && (p + comps)[1..] == p[1..] + comps;
      CollapsePlain(stack + [p[0]], p[1..], comps, rooted);
      assert stack + [p[0]] + p[1..] == stack + p;
    }
  }

  /** A link is accepted exactly when it is relative and following its target's
      components from the link's own directory never climbs above the root. */
  lemma SymlinkContainment(link: Path, target: string)
    requires AllPlain(link)
    ensures SymlinkAccepted(link, target)
       <==> !IsAbs(target) && !Climbs(|Parent(link)|, Split(target))
  {
    CollapsePlain([], Parent(link), Split(target), false);
    assert [] + Parent(link) == Parent(link);
    LocalIffNeverClimbs(Parent(link), Split(target));
  }

  /** An archive entry is accepted exactly when it is relative and never climbs
      above the root; the path used is then a plain path below it. */
  lemma EntryContainment(name: string)
    ensures EntryPath(name).Some? <==> !IsAbs(name) && !Climbs(0, Split(name))
    ensures EntryPath(name).Some? ==> AllPlain(EntryPath(name).value)
  {
    LocalIffNeverClimbs([], Split(name));
    if !Climbs(0, Split(name)) {
      CollapseStaysPlain([], Split(name), false);
    }
  }

  lemma {:induction false} CollapseStaysPlain(stack: Path, comps: seq<string>, rooted: bool)
    requires AllPlain(stack)
    requires forall i | 0 <= i < |comps| :: '/' !in comps[i]
    requires rooted || !Climbs(|stack|, comps)
    ensures AllPlain(Collapse(stack, comps, rooted))
    decreases |comps|
  {
    if comps != [] {
      CollapseStaysPlain(Push(stack, comps[0], rooted), comps[1..], rooted);
    }
  }

  // ---- names written by the archive writer ----------------------------------

  /** `filepath.ToSlash(rel)` of a relative path. */
  function Name(p: Path): string
  {
    if p == [] then "" else if |p| == 1 then p[0] else p[0] + "/" + Name(p[1..])
  }

  lemma {:induction false} SplitPlain(c: string, rest: string)
    requires '/' !in c
    ensures Split(c) == [c]
    ensures Split(c + "/" + rest) == [c] + Split(rest)
  {
    if c == "" {
      assert c + "/" + rest == ['/'] + rest;
      assert (['/'] + rest)[1..] == rest;
    } else {
      SplitPlain(c[1..], rest);
      var s := c + "/" + rest;
      assert s[1..] == c[1..] + "/" + rest;
      assert [c[0]] + c[1..] == c;
      assert Split(s) == [[s[0]] + Split(s[1..])[0]] + Split(s[1..])[1..];
      assert ([c[1..]] + Split(rest))[1..] == Split(rest);
    }
  }

  lemma {:induction false} SplitName(p: Path)
    requires AllPlain(p) && p != []
    ensures Split(Name(p)) == p
  {
    if |p| == 1 {
      SplitPlain(p[0], "");
    } else {
      SplitPlain(p[0], Name(p[1..]));
      SplitName(p[1..]);
    }
  }

  /** The reader recovers from a written name exactly the path it was written
      for; a directory's trailing slash does not matter. */
  lemma EntryPathOfName(p: Path)
    requires AllPlain(p) && p != []
    ensures EntryPath(Name(p)) == Some(p)
    ensures EntryPath(Name(p) + "/") == Some(p)
  {
    SplitName(p);
    CollapsePlain([], p, [], false);
    assert p + [] == p && [] + p == p;
    SplitTrailing(p);
    CollapsePlain([], p, [""], false);
    NameStart(p);
  }

  lemma NameStart(p: Path)
    requires AllPlain(p) && p != []
    ensures Name(p) != "" && Name(p)[0] == p[0][0] && p[0][0] != '/'
  {
    assert Plain(p[0]);
  }

  lemma {:induction false} SplitTrailing(p: Path)
    requires AllPlain(p) && p != []
    ensures Split(Name(p) + "/") == p + [""]
  {
    if |p| == 1 {
      SplitPlain(p[0], "");
      assert p[0] + "/" + "" == p[0] + "/";
    } else {
      SplitTrailing(p[1..]);
      var tail := Name(p[1..]) + "/";
      assert Name(p) + "/" == p[0] + "/" + tail;
      SplitPlain(p[0], tail);
      assert [p[0]] + (p[1..] + [""]) == p + [""];
    }
  }

  // ---- blob.go and mount.go: per-run roots ----------------------------------

  /** The base path of a bucket value: what follows the first '/' once the
      "gs://" scheme is gone, split into components. */
  function BasePrefix(bucket: string): seq<string> {
    Split(TrimPrefix(bucket, "gs://"))[1..]
  }

  /** A base path that itself starts with '/'. */
  predicate RootedBase(bucket: string) {
    |BasePrefix(bucket)| >= 2 && BasePrefix(bucket)[0] == ""
  }

  /** RunPrefix: `path.Join` of the base path, "runs" and the run id. */
  function RunPrefix(bucket: string, runID: string): Path {
    Collapse([], BasePrefix(bucket) + ["runs"] + Split(runID), RootedBase(bucket))
  }

  /** NewMountStore: the absolute root of a store, `base` being an absolute
      cleaned mount path. */
  function MountRoot(base: Path, prefix: Path): Path {
    Collapse(base, prefix, true)
  }

  /** An absolute path as the string the code compares. */
  function Render(p: Path): string
  {
    if p == [] then "/" else if |p| == 1 then "/" + p[0] else "/" + p[0] + Render(p[1..])
  }

  /** MountStore.resolve. */
  function Resolve(root: Path, key: string): Option<Path> {
    var clean := Collapse(root, Split(key), true);
    if Render(clean) != Render(root) && !HasPrefix(Render(clean), Render(root) + "/") then None
    else Some(clean)
  }

  lemma SplitSlash(s: string)
    ensures Split("/" + s) == [""] + Split(s)
  {
    assert ("/" + s)[1..] == s;
  }

  lemma {:induction false} SplitRender(p: Path)
    requires AllPlain(p) && p != []
    ensures Split(Render(p)) == [""] + p
  {
    assert Plain(p[0]);
    if |p| == 1 {
      SplitSlash(p[0]);
      SplitPlain(p[0], "");
    } else {
      SplitRender(p[1..]);
      var rest := Render(p[1..])[1..];
      assert Render(p[1..]) == "/" + rest;
      SplitSlash(rest);
      CancelHead("", p[1..], Split(rest));
      RenderStep(p, rest);
      SplitPlain(p[0], rest);
      SplitSlash(p[0] + "/" + rest);
      assert [p[0]] + p[1..] == p;
    }
  }

  lemma CancelHead(x: string, a: seq<string>, b: seq<string>)
    requires [x] + a == [x] + b
    ensures a == b
  {
    assert a == ([x] + a)[1..];
    assert b == ([x] + b)[1..];
  }

  lemma RenderStep(p: Path, rest: string)
    requires |p| > 1 && Render(p[1..]) == "/" + rest
    ensures Render(p) == "/" + (p[0] + "/" + rest)
  {
    assert "/" + p[0] + ("/" + rest) == "/" + (p[0] + "/" + rest);
  }

  lemma {:induction false} RenderAppend(p: Path, q: Path)
    requires p != [] && q != []
    ensures Render(p + q) == Render(p) + Render(q)
  {
    if |p| == 1 {
      assert (p + q)[1..] == q;
    } else {
      assert (p + q)[1..] == p[1..] + q;
      RenderAppend(p[1..], q);
    }
  }

  lemma RenderDetermines(root: Path, p: Path, rest: string)
    requires AllPlain(root) && AllPlain(p) && root != [] && p != []
    requires Render(p) == Render(root) + "/" + rest
    ensures root <= p
  {
    SplitRender(root);
    SplitRender(p);
    SplitAppend(Render(root), rest);
    assert ([""] + root) + Split(rest) == [""] + (root + Split(rest));
    CancelHead("", p, root + Split(rest));
  }

  lemma RenderInjective(p: Path, q: Path)
    requires AllPlain(p) && AllPlain(q) && Render(p) == Render(q)
    ensures p == q
  {
    if p != [] { SplitRender(p); assert Plain(p[0]) && |Render(p)| > 1; }
    if q != [] { SplitRender(q); assert Plain(q[0]) && |Render(q)| > 1; }
    if p != [] && q != [] {
      assert p == ([""] + p)[1..] == ([""] + q)[1..] == q;
    }
  }

  lemma PrefixRenders(root: Path, p: Path)
    requires root != [] && root <= p
    ensures Render(p) == Render(root) || HasPrefix(Render(p), Render(root) + "/")
  {
    var q := p[|root|..];
    assert p == root + q;
    if q != [] {
      RenderAppend(root, q);
      assert Render(q)[0] == '/';
      hide Render;
      SlashFollows(Render(root), Render(q));
    }
  }

  lemma SlashFollows(a: string, tail: string)
    requires tail != "" && tail[0] == '/'
    ensures HasPrefix(a + tail, a + "/")
  {
    assert tail == "/" + tail[1..];
    assert a + tail == (a + "/") + tail[1..];
  }

  lemma RendersPrefix(root: Path, p: Path)
    requires AllPlain(root) && AllPlain(p) && root != []
    requires HasPrefix(Render(p), Render(root) + "/")
    ensures root <= p
  {
    var head := Render(root) + "/";
    var rest := Render(p)[|head|..];
    assert Render(p) == head + rest;
    assert Plain(root[0]) && |Render(root)| > 1;
    RenderDetermines(root, p, rest);
  }

  /** The code's string comparison means component-wise prefix. */
  lemma UnderRoot(root: Path, p: Path)
    requires AllPlain(root) && AllPlain(p) && root != []
    ensures Render(p) == Render(root) || HasPrefix(Render(p), Render(root) + "/") <==> root <= p
  {
    if root <= p {
      PrefixRenders(root, p);
    } else if Render(p) == Render(root) {
      RenderInjective(p, root);
    } else if HasPrefix(Render(p), Render(root) + "/") {
      RendersPrefix(root, p);
    }
  }

  lemma {:induction false} SplitAppend(s: string, rest: string)
    ensures Split(s + "/" + rest) == Split(s) + Split(rest)
  {
    if s == "" {
      SplitPlain("", rest);
    } else {
      SplitAppend(s[1..], rest);
      ConsAppend(s, "/", rest);
      SplitCons(s[0], s[1..] + "/" + rest);
      GlueHead(s[0], Split(s[1..]), Split(rest));
    }
  }

  lemma SplitCons(c: char, s: string)
    ensures Split([c] + s) == Glue(c, Split(s))
  {
    assert ([c] + s)[1..] == s;
  }

  function Glue(c: char, parts: seq<string>): seq<string>
    requires parts != []
  {
    if c == '/' then [""] + parts else [[c] + parts[0]] + parts[1..]
  }

  lemma GlueHead(c: char, a: seq<string>, b: seq<string>)
    requires a != []
    ensures Glue(c, a + b) == Glue(c, a) + b
  {
    assert (a + b)[0] == a[0] && (a + b)[1..] == a[1..] + b;
  }

  lemma ConsAppend(s: string, sep: string, rest: string)
    requires s != ""
    ensures s + sep + rest == [s[0]] + (s[1..] + sep + rest)
  {
  }

  /** resolve accepts a key exactly when the cleaned absolute path is the root
      or lies under it, and then returns that path. */
  lemma ResolveStaysUnderRoot(root: Path, key: string)
    requires AllPlain(root) && root != []
    ensures Resolve(root, key).Some? <==> root <= Collapse(root, Split(key), true)
    ensures Resolve(root, key).Some? ==> root <= Resolve(root, key).value && AllPlain(Resolve(root, key).value)
    ensures !Climbs(0, Split(key)) ==> Resolve(root, key).Some?
  {
    CollapseStaysPlain(root, Split(key), true);
    UnderRoot(root, Collapse(root, Split(key), true));
    if !Climbs(0, Split(key)) {
      NeverClimbsExtends(root, [], Split(key));
      assert root + [] == root;
    }
  }

  lemma {:induction false} NeverClimbsExtends(root: Path, sub: Path, comps: seq<string>)
    requires AllPlain(root) && AllPlain(sub) && !Climbs(|sub|, comps)
    requires forall i | 0 <= i < |comps| :: '/' !in comps[i]
    ensures root <= Collapse(root + sub, comps, true)
    decreases |comps|
  {
    if comps != [] {
      var next := Push(sub, comps[0], true);
      assert Push(root + sub, comps[0], true) == root + next by {
        if comps[0] == ".." { assert (root + sub)[..|root + sub| - 1] == root + sub[..|sub| - 1]; }
      }
      NeverClimbsExtends(root, next, comps[1..]);
    }
  }

  lemma {:induction false} CollapseAppend(stack: Path, a: seq<string>, b: seq<string>, rooted: bool)
    ensures Collapse(stack, a + b, rooted) == Collapse(Collapse(stack, a, rooted), b, rooted)
    decreases |a|
  {
    if a == [] {
      assert a + b == b;
    } else {
      assert (a + b)[0] == a[0] && (a + b)[1..] == a[1..] + b;
      CollapseAppend(Push(stack, a[0], rooted), a[1..], b, rooted);
    }
  }

  /** A bucket with a base path keeps its runs below that path. */
  lemma BaseIsKept(bucket: string, base: Path, runID: string)
    requires Plain(bucket) && AllPlain(base) && Plain(runID)
    ensures RunPrefix("gs://" + Name([bucket] + base), runID) == base + ["runs", runID]
  {
    hide Split, Collapse, Name;
    var full := [bucket] + base;
    SplitName(full);
    assert TrimPrefix("gs://" + Name(full), "gs://") == Name(full);
    assert BasePrefix("gs://" + Name(full)) == base;
    assert base != [] ==> Plain(base[0]);
    SplitPlain(runID, "");
    BaseThenRuns(base, runID, RootedBase("gs://" + Name(full)));
  }

  lemma BaseThenRuns(base: Path, runID: string, rooted: bool)
    requires AllPlain(base) && Plain(runID)
    ensures Collapse([], base + ["runs"] + [runID], rooted) == base + ["runs", runID]
  {
    var p := base + ["runs", runID];
    assert base + ["runs"] + [runID] == p;
    CollapsePlain([], p, [], rooted);
    assert p + [] == p && [] + p == p;
  }

  /** What cleaning a path does, in Go's own words: an empty component or "." goes, a
      ".." goes with the name before it, at the root it goes alone, and nothing else
      does. */
  lemma CleanLaws(stack: Path, a: seq<string>, c: string, b: seq<string>, rooted: bool)
    requires Plain(c)
    ensures Collapse(stack, a + ["."] + b, rooted) == Collapse(stack, a + b, rooted) == Collapse(stack, a + [""] + b, rooted)
    ensures Collapse(stack, a + [c, ".."] + b, rooted) == Collapse(stack, a + b, rooted)
    ensures Collapse([], [".."] + b, true) == Collapse([], b, true)
    ensures Collapse([], [".."], false) == [".."] && Collapse([], [], rooted) == []
    ensures Collapse(stack, a + [c], rooted) == Collapse(stack, a, rooted) + [c]
  {
    hide Push;
    var mid := Collapse(stack, a, rooted);
    CollapseAppend(stack, a, ["."] + b, rooted);
    CollapseAppend(stack, a, [""] + b, rooted);
    CollapseAppend(stack, a, [c, ".."] + b, rooted);
    CollapseAppend(stack, a, b, rooted);
    CollapseAppend(stack, a, [c], rooted);
    assert a + ["."] + b == a + (["."] + b) && a + [""] + b == a + ([""] + b) && a + [c, ".."] + b == a + ([c, ".."] + b);
    OneStep(mid, ".", b, rooted);
    OneStep(mid, "", b, rooted);
    OneStep(mid, c, [".."] + b, rooted);
    assert [c, ".."] + b == [c] + ([".."] + b);
    OneStep(mid + [c], "..", b, rooted);
    OneStep([], "..", b, true);
    OneStep([], "..", [], false);
    OneStep(mid, c, [], rooted);
    assert [".."] + [] == [".."] && [c] + [] == [c];
    Steps(mid, c, rooted);
    assert Collapse([".."], [], false) == [".."] && Collapse(mid + [c], [], rooted) == mid + [c];
  }

  lemma OneStep(stack: Path, c: string, b: seq<string>, rooted: bool)
    ensures Collapse(stack, [c] + b, rooted) == Collapse(Push(stack, c, rooted), b, rooted)
  {
    assert ([c] + b)[1..] == b;
  }

  lemma Steps(stack: Path, c: string, rooted: bool)
    requires Plain(c)
    ensures Push(stack, ".", rooted) == stack && Push(stack, "", rooted) == stack && Push(stack, c, rooted) == stack + [c]
    ensures Push(stack + [c], "..", rooted) == stack
    ensures Push([], "..", true) == [] && Push([], "..", false) == [".."]
  {
    assert (stack + [c])[..|stack|] == stack;
  }

  /** A run's store root: the checkpoint mount joined with the run's prefix. */
  function RunRoot(base: Path, bucket: string, runID: string): Path {
    MountRoot(base, RunPrefix(bucket, runID))
  }

  /** The last two components of a run's root are "runs" and its id; what comes
      before depends on the mount and the bucket alone. */
  function RootStem(base: Path, bucket: string): Path {
    Collapse(base, Collapse([], BasePrefix(bucket), RootedBase(bucket)), true)
  }

  lemma RunRootShape(base: Path, bucket: string, runID: string)
    requires AllPlain(base) && Plain(runID)
    ensures AllPlain(RootStem(base, bucket))
    ensures RunRoot(base, bucket, runID) == RootStem(base, bucket) + ["runs", runID]
  {
    var inner, rooted := BasePrefix(bucket), RootedBase(bucket);
    var tail := ["runs", runID];
    SplitPlain(runID, "");
    assert inner + ["runs"] + Split(runID) == inner + tail;
    CollapseAppend([], inner, tail, rooted);
    var head := Collapse([], inner, rooted);
    PushTail(head, runID, rooted);
    assert RunPrefix(bucket, runID) == head + tail;
    CollapseAppend(base, head, tail, true);
    PushTail(RootStem(base, bucket), runID, true);
    NoSlash([], inner, rooted);
    CollapseStaysPlain(base, head, true);
  }

  lemma PushTail(head: Path, runID: string, rooted: bool)
    requires Plain(runID)
    ensures Collapse(head, ["runs", runID], rooted) == head + ["runs", runID]
  {
    assert AllPlain(["runs", runID]);
    CollapsePlain(head, ["runs", runID], [], rooted);
    assert ["runs", runID] + [] == ["runs", runID];
  }

  lemma {:induction false} NoSlash(stack: Path, comps: seq<string>, rooted: bool)
    requires forall i | 0 <= i < |stack| :: '/' !in stack[i]
    requires forall i | 0 <= i < |comps| :: '/' !in comps[i]
    ensures forall i | 0 <= i < |Collapse(stack, comps, rooted)| :: '/' !in Collapse(stack, comps, rooted)[i]
    decreases |comps|
  {
    if comps != [] {
      NoSlash(Push(stack, comps[0], rooted), comps[1..], rooted);
    }
  }

  /** Two runs with different single-component ids that share a bucket never
      reach the same object, whatever keys they use. */
  lemma RunsAreIsolated(base: Path, bucket: string, id1: string, id2: string, key1: string, key2: string)
    requires AllPlain(base) && Plain(id1) && Plain(id2) && id1 != id2
    ensures var p1 := Resolve(RunRoot(base, bucket, id1), key1);
            var p2 := Resolve(RunRoot(base, bucket, id2), key2);
            p1.Some? && p2.Some? ==> p1.value != p2.value
  {
    RunRootShape(base, bucket, id1);
    RunRootShape(base, bucket, id2);
    var at := |RootStem(base, bucket)| + 1;
    var r1, r2 := RunRoot(base, bucket, id1), RunRoot(base, bucket, id2);
    ResolveStaysUnderRoot(r1, key1);
    ResolveStaysUnderRoot(r2, key2);
    assert r1[at] == id1 && r2[at] == id2;
    var p1, p2 := Resolve(r1, key1), Resolve(r2, key2);
    if p1.Some? && p2.Some? && p1.value == p2.value {
      assert p1.value[at] == id1;
      assert p2.value[at] == id2;
    }
  }
}
