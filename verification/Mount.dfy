/** `internal/blob/mount.go`: the object store of one run as a directory of a
    mounted file tree that the stores of other runs share. */
module Mount {
  import opened Basics
  import opened Paths

  datatype Node = Dir | File(content: string, modified: nat)

  type Files = map<Path, Node>

  datatype Error = Escapes | NotFound | Broken

  /** One object of a listing. */
  datatype Object = Object(key: string, size: nat, modified: nat)

  /** Whatever has something in it is a directory. */
  ghost predicate IsTree(files: Files) {
    forall p | p in files && p != [] :: Parent(p) in files && files[Parent(p)] == Dir
  }

  // ---- directories ----------------------------------------------------------------

  /** Some path on the way to p is a file. */
  predicate Blocked(files: Files, p: Path) {
    exists i | 0 <= i <= |p| :: p[..i] in files && files[p[..i]].File?
  }

  /** The first i of the paths on the way to p, p included. */
  function FirstPrefixes(p: Path, i: nat): set<Path>
    requires i <= |p| + 1
  {
    set k | 0 <= k < i :: p[..k]
  }

  /** Those of them that are not there, made as directories. */
  function Made(files: Files, p: Path, i: nat): Files
    requires i <= |p| + 1
  {
    files + map q | q in FirstPrefixes(p, i) && q !in files :: Dir
  }

  /** os.MkdirAll on a path nothing blocks. */
  function WithDirs(files: Files, p: Path): Files {
    Made(files, p, |p| + 1)
  }

  lemma MadeNone(files: Files, p: Path)
    ensures Made(files, p, 0) == files
  {
  }

  lemma MadeNext(files: Files, p: Path, i: nat)
    requires i <= |p|
    ensures Made(files, p, i + 1) == if p[..i] in Made(files, p, i) then Made(files, p, i) else Made(files, p, i)[p[..i] := Dir]
  {
    assert FirstPrefixes(p, i + 1) == FirstPrefixes(p, i) + {p[..i]};
  }

  lemma DirsAreATree(files: Files, p: Path)
    requires IsTree(files) && !Blocked(files, p)
    ensures IsTree(WithDirs(files, p))
    ensures p in WithDirs(files, p) && WithDirs(files, p)[p] == Dir
  {
    var made := WithDirs(files, p);
    assert p[..|p|] == p;
    forall q | q in made && q != [] ensures Parent(q) in made && made[Parent(q)] == Dir {
      if q in files {
      } else {
        var k :| 0 <= k < |p| + 1 && q == p[..k];
        assert Parent(q) == p[..k - 1];
      }
    }
  }

  /** What MkdirAll makes is on the way to p, and proper. */
  lemma DirsArePlain(files: Files, p: Path)
    requires AllPlain(p) && forall q | q in files :: AllPlain(q)
    ensures forall q | q in WithDirs(files, Parent(p)) :: AllPlain(q)
    ensures forall q | q in WithDirs(files, Parent(p)) && q !in files :: q <= Parent(p)
    ensures forall q | q in files :: q in WithDirs(files, Parent(p)) && WithDirs(files, Parent(p))[q] == files[q]
  {
  }

  lemma FileIsATree(files: Files, p: Path, content: string, now: nat)
    requires p != [] && IsTree(files) && !Blocked(files, Parent(p)) && !(p in files && files[p] == Dir)
    ensures IsTree(WithDirs(files, Parent(p))[p := File(content, now)])
  {
    DirsAreATree(files, Parent(p));
    assert p !in FirstPrefixes(Parent(p), |Parent(p)| + 1);
  }

  lemma RemovedIsATree(files: Files, p: Path)
    requires IsTree(files) && Removable(files, p)
    ensures IsTree(files - {p})
  {
  }

  /** Put's effect: None when the tree does not admit the file. */
  function Stored(files: Files, p: Path, content: string, now: nat): Option<Files> {
    if Blocked(files, Parent(p)) || (p in files && files[p] == Dir) then None
    else Some(WithDirs(files, Parent(p))[p := File(content, now)])
  }

  // ---- keys --------------------------------------------------------------------------

  /** `filepath.Rel` of a path under the root. */
  function KeyOf(root: Path, p: Path): string
    requires root <= p
  {
    if p == root then "." else Name(p[|root|..])
  }

  lemma TailIsPlain(root: Path, p: Path)
    requires root <= p && AllPlain(p)
    ensures AllPlain(p[|root|..])
  {
    forall i | 0 <= i < |p[|root|..]| ensures Plain(p[|root|..][i]) {
      assert p[|root|..][i] == p[|root| + i];
    }
  }

  /** A listed key leads back to the file it was listed for. */
  lemma KeyResolves(root: Path, p: Path)
    requires AllPlain(p) && root <= p && root != []
    ensures Resolve(root, KeyOf(root, p)) == Some(p)
  {
    assert AllPlain(root);
    if p == root {
      SplitPlain(".", "");
      assert Collapse(root, ["."][1..], true) == root;
      assert Collapse(root, ["."], true) == root;
    } else {
      var tail := p[|root|..];
      TailIsPlain(root, p);
      SplitName(tail);
      CollapsePlain(root, tail, [], true);
      assert tail + [] == tail && root + tail == p;
    }
    UnderRoot(root, p);
  }

  /** Distinct files have distinct keys. */
  lemma KeysDiffer(root: Path, p: Path, q: Path)
    requires AllPlain(p) && AllPlain(q) && root <= p && root <= q && root != [] && p != q
    ensures KeyOf(root, p) != KeyOf(root, q)
  {
    KeyResolves(root, p);
    KeyResolves(root, q);
  }

  /** A key without empty, "." or ".." components names the file below the root
      that it spells. */
  lemma CanonicalKey(root: Path, key: string)
    requires AllPlain(root) && root != [] && AllPlain(Split(key))
    ensures Resolve(root, key) == Some(root + Split(key))
  {
    var p := root + Split(key);
    assert AllPlain(p);
    CollapsePlain(root, Split(key), [], true);
    assert Split(key) + [] == Split(key);
    UnderRoot(root, p);
  }

  /** What reading a key gives; opening a directory succeeds in the code and fails at
      the first read. */
  function Fetched(files: Files, root: Path, key: string): Result<string, Error> {
    match Resolve(root, key)
    case None => Failure(Escapes)
    case Some(p) =>
      if p in files then (if files[p].File? then Success(files[p].content) else Failure(Broken))
      else if Blocked(files, p) then Failure(Broken) else Failure(NotFound)
  }

  // ---- listings -----------------------------------------------------------------------

  /** The files at or under a path. */
  function FilesUnder(files: Files, start: Path): set<Path> {
    set p | p in files && start <= p && files[p].File?
  }

  function ObjectAt(files: Files, root: Path, p: Path): Object
    requires p in files && files[p].File? && root <= p
  {
    Object(KeyOf(root, p), |files[p].content|, files[p].modified)
  }

  predicate SortedByKey(s: seq<Object>) {
    forall i, j | 0 <= i < j < |s| :: Less(s[i].key, s[j].key)
  }

  /** s lists exactly the files at or under start, once each, by key. */
  ghost predicate Lists(files: Files, root: Path, start: Path, s: seq<Object>) {
    && root <= start && SortedByKey(s)
    && (forall p | p in FilesUnder(files, start) :: ObjectAt(files, root, p) in s)
    && (forall x | x in s :: exists p | p in FilesUnder(files, start) :: x == ObjectAt(files, root, p))
  }

  function InsertByKey(x: Object, s: seq<Object>): (r: seq<Object>)
    ensures forall y :: y in r <==> y == x || y in s
  {
    if s == [] || Less(x.key, s[0].key) then [x] + s else [s[0]] + InsertByKey(x, s[1..])
  }

  lemma {:induction false} InsertKeepsSorted(x: Object, s: seq<Object>)
    requires SortedByKey(s) && forall y | y in s :: y.key != x.key
    ensures SortedByKey(InsertByKey(x, s))
  {
    hide Less;
    if s != [] {
      LessIsTotal(x.key, s[0].key);
      if Less(x.key, s[0].key) {
        forall j | 0 < j < |s| ensures Less(x.key, s[j].key) {
          LessIsTransitive(x.key, s[0].key, s[j].key);
        }
      } else {
        InsertKeepsSorted(x, s[1..]);
        var r := InsertByKey(x, s[1..]);
        forall j | 0 <= j < |r| ensures Less(s[0].key, r[j].key) {
          assert r[j] in r;
        }
      }
    }
  }

  // ---- what the calls leave ---------------------------------------------------------------

  /** Everything on the way down to p that is there is a directory. */
  predicate WayIsClear(files: Files, p: Path) {
    forall i | 0 <= i < |p| :: p[..i] in files ==> files[p[..i]] == Dir
  }

  /** Nothing is gone or different but p, and new are only directories on its way. */
  predicate OnlyAdded(before: Files, after: Files, p: Path) {
    && (forall q | q in before && q != p :: q in after && after[q] == before[q])
    && (forall q | q in after && q !in before && q != p :: after[q] == Dir && q <= p)
  }

  lemma WayOrBlocked(files: Files, p: Path)
    requires p != []
    ensures WayIsClear(files, p) <==> !Blocked(files, Parent(p))
  {
    var q := Parent(p);
    assert forall i | 0 <= i < |p| :: q[..i] == p[..i];
    if Blocked(files, q) {
      var i :| 0 <= i <= |q| && q[..i] in files && files[q[..i]].File?;
      assert p[..i] in files;
    }
  }

  lemma ClearOrBlocked(files: Files, p: Option<Path>)
    ensures p.Some? && p.value !in files ==> (WayIsClear(files, p.value) <==> !Blocked(files, p.value))
  {
    if p.Some? && p.value !in files {
      assert p.value[..|p.value|] == p.value;
      assert forall i | 0 <= i <= |p.value| :: p.value[..i] in files ==> i < |p.value|;
    }
  }

  lemma DirsOnlyAdd(files: Files, p: Path)
    ensures OnlyAdded(files, WithDirs(files, Parent(p)), p)
    ensures p in files ==> p in WithDirs(files, Parent(p)) && WithDirs(files, Parent(p))[p] == files[p]
  {
    var way := FirstPrefixes(Parent(p), |Parent(p)| + 1);
    forall q | q in way ensures q <= p {
      var k :| 0 <= k < |Parent(p)| + 1 && q == Parent(p)[..k];
      assert q == p[..k];
    }
  }

  lemma AddedNothing(files: Files, p: Path)
    ensures OnlyAdded(files, files, p)
  {
  }

  lemma AddedFile(before: Files, after: Files, p: Path, n: Node)
    requires OnlyAdded(before, after, p)
    ensures OnlyAdded(before, after[p := n], p)
  {
  }

  /** The entry of a listing for this file. */
  predicate Describes(files: Files, root: Path, x: Object, p: Path) {
    && p in files && files[p].File? && Resolve(root, x.key) == Some(p)
    && x.size == |files[p].content| && x.modified == files[p].modified
  }

  lemma ListsSorted(files: Files, root: Path, start: Path, s: seq<Object>)
    requires Lists(files, root, start, s)
    ensures SortedByKey(s)
  {
  }

  lemma ListsDescribe(files: Files, root: Path, start: Path, s: seq<Object>)
    requires Lists(files, root, start, s) && root != [] && forall p | p in files :: AllPlain(p)
    ensures forall x | x in s :: exists p | p in files && start <= p :: Describes(files, root, x, p)
    ensures forall p | p in files && files[p].File? && start <= p :: exists x | x in s :: Describes(files, root, x, p)
  {
    hide Resolve, KeyOf, SortedByKey;
    forall x | x in s ensures exists p | p in files && start <= p :: Describes(files, root, x, p) {
      var p :| p in FilesUnder(files, start) && x == ObjectAt(files, root, p);
      KeyResolves(root, p);
      assert Describes(files, root, x, p);
    }
    forall p | p in files && files[p].File? && start <= p ensures exists x | x in s :: Describes(files, root, x, p) {
      assert p in FilesUnder(files, start);
      KeyResolves(root, p);
      assert Describes(files, root, ObjectAt(files, root, p), p);
    }
  }

  // ---- the store -------------------------------------------------------------------------

  /** The mounted tree; all stores of a bucket work on one of these. */
  class Volume {
    var files: Files
    var clock: nat

    constructor ()
      ensures files == map[] && clock == 0
    {
      files, clock := map[], 0;
    }
  }

  class MountStore {
    const root: Path
    const volume: Volume

    constructor (base: Path, prefix: Path, volume: Volume)
      ensures root == MountRoot(base, prefix) && this.volume == volume
    {
      this.root, this.volume := MountRoot(base, prefix), volume;
    }

    /** The root is a proper cleaned path and the tree is one. */
    ghost predicate Valid()
      reads volume
    {
      root != [] && AllPlain(root) && IsTree(volume.files) && forall p | p in volume.files :: AllPlain(p)
    }

    /** MkdirAll: false, and nothing made, when a file is in the way. */
    method MkdirAll(p: Path) returns (ok: bool)
      requires IsTree(volume.files)
      modifies volume`files
      ensures ok == !Blocked(old(volume.files), p)
      ensures volume.files == if ok then WithDirs(old(volume.files), p) else old(volume.files)
      ensures IsTree(volume.files)
    {
      hide IsTree, Made, FirstPrefixes;
      var blocked := IsBlocked(p);
      if blocked {
        return false;
      }
      ghost var before := volume.files;
      MadeNone(before, p);
      DirsAreATree(before, p);
      for i := 0 to |p| + 1
        invariant volume.files == Made(before, p, i)
      {
        MadeNext(before, p, i);
        if p[..i] !in volume.files {
          volume.files := volume.files[p[..i] := Dir];
        }
      }
      ok := true;
    }

    /** Whether a file is met on the way down to p. */
    method IsBlocked(p: Path) returns (blocked: bool)
      ensures blocked == Blocked(volume.files, p)
    {
      for i := 0 to |p| + 1
        invariant forall k | 0 <= k < i :: !(p[..k] in volume.files && volume.files[p[..k]].File?)
      {
        if p[..i] in volume.files && volume.files[p[..i]].File? {
          return true;
        }
      }
      blocked := false;
    }

    /** Put, on a volume that works. */
    method Put(key: string, content: string) returns (r: Result<(), Error>)
      requires Valid()
      modifies volume
      ensures Valid()
      ensures var p := Resolve(root, key);
              && (p.None? ==> r == Failure(Escapes) && volume.files == old(volume.files))
              && (p.Some? ==>
                    var stored := Stored(old(volume.files), p.value, content, old(volume.clock));
                    (r.Success? <==> stored.Some?) && (r.Failure? ==> r == Failure(Broken))
                    && volume.files == if stored.Some? then stored.value
                                       else if Blocked(old(volume.files), Parent(p.value)) then old(volume.files)
                                       else WithDirs(old(volume.files), Parent(p.value)))
      ensures var p := Resolve(root, key);
              p.Some? ==>
                && (r.Success? <==> WayIsClear(old(volume.files), p.value) && !(p.value in old(volume.files) && old(volume.files)[p.value] == Dir))
                && OnlyAdded(old(volume.files), volume.files, p.value)
                && (r.Success? ==>
                      && p.value in volume.files && volume.files[p.value] == File(content, old(volume.clock))
                      && volume.clock == old(volume.clock) + 1)
                && (r.Failure? ==> p.value in volume.files ==> p.value in old(volume.files) && volume.files[p.value] == old(volume.files)[p.value])
    {
      hide WayIsClear, OnlyAdded, Resolve, Blocked, WithDirs;
      ResolveStaysUnderRoot(root, key);
      var p := Resolve(root, key);
      if p.None? {
        return Failure(Escapes);
      }
      ghost var before := volume.files;
      WayOrBlocked(before, p.value);
      DirsOnlyAdd(before, p.value);
      AddedNothing(before, p.value);
      AddedFile(before, WithDirs(before, Parent(p.value)), p.value, File(content, volume.clock));
      var made := MkdirAll(Parent(p.value));
      if !made {
        return Failure(Broken);
      }
      DirsArePlain(before, p.value);
      if p.value in volume.files && volume.files[p.value] == Dir {
        return Failure(Broken);
      }
      FileIsATree(before, p.value, content, volume.clock);
      volume.files := volume.files[p.value := File(content, volume.clock)];
      volume.clock := volume.clock + 1;
      r := Success(());
    }

    method Get(key: string) returns (r: Result<string, Error>)
      requires Valid()
      ensures r == Fetched(volume.files, root, key)
    {
      var p := Resolve(root, key);
      if p.None? {
        return Failure(Escapes);
      }
      if p.value in volume.files {
        if volume.files[p.value].File? {
          return Success(volume.files[p.value].content);
        }
        return Failure(Broken);
      }
      if Blocked(volume.files, p.value) {
        return Failure(Broken);
      }
      r := Failure(NotFound);
    }

    /** List: the files under a prefix in key order; none when nothing is there. */
    method List(prefix: string) returns (r: Result<seq<Object>, Error>)
      requires Valid()
      ensures var start := Resolve(root, prefix);
              && (start.None? ==> r == Failure(Escapes))
              && (start.Some? ==> (r.Failure? <==> start.value !in volume.files && Blocked(volume.files, start.value)))
              && (start.Some? && r.Success? ==> Lists(volume.files, root, start.value, r.value))
      ensures var start := Resolve(root, prefix);
              start.Some? && r.Success? ==>
                && SortedByKey(r.value)
                && (forall x | x in r.value :: exists p | p in volume.files && start.value <= p :: Describes(volume.files, root, x, p))
                && (forall p | p in volume.files && volume.files[p].File? && start.value <= p ::
                      exists x | x in r.value :: Describes(volume.files, root, x, p))
    {
      hide Describes, Resolve, IsTree;
      ResolveStaysUnderRoot(root, prefix);
      var start := Resolve(root, prefix);
      if start.None? {
        return Failure(Escapes);
      }
      if start.value !in volume.files && Blocked(volume.files, start.value) {
        return Failure(Broken);
      }
      var out := Walk(start.value);
      ListsDescribe(volume.files, root, start.value, out);
      ListsSorted(volume.files, root, start.value, out);
      r := Success(out);
    }

    /** WalkDir and the sort of what it found. */
    method Walk(start: Path) returns (out: seq<Object>)
      requires Valid() && root <= start
      ensures Lists(volume.files, root, start, out)
    {
      hide Less, KeyOf, IsTree;
      out := [];
      ghost var done: set<Path> := {};
      var rest := volume.files.Keys;
      while rest != {}
        invariant rest <= volume.files.Keys && done == volume.files.Keys - rest
        invariant SortedByKey(out)
        invariant forall p | p in FilesUnder(volume.files, start) && p in done :: ObjectAt(volume.files, root, p) in out
        invariant forall x | x in out :: exists p | p in FilesUnder(volume.files, start) && p in done :: x == ObjectAt(volume.files, root, p)
        decreases |rest|
      {
        var p :| p in rest;
        if start <= p && volume.files[p].File? {
          var x := ObjectAt(volume.files, root, p);
          forall y | y in out ensures y.key != x.key {
            var q :| q in FilesUnder(volume.files, start) && q in done && y == ObjectAt(volume.files, root, q);
            KeysDiffer(root, p, q);
          }
          InsertKeepsSorted(x, out);
          out := InsertByKey(x, out);
        }
        rest, done := rest - {p}, done + {p};
      }
    }

    /** Delete: a missing object is a success, a directory with something in it is
        not. */
    method Delete(key: string) returns (r: Result<(), Error>)
      requires Valid()
      modifies volume`files
      ensures Valid()
      ensures var p := Resolve(root, key);
              if p.None? then r == Failure(Escapes) && volume.files == old(volume.files)
              else if Removable(old(volume.files), p.value) then r == Success(()) && volume.files == old(volume.files) - {p.value}
              else volume.files == old(volume.files) && (r.Success? <==> p.value !in old(volume.files) && !Blocked(old(volume.files), p.value))
      ensures var p := Resolve(root, key);
              p.Some? && p.value in old(volume.files) ==>
                if old(volume.files)[p.value].File? || forall q | q in old(volume.files) && q != [] :: Parent(q) != p.value then
                  r.Success? && volume.files == old(volume.files) - {p.value}
                else r == Failure(Broken) && volume.files == old(volume.files)
      ensures var p := Resolve(root, key);
              p.Some? && p.value !in old(volume.files) ==>
                volume.files == old(volume.files) && (r.Success? <==> WayIsClear(old(volume.files), p.value))
    {
      ClearOrBlocked(volume.files, Resolve(root, key));
      hide WayIsClear, Blocked;
      var p := Resolve(root, key);
      if p.None? {
        return Failure(Escapes);
      }
      if Removable(volume.files, p.value) {
        RemovedIsATree(volume.files, p.value);
        volume.files := volume.files - {p.value};
        return Success(());
      }
      if p.value in volume.files || Blocked(volume.files, p.value) {
        return Failure(Broken);
      }
      r := Success(());
    }
  }

  /** A file, or a directory with nothing in it. */
  predicate Removable(files: Files, p: Path) {
    p in files && (files[p].File? || forall q | q in files && q != [] :: Parent(q) != p)
  }

  // ---- isolation -------------------------------------------------------------------------

  /** The tree at or under a path. */
  ghost predicate SameUnder(before: Files, after: Files, root: Path) {
    forall p | root <= p :: (p in before <==> p in after) && (p in before ==> before[p] == after[p])
  }

  /** A store writes and deletes nothing at or under a path its object is not under. */
  lemma EffectsStayApart(files: Files, p: Path, other: Path, content: string, now: nat)
    requires !(other <= p)
    ensures SameUnder(files, WithDirs(files, Parent(p)), other)
    ensures Stored(files, p, content, now).Some? ==> SameUnder(files, Stored(files, p, content, now).value, other)
    ensures SameUnder(files, files - {p}, other)
  {
    var way := FirstPrefixes(Parent(p), |Parent(p)| + 1);
    forall q | q in way ensures q <= p && !(other <= q) {
      var k :| 0 <= k < |Parent(p)| + 1 && q == Parent(p)[..k];
      assert q == p[..k];
    }
  }

  /** Stores of two runs in one bucket do not see each other: whatever keys one is
      given, nothing at or under the other's root changes. */
  lemma RunsDoNotInterfere(base: Path, bucket: string, id1: string, id2: string, files: Files, key: string, content: string, now: nat)
    requires AllPlain(base) && Plain(id1) && Plain(id2) && id1 != id2
    requires Resolve(RunRoot(base, bucket, id1), key).Some?
    ensures var p := Resolve(RunRoot(base, bucket, id1), key).value;
            var other := RunRoot(base, bucket, id2);
            && SameUnder(files, WithDirs(files, Parent(p)), other)
            && (Stored(files, p, content, now).Some? ==> SameUnder(files, Stored(files, p, content, now).value, other))
            && SameUnder(files, files - {p}, other)
  {
    hide SameUnder, WithDirs, Stored;
    RunRootShape(base, bucket, id1);
    RunRootShape(base, bucket, id2);
    var at := |RootStem(base, bucket)| + 1;
    var r1, other := RunRoot(base, bucket, id1), RunRoot(base, bucket, id2);
    ResolveStaysUnderRoot(r1, key);
    var p := Resolve(r1, key).value;
    assert r1[at] == id1 && other[at] == id2 && p[at] == id1;
    EffectsStayApart(files, p, other, content, now);
  }

  // ---- put, delete and get ---------------------------------------------------------------

  /** What is put is what is got under every key of the same object. No other object's
      content appears, changes or goes; and nothing at all is different for a key whose
      path is neither above nor below. */
  lemma PutThenGet(files: Files, root: Path, key: string, content: string, now: nat, other: string)
    requires IsTree(files) && AllPlain(root) && root != []
    requires Resolve(root, key).Some? && Stored(files, Resolve(root, key).value, content, now).Some?
    ensures var p, o := Resolve(root, key), Resolve(root, other);
            var after := Stored(files, p.value, content, now).value;
            && (o == p ==> Fetched(after, root, other) == Success(content))
            && (o != p ==> forall c :: Fetched(after, root, other) == Success(c) <==> Fetched(files, root, other) == Success(c))
            && (o.Some? && !(o.value <= p.value) && !(p.value <= o.value) ==>
                  Fetched(after, root, other) == Fetched(files, root, other))
  {
    hide Collapse, Split, Render;
    ResolveStaysUnderRoot(root, key);
    var p := Resolve(root, key).value;
    var after := Stored(files, p, content, now).value;
    forall q | q in after && q !in files && q != p ensures after[q] == Dir && q <= p {
      StoredAdds(files, p, content, now, q);
    }
  }

  lemma StoredAdds(files: Files, p: Path, content: string, now: nat, q: Path)
    requires Stored(files, p, content, now).Some? && q in Stored(files, p, content, now).value && q !in files && q != p
    ensures Stored(files, p, content, now).value[q] == Dir && q <= p
  {
  }

  /** What is deleted is not found, and every other object is got as before. */
  lemma DeleteThenGet(files: Files, root: Path, key: string, other: string)
    requires IsTree(files) && AllPlain(root) && root != []
    requires Resolve(root, key).Some? && Resolve(root, key).value in files && files[Resolve(root, key).value].File?
    ensures var p, o := Resolve(root, key), Resolve(root, other);
            var after := files - {p.value};
            && Fetched(after, root, key) == Failure(NotFound)
            && (o.Some? && !(p.value <= o.value) ==> Fetched(after, root, other) == Fetched(files, root, other))
  {
    hide Resolve, Blocked, IsTree;
    var p := Resolve(root, key).value;
    UnblockedWithout(files, p);
    if Resolve(root, other).Some? && !(p <= Resolve(root, other).value) {
      BlockedElsewhere(files, p, Resolve(root, other).value);
    }
  }

  lemma UnblockedWithout(files: Files, p: Path)
    requires IsTree(files) && p in files
    ensures !Blocked(files - {p}, p)
  {
    assert p[..|p|] == p;
    NothingBlocks(files, p, |p|);
    hide IsTree;
    forall i | 0 <= i <= |p|
      ensures !(p[..i] in files - {p} && files[p[..i]].File?)
    {
    }
  }

  lemma BlockedElsewhere(files: Files, p: Path, q: Path)
    requires !(p <= q)
    ensures Blocked(files - {p}, q) == Blocked(files, q)
  {
    forall i | 0 <= i <= |q| ensures q[..i] != p {
    }
  }

  /** What is there is not behind a file. */
  lemma {:induction false} NothingBlocks(files: Files, p: Path, n: nat)
    requires IsTree(files) && n <= |p| && p[..n] in files
    ensures forall i | 0 <= i < n :: p[..i] in files && files[p[..i]] == Dir
    decreases n
  {
    if n > 0 {
      assert Parent(p[..n]) == p[..n - 1];
      NothingBlocks(files, p, n - 1);
    }
  }
}
