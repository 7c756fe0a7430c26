/** Writing a git tree to disk. The tree comes from outside: names may be anything, may
    repeat, and may try to lead out of the directory, directly or through a link that
    was written before. */
module Checkouts {
  import opened Strings
  import opened Options

  /** An absolute path without links, by its components. */
  type Path = seq<string>

  datatype FileNode = Directory | File(content: string, executable: bool) | Link(target: string)

  type Files = map<Path, FileNode>

  datatype Kind = Regular | Executable | Symlink

  /** Objects may be missing from the repository. */
  datatype Entry =
    | Submodule(name: string)
    | Blob(name: string, kind: Kind, content: Option<string>)
    | Subtree(name: string, entries: seq<Entry>)
    | MissingSubtree(name: string)

  /******* Paths *******/

  function Move(path: Path, part: string): Path {
    if part == "" || part == "." then path
    else if part == ".." then if path == [] then [] else path[..|path| - 1]
    else path + [part]
  }

  function Walk(path: Path, parts: seq<string>): Path
    decreases parts
  {
    if parts == [] then path else Walk(Move(path, parts[0]), parts[1..])
  }

  /** `safeJoin`: where a name leads from the root, if that is inside of it. */
  function SafeJoin(root: Path, name: string): Option<Path> {
    var dest := Walk(root, Split(name, '/'));
    if root <= dest then Some(dest) else None
  }

  function Joined(parts: seq<string>): string {
    if |parts| == 0 then ""
    else if |parts| == 1 then parts[0]
    else Joined(parts[..|parts| - 1]) + "/" + parts[|parts| - 1]
  }

  /** A name that is a single component. */
  predicate Plain(name: string) {
    name != "" && name != "." && name != ".." && '/' !in name
  }

  lemma {:induction false} WalkPlain(path: Path, parts: seq<string>)
    requires forall p :: p in parts ==> Plain(p)
    ensures Walk(path, parts) == path + parts
    decreases parts
  {
    if parts != [] {
      WalkPlain(path + [parts[0]], parts[1..]);
      assert path + [parts[0]] + parts[1..] == path + parts;
      assert Plain(parts[0]);
    }
  }

  lemma {:induction false} WalkJoin(path: Path, a: seq<string>, b: seq<string>)
    ensures Walk(path, a + b) == Walk(Walk(path, a), b)
    decreases a
  {
    if a == [] {
      assert a + b == b;
    } else {
      assert (a + b)[1..] == a[1..] + b;
      WalkJoin(Move(path, a[0]), a[1..], b);
    }
  }

  /** Empty components and dots lead nowhere, and two dots lead back: to where the component
      before them started, and never further up than the top. */
  lemma WalkDots(path: Path, a: seq<string>, name: string, b: seq<string>)
    requires Plain(name)
    ensures Walk(path, a + [""] + b) == Walk(path, a + b) == Walk(path, a + ["."] + b)
    ensures Walk(path, a + [name, ".."] + b) == Walk(path, a + b)
    ensures Walk([], [".."] + b) == Walk([], b)
  {
    var p := Walk(path, a);
    WalkJoin(path, a, b);
    WalkJoin(path, a + [""], b);
    WalkJoin(path, a, [""]);
    WalkJoin(path, a + ["."], b);
    WalkJoin(path, a, ["."]);
    WalkJoin(path, a + [name, ".."], b);
    WalkJoin(path, a, [name, ".."]);
    assert Walk(p, [name, ".."]) == Walk(p + [name], [name, ".."][1..]) == p;
    WalkJoin([], [".."], b);
  }

  lemma {:induction false} SplitLast(a: string, c: char, b: string)
    requires c !in b
    ensures Split(a + [c] + b, c) == Split(a, c) + [b]
  {
    if a == [] {
      SplitHead([], c, b);
      SplitWhole(b, c);
      assert [] + [c] + b == a + [c] + b;
    } else {
      var s := a + [c] + b;
      assert s[1..] == a[1..] + [c] + b;
      SplitLast(a[1..], c, b);
      assert (Split(a[1..], c) + [b])[1..] == Split(a[1..], c)[1..] + [b];
    }
  }

  lemma {:induction false} SplitJoined(parts: seq<string>)
    requires parts != [] && forall p :: p in parts ==> '/' !in p
    ensures Split(Joined(parts), '/') == parts
  {
    if |parts| == 1 {
      SplitWhole(parts[0], '/');
    } else {
      var init, last := parts[..|parts| - 1], parts[|parts| - 1];
      SplitJoined(init);
      SplitLast(Joined(init), '/', last);
      assert Joined(init) + "/" + last == Joined(init) + ['/'] + last;
    }
  }

  /** Plain components lead to where they say. */
  lemma PlainPath(root: Path, parts: seq<string>)
    requires parts != [] && forall p :: p in parts ==> Plain(p)
    ensures SafeJoin(root, Joined(parts)) == Some(root + parts)
  {
    SplitJoined(parts);
    WalkPlain(root, parts);
  }

  /******* Leaves *******/

  /** What a tree asks for: something at a path, or an object that is missing. */
  datatype Item = Leaf(name: string, node: Option<FileNode>) | Lost

  function NameIn(base: string, name: string): string {
    if base != "" then base + "/" + name else name
  }

  function NodeOf(kind: Kind, content: string): FileNode {
    match kind
    case Regular => File(content, false)
    case Executable => File(content, true)
    case Symlink => Link(content)
  }

  function LeafOf(name: string, kind: Kind, content: Option<string>): Item {
    Leaf(name, if content.Some? then Some(NodeOf(kind, content.value)) else None)
  }

  /** The tree has a blob at a path of names. */
  ghost predicate BlobAt(entries: seq<Entry>, q: Path, kind: Kind, content: Option<string>)
    decreases q
  {
    q != [] && exists i :: 0 <= i < |entries| && BlobIn(entries[i], q, kind, content)
  }

  ghost predicate BlobIn(e: Entry, q: Path, kind: Kind, content: Option<string>)
    requires q != []
    decreases q, 0
  {
    e.name == q[0] &&
    if |q| == 1 then e.Blob? && e.kind == kind && e.content == content
    else e.Subtree? && BlobAt(e.entries, q[1..], kind, content)
  }

  /** The tree has a subtree at a path of names that is not in the repository. */
  ghost predicate MissingAt(entries: seq<Entry>, q: Path)
    decreases q
  {
    q != [] && exists i :: 0 <= i < |entries| && MissingIn(entries[i], q)
  }

  ghost predicate MissingIn(e: Entry, q: Path)
    requires q != []
    decreases q, 0
  {
    e.name == q[0] && if |q| == 1 then e.MissingSubtree? else e.Subtree? && MissingAt(e.entries, q[1..])
  }

  /** Everything in the tree is in the repository. */
  ghost predicate Complete(entries: seq<Entry>) {
    && (forall q :: !MissingAt(entries, q))
    && (forall q, kind, content :: BlobAt(entries, q, kind, content) ==> content.Some?)
  }

  /** A blob is stored: a regular file, an executable one, or a link to what the blob says. */
  ghost predicate Stored(g: Files, p: Path, kind: Kind, content: string) {
    && p in g
    && (kind == Regular ==> g[p] == File(content, false))
    && (kind == Executable ==> g[p] == File(content, true))
    && (kind == Symlink ==> g[p] == Link(content))
  }

  /** The name of a path in the tree. */
  function NameOf(base: string, q: Path): string
    decreases q
  {
    if q == [] then base else NameOf(NameIn(base, q[0]), q[1..])
  }

  /** The leaves of a tree in the order of a walk over it. */
  ghost function Items(entries: seq<Entry>, base: string): seq<Item>
    decreases entries, 1
  {
    if entries == [] then [] else Items(entries[..|entries| - 1], base) + ItemsOf(entries[|entries| - 1], base)
  }

  ghost function ItemsOf(e: Entry, base: string): seq<Item>
    decreases e, 0
  {
    match e
    case Submodule(_) => []
    case Blob(name, kind, content) =>
      [LeafOf(NameIn(base, name), kind, content)]
    case Subtree(name, entries) => Items(entries, NameIn(base, name))
    case MissingSubtree(_) => [Lost]
  }

  /******* What a checkout does to the files *******/

  /** The directories between the root and a path. */
  ghost function Between(root: Path, path: Path): set<Path> {
    set k | |root| <= k < |path| :: path[..k]
  }

  ghost function WithDirs(files: Files, dirs: set<Path>): Files {
    files + map q | q in dirs :: Directory
  }

  ghost predicate DirsOrFree(files: Files, dirs: set<Path>) {
    forall q :: q in dirs && q in files ==> files[q].Directory?
  }

  ghost function Put(files: Files, root: Path, path: Path, node: FileNode): Files {
    WithDirs(files, Between(root, path))[path := node]
  }

  /** The path is free, and everything on the way to it is a directory or free. */
  ghost predicate Free(files: Files, root: Path, path: Path) {
    root < path && path !in files && DirsOrFree(files, Between(root, path))
  }

  ghost predicate CanPut(files: Files, root: Path, item: Item) {
    && item.Leaf? && item.node.Some? && !item.node.value.Directory?
    && SafeJoin(root, item.name).Some? && Free(files, root, SafeJoin(root, item.name).value)
  }

  ghost function PutItem(files: Files, root: Path, item: Item): Files {
    if CanPut(files, root, item) then Put(files, root, SafeJoin(root, item.name).value, item.node.value) else files
  }

  ghost function PutAll(files: Files, root: Path, items: seq<Item>): Files {
    if items == [] then files else PutItem(PutAll(files, root, items[..|items| - 1]), root, items[|items| - 1])
  }

  ghost predicate CanPutAll(files: Files, root: Path, items: seq<Item>) {
    items == [] ||
    (CanPutAll(files, root, items[..|items| - 1])
      && CanPut(PutAll(files, root, items[..|items| - 1]), root, items[|items| - 1]))
  }

  /** Everything outside of the root. */
  ghost function Outside(files: Files, root: Path): Files {
    map p | p in files && !(root <= p) :: files[p]
  }

  lemma {:induction false} PutAllJoin(files: Files, root: Path, a: seq<Item>, b: seq<Item>)
    ensures PutAll(files, root, a + b) == PutAll(PutAll(files, root, a), root, b)
    ensures CanPutAll(files, root, a + b) <==> CanPutAll(files, root, a) && CanPutAll(PutAll(files, root, a), root, b)
  {
    if b == [] {
      assert a + b == a;
    } else {
      var init := b[..|b| - 1];
      PutAllJoin(files, root, a, init);
      assert (a + b)[..|a + b| - 1] == a + init;
    }
  }

  /******* The file system *******/

  /** Everything on the way to the path is a directory, none of it a link. */
  ghost predicate Real(files: Files, path: Path) {
    forall k :: 0 <= k < |path| ==> path[..k] in files && files[path[..k]].Directory?
  }

  function Parent(path: Path): Path {
    if path == [] then [] else path[..|path| - 1]
  }

  /** The directories from the root down to the first n components of a path. */
  ghost function Down(path: Path, root: Path, n: nat): set<Path> {
    set k | |root| <= k <= n && k <= |path| :: path[..k]
  }

  lemma DownIs(path: Path, root: Path, n: nat)
    ensures forall q :: q in Down(path, root, n) <==> |root| <= |q| <= n && q <= path
  {
    assert forall q: Path :: q <= path ==> q == path[..|q|];
  }

  lemma DownMore(path: Path, root: Path, n: nat)
    requires |root| <= n < |path|
    ensures Down(path, root, n + 1) == Down(path, root, n) + {path[..n + 1]} && path[..n + 1] !in Down(path, root, n)
  {
    DownIs(path, root, n);
    DownIs(path, root, n + 1);
  }

  /** Going down to the first n components, making what is not there. */
  ghost function Descended(files: Files, root: Path, dir: Path, n: nat): Option<Files>
    requires n <= |dir|
  {
    if n <= |root| then Some(files) else Entered(Descended(files, root, dir, n - 1), dir[..n])
  }

  ghost function Entered(files: Option<Files>, q: Path): Option<Files> {
    match files
    case None => None
    case Some(fs) => if q !in fs then Some(fs[q := Directory]) else if fs[q].Directory? then Some(fs) else None
  }

  ghost function DirsMade(files: Files, dirs: set<Path>): Option<Files> {
    if DirsOrFree(files, dirs) then Some(WithDirs(files, dirs)) else None
  }

  lemma {:induction false} DescendedEarlier(files: Files, root: Path, dir: Path, n: nat)
    requires n <= |dir| && Descended(files, root, dir, |dir|).Some?
    ensures Descended(files, root, dir, n).Some?
    decreases |dir| - n
  {
    if n < |dir| {
      DescendedEarlier(files, root, dir, n + 1);
    }
  }

  /** It makes or finds directories, and does so inside of the root. */
  lemma {:induction false} DescendedFacts(files: Files, root: Path, dir: Path, n: nat)
    requires root <= dir && |root| <= n <= |dir| && Real(files, root) && root in files && files[root].Directory?
    requires Descended(files, root, dir, n).Some?
    ensures var fs := Descended(files, root, dir, n).value;
      && Outside(fs, root) == Outside(files, root)
      && dir[..n] in fs && fs[dir[..n]].Directory? && Real(fs, dir[..n])
      && (n < |dir| ==> Real(fs, dir[..n + 1]))
  {
    if n == |root| {
      assert dir[..n] == root;
    } else {
      DescendedFacts(files, root, dir, n - 1);
      var fs := Descended(files, root, dir, n - 1).value;
      OutsideKept(fs, root, dir[..n], Directory);
      assert dir[..n][..n - 1] == dir[..n - 1];
    }
    var fs := Descended(files, root, dir, n).value;
    if n < |dir| {
      var next := dir[..n + 1];
      forall k | 0 <= k < |next| ensures next[..k] in fs && fs[next[..k]].Directory? {
        assert next[..k] == dir[..k];
        assert k < n ==> dir[..n][..k] == dir[..k];
      }
    }
  }

  /** The root, and what is on the way from it to a directory. */
  ghost function Made(files: Files, root: Path, dir: Path): Option<Files> {
    if root in files && !files[root].Directory? then None else Descended(files[root := Directory], root, dir, |dir|)
  }

  lemma {:induction false} DescendedIs(files: Files, root: Path, dir: Path, n: nat)
    requires root <= dir && |root| <= n <= |dir| && (root in files ==> files[root].Directory?)
    ensures Descended(files[root := Directory], root, dir, n) == DirsMade(files, Down(dir, root, n))
  {
    if n == |root| {
      DownToRoot(dir, root);
      RootMade(files, root);
    } else {
      DescendedIs(files, root, dir, n - 1);
      DescendedNext(files, files[root := Directory], root, dir, n);
    }
  }

  lemma DescendedNext(files: Files, g: Files, root: Path, dir: Path, n: nat)
    requires |root| < n <= |dir| && Descended(g, root, dir, n - 1) == DirsMade(files, Down(dir, root, n - 1))
    ensures Descended(g, root, dir, n) == DirsMade(files, Down(dir, root, n))
  {
    var dirs, q := Down(dir, root, n - 1), dir[..n];
    DownMore(dir, root, n - 1);
    DirsMore(files, dirs, q);
    calc {
      Descended(g, root, dir, n);
      Entered(DirsMade(files, dirs), q);
      DirsMade(files, dirs + {q});
    }
  }

  lemma RootMade(files: Files, root: Path)
    requires root in files ==> files[root].Directory?
    ensures DirsMade(files, {root}) == Some(files[root := Directory])
  {
    assert WithDirs(files, {root}) == files[root := Directory];
  }

  lemma DownToRoot(dir: Path, root: Path)
    requires root <= dir
    ensures Down(dir, root, |root|) == {root}
  {
    DownIs(dir, root, |root|);
    assert forall q: Path :: q <= dir && |q| == |root| ==> q == root;
  }

  lemma DirsMore(files: Files, dirs: set<Path>, q: Path)
    requires q !in dirs
    ensures Entered(DirsMade(files, dirs), q) == DirsMade(files, dirs + {q})
  {
    if DirsOrFree(files, dirs) {
      var fs := WithDirs(files, dirs);
      assert q in fs <==> q in files;
      assert fs[q := Directory] == WithDirs(files, dirs + {q});
      assert q in fs && fs[q].Directory? ==> fs[q := Directory] == fs;
      assert q in dirs + {q};
    }
  }

  /** What is made for a path inside of the root. */
  lemma MadeIs(files: Files, root: Path, path: Path)
    requires root < path
    ensures Made(files, root, Parent(path)) == DirsMade(files, Between(root, path))
  {
    var dir := Parent(path);
    assert Between(root, path) == Down(dir, root, |dir|) by {
      DownIs(dir, root, |dir|);
      assert forall k :: 0 <= k < |path| ==> path[..k] == dir[..k];
      assert forall q: Path :: q <= dir ==> q == path[..|q|];
    }
    assert root == path[..|root|] && root in Between(root, path);
    if root in files ==> files[root].Directory? {
      DescendedIs(files, root, dir, |dir|);
    }
  }

  lemma OutsideKept(files: Files, root: Path, path: Path, node: FileNode)
    requires root <= path
    ensures Outside(files[path := node], root) == Outside(files, root)
  {
  }

  class FileSystem {
    /** Neither does the context end nor any operation fail for reasons of its own. */
    const reliable: bool
    var files: Files

    constructor (files: Files, reliable: bool)
      ensures this.files == files && this.reliable == reliable
    {
      this.files, this.reliable := files, reliable;
    }

    method Fault() returns (fault: bool)
      ensures reliable ==> !fault
    {
      fault := *;
      fault := fault && !reliable;
    }

    method Mkdir(path: Path) returns (ok: bool)
      requires Real(files, path)
      modifies this
      ensures files == if ok then old(files)[path := Directory] else old(files)
      ensures ok ==> path !in old(files)
      ensures reliable && path !in old(files) ==> ok
    {
      var fault := Fault();
      if fault || path in files {
        return false;
      }
      files := files[path := Directory];
      return true;
    }

    /** Opens with `O_EXCL` and writes; what was there is never replaced. */
    method WriteNew(path: Path, node: FileNode) returns (ok: bool)
      requires Real(files, path)
      modifies this
      ensures ok ==> path !in old(files) && files == old(files)[path := node]
      ensures !ok ==>
        files == old(files) || (path !in old(files) && path in files && files == old(files)[path := files[path]])
      ensures reliable && path !in old(files) ==> ok
    {
      var fault := Fault();
      if fault || path in files {
        return false;
      }
      fault := Fault();
      var partial: FileNode := *;
      files := files[path := if fault then partial else node];
      return !fault;
    }

    /** `safeMkdirAll`, for the parent of a path inside of the root. */
    method SafeMkdirAll(root: Path, dir: Path) returns (ok: bool)
      requires Real(files, root) && (root <= dir || dir == Parent(root))
      modifies this
      ensures Outside(files, root) == Outside(old(files), root)
      ensures ok && root <= dir ==> Made(old(files), root, dir) == Some(files)
      ensures reliable && root <= dir && Made(old(files), root, dir).Some? ==> ok
      ensures ok && !(root <= dir) ==> root in files
    {
      OutsideKept(files, root, root, Directory);
      if root in files {
        ok := files[root].Directory?;
        assert ok ==> files[root := Directory] == files;
      } else {
        ok := Mkdir(root);
      }
      if !ok || !(root <= dir) {
        return;
      }
      ok := Descend(root, dir);
    }

    /** Goes down from the root component by component: a directory is entered or made,
        anything else refused. */
    method Descend(root: Path, dir: Path) returns (ok: bool)
      requires root <= dir && Real(files, root) && root in files && files[root].Directory?
      modifies this
      ensures Outside(files, root) == Outside(old(files), root)
      ensures ok ==> Descended(old(files), root, dir, |dir|) == Some(files)
      ensures reliable && Descended(old(files), root, dir, |dir|).Some? ==> ok
    {
      var rel := dir[|root|..];
      var current := root;
      for i := 0 to |rel|
        invariant current == dir[..|root| + i] && Descended(old(files), root, dir, |root| + i) == Some(files)
      {
        DescendedFacts(old(files), root, dir, |root| + i);
        if Descended(old(files), root, dir, |dir|).Some? {
          DescendedEarlier(old(files), root, dir, |root| + i + 1);
        }
        current := current + [rel[i]];
        assert current == dir[..|root| + i + 1];
        var fault := Fault();
        if fault {
          return false;
        }
        if current !in files {
          ok := Mkdir(current);
          if !ok {
            return;
          }
        } else if !files[current].Directory? {
          return false;
        }
      }
      DescendedFacts(old(files), root, dir, |dir|);
      ok := true;
    }


    /** One file or link. */
    method WriteLeaf(root: Path, name: string, kind: Kind, content: Option<string>) returns (ok: bool)
      requires Real(files, root)
      modifies this
      ensures Outside(files, root) == Outside(old(files), root)
      ensures ok ==> CanPut(old(files), root, LeafOf(name, kind, content))
      ensures ok ==> files == PutItem(old(files), root, LeafOf(name, kind, content))
      ensures ok ==> content.Some? && var dest := SafeJoin(root, name);
        dest.Some? && dest.value !in old(files) && Stored(files, dest.value, kind, content.value)
      ensures reliable && CanPut(old(files), root, LeafOf(name, kind, content)) ==> ok
    {
      var joined := SafeJoin(root, name);
      if joined.None? {
        return false;
      }
      var dest := joined.value;
      if root < dest {
        MadeIs(files, root, dest);
      } else {
        assert |root| == |dest| && dest == root;
      }
      ok := SafeMkdirAll(root, Parent(dest));
      RealKept(old(files), files, root);
      if !ok || content.None? {
        return false;
      }
      if root < dest {
        MadeReal(old(files), root, dest);
      }
      ghost var mid := files;
      ok := WriteNew(dest, NodeOf(kind, content.value));
      if dest in files {
        OutsideKept(mid, root, dest, files[dest]);
      }
    }

    /** `writeTreeEntries`. */
    method WriteTreeEntries(root: Path, entries: seq<Entry>, base: string) returns (ok: bool)
      requires Real(files, root)
      modifies this
      ensures Outside(files, root) == Outside(old(files), root)
      ensures ok ==>
        CanPutAll(old(files), root, Items(entries, base)) && files == PutAll(old(files), root, Items(entries, base))
      ensures reliable && CanPutAll(old(files), root, Items(entries, base)) ==> ok
      decreases entries
    {
      for i := 0 to |entries|
        invariant Outside(files, root) == Outside(old(files), root)
        invariant CanPutAll(old(files), root, Items(entries[..i], base))
        invariant files == PutAll(old(files), root, Items(entries[..i], base))
      {
        ItemsNext(old(files), root, entries, base, i);
        RealKept(old(files), files, root);
        ok := WriteEntry(root, entries[i], base);
        if !ok {
          return;
        }
      }
      assert entries[..|entries|] == entries;
      ok := true;
    }

    method WriteEntry(root: Path, e: Entry, base: string) returns (ok: bool)
      requires Real(files, root)
      modifies this
      ensures Outside(files, root) == Outside(old(files), root)
      ensures ok ==>
        CanPutAll(old(files), root, ItemsOf(e, base)) && files == PutAll(old(files), root, ItemsOf(e, base))
      ensures reliable && CanPutAll(old(files), root, ItemsOf(e, base)) ==> ok
      decreases e
    {
      var cancelled := Fault();
      if cancelled {
        return false;
      }
      match e
      case Submodule(_) => ok := true;
      case MissingSubtree(_) => OneItem(files, root, Lost); ok := false;
      case Subtree(name, entries) => ok := WriteTreeEntries(root, entries, NameIn(base, name));
      case Blob(name, kind, content) =>
        OneItem(files, root, LeafOf(NameIn(base, name), kind, content));
        ok := WriteLeaf(root, NameIn(base, name), kind, content);
    }
  }

  lemma RealKept(f: Files, g: Files, root: Path)
    requires Real(f, root) && Outside(f, root) == Outside(g, root)
    ensures Real(g, root)
  {
    forall k | 0 <= k < |root| ensures root[..k] in g && g[root[..k]].Directory? {
      assert root[..k] in Outside(f, root);
      assert root[..k] in Outside(g, root);
    }
  }

  lemma MadeReal(files: Files, root: Path, dest: Path)
    requires root < dest && Real(files, root) && Made(files, root, Parent(dest)).Some?
    ensures Real(Made(files, root, Parent(dest)).value, dest)
  {
    var dir := Parent(dest);
    OutsideKept(files, root, root, Directory);
    RealKept(files, files[root := Directory], root);
    DescendedFacts(files[root := Directory], root, dir, |dir|);
    var fs := Made(files, root, dir).value;
    assert dir[..|dir|] == dir;
    forall k | 0 <= k < |dest| ensures dest[..k] in fs && fs[dest[..k]].Directory? {
      assert dest[..k] == dir[..k];
    }
  }

  lemma OneItem(files: Files, root: Path, item: Item)
    ensures CanPutAll(files, root, [item]) <==> CanPut(files, root, item)
    ensures PutAll(files, root, [item]) == PutItem(files, root, item)
  {
    assert [item][..0] == [];
  }

  lemma ItemsNext(files: Files, root: Path, entries: seq<Entry>, base: string, i: nat)
    requires i < |entries|
    ensures var a, b := Items(entries[..i], base), ItemsOf(entries[i], base);
      && (CanPutAll(files, root, Items(entries[..i + 1], base)) <==>
           CanPutAll(files, root, a) && CanPutAll(PutAll(files, root, a), root, b))
      && PutAll(files, root, Items(entries[..i + 1], base)) == PutAll(PutAll(files, root, a), root, b)
    ensures CanPutAll(files, root, Items(entries, base)) ==> CanPutAll(files, root, Items(entries[..i + 1], base))
  {
    assert entries[..i + 1][..i] == entries[..i];
    PutAllJoin(files, root, Items(entries[..i], base), ItemsOf(entries[i], base));
    CanPutPrefix(files, root, entries, base, i + 1);
  }

  lemma {:induction false} CanPutPrefix(files: Files, root: Path, entries: seq<Entry>, base: string, i: nat)
    requires i <= |entries|
    ensures CanPutAll(files, root, Items(entries, base)) ==> CanPutAll(files, root, Items(entries[..i], base))
    decreases |entries| - i
  {
    if i == |entries| {
      assert entries[..i] == entries;
    } else {
      CanPutPrefix(files, root, entries, base, i + 1);
      assert entries[..i + 1][..i] == entries[..i];
      PutAllJoin(files, root, Items(entries[..i], base), ItemsOf(entries[i], base));
    }
  }

  /******* Checkout is flattening *******/

  /** A directory that is new or empty, with no link on the way to it. */
  ghost predicate Fresh(files: Files, root: Path) {
    Real(files, root) && (root in files ==> files[root].Directory?) && forall p :: p in files ==> !(root < p)
  }

  /** Something that is available, for a place inside of the root. */
  ghost predicate Good(root: Path, item: Item) {
    && item.Leaf? && item.node.Some? && !item.node.value.Directory?
    && SafeJoin(root, item.name).Some? && root < SafeJoin(root, item.name).value
  }

  ghost function Dest(root: Path, item: Item): Path {
    if Good(root, item) then SafeJoin(root, item.name).value else root
  }

  /** No path twice, and none through another. */
  ghost predicate Compatible(root: Path, items: seq<Item>) {
    && (forall i :: 0 <= i < |items| ==> Good(root, items[i]))
    && (forall i, j :: 0 <= i < j < |items| ==> Apart(Dest(root, items[i]), Dest(root, items[j])))
  }

  ghost predicate Apart(p: Path, q: Path) {
    !(p <= q) && !(q <= p)
  }

  lemma CompatibleSnoc(root: Path, items: seq<Item>, item: Item)
    ensures Compatible(root, items + [item]) <==>
      && Compatible(root, items) && Good(root, item)
      && forall i :: 0 <= i < |items| ==> Apart(Dest(root, items[i]), Dest(root, item))
  {
    var all := items + [item];
    assert all[|items|] == item;
    assert forall i :: 0 <= i < |items| ==> all[i] == items[i];
  }

  ghost function At(files: Files, p: Path): Option<FileNode> {
    if p in files then Some(files[p]) else None
  }

  lemma BetweenIs(root: Path, path: Path)
    requires root <= path
    ensures forall q :: q in Between(root, path) <==> root <= q && q < path
  {
    forall q | q in Between(root, path) ensures root <= q && q < path {
      assert q == path[..|q|];
    }
    assert forall q: Path :: q < path ==> q == path[..|q|];
  }

  lemma PutAt(g: Files, root: Path, d: Path, node: FileNode, p: Path)
    requires root < d
    ensures At(Put(g, root, d, node), p) ==
      if p == d then Some(node) else if root <= p && p < d then Some(Directory) else At(g, p)
  {
    BetweenIs(root, d);
  }

  /** The leaf that is at a path, or the directory on the way to one, by the latest. */
  ghost function Expected(files: Files, root: Path, items: seq<Item>, p: Path): Option<FileNode> {
    if items == [] then At(files, p) else
      var last := items[|items| - 1];
      if Good(root, last) && p == Dest(root, last) then last.node
      else if Good(root, last) && root <= p && p < Dest(root, last) then Some(Directory)
      else Expected(files, root, items[..|items| - 1], p)
  }

  /** Where nothing is. */
  lemma {:induction false} ExpectedNone(files: Files, root: Path, items: seq<Item>, p: Path)
    requires Fresh(files, root) && root < p && Compatible(root, items)
    ensures Expected(files, root, items, p).None? <==> forall i :: 0 <= i < |items| ==> !(p <= Dest(root, items[i]))
  {
    if items != [] {
      var init, last := items[..|items| - 1], items[|items| - 1];
      CompatibleSnoc(root, init, last);
      assert items == init + [last];
      ExpectedNone(files, root, init, p);
      var d := Dest(root, last);
      assert p <= d <==> p == d || p < d;
      assert forall i :: 0 <= i < |init| ==> items[i] == init[i];
    }
  }

  /** Where something is that is not a directory. */
  lemma {:induction false} ExpectedLeaf(files: Files, root: Path, items: seq<Item>, p: Path)
    requires Fresh(files, root) && root <= p && Compatible(root, items)
    ensures forall i :: 0 <= i < |items| && p == Dest(root, items[i]) ==>
      Expected(files, root, items, p) == items[i].node
    ensures (forall i :: 0 <= i < |items| ==> p != Dest(root, items[i])) ==>
      Expected(files, root, items, p).None? || Expected(files, root, items, p) == Some(Directory)
  {
    if items == [] {
      assert p in files ==> p == root;
    } else {
      var init, last := items[..|items| - 1], items[|items| - 1];
      CompatibleSnoc(root, init, last);
      assert items == init + [last];
      ExpectedLeaf(files, root, init, p);
      assert forall i :: 0 <= i < |init| ==> items[i] == init[i];
    }
  }

  lemma {:induction false} PutAllAt(files: Files, root: Path, items: seq<Item>, p: Path)
    requires CanPutAll(files, root, items)
    ensures At(PutAll(files, root, items), p) == Expected(files, root, items, p)
  {
    if items != [] {
      var init, last := items[..|items| - 1], items[|items| - 1];
      PutAllAt(files, root, init, p);
      PutAt(PutAll(files, root, init), root, Dest(root, last), last.node.value, p);
    }
  }

  /** If the next item can be written, it is apart from the others. */
  lemma FitsThenApart(files: Files, root: Path, items: seq<Item>, item: Item, i: nat)
    requires Fresh(files, root) && Compatible(root, items) && CanPutAll(files, root, items) && i < |items|
    requires CanPut(PutAll(files, root, items), root, item)
    ensures Apart(Dest(root, items[i]), Dest(root, item))
  {
    var g, d, e := PutAll(files, root, items), Dest(root, item), Dest(root, items[i]);
    PutAllAt(files, root, items, e);
    ExpectedLeaf(files, root, items, e);
    PutAllAt(files, root, items, d);
    ExpectedNone(files, root, items, d);
    BetweenIs(root, d);
    assert e <= d ==> e == d || e < d;
    assert e < d ==> e in Between(root, d);
  }

  lemma ApartThenFits(files: Files, root: Path, items: seq<Item>, item: Item)
    requires Fresh(files, root) && Compatible(root, items) && CanPutAll(files, root, items) && Good(root, item)
    requires forall i :: 0 <= i < |items| ==> Apart(Dest(root, items[i]), Dest(root, item))
    ensures CanPut(PutAll(files, root, items), root, item)
  {
    var g, d := PutAll(files, root, items), Dest(root, item);
    PutAllAt(files, root, items, d);
    ExpectedNone(files, root, items, d);
    BetweenIs(root, d);
    forall q | q in Between(root, d) && q in g ensures g[q].Directory? {
      PutAllAt(files, root, items, q);
      ExpectedLeaf(files, root, items, q);
    }
  }

  /** Into a fresh directory, a list of leaves can be written exactly if all of them are
      available, lead into the directory, and no path is, or goes through, another. */
  lemma {:induction false} CheckoutSucceeds(files: Files, root: Path, items: seq<Item>)
    requires Fresh(files, root)
    ensures CanPutAll(files, root, items) <==> Compatible(root, items)
  {
    if items != [] {
      var init, last := items[..|items| - 1], items[|items| - 1];
      CheckoutSucceeds(files, root, init);
      assert items == init + [last];
      CompatibleSnoc(root, init, last);
      if CanPutAll(files, root, items) {
        forall i | 0 <= i < |init| ensures Apart(Dest(root, init[i]), Dest(root, last)) {
          FitsThenApart(files, root, init, last, i);
        }
      }
      if Compatible(root, items) {
        ApartThenFits(files, root, init, last);
      }
    }
  }

  /** Checkout equals flattening: then the leaves are at their places, what is on the way
      to one is a directory, and everything else is as before. */
  lemma CheckoutFlattens(files: Files, root: Path, items: seq<Item>, p: Path)
    requires Fresh(files, root) && Compatible(root, items)
    ensures var g := PutAll(files, root, items);
      && (forall i :: 0 <= i < |items| && p == Dest(root, items[i]) ==> At(g, p) == items[i].node)
      && ((exists i :: 0 <= i < |items| && root <= p && p < Dest(root, items[i])) ==> At(g, p) == Some(Directory))
      && ((forall i :: 0 <= i < |items| ==> !(root <= p && p <= Dest(root, items[i]))) ==> At(g, p) == At(files, p))
  {
    CheckoutSucceeds(files, root, items);
    PutAllAt(files, root, items, p);
    if root <= p {
      ExpectedLeaf(files, root, items, p);
    }
    ExpectedOther(files, root, items, p);
  }

  lemma {:induction false} ExpectedOther(files: Files, root: Path, items: seq<Item>, p: Path)
    requires Compatible(root, items)
    ensures (exists i :: 0 <= i < |items| && root <= p && p < Dest(root, items[i])) ==>
      Expected(files, root, items, p) == Some(Directory)
    ensures (forall i :: 0 <= i < |items| ==> !(root <= p && p <= Dest(root, items[i]))) ==>
      Expected(files, root, items, p) == At(files, p)
  {
    if items != [] {
      var init, last := items[..|items| - 1], items[|items| - 1];
      CompatibleSnoc(root, init, last);
      assert items == init + [last];
      ExpectedOther(files, root, init, p);
      assert forall i :: 0 <= i < |init| ==> items[i] == init[i];
    }
  }

  /******* Whole checkouts *******/

  lemma {:induction false} ItemsHas(entries: seq<Entry>, base: string, i: nat, item: Item)
    requires i < |entries| && item in ItemsOf(entries[i], base)
    ensures item in Items(entries, base)
  {
    if i < |entries| - 1 {
      ItemsHas(entries[..|entries| - 1], base, i, item);
    }
  }

  /** Every blob, and every missing subtree, is among the items. */
  lemma {:induction false} BlobListed(entries: seq<Entry>, base: string, q: Path, kind: Kind, content: Option<string>)
    requires BlobAt(entries, q, kind, content)
    ensures LeafOf(NameOf(base, q), kind, content) in Items(entries, base)
    decreases q
  {
    var i :| 0 <= i < |entries| && BlobIn(entries[i], q, kind, content);
    var item := LeafOf(NameOf(base, q), kind, content);
    if |q| > 1 {
      BlobListed(entries[i].entries, NameIn(base, q[0]), q[1..], kind, content);
    } else {
      assert NameOf(NameIn(base, q[0]), q[1..]) == NameIn(base, q[0]);
      assert item == LeafOf(NameIn(base, q[0]), kind, content);
      assert ItemsOf(entries[i], base) == [item];
    }
    assert item in ItemsOf(entries[i], base);
    ItemsHas(entries, base, i, item);
  }

  lemma {:induction false} MissingListed(entries: seq<Entry>, base: string, q: Path)
    requires MissingAt(entries, q)
    ensures Lost in Items(entries, base)
    decreases q
  {
    var i :| 0 <= i < |entries| && MissingIn(entries[i], q);
    if |q| > 1 {
      MissingListed(entries[i].entries, NameIn(base, q[0]), q[1..]);
    }
    ItemsHas(entries, base, i, Lost);
  }

  /** An item comes from a blob, or from a missing subtree. */
  ghost predicate ItemFrom(entries: seq<Entry>, base: string, item: Item, q: Path, kind: Kind,
                           content: Option<string>) {
    match item
    case Lost => MissingAt(entries, q)
    case Leaf(_, _) => BlobAt(entries, q, kind, content) && item == LeafOf(NameOf(base, q), kind, content)
  }

  lemma {:induction false} ItemSource(entries: seq<Entry>, base: string, item: Item)
    returns (q: Path, kind: Kind, content: Option<string>)
    requires item in Items(entries, base)
    ensures ItemFrom(entries, base, item, q, kind, content)
    decreases entries, 1
  {
    var init, last := entries[..|entries| - 1], entries[|entries| - 1];
    if item in Items(init, base) {
      q, kind, content := ItemSource(init, base, item);
      assert forall i :: 0 <= i < |init| ==> init[i] == entries[i];
    } else {
      q, kind, content := EntrySource(last, base, item);
      if item.Lost? {
        assert MissingIn(entries[|entries| - 1], q);
      } else {
        assert BlobIn(entries[|entries| - 1], q, kind, content);
      }
    }
  }

  lemma {:induction false} EntrySource(e: Entry, base: string, item: Item)
    returns (q: Path, kind: Kind, content: Option<string>)
    requires item in ItemsOf(e, base)
    ensures q != [] && if item.Lost? then MissingIn(e, q) else
      BlobIn(e, q, kind, content) && item == LeafOf(NameOf(base, q), kind, content)
    decreases e, 0
  {
    match e
    case Blob(name, k, c) =>
      q, kind, content := [name], k, c;
    case MissingSubtree(name) =>
      q, kind, content := [name], Regular, None;
    case Subtree(name, entries) =>
      q, kind, content := ItemSource(entries, NameIn(base, name), item);
      q := [name] + q;
      assert q[1..] == q[1..];
  }

  lemma CompleteAvailable(entries: seq<Entry>, base: string)
    ensures Complete(entries) <==> Available(Items(entries, base))
  {
    var items := Items(entries, base);
    if Complete(entries) {
      forall i | 0 <= i < |items| ensures items[i].Leaf? && items[i].node.Some? && !items[i].node.value.Directory? {
        var q, kind, content := ItemSource(entries, base, items[i]);
      }
    }
    if Available(items) {
      forall q ensures !MissingAt(entries, q) {
        if MissingAt(entries, q) {
          MissingListed(entries, base, q);
        }
      }
      forall q, kind, content | BlobAt(entries, q, kind, content) ensures content.Some? {
        BlobListed(entries, base, q, kind, content);
      }
    }
  }

  /** Where a path in the tree leads, from the root. */
  function Place(root: Path, q: Path): Option<Path> {
    SafeJoin(root, NameOf("", q))
  }

  /** The blobs of a tree are stored where their names lead, what is on the way to one is a
      directory, and nothing else is below the root. */
  ghost predicate CheckedOut(entries: seq<Entry>, root: Path, g: Files) {
    && Complete(entries)
    && (forall q, kind, content :: BlobAt(entries, q, kind, content) ==>
          StoredAt(root, Place(root, q), kind, content, g))
    && (forall p :: p in g && root < p ==> OnTheWay(entries, root, p))
  }

  /** A path is, or is on the way to, where a blob's name leads. */
  ghost predicate OnTheWay(entries: seq<Entry>, root: Path, p: Path) {
    exists q, kind, content :: BlobAt(entries, q, kind, content) && Through(p, Place(root, q))
  }

  ghost predicate Through(p: Path, place: Option<Path>) {
    place.Some? && p <= place.value
  }

  ghost predicate StoredAt(root: Path, place: Option<Path>, kind: Kind, content: Option<string>, g: Files) {
    place.Some? && BlobStored(root, place.value, kind, content, g)
  }

  ghost predicate BlobStored(root: Path, dest: Path, kind: Kind, content: Option<string>, g: Files) {
    && root < dest && content.Some? && Stored(g, dest, kind, content.value)
    && forall p :: root <= p && p < dest ==> p in g && g[p].Directory?
  }

  lemma BlobWritten(files: Files, entries: seq<Entry>, root: Path, q: Path, kind: Kind, content: Option<string>)
    requires Fresh(files, root) && Compatible(root, Items(entries, "")) && BlobAt(entries, q, kind, content)
    ensures StoredAt(root, Place(root, q), kind, content, PutAll(files, root, Items(entries, "")))
  {
    var items, item := Items(entries, ""), LeafOf(NameOf("", q), kind, content);
    BlobListed(entries, "", q, kind, content);
    var i :| 0 <= i < |items| && items[i] == item;
    var g, dest := PutAll(files, root, items), Dest(root, items[i]);
    CheckoutFlattens(files, root, items, dest);
    forall p | root <= p && p < dest ensures p in g && g[p].Directory? {
      CheckoutFlattens(files, root, items, p);
    }
  }

  lemma NothingElse(files: Files, entries: seq<Entry>, root: Path, p: Path)
    requires Fresh(files, root) && Compatible(root, Items(entries, "")) && root < p
    requires p in PutAll(files, root, Items(entries, ""))
    ensures OnTheWay(entries, root, p)
  {
    var items := Items(entries, "");
    CheckoutSucceeds(files, root, items);
    PutAllAt(files, root, items, p);
    ExpectedNone(files, root, items, p);
    var i :| 0 <= i < |items| && p <= Dest(root, items[i]);
    var q, kind, content := ItemSource(entries, "", items[i]);
    assert Through(p, Place(root, q));
  }

  lemma TreeWritten(files: Files, entries: seq<Entry>, root: Path)
    requires Fresh(files, root) && Compatible(root, Items(entries, ""))
    ensures CheckedOut(entries, root, PutAll(files, root, Items(entries, "")))
  {
    var items := Items(entries, "");
    var g := PutAll(files, root, items);
    assert Complete(entries) by {
      assert forall i :: 0 <= i < |items| ==> Good(root, items[i]);
      CompleteAvailable(entries, "");
    }
    forall q, kind, content | BlobAt(entries, q, kind, content)
      ensures StoredAt(root, Place(root, q), kind, content, g)
    {
      BlobWritten(files, entries, root, q, kind, content);
    }
    forall p | p in g && root < p ensures OnTheWay(entries, root, p) {
      NothingElse(files, entries, root, p);
    }
  }

  /** `writeTree` into a fresh directory: it succeeds exactly if the leaves of the tree are
      compatible, and has then stored its blobs where their names lead, and nothing else;
      whatever happens, nothing outside of the directory changes. */
  method WriteTree(fs: FileSystem, entries: seq<Entry>, root: Path) returns (ok: bool)
    requires Fresh(fs.files, root)
    modifies fs
    ensures ok ==> Compatible(root, Items(entries, "")) && fs.files == PutAll(old(fs.files), root, Items(entries, ""))
    ensures ok ==> CheckedOut(entries, root, fs.files)
    ensures fs.reliable && Compatible(root, Items(entries, "")) ==> ok
    ensures Outside(fs.files, root) == Outside(old(fs.files), root)
  {
    CheckoutSucceeds(fs.files, root, Items(entries, ""));
    ok := fs.WriteTreeEntries(root, entries, "");
    if ok {
      TreeWritten(old(fs.files), entries, root);
    }
  }

  /** A checkout that fails is removed again, and has then left no trace. */
  method Checkout(fs: FileSystem, entries: seq<Entry>, root: Path) returns (ok: bool)
    requires Fresh(fs.files, root) && root !in fs.files
    modifies fs
    ensures ok ==> CheckedOut(entries, root, fs.files) && Outside(fs.files, root) == Outside(old(fs.files), root)
    ensures fs.reliable && Compatible(root, Items(entries, "")) ==> ok
    ensures !ok ==> fs.files == old(fs.files)
  {
    ok := WriteTree(fs, entries, root);
    if !ok {
      fs.files := map p | p in fs.files && !(root <= p) :: fs.files[p];
      assert fs.files == Outside(old(fs.files), root);
      NothingInside(old(fs.files), root);
    }
  }

  lemma NothingInside(files: Files, root: Path)
    requires Fresh(files, root) && root !in files
    ensures Outside(files, root) == files
  {
    forall p | p in files ensures !(root <= p) {
      assert root <= p ==> root == p || root < p;
    }
  }

  /******* Trees with plain names *******/

  ghost predicate PlainTree(entries: seq<Entry>)
    decreases entries, 1
  {
    forall i :: 0 <= i < |entries| ==> PlainEntry(entries[i])
  }

  ghost predicate PlainEntry(e: Entry)
    decreases e, 0
  {
    Plain(e.name) && (e.Subtree? ==> PlainTree(e.entries))
  }

  /** The components of the leaves' paths, in the order of `Items`. */
  ghost function Paths(entries: seq<Entry>, base: Path): seq<Path>
    decreases entries, 1
  {
    if entries == [] then [] else Paths(entries[..|entries| - 1], base) + PathsOf(entries[|entries| - 1], base)
  }

  ghost function PathsOf(e: Entry, base: Path): seq<Path>
    decreases e, 0
  {
    match e
    case Submodule(_) => []
    case Blob(name, _, _) => [base + [name]]
    case Subtree(name, entries) => Paths(entries, base + [name])
    case MissingSubtree(name) => [base + [name]]
  }

  /** The items lead to the paths. */
  ghost predicate LeadTo(root: Path, items: seq<Item>, paths: seq<Path>) {
    |items| == |paths| && forall i :: 0 <= i < |items| && items[i].Leaf? ==>
      SafeJoin(root, items[i].name) == Some(root + paths[i])
  }

  ghost predicate AllPlain(parts: seq<string>) {
    forall p :: p in parts ==> Plain(p)
  }

  lemma JoinedSnoc(base: Path, name: string)
    requires AllPlain(base)
    ensures NameIn(Joined(base), name) == Joined(base + [name])
  {
    assert (base + [name])[..|base|] == base;
    if base != [] {
      JoinedNonEmpty(base);
    }
  }

  lemma {:induction false} JoinedNonEmpty(base: Path)
    requires base != [] && AllPlain(base)
    ensures Joined(base) != ""
  {
    if |base| == 1 {
      assert Plain(base[0]);
    }
  }

  /** With plain names, an entry is written below the entries it is in. */
  lemma {:induction false} PlainTreePaths(root: Path, entries: seq<Entry>, base: Path)
    requires PlainTree(entries) && AllPlain(base)
    ensures LeadTo(root, Items(entries, Joined(base)), Paths(entries, base))
    decreases entries, 1
  {
    if entries != [] {
      PlainTreePaths(root, entries[..|entries| - 1], base);
      PlainEntryPaths(root, entries[|entries| - 1], base);
    }
  }

  lemma {:induction false} PlainEntryPaths(root: Path, e: Entry, base: Path)
    requires PlainEntry(e) && AllPlain(base)
    ensures LeadTo(root, ItemsOf(e, Joined(base)), PathsOf(e, base))
    decreases e, 0
  {
    JoinedSnoc(base, e.name);
    match e
    case Submodule(_) =>
    case MissingSubtree(_) =>
    case Blob(name, _, _) => PlainPath(root, base + [name]);
    case Subtree(name, entries) => PlainTreePaths(root, entries, base + [name]);
  }

  /** Everything that a tree asks for is available. */
  ghost predicate Available(items: seq<Item>) {
    forall i :: 0 <= i < |items| ==> items[i].Leaf? && items[i].node.Some? && !items[i].node.value.Directory?
  }

  /** No path twice, and none through another. */
  ghost predicate PathsApart(paths: seq<Path>) {
    forall i, j :: 0 <= i < j < |paths| ==> Apart(paths[i], paths[j])
  }

  /** The blobs of a tree are stored at their paths below the root, what is on the way to one
      is a directory, and nothing else is below the root. */
  ghost predicate Flattened(entries: seq<Entry>, root: Path, g: Files) {
    && (forall q, kind, content :: BlobAt(entries, q, kind, content) ==>
          StoredAt(root, Some(root + q), kind, content, g))
    && (forall p :: p in g && root < p ==> OnTheWayPlain(entries, root, p))
  }

  ghost predicate OnTheWayPlain(entries: seq<Entry>, root: Path, p: Path) {
    exists q, kind, content :: BlobAt(entries, q, kind, content) && Through(p, Some(root + q))
  }

  lemma PlainWay(entries: seq<Entry>, root: Path, p: Path)
    requires PlainTree(entries) && OnTheWay(entries, root, p)
    ensures OnTheWayPlain(entries, root, p)
  {
    var q, kind, content :| BlobAt(entries, q, kind, content) && Through(p, Place(root, q));
    PlainPlace(entries, root, q, kind, content);
    assert Through(p, Some(root + q));
  }

  /** With plain names, the paths in the tree lead to the same paths below the root. */
  lemma PlainPlace(entries: seq<Entry>, root: Path, q: Path, kind: Kind, content: Option<string>)
    requires PlainTree(entries) && BlobAt(entries, q, kind, content)
    ensures Place(root, q) == Some(root + q)
  {
    PlainBlob(entries, q, kind, content);
    PlainName([], q);
    assert [] + q == q;
    PlainPath(root, q);
  }

  lemma {:induction false} PlainBlob(entries: seq<Entry>, q: Path, kind: Kind, content: Option<string>)
    requires PlainTree(entries) && BlobAt(entries, q, kind, content)
    ensures AllPlain(q)
    decreases q
  {
    var i :| 0 <= i < |entries| && BlobIn(entries[i], q, kind, content);
    assert PlainEntry(entries[i]);
    assert q == [q[0]] + q[1..];
    if |q| > 1 {
      PlainBlob(entries[i].entries, q[1..], kind, content);
    }
  }

  lemma {:induction false} PlainName(base: Path, q: Path)
    requires AllPlain(base) && AllPlain(q)
    ensures NameOf(Joined(base), q) == Joined(base + q)
    decreases q
  {
    if q == [] {
      assert base + q == base;
    } else {
      JoinedSnoc(base, q[0]);
      PlainName(base + [q[0]], q[1..]);
      assert base + [q[0]] + q[1..] == base + q;
    }
  }

  lemma PlainCheckedOut(entries: seq<Entry>, root: Path, g: Files)
    requires PlainTree(entries) && CheckedOut(entries, root, g)
    ensures Flattened(entries, root, g)
  {
    forall q, kind, content | BlobAt(entries, q, kind, content)
      ensures StoredAt(root, Some(root + q), kind, content, g)
    {
      PlainPlace(entries, root, q, kind, content);
    }
    forall p | p in g && root < p ensures OnTheWayPlain(entries, root, p) {
      PlainWay(entries, root, p);
    }
  }

  /** Checkout equals flattening, for trees with plain names: `writeTree` into a fresh
      directory succeeds exactly if everything is available and the paths of the leaves in the
      tree are apart, and then exactly the blobs are at those paths, with their contents. */
  method WritePlainTree(fs: FileSystem, entries: seq<Entry>, root: Path) returns (ok: bool)
    requires Fresh(fs.files, root) && PlainTree(entries)
    modifies fs
    ensures ok ==> Complete(entries) && PathsApart(Paths(entries, []))
    ensures fs.reliable && Complete(entries) && PathsApart(Paths(entries, [])) ==> ok
    ensures ok ==> Flattened(entries, root, fs.files)
    ensures Outside(fs.files, root) == Outside(old(fs.files), root)
  {
    ghost var items, paths := Items(entries, ""), Paths(entries, []);
    PlainTreePaths(root, entries, []);
    PathsNonEmpty(entries, []);
    PlainCompatible(root, items, paths);
    CompleteAvailable(entries, "");
    ok := WriteTree(fs, entries, root);
    if ok {
      PlainCheckedOut(entries, root, fs.files);
    }
  }

  ghost predicate LongerThan(paths: seq<Path>, n: nat) {
    forall i :: 0 <= i < |paths| ==> |paths[i]| > n
  }

  lemma {:induction false} PathsNonEmpty(entries: seq<Entry>, base: Path)
    ensures LongerThan(Paths(entries, base), |base|)
    decreases entries, 1
  {
    if entries != [] {
      PathsNonEmpty(entries[..|entries| - 1], base);
      PathNonEmpty(entries[|entries| - 1], base);
    }
  }

  lemma {:induction false} PathNonEmpty(e: Entry, base: Path)
    ensures LongerThan(PathsOf(e, base), |base|)
    decreases e, 0
  {
    if e.Subtree? {
      PathsNonEmpty(e.entries, base + [e.name]);
    }
  }

  lemma BelowRoot(root: Path, p: Path, q: Path)
    ensures root + p <= root + q <==> p <= q
    ensures root < root + p <==> p != []
  {
    assert forall i :: 0 <= i < |p| ==> (root + p)[|root| + i] == p[i];
    assert forall i :: 0 <= i < |q| ==> (root + q)[|root| + i] == q[i];
    if root + p <= root + q {
      assert p == q[..|p|];
    }
    if p <= q {
      assert root + p == (root + q)[..|root + p|];
    }
  }

  /** In terms of the paths in the tree, leaves are compatible if they are apart. */
  lemma PlainCompatible(root: Path, items: seq<Item>, paths: seq<Path>)
    requires LeadTo(root, items, paths) && LongerThan(paths, 0)
    ensures Compatible(root, items) <==> Available(items) && PathsApart(paths)
    ensures Available(items) ==> forall i :: 0 <= i < |items| ==>
      Good(root, items[i]) && Dest(root, items[i]) == root + paths[i]
  {
    forall i | 0 <= i < |items| && items[i].Leaf? ensures root < root + paths[i] {
      BelowRoot(root, paths[i], []);
    }
    forall i, j | 0 <= i < j < |items| ensures Apart(paths[i], paths[j]) <==> Apart(root + paths[i], root + paths[j]) {
      BelowRoot(root, paths[i], paths[j]);
      BelowRoot(root, paths[j], paths[i]);
    }
  }
}
