/** Parent links of one owner's folders, and what reaching an ancestor through live rows means. */
module FolderTree {
  import opened Common

  type Id = nat

  datatype Folder = Folder(parent: Option<Id>, name: string, live: bool, version: int)

  type Tree = map<Id, Folder>

  predicate Live(t: Tree, id: Id) {
    id in t && t[id].live
  }

  /** `to` is n parent links above `id`, every row on the way live. */
  predicate Reaches(t: Tree, id: Id, to: Id, n: nat)
    decreases n
  {
    Live(t, id) && if n == 0 then id == to else t[id].parent.Some? && Reaches(t, t[id].parent.value, to, n - 1)
  }

  ghost predicate Descends(t: Tree, id: Id, from: Id) {
    exists n: nat :: Reaches(t, id, from, n)
  }

  /** The live folders form a tree: every one of them reaches the parentless root. */
  ghost predicate Rooted(t: Tree, root: Id) {
    && Live(t, root) && t[root].parent.None?
    && forall id :: Live(t, id) ==> Descends(t, id, root)
  }

  lemma Height(t: Tree, root: Id, id: Id) returns (n: nat)
    requires Rooted(t, root) && Live(t, id)
    ensures Reaches(t, id, root, n)
  {
    n :| Reaches(t, id, root, n);
  }

  lemma {:induction false} ReachesLive(t: Tree, id: Id, to: Id, n: nat)
    requires Reaches(t, id, to, n)
    ensures Live(t, to)
    decreases n
  {
    if n > 0 {
      ReachesLive(t, t[id].parent.value, to, n - 1);
    }
  }

  /** A folder has one parent, so the shorter of two climbs is the start of the longer. */
  lemma {:induction false} Deterministic(t: Tree, id: Id, a: Id, b: Id, m: nat, n: nat)
    requires Reaches(t, id, a, m) && Reaches(t, id, b, n) && m <= n
    ensures Reaches(t, a, b, n - m)
    decreases m
  {
    if m > 0 {
      Deterministic(t, t[id].parent.value, a, b, m - 1, n - 1);
    }
  }

  lemma {:induction false} NoCycle(t: Tree, root: Id, id: Id, n: nat, k: nat)
    requires root in t && t[root].parent.None? && Reaches(t, id, root, n) && k > 0
    ensures !Reaches(t, id, id, k)
    decreases n
  {
    if Reaches(t, id, id, k) {
      if n < k {
        Deterministic(t, id, root, id, n, k);
        assert false;
      } else {
        Deterministic(t, id, id, root, k, n);
        NoCycle(t, root, id, n - k, k);
      }
    }
  }

  /** Every live folder has exactly one depth. */
  lemma {:induction false} OneDepth(t: Tree, root: Id, id: Id, to: Id, m: nat, n: nat)
    requires Rooted(t, root) && Reaches(t, id, to, m) && Reaches(t, id, to, n)
    ensures m == n
  {
    ReachesLive(t, id, to, m);
    var d := Height(t, root, to);
    if m < n {
      Deterministic(t, id, to, to, m, n);
      NoCycle(t, root, to, d, n - m);
    } else if n < m {
      Deterministic(t, id, to, to, n, m);
      NoCycle(t, root, to, d, m - n);
    }
  }

  /** What Rooted says link by link: one root, and every other live folder under a live parent. */
  lemma RootedMeans(t: Tree, root: Id)
    requires Rooted(t, root)
    ensures forall id :: Live(t, id) && t[id].parent.None? ==> id == root
    ensures forall id :: Live(t, id) && t[id].parent.Some? ==> Live(t, t[id].parent.value) && t[id].parent.value != id
  {
    forall id | Live(t, id)
      ensures t[id].parent.None? ==> id == root
      ensures t[id].parent.Some? ==> Live(t, t[id].parent.value) && t[id].parent.value != id
    {
      var n := Height(t, root, id);
      if t[id].parent.Some? {
        if t[id].parent.value == id {
          assert Reaches(t, id, id, 1) by {
            assert Reaches(t, id, id, 0);
          }
          NoCycle(t, root, id, n, 1);
        }
        if n > 0 {
          assert Reaches(t, t[id].parent.value, root, n - 1);
        }
      }
    }
  }

  /** A climb that never starts from `f` does not notice a change of f's row that keeps it live. */
  lemma {:induction false} ClimbUnchanged(t: Tree, u: Tree, f: Id, id: Id, to: Id, n: nat)
    requires Reaches(t, id, to, n)
    requires forall x :: x in t && x != f ==> x in u && u[x] == t[x]
    requires forall k: nat :: k <= n ==> !Reaches(t, id, f, k)
    ensures Reaches(u, id, to, n)
    decreases n
  {
    assert !Reaches(t, id, f, 0);
    if n > 0 {
      forall k: nat | k <= n - 1
        ensures !Reaches(t, t[id].parent.value, f, k)
      {
        assert !Reaches(t, id, f, k + 1);
      }
      ClimbUnchanged(t, u, f, t[id].parent.value, to, n - 1);
    }
  }

  function Moved(t: Tree, f: Id, target: Id): Tree
    requires f in t
  {
    t[f := t[f].(parent := Some(target), version := t[f].version + 1)]
  }

  /** After the move a folder climbs as before until it meets `f`, and from there through the target. */
  lemma {:induction false} Reroute(t: Tree, root: Id, f: Id, target: Id, id: Id, n: nat, m: nat)
    requires f != root && Live(t, f) && Reaches(t, id, root, n) && Reaches(Moved(t, f, target), target, root, m)
    requires Live(t, root)
    ensures Descends(Moved(t, f, target), id, root)
    decreases n
  {
    var u := Moved(t, f, target);
    if id == f {
      assert Reaches(u, f, root, m + 1);
    } else if n == 0 {
      assert Reaches(u, root, root, 0);
    } else {
      Reroute(t, root, f, target, t[id].parent.value, n - 1, m);
      var k: nat :| Reaches(u, t[id].parent.value, root, k);
      assert Reaches(u, id, root, k + 1);
    }
  }

  /** The guard of a move is exact: outside f's subtree the result is a tree, inside it never is. */
  lemma MoveGuardIsExact(t: Tree, root: Id, f: Id, target: Id)
    requires Rooted(t, root) && Live(t, f) && f != root && Live(t, target)
    ensures Rooted(Moved(t, f, target), root) <==> !Descends(t, target, f)
  {
    var u := Moved(t, f, target);
    if Descends(t, target, f) {
      var n: nat :| Reaches(t, target, f, n);
      MovedCycles(t, root, f, target, n);
      if Rooted(u, root) {
        var d := Height(u, root, f);
        NoCycle(u, root, f, d, n + 1);
      }
    } else {
      var m := Height(t, root, target);
      ClimbUnchanged(t, u, f, target, root, m);
      forall id | Live(u, id)
        ensures Descends(u, id, root)
      {
        var n := Height(t, root, id);
        Reroute(t, root, f, target, id, n, m);
      }
    }
  }

  lemma MovedCycles(t: Tree, root: Id, f: Id, target: Id, n: nat)
    requires Rooted(t, root) && Live(t, f) && f != root && Reaches(t, target, f, n)
    ensures Reaches(Moved(t, f, target), f, f, n + 1)
  {
    ClimbTo(t, Moved(t, f, target), root, f, target, n);
  }

  lemma {:induction false} ClimbTo(t: Tree, u: Tree, root: Id, f: Id, id: Id, n: nat)
    requires Rooted(t, root) && Reaches(t, id, f, n) && Live(u, f)
    requires forall x :: x in t && x != f ==> x in u && u[x] == t[x]
    ensures Reaches(u, id, f, n)
    decreases n
  {
    if n > 0 {
      if id == f {
        assert Reaches(t, f, f, 0);
        OneDepth(t, root, f, f, 0, n);
      }
      ClimbTo(t, u, root, f, t[id].parent.value, n - 1);
    }
  }

  /** A new live folder under a live parent leaves a tree. */
  lemma GrowKeepsRooted(t: Tree, root: Id, id: Id, folder: Folder)
    requires Rooted(t, root) && id !in t
    requires folder.live && folder.parent.Some? && Live(t, folder.parent.value)
    ensures Rooted(t[id := folder], root)
  {
    var u := t[id := folder];
    forall x | Live(u, x)
      ensures Descends(u, x, root)
    {
      var from := if x == id then folder.parent.value else x;
      var n := Height(t, root, from);
      SameClimb(t, u, from, root, n);
      if x == id {
        assert Reaches(u, id, root, n + 1);
      }
    }
  }

  /** Rows that keep parent and liveness keep every climb. */
  lemma {:induction false} SameClimb(t: Tree, u: Tree, id: Id, to: Id, n: nat)
    requires Reaches(t, id, to, n)
    requires forall x :: Live(t, x) ==> Live(u, x) && u[x].parent == t[x].parent
    ensures Reaches(u, id, to, n)
    decreases n
  {
    if n > 0 {
      SameClimb(t, u, t[id].parent.value, to, n - 1);
    }
  }

  lemma RelabelKeepsRooted(t: Tree, root: Id, f: Id, name: string, version: int)
    requires Rooted(t, root) && f in t
    ensures Rooted(t[f := t[f].(name := name, version := version)], root)
  {
    var u := t[f := t[f].(name := name, version := version)];
    forall x | Live(u, x)
      ensures Descends(u, x, root)
    {
      var n := Height(t, root, x);
      SameClimb(t, u, x, root, n);
    }
  }

  predicate HasChild(t: Tree, f: Id) {
    exists c :: c in t && t[c].live && t[c].parent == Some(f)
  }

  function Pruned(t: Tree, f: Id): Tree
    requires f in t
  {
    t[f := t[f].(live := false, version := t[f].version + 1)]
  }

  lemma {:induction false} ClimbAvoidsLeaf(t: Tree, u: Tree, f: Id, id: Id, to: Id, n: nat)
    requires Reaches(t, id, to, n) && !HasChild(t, f) && id != f
    requires forall x :: x in t && x != f ==> x in u && u[x] == t[x]
    ensures Reaches(u, id, to, n)
    decreases n
  {
    if n > 0 {
      assert t[id].parent.value != f;
      ClimbAvoidsLeaf(t, u, f, t[id].parent.value, to, n - 1);
    }
  }

  /** Deleting keeps the tree exactly when nothing live hangs below. */
  lemma DeleteGuardIsExact(t: Tree, root: Id, f: Id)
    requires Rooted(t, root) && Live(t, f) && f != root
    ensures Rooted(Pruned(t, f), root) <==> !HasChild(t, f)
  {
    var u := Pruned(t, f);
    if HasChild(t, f) {
      var c :| c in t && t[c].live && t[c].parent == Some(f);
      if Rooted(u, root) {
        RootedMeans(t, root);
        RootedMeans(u, root);
        assert Live(u, c);
      }
    } else {
      forall x | Live(u, x)
        ensures Descends(u, x, root)
      {
        var n := Height(t, root, x);
        ClimbAvoidsLeaf(t, u, f, x, root, n);
      }
    }
  }

  // ---- the two recursive queries ----

  function Level(t: Tree, f: Id, k: nat): set<Id> {
    set x | x in t && Reaches(t, x, f, k)
  }

  lemma {:induction false} LowerLevel(t: Tree, x: Id, f: Id, n: nat, k: nat)
    requires Reaches(t, x, f, n) && k <= n
    ensures Level(t, f, k) != {}
    decreases n
  {
    if n == k {
      assert x in Level(t, f, k);
    } else {
      LowerLevel(t, t[x].parent.value, f, n - 1, k);
    }
  }

  /** Met in the first k rounds. */
  ghost predicate Above(t: Tree, x: Id, f: Id, k: nat) {
    exists j: nat :: j < k && Reaches(t, x, f, j)
  }

  lemma NextLevel(t: Tree, f: Id, k: nat)
    ensures Level(t, f, k + 1)
         == set x | x in t && t[x].live && t[x].parent.Some? && t[x].parent.value in Level(t, f, k)
  {
    forall x
      ensures x in Level(t, f, k + 1) <==>
                x in t && t[x].live && t[x].parent.Some? && t[x].parent.value in Level(t, f, k)
    {
      if x in t && t[x].live && t[x].parent.Some? && Reaches(t, t[x].parent.value, f, k) {
        assert Live(t, t[x].parent.value);
      }
    }
  }

  lemma AboveGrows(t: Tree, root: Id, f: Id, k: nat, x: Id)
    requires Rooted(t, root)
    ensures Above(t, x, f, k + 1) <==> Above(t, x, f, k) || x in Level(t, f, k)
    ensures !(Above(t, x, f, k) && x in Level(t, f, k))
  {
    if Above(t, x, f, k) {
      var j: nat :| j < k && Reaches(t, x, f, j);
      if x in Level(t, f, k) {
        OneDepth(t, root, x, f, j, k);
      }
      assert Above(t, x, f, k + 1);
    } else if x in Level(t, f, k) {
      assert Reaches(t, x, f, k);
    }
  }

  /** The descendants query: each round adds the live children of the rows of the round before. */
  method Descendants(t: Tree, ghost root: Id, f: Id) returns (ids: set<Id>)
    requires Rooted(t, root)
    ensures forall x :: x in ids <==> Descends(t, x, f)
  {
    ids := {};
    var found := if f in t && t[f].live then {f} else {};
    ghost var k: nat := 0;
    while found != {}
      invariant found == Level(t, f, k)
      invariant forall x :: x in ids <==> Above(t, x, f, k)
      invariant ids <= t.Keys
      decreases |t.Keys - ids|
    {
      forall x
        ensures x in ids + found <==> Above(t, x, f, k + 1)
        ensures x in found ==> x !in ids
      {
        AboveGrows(t, root, f, k, x);
      }
      NextLevel(t, f, k);
      hide Rooted, Above, Level;
      Grows(t.Keys, ids, found);
      ids := ids + found;
      found := set x | x in t && t[x].live && t[x].parent.Some? && t[x].parent.value in found;
      k := k + 1;
    }
    forall x
      ensures Above(t, x, f, k) <==> Descends(t, x, f)
    {
      if Descends(t, x, f) {
        var n: nat :| Reaches(t, x, f, n);
        if n >= k {
          LowerLevel(t, x, f, n, k);
        }
      }
    }
  }

  lemma Grows(keys: set<Id>, ids: set<Id>, found: set<Id>)
    requires found != {} && found <= keys && found !! ids
    ensures |keys - (ids + found)| < |keys - ids|
  {
    assert keys - ids == (keys - (ids + found)) + found;
  }

  predicate IsPath(t: Tree, path: seq<Id>) {
    && (forall i :: 0 <= i < |path| ==> Live(t, path[i]))
    && (forall i :: 0 < i < |path| ==> t[path[i]].parent == Some(path[i - 1]))
  }

  /** The breadcrumb query: climbs while there is a live parent row, root first in the result. */
  method Breadcrumb(t: Tree, root: Id, id: Id) returns (path: Option<seq<Id>>)
    requires Rooted(t, root)
    ensures path.None? <==> !Live(t, id)
    ensures path.Some? ==>
              && IsPath(t, path.value) && |path.value| > 0
              && path.value[0] == root && path.value[|path.value| - 1] == id
              && Reaches(t, id, root, |path.value| - 1)
  {
    if id !in t || !t[id].live {
      return None;
    }
    var at, rows := id, [id];
    ghost var n: nat := Height(t, root, id);
    ghost var depth := n;
    while t[at].parent.Some? && t[at].parent.value in t && t[t[at].parent.value].live
      invariant Live(t, at) && Reaches(t, at, root, n) && n + |rows| == depth + 1
      invariant IsPath(t, rows) && |rows| > 0 && rows[0] == at && rows[|rows| - 1] == id
      decreases n
    {
      assert n == 0 ==> at == root;
      at := t[at].parent.value;
      rows := [at] + rows;
      n := n - 1;
    }
    RootedMeans(t, root);
    path := Some(rows);
    assert n == 0 by {
      OneDepth(t, root, at, root, 0, n);
    }
  }
}

/** drive.Service and drive.FileManager over one owner's folders and file entries. */
module DriveTree {
  import opened Common
  import opened FolderTree

  datatype File = File(folder: Id, content: nat, name: string, live: bool, version: int)

  datatype Error = InvalidInput | NotFound | Conflict | NotEmpty

  /** What the language's library knows of text: white space, lower case, and encoded length. */
  datatype Naming = Naming(space: char -> bool, lower: string -> string, bytes: string -> nat)

  function TrimLeft(space: char -> bool, s: string): string {
    if s != "" && space(s[0]) then TrimLeft(space, s[1..]) else s
  }

  function TrimRight(space: char -> bool, s: string): string {
    if s != "" && space(s[|s| - 1]) then TrimRight(space, s[..|s| - 1]) else s
  }

  predicate BadName(naming: Naming, name: string) {
    name == "" || naming.bytes(name) > 255 || name == "." || name == ".."
    || '/' in name || '\\' in name || '\0' in name
  }

  /** normalizeName: the key names are compared by, or nothing for a name that is refused. */
  function Normalized(naming: Naming, raw: string): Option<string> {
    var name := TrimRight(naming.space, TrimLeft(naming.space, raw));
    if BadName(naming, name) then None else Some(naming.lower(name))
  }

  predicate Blank(naming: Naming, s: string) {
    forall i :: 0 <= i < |s| ==> naming.space(s[i])
  }

  lemma {:induction false} TrimmedLeft(space: char -> bool, a: string, s: string)
    requires (forall i :: 0 <= i < |a| ==> space(a[i])) && (s != "" ==> !space(s[0]))
    ensures TrimLeft(space, a + s) == s
  {
    if a == "" {
      assert a + s == s;
    } else {
      assert (a + s)[1..] == a[1..] + s;
      TrimmedLeft(space, a[1..], s);
    }
  }

  lemma {:induction false} TrimmedRight(space: char -> bool, s: string, b: string)
    requires (forall i :: 0 <= i < |b| ==> space(b[i])) && (s != "" ==> !space(s[|s| - 1]))
    ensures TrimRight(space, s + b) == s
  {
    if b == "" {
      assert s + b == s;
    } else {
      assert (s + b)[..|s + b| - 1] == s + b[..|b| - 1];
      TrimmedRight(space, s, b[..|b| - 1]);
    }
  }

  /** What a raw name stands for: white space around it is dropped, and the rest, in lower case, is
      the key, unless it is empty, too long, a dot or two, or holds a slash, a backslash or a NUL. */
  lemma NormalizedExactly(naming: Naming, a: string, name: string, b: string)
    requires Blank(naming, a) && Blank(naming, b)
    requires name == "" || (!naming.space(name[0]) && !naming.space(name[|name| - 1]))
    ensures Normalized(naming, a + name + b) ==
            if || name == "" || naming.bytes(name) > 255 || name == "." || name == ".."
               || exists i :: 0 <= i < |name| && (name[i] == '/' || name[i] == '\\' || name[i] == '\0')
            then None else Some(naming.lower(name))
  {
    assert a + name + b == a + (name + b);
    if name == "" {
      AllBlank(naming, a + b);
      assert a + name + b == a + b;
    } else {
      TrimmedLeft(naming.space, a, name + b);
      TrimmedRight(naming.space, name, b);
    }
  }

  lemma {:induction false} AllBlank(naming: Naming, s: string)
    requires Blank(naming, s)
    ensures TrimLeft(naming.space, s) == "" && Normalized(naming, s).None?
  {
    if s != "" {
      AllBlank(naming, s[1..]);
    }
  }

  /** Every raw name is of that form. */
  lemma {:induction false} RawNameSplits(naming: Naming, raw: string) returns (a: string, name: string, b: string)
    ensures raw == a + name + b && Blank(naming, a) && Blank(naming, b)
    ensures name == "" || (!naming.space(name[0]) && !naming.space(name[|name| - 1]))
    decreases |raw|
  {
    if raw == "" {
      a, name, b := "", "", "";
    } else if naming.space(raw[0]) {
      a, name, b := RawNameSplits(naming, raw[1..]);
      a := [raw[0]] + a;
    } else if naming.space(raw[|raw| - 1]) {
      a, name, b := RawNameSplits(naming, raw[..|raw| - 1]);
      b := b + [raw[|raw| - 1]];
    } else {
      a, name, b := "", raw, "";
    }
  }

  /** Two names of one kind in one folder collide exactly when their keys are equal, whoever else
      lives elsewhere. */
  lemma NamesCollideExactly(t: Tree, files: Files, parent: Id, name: string, but: Id)
    ensures !NameTaken(t, parent, name, Some(but)) <==>
              forall id :: id in t && t[id].live && t[id].parent == Some(parent) && id != but ==> t[id].name != name
    ensures !FileNameTaken(files, parent, name, Some(but)) <==>
              forall id :: id in files && files[id].live && files[id].folder == parent && id != but ==>
                files[id].name != name
    ensures !NameTaken(t, parent, name, None) <==>
              forall id :: id in t && t[id].live && t[id].parent == Some(parent) ==> t[id].name != name
    ensures !FileNameTaken(files, parent, name, None) <==>
              forall id :: id in files && files[id].live && files[id].folder == parent ==> files[id].name != name
  {
  }

  /** A content is refused exactly while some live entry of the owner has it. */
  lemma HeldExactly(files: Files, content: nat)
    ensures Holds(files, content) <==> !(forall id :: id in files && files[id].live ==> files[id].content != content)
  {
  }

  type Files = map<Id, File>

  predicate NameTaken(t: Tree, parent: Id, name: string, but: Option<Id>) {
    exists id :: id in t && t[id].live && t[id].parent == Some(parent) && t[id].name == name && but != Some(id)
  }

  predicate FileNameTaken(files: Files, folder: Id, name: string, but: Option<Id>) {
    exists id :: id in files && files[id].live && files[id].folder == folder && files[id].name == name
      && but != Some(id)
  }

  predicate Holds(files: Files, content: nat) {
    exists id :: id in files && files[id].live && files[id].content == content
  }

  predicate HasFile(files: Files, folder: Id) {
    exists id :: id in files && files[id].live && files[id].folder == folder
  }

  /** The index uq_folders_active_name. */
  predicate FolderNamesUnique(t: Tree) {
    forall a, b | a in t && b in t && t[a].live && t[b].live && t[a].parent.Some? ::
      t[a].parent == t[b].parent && t[a].name == t[b].name ==> a == b
  }

  predicate FileNamesUnique(files: Files) {
    forall a, b | a in files && b in files && files[a].live && files[b].live ::
      files[a].folder == files[b].folder && files[a].name == files[b].name ==> a == b
  }

  predicate Housed(t: Tree, files: Files) {
    forall id :: id in files && files[id].live ==> Live(t, files[id].folder)
  }

  /** No content twice among an owner's live entries. */
  predicate ContentsUnique(files: Files) {
    forall a, b ::
      a in files && b in files && files[a].live && files[b].live && files[a].content == files[b].content ==> a == b
  }

  class Drive {
    const root: Id
    const naming: Naming
    var folders: Tree
    var files: Files
    var contentEpoch: int

    ghost predicate Valid()
      reads this
    {
      && Rooted(folders, root) && FolderNamesUnique(folders)
      && Housed(folders, files) && FileNamesUnique(files) && ContentsUnique(files)
    }

    function Normalize(raw: string): Option<string> {
      Normalized(naming, raw)
    }

    /** ProvisionUser. */
    constructor (root: Id, naming: Naming)
      ensures Valid() && this.root == root && this.naming == naming && files == map[] && contentEpoch == 0
      ensures folders == map[root := Folder(None, "/", true, 1)]
    {
      this.root, this.naming := root, naming;
      folders, files, contentEpoch := map[root := Folder(None, "/", true, 1)], map[], 0;
      new;
      assert Reaches(folders, root, root, 0);
    }

    /** A refused call changes nothing; a committed one moves the owner's content epoch by one. */
    twostate predicate Committed(new e: Option<Error>)
      reads this
    {
      if e.Some? then folders == old(folders) && files == old(files) && contentEpoch == old(contentEpoch)
      else contentEpoch == old(contentEpoch) + 1
    }

    method Create(id: Id, parent: Id, raw: string) returns (e: Option<Error>)
      requires Valid() && id !in folders
      modifies this
      ensures Valid() && Committed(e)
      ensures e == (if Normalize(raw).None? then Some(InvalidInput)
                    else if !Live(old(folders), parent) then Some(NotFound)
                    else if NameTaken(old(folders), parent, Normalize(raw).value, None) then Some(Conflict) else None)
      ensures e.None? ==>
                folders == old(folders)[id := Folder(Some(parent), Normalize(raw).value, true, 1)]
                  && files == old(files)
    {
      var name := Normalize(raw);
      if name.None? {
        return Some(InvalidInput);
      }
      if parent !in folders || !folders[parent].live {
        return Some(NotFound);
      }
      if NameTaken(folders, parent, name.value, None) {
        return Some(Conflict);
      }
      var folder := Folder(Some(parent), name.value, true, 1);
      GrowKeepsRooted(folders, root, id, folder);
      folders := folders[id := folder];
      contentEpoch := contentEpoch + 1;
      e := None;
    }

    method Rename(id: Id, version: int, raw: string) returns (e: Option<Error>)
      requires Valid()
      modifies this
      ensures Valid() && Committed(e)
      ensures e == (if Normalize(raw).None? then Some(InvalidInput)
                    else if !Live(old(folders), id) || id == root then Some(NotFound)
                    else if old(folders)[id].version != version then Some(Conflict)
                    else if NameTaken(old(folders), old(folders)[id].parent.value, Normalize(raw).value, Some(id))
                    then Some(Conflict) else None)
      ensures e.None? ==>
                && folders == old(folders)[id :=
                     old(folders)[id].(name := Normalize(raw).value, version := version + 1)]
                && files == old(files)
    {
      RootedMeans(folders, root);
      var name := Normalize(raw);
      if name.None? {
        return Some(InvalidInput);
      }
      if id !in folders || !folders[id].live || folders[id].parent.None? {
        return Some(NotFound);
      }
      if folders[id].version != version {
        return Some(Conflict);
      }
      if NameTaken(folders, folders[id].parent.value, name.value, Some(id)) {
        return Some(Conflict);
      }
      RelabelKeepsRooted(folders, root, id, name.value, version + 1);
      folders := folders[id := folders[id].(name := name.value, version := version + 1)];
      contentEpoch := contentEpoch + 1;
      e := None;
    }

    method Move(id: Id, target: Id, version: int) returns (e: Option<Error>)
      requires Valid()
      modifies this
      ensures Valid() && Committed(e)
      ensures e == (if id == target then Some(InvalidInput)
                    else if !Live(old(folders), id) || id == root then Some(NotFound)
                    else if old(folders)[id].version != version then Some(Conflict)
                    else if !Live(old(folders), target) then Some(NotFound)
                    else if Descends(old(folders), target, id) then Some(InvalidInput)
                    else if NameTaken(old(folders), target, old(folders)[id].name, Some(id))
                    then Some(Conflict) else None)
      ensures e.None? ==> folders == Moved(old(folders), id, target) && files == old(files)
      ensures e.None? ==>
                folders == old(folders)[id := old(folders)[id].(parent := Some(target), version := version + 1)]
    {
      RootedMeans(folders, root);
      if id == target {
        return Some(InvalidInput);
      }
      if id !in folders || !folders[id].live || folders[id].parent.None? {
        return Some(NotFound);
      }
      if folders[id].version != version {
        return Some(Conflict);
      }
      if target !in folders || !folders[target].live {
        return Some(NotFound);
      }
      var below := Descendants(folders, root, id);
      if target in below {
        return Some(InvalidInput);
      }
      if NameTaken(folders, target, folders[id].name, Some(id)) {
        return Some(Conflict);
      }
      MoveGuardIsExact(folders, root, id, target);
      folders := Moved(folders, id, target);
      contentEpoch := contentEpoch + 1;
      e := None;
    }

    method Delete(id: Id, version: int) returns (e: Option<Error>)
      requires Valid()
      modifies this
      ensures Valid() && Committed(e)
      ensures e == (if !Live(old(folders), id) || id == root then Some(NotFound)
                    else if old(folders)[id].version != version then Some(Conflict)
                    else if HasChild(old(folders), id) || HasFile(old(files), id) then Some(NotEmpty) else None)
      ensures e == Some(NotEmpty) ==>
                || (exists c :: c in folders && folders[c].live && folders[c].parent == Some(id))
                || (exists f :: f in files && files[f].live && files[f].folder == id)
      ensures e.None? ==> folders == Pruned(old(folders), id) && files == old(files)
      ensures e.None? ==> folders == old(folders)[id := old(folders)[id].(live := false, version := version + 1)]
    {
      RootedMeans(folders, root);
      if id !in folders || !folders[id].live || folders[id].parent.None? {
        return Some(NotFound);
      }
      if folders[id].version != version {
        return Some(Conflict);
      }
      if HasChild(folders, id) || HasFile(files, id) {
        return Some(NotEmpty);
      }
      DeleteGuardIsExact(folders, root, id);
      folders := Pruned(folders, id);
      contentEpoch := contentEpoch + 1;
      e := None;
    }

    method CreateFile(id: Id, folder: Id, content: nat, raw: string) returns (e: Option<Error>)
      requires Valid() && id !in files
      modifies this
      ensures Valid() && Committed(e)
      ensures e == (if Normalize(raw).None? then Some(InvalidInput)
                    else if !Live(old(folders), folder) then Some(NotFound)
                    else if Holds(old(files), content)
                            || FileNameTaken(old(files), folder, Normalize(raw).value, None)
                    then Some(Conflict) else None)
      ensures e.None? ==>
                files == old(files)[id := File(folder, content, Normalize(raw).value, true, 1)]
                  && folders == old(folders)
    {
      var name := Normalize(raw);
      if name.None? {
        return Some(InvalidInput);
      }
      if folder !in folders || !folders[folder].live {
        return Some(NotFound);
      }
      if Holds(files, content) {
        return Some(Conflict);
      }
      if FileNameTaken(files, folder, name.value, None) {
        return Some(Conflict);
      }
      files := files[id := File(folder, content, name.value, true, 1)];
      contentEpoch := contentEpoch + 1;
      e := None;
    }

    predicate LiveFile(id: Id)
      reads this`files
    {
      id in files && files[id].live
    }

    method RenameFile(id: Id, version: int, raw: string) returns (e: Option<Error>)
      requires Valid()
      modifies this
      ensures Valid() && Committed(e)
      ensures e == (if Normalize(raw).None? then Some(InvalidInput)
                    else if !old(LiveFile(id)) then Some(NotFound)
                    else if old(files)[id].version != version then Some(Conflict)
                    else if FileNameTaken(old(files), old(files)[id].folder, Normalize(raw).value, Some(id))
                    then Some(Conflict) else None)
      ensures e.None? ==> id in old(files) && old(files)[id].live
      ensures e.None? ==>
                && files == old(files)[id := old(files)[id].(name := Normalize(raw).value, version := version + 1)]
                && folders == old(folders)
    {
      var name := Normalize(raw);
      if name.None? {
        return Some(InvalidInput);
      }
      if !LiveFile(id) {
        return Some(NotFound);
      }
      if files[id].version != version || FileNameTaken(files, files[id].folder, name.value, Some(id)) {
        return Some(Conflict);
      }
      files := files[id := files[id].(name := name.value, version := version + 1)];
      contentEpoch := contentEpoch + 1;
      e := None;
    }

    method MoveFile(id: Id, target: Id, version: int) returns (e: Option<Error>)
      requires Valid()
      modifies this
      ensures Valid() && Committed(e)
      ensures e == (if !Live(old(folders), target) || !old(LiveFile(id)) then Some(NotFound)
                    else if old(files)[id].version != version then Some(Conflict)
                    else if FileNameTaken(old(files), target, old(files)[id].name, Some(id))
                    then Some(Conflict) else None)
      ensures e.None? ==> id in old(files) && old(files)[id].live
      ensures e.None? ==>
                && files == old(files)[id := old(files)[id].(folder := target, version := version + 1)]
                && folders == old(folders)
    {
      if target !in folders || !folders[target].live {
        return Some(NotFound);
      }
      if !LiveFile(id) {
        return Some(NotFound);
      }
      if files[id].version != version || FileNameTaken(files, target, files[id].name, Some(id)) {
        return Some(Conflict);
      }
      files := files[id := files[id].(folder := target, version := version + 1)];
      contentEpoch := contentEpoch + 1;
      e := None;
    }

    method DeleteFile(id: Id, version: int) returns (e: Option<Error>)
      requires Valid()
      modifies this
      ensures Valid() && Committed(e)
      ensures e == (if !old(LiveFile(id)) then Some(NotFound)
                    else if old(files)[id].version != version then Some(Conflict) else None)
      ensures e.None? ==> id in old(files) && old(files)[id].live
      ensures e.None? ==>
                && files == old(files)[id := old(files)[id].(live := false, version := version + 1)]
                && folders == old(folders)
    {
      if !LiveFile(id) {
        return Some(NotFound);
      }
      if files[id].version != version {
        return Some(Conflict);
      }
      files := files[id := files[id].(live := false, version := version + 1)];
      contentEpoch := contentEpoch + 1;
      e := None;
    }
  }
}
