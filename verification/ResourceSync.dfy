/**
 Bundled resources copied over an installed directory that also holds the user's own files: stale compiled siblings
 are pruned, the bundle's subdirectories are replaced, and the rest is overlaid. A separate check, run before
 deciding whether to copy at all, looks for stale siblings anywhere in the tree.
 */
module ResourceSync {
  import opened Wrappers

  /** A finite tree of files and directories. */
  datatype Node = File(content: string) | Dir(entries: map<string, Node>)

  type Directory = d: Node | d.Dir? witness Dir(map[])

  type Path = seq<string>

  // ---------------------------------------------------------------------------------------------
  // Names
  // ---------------------------------------------------------------------------------------------

  predicate EndsWith(name: string, suffix: string) {
    |suffix| <= |name| && name[|name| - |suffix|..] == suffix
  }

  function ToJs(name: string): string {
    if EndsWith(name, ".ts") then name[..|name| - 3] + ".js" else name
  }

  function ToTs(name: string): string {
    if EndsWith(name, ".js") then name[..|name| - 3] + ".ts" else name
  }

  predicate Compiled(name: string) { EndsWith(name, ".ts") || EndsWith(name, ".js") }

  function Swapped(name: string): string {
    if EndsWith(name, ".ts") then ToJs(name) else ToTs(name)
  }

  /** The file names directly in a directory. */
  function FileNames(d: Directory): set<string> { set n | n in d.entries && d.entries[n].File? }

  /** A name the source no longer has but whose counterpart, compiled or not, it does. */
  predicate Stale(names: set<string>, name: string) {
    name !in names && Compiled(name) && Swapped(name) in names
  }

  lemma EndsWithOnly(stem: string, suffix: string)
    ensures EndsWith(stem + suffix, suffix) && (stem + suffix)[..|stem + suffix| - |suffix|] == stem
  {
  }

  /** The counterpart of a source file is the compiled file of the same stem, and the other way round. */
  lemma Counterparts(stem: string)
    ensures Swapped(stem + ".ts") == stem + ".js" && Swapped(stem + ".js") == stem + ".ts"
    ensures ToJs(stem + ".ts") == stem + ".js" && ToTs(stem + ".js") == stem + ".ts"
    ensures Compiled(stem + ".ts") && Compiled(stem + ".js")
  {
    EndsWithOnly(stem, ".ts");
    EndsWithOnly(stem, ".js");
    assert (stem + ".js")[|stem|..][1] == 'j';
    assert (stem + ".ts")[|stem|..][1] == 't';
  }

  /** A stale name is one whose own file is gone while the one of the same stem and the other kind is there. */
  lemma StaleMeaning(names: set<string>, name: string)
    ensures Stale(names, name) <==>
            name !in names &&
            exists stem: string :: (name == stem + ".ts" && stem + ".js" in names) || (name == stem + ".js" && stem + ".ts" in names)
  {
    if stem: string :| (name == stem + ".ts" && stem + ".js" in names) || (name == stem + ".js" && stem + ".ts" in names) {
      Counterparts(stem);
    }
    if Stale(names, name) {
      var stem := name[..|name| - 3];
      assert name == stem + name[|name| - 3..];
      Counterparts(stem);
    }
  }

  lemma StaleEitherWay(names: set<string>, name: string)
    requires name !in names
    ensures Stale(names, name) <==> ToJs(name) in names || ToTs(name) in names
  {
    assert EndsWith(name, ".ts") ==> name[|name| - 3..][1] == 't';
  }

  // ---------------------------------------------------------------------------------------------
  // The three stages of a sync
  // ---------------------------------------------------------------------------------------------

  predicate Kept(src: Directory, name: string, node: Node) {
    node.Dir? || !Stale(FileNames(src), name)
  }

  function Prune(src: Directory, dest: Directory): Directory {
    Dir(map n | n in dest.entries && Kept(src, n, dest.entries[n]) :: dest.entries[n])
  }

  function WithoutSubdirs(src: Directory, dest: Directory): Directory {
    Dir(map n | n in dest.entries && !(n in src.entries && src.entries[n].Dir?) :: dest.entries[n])
  }

  /** Copying a directory over another fails where one has a file and the other a directory. */
  predicate Clash(src: Directory, dest: Directory)
    decreases src
  {
    exists n :: n in src.entries && n in dest.entries &&
                if src.entries[n].File? then dest.entries[n].Dir?
                else dest.entries[n].File? || Clash(src.entries[n], dest.entries[n])
  }

  function Overlay(src: Directory, dest: Directory): Directory
    decreases src
  {
    Dir(map n | n in src.entries.Keys + dest.entries.Keys ::
          if n !in src.entries then dest.entries[n]
          else if src.entries[n].File? then src.entries[n]
          else Overlay(src.entries[n], if n in dest.entries && dest.entries[n].Dir? then dest.entries[n] else Dir(map[])))
  }

  lemma {:induction false} OverlayOnNothing(src: Directory)
    ensures Overlay(src, Dir(map[])) == src && !Clash(src, Dir(map[]))
    decreases src
  {
    var r := Overlay(src, Dir(map[]));
    forall n | n in src.entries ensures r.entries[n] == src.entries[n] {
      if src.entries[n].Dir? {
        OverlayOnNothing(src.entries[n]);
      }
    }
    assert r.entries == src.entries;
  }

  function Or(d: Option<Directory>): Directory { if d.Some? then d.value else Dir(map[]) }

  function Cleared(src: Directory, dest: Option<Directory>): Directory {
    WithoutSubdirs(src, Prune(src, Or(dest)))
  }

  /** What is installed after a sync that does not fail. */
  function Synced(src: Option<Directory>, dest: Option<Directory>): Option<Directory> {
    if src.None? then dest else Some(Overlay(src.value, Cleared(src.value, dest)))
  }

  predicate Fails(src: Option<Directory>, dest: Option<Directory>) {
    src.Some? && Clash(src.value, Cleared(src.value, dest))
  }

  // ---------------------------------------------------------------------------------------------
  // What a sync achieves
  // ---------------------------------------------------------------------------------------------

  /**
   After a sync, everything in the bundle is there, its subdirectories exactly as bundled; and whatever else was
   installed is there unchanged, except for files that are stale siblings of bundled ones.
   */
  lemma SyncIsExact(src: Directory, dest: Option<Directory>)
    ensures var before, after := Or(dest).entries, Synced(Some(src), dest).value.entries;
            && (forall n :: n in src.entries ==> n in after && after[n] == src.entries[n])
            && (forall n :: n !in src.entries ==>
                  (n in after <==> n in before && Kept(src, n, before[n])) && (n in after ==> after[n] == before[n]))
  {
    var cleared, after := Cleared(src, dest), Synced(Some(src), dest).value.entries;
    forall n | n in src.entries ensures n in after && after[n] == src.entries[n] {
      if src.entries[n].Dir? {
        assert n !in cleared.entries;
        OverlayOnNothing(src.entries[n]);
      }
    }
  }

  /** A sync fails exactly when a bundled file meets an installed directory of the same name. */
  lemma SyncFailsIff(src: Directory, dest: Option<Directory>)
    ensures Fails(Some(src), dest) <==>
            exists n :: n in src.entries && src.entries[n].File? && n in Or(dest).entries && Or(dest).entries[n].Dir?
  {
    var cleared := Cleared(src, dest);
    forall n | n in src.entries && src.entries[n].Dir? ensures n !in cleared.entries {
    }
    if n :| n in src.entries && src.entries[n].File? && n in Or(dest).entries && Or(dest).entries[n].Dir? {
      assert n in cleared.entries;
    }
  }

  lemma SameEntries(a: Directory, b: Directory)
    requires forall n :: n in a.entries <==> n in b.entries
    requires forall n :: n in a.entries && n in b.entries ==> a.entries[n] == b.entries[n]
    ensures a == b
  {
    assert a.entries == b.entries;
  }

  /** A second sync changes nothing and cannot fail. */
  lemma SyncIsIdempotent(src: Directory, dest: Option<Directory>)
    ensures var once := Synced(Some(src), dest);
            Synced(Some(src), once) == once && !Fails(Some(src), once)
  {
    hide Overlay, Clash, Prune, WithoutSubdirs;
    var once := Synced(Some(src), dest);
    SyncIsExact(src, dest);
    SyncIsExact(src, once);
    SyncFailsIff(src, once);
    SameEntries(Synced(Some(src), once).value, once.value);
  }

  // ---------------------------------------------------------------------------------------------
  // The staleness check
  // ---------------------------------------------------------------------------------------------

  /** There is a file at the end of the path. */
  predicate HasFile(d: Directory, p: Path)
    decreases |p|
  {
    p != [] && p[0] in d.entries &&
    match d.entries[p[0]]
    case File(_) => |p| == 1
    case Dir(_) => HasFile(d.entries[p[0]], p[1..])
  }

  function Sibling(p: Path): Path
    requires p != []
  {
    p[..|p| - 1] + [Swapped(p[|p| - 1])]
  }

  predicate StaleAt(src: Directory, dest: Directory, p: Path) {
    p != [] && HasFile(dest, p) && Compiled(p[|p| - 1]) && !HasFile(src, p) && HasFile(src, Sibling(p))
  }

  ghost predicate HasStale(src: Directory, dest: Directory) {
    exists p :: StaleAt(src, dest, p)
  }

  lemma StaleBelow(src: Directory, dest: Directory, p: Path)
    requires |p| > 1
    ensures StaleAt(src, dest, p) <==>
            p[0] in src.entries && p[0] in dest.entries && src.entries[p[0]].Dir? && dest.entries[p[0]].Dir? &&
            StaleAt(src.entries[p[0]], dest.entries[p[0]], p[1..])
  {
    assert Sibling(p)[0] == p[0] && Sibling(p)[1..] == Sibling(p[1..]);
  }

  lemma HasFileHere(d: Directory, n: string)
    ensures HasFile(d, [n]) <==> n in FileNames(d)
  {
  }

  lemma StaleHere(src: Directory, dest: Directory, n: string)
    ensures StaleAt(src, dest, [n]) <==> n in dest.entries && dest.entries[n].File? && Stale(FileNames(src), n)
  {
    assert Sibling([n]) == [Swapped(n)];
    HasFileHere(src, n);
    HasFileHere(dest, n);
    HasFileHere(src, Swapped(n));
  }

  /** Stale siblings are found at the top, or below a directory that both trees have. */
  lemma StaleSplits(src: Directory, dest: Directory)
    ensures HasStale(src, dest) <==>
            || (exists n :: n in dest.entries && !Kept(src, n, dest.entries[n]))
            || (exists n :: n in src.entries && n in dest.entries && src.entries[n].Dir? && dest.entries[n].Dir? &&
                            HasStale(src.entries[n], dest.entries[n]))
  {
    if p :| StaleAt(src, dest, p) {
      if |p| == 1 {
        assert p == [p[0]];
        StaleHere(src, dest, p[0]);
      } else {
        StaleBelow(src, dest, p);
      }
    }
    if n :| n in dest.entries && !Kept(src, n, dest.entries[n]) {
      StaleHere(src, dest, n);
    }
    if n :| n in src.entries && n in dest.entries && src.entries[n].Dir? && dest.entries[n].Dir? &&
            HasStale(src.entries[n], dest.entries[n]) {
      var p :| StaleAt(src.entries[n], dest.entries[n], p);
      assert ([n] + p)[1..] == p;
      StaleBelow(src, dest, [n] + p);
    }
  }

  lemma NothingStaleInItself(d: Directory)
    ensures !HasStale(d, d)
  {
  }

  /** After a sync the check finds nothing stale, at any depth. */
  lemma NothingStaleAfterSync(src: Directory, dest: Option<Directory>)
    ensures !HasStale(src, Synced(Some(src), dest).value)
  {
    hide HasStale, Overlay, Cleared;
    var after := Synced(Some(src), dest).value;
    SyncIsExact(src, dest);
    StaleSplits(src, after);
    forall n | n in src.entries && n in after.entries && src.entries[n].Dir?
      ensures !HasStale(src.entries[n], after.entries[n])
    {
      NothingStaleInItself(src.entries[n]);
    }
  }

  /** The pruning at every launch leaves to the check exactly the stale siblings inside bundled subdirectories. */
  lemma PruningLeavesOnlyNested(src: Directory, dest: Directory)
    ensures HasStale(src, Prune(src, dest)) <==>
            exists n :: n in src.entries && n in dest.entries && src.entries[n].Dir? && dest.entries[n].Dir? &&
                        HasStale(src.entries[n], dest.entries[n])
  {
    hide HasStale, Stale;
    StaleSplits(src, Prune(src, dest));
  }

  // ---------------------------------------------------------------------------------------------
  // The file operations
  // ---------------------------------------------------------------------------------------------

  /** The visitor: adds the paths of all files below a directory, each after the prefix. */
  method Visit(dir: Directory, prefix: Path, files0: set<Path>) returns (files: set<Path>)
    ensures forall p :: p in files <==> p in files0 || (prefix <= p && HasFile(dir, p[|prefix|..]))
    decreases dir
  {
    files := files0;
    var todo := dir.entries.Keys;
    while todo != {}
      invariant todo <= dir.entries.Keys
      invariant forall p :: p in files <==>
                  p in files0 || (prefix <= p && HasFile(dir, p[|prefix|..]) && p[|prefix|] !in todo)
      decreases |todo|
    {
      var name :| name in todo;
      todo := todo - {name};
      ghost var before := files;
      match dir.entries[name] {
        case File(_) =>
          files := files + {prefix + [name]};
        case Dir(_) =>
          files := Visit(dir.entries[name], prefix + [name], files);
      }
      forall p ensures p in files <==> p in before || (prefix <= p && HasFile(dir, p[|prefix|..]) && p[|prefix|] == name) {
        HasFileThrough(dir, prefix, name, p);
      }
    }
  }

  lemma HasFileThrough(dir: Directory, prefix: Path, name: string, p: Path)
    requires name in dir.entries
    ensures (prefix <= p && HasFile(dir, p[|prefix|..]) && p[|prefix|] == name) <==>
            if dir.entries[name].File? then p == prefix + [name]
            else prefix + [name] <= p && HasFile(dir.entries[name], p[|prefix| + 1..])
  {
    if prefix <= p && |p| > |prefix| {
      assert p[|prefix|..][1..] == p[|prefix| + 1..];
      assert p == prefix + p[|prefix|..];
      assert p[|prefix|..] == [p[|prefix|]] + p[|prefix| + 1..];
    }
  }

  /** The paths of all files in a tree. */
  method CollectRelativeFiles(root: Option<Directory>) returns (files: set<Path>)
    ensures forall p :: p in files <==> HasFile(Or(root), p)
  {
    files := {};
    if root.Some? {
      files := Visit(root.value, [], {});
      assert forall p: Path :: p[0..] == p;
    }
  }

  method HasStaleCompiledExtensionSiblings(installed: Option<Directory>, src: Option<Directory>) returns (stale: bool)
    ensures stale <==> installed.Some? && HasStale(Or(src), installed.value)
  {
    if installed.None? {
      return false;
    }
    var sourceFiles := CollectRelativeFiles(src);
    var installedFiles := CollectRelativeFiles(installed);
    ghost var all := installedFiles;
    while installedFiles != {}
      invariant installedFiles <= all
      invariant forall p :: p in all && p !in installedFiles ==> !StaleAt(Or(src), installed.value, p)
      decreases |installedFiles|
    {
      var p :| p in installedFiles;
      installedFiles := installedFiles - {p};
      var name := p[|p| - 1];
      if (EndsWith(name, ".ts") || EndsWith(name, ".js")) && p !in sourceFiles &&
         p[..|p| - 1] + [if EndsWith(name, ".ts") then ToJs(name) else ToTs(name)] in sourceFiles {
        assert StaleAt(Or(src), installed.value, p);
        return true;
      }
    }
    return false;
  }

  /** Whether one entry can be copied to where there may already be something. */
  ghost predicate Fits(node: Node, there: Option<Node>) {
    there.Some? ==> if node.File? then there.value.File? else there.value.Dir? && !Clash(node, there.value)
  }

  /** What is there after the entry has been copied. */
  ghost function Laid(node: Node, there: Option<Node>): Node {
    if node.File? then node else Overlay(node, if there.Some? && there.value.Dir? then there.value else Dir(map[]))
  }

  ghost function At(d: Directory, name: string): Option<Node> {
    if name in d.entries then Some(d.entries[name]) else None
  }

  lemma ClashIff(src: Directory, dest: Directory)
    ensures Clash(src, dest) <==> exists n :: n in src.entries && !Fits(src.entries[n], At(dest, n))
  {
    if n :| n in src.entries && n in dest.entries &&
            if src.entries[n].File? then dest.entries[n].Dir?
            else dest.entries[n].File? || Clash(src.entries[n], dest.entries[n]) {
      assert !Fits(src.entries[n], At(dest, n));
    }
  }

  lemma OverlayAt(src: Directory, dest: Directory)
    ensures Overlay(src, dest).entries.Keys == src.entries.Keys + dest.entries.Keys
    ensures forall n :: n in src.entries ==> Overlay(src, dest).entries[n] == Laid(src.entries[n], At(dest, n))
    ensures forall n :: n in dest.entries && n !in src.entries ==> Overlay(src, dest).entries[n] == dest.entries[n]
  {
  }

  /** Where copying may stop: each entry is as it was, copied, or a directory in which copying stopped. */
  ghost predicate Partly(src: Directory, dest: Directory, r: Directory)
    decreases src
  {
    && dest.entries.Keys <= r.entries.Keys <= dest.entries.Keys + src.entries.Keys
    && (forall n :: n in r.entries && n !in src.entries ==> r.entries[n] == dest.entries[n])
    && (forall n :: n in r.entries && n in src.entries ==>
          || At(dest, n) == Some(r.entries[n])
          || r.entries[n] == Laid(src.entries[n], At(dest, n))
          || (src.entries[n].Dir? && r.entries[n].Dir? && Partly(src.entries[n], Below(At(dest, n)), r.entries[n])))
  }

  function Below(there: Option<Node>): Directory {
    if there.Some? && there.value.Dir? then there.value else Dir(map[])
  }

  /** The same for one entry. */
  ghost predicate PartlyLaid(node: Node, there: Option<Node>, r: Option<Node>) {
    || r == there
    || (r.Some? && r.value == Laid(node, there))
    || (r.Some? && node.Dir? && r.value.Dir? && Partly(node, Below(there), r.value))
  }

  method CopyEntry(node: Node, there: Option<Node>) returns (ok: bool, left: Option<Node>)
    ensures ok <==> Fits(node, there)
    ensures ok ==> left == Some(Laid(node, there))
    ensures PartlyLaid(node, there, left)
    decreases node, 1
  {
    hide Overlay, Clash, Partly;
    match node {
      case File(_) =>
        if there.Some? && there.value.Dir? {
          return false, there;
        }
        return true, Some(node);
      case Dir(_) =>
        if there.Some? && there.value.File? {
          return false, there;
        }
        OverlayOnNothing(node);
        var sub;
        ok, sub := CopyDirRecursive(node, there);
        left := Some(sub);
    }
  }

  /** All entries of the source have been copied but those in `todo`. */
  ghost predicate Partway(src: Directory, dest: Directory, todo: set<string>, entries: map<string, Node>) {
    && todo <= src.entries.Keys
    && entries.Keys == dest.entries.Keys + (src.entries.Keys - todo)
    && (forall n :: n in src.entries && n !in todo ==>
          n in entries && entries[n] == Laid(src.entries[n], At(dest, n)) && Fits(src.entries[n], At(dest, n)))
    && (forall n :: n in dest.entries && (n !in src.entries || n in todo) ==> n in entries && entries[n] == dest.entries[n])
  }

  lemma PartwayStart(src: Directory, dest: Directory)
    ensures Partway(src, dest, src.entries.Keys, dest.entries)
  {
  }

  lemma PartwayStep(src: Directory, dest: Directory, todo: set<string>, entries: map<string, Node>, name: string)
    requires Partway(src, dest, todo, entries) && name in todo && Fits(src.entries[name], At(dest, name))
    ensures Partway(src, dest, todo - {name}, entries[name := Laid(src.entries[name], At(dest, name))])
  {
    hide Fits, Laid;
  }

  lemma PartwayEnd(src: Directory, dest: Directory, entries: map<string, Node>)
    requires Partway(src, dest, {}, entries)
    ensures !Clash(src, dest) && Dir(entries) == Overlay(src, dest)
  {
    hide Clash, Overlay, Fits, Laid;
    ClashIff(src, dest);
    OverlayAt(src, dest);
    SameEntries(Dir(entries), Overlay(src, dest));
  }

  /** The entry that fails may leave something behind. */
  function Leaving(entries: map<string, Node>, name: string, left: Option<Node>): map<string, Node> {
    if left.Some? then entries[name := left.value] else entries
  }

  lemma StopsPartly(src: Directory, dest: Directory, todo: set<string>, entries: map<string, Node>, name: string, left: Option<Node>)
    requires Partway(src, dest, todo, entries) && name in todo && PartlyLaid(src.entries[name], At(dest, name), left)
    ensures Partly(src, dest, Dir(Leaving(entries, name, left)))
  {
    hide Fits, Laid;
  }

  lemma PartwayIsPartly(src: Directory, dest: Directory, entries: map<string, Node>)
    requires Partway(src, dest, {}, entries)
    ensures Partly(src, dest, Dir(entries))
  {
    hide Fits, Laid;
  }

  /**
   Copies a directory over another, entry by entry in whatever order they are listed, up to the first entry that cannot
   be copied.
   */
  method CopyDirRecursive(src: Directory, dest: Option<Directory>) returns (ok: bool, left: Directory)
    ensures ok <==> !Clash(src, Or(dest))
    ensures ok ==> left == Overlay(src, Or(dest))
    ensures Partly(src, Or(dest), left)
    decreases src, 0
  {
    hide Overlay, Clash, Fits, Laid, Partly, PartlyLaid;
    var entries := Or(dest).entries;
    var todo := src.entries.Keys;
    PartwayStart(src, Or(dest));
    while todo != {}
      invariant Partway(src, Or(dest), todo, entries)
      decreases |todo|
    {
      var name :| name in todo;
      var there := if name in entries then Some(entries[name]) else None;
      assert there == At(Or(dest), name);
      var copied, node := CopyEntry(src.entries[name], there);
      if !copied {
        ClashIff(src, Or(dest));
        StopsPartly(src, Or(dest), todo, entries, name, node);
        return false, Dir(Leaving(entries, name, node));
      }
      PartwayStep(src, Or(dest), todo, entries, name);
      entries, todo := entries[name := node.value], todo - {name};
    }
    PartwayEnd(src, Or(dest), entries);
    PartwayIsPartly(src, Or(dest), entries);
    return true, Dir(entries);
  }

  /** An installed directory, which may not exist yet. */
  class Installation {
    var tree: Option<Directory>

    constructor (tree: Option<Directory>)
      ensures this.tree == tree
    {
      this.tree := tree;
    }

    method PruneStaleSiblingFiles(src: Directory)
      modifies this
      ensures tree == if old(tree).Some? then Some(Prune(src, old(tree).value)) else None
    {
      if tree.None? {
        return;
      }
      var dest := tree.value;
      var sourceFiles := FileNames(src);
      var entries, todo := dest.entries, dest.entries.Keys;
      while todo != {}
        invariant todo <= dest.entries.Keys
        invariant forall n :: n in entries <==> n in dest.entries && (n in todo || Kept(src, n, dest.entries[n]))
        invariant forall n :: n in entries ==> entries[n] == dest.entries[n]
        decreases |todo|
      {
        var name :| name in todo;
        todo := todo - {name};
        if dest.entries[name].File? && name !in sourceFiles {
          StaleEitherWay(sourceFiles, name);
          if ToJs(name) in sourceFiles || ToTs(name) in sourceFiles {
            entries := entries - {name};
          }
        }
      }
      tree := Some(Dir(entries));
      assert entries == Prune(src, dest).entries;
    }

    method RemoveSubdirs(src: Directory)
      modifies this
      ensures tree == if old(tree).Some? then Some(WithoutSubdirs(src, old(tree).value)) else None
    {
      if tree.None? {
        return;
      }
      var dest := tree.value;
      var entries, todo := dest.entries, src.entries.Keys;
      while todo != {}
        invariant todo <= src.entries.Keys
        invariant forall n :: n in entries <==>
                    n in dest.entries && (n in todo || !(n in src.entries && src.entries[n].Dir?))
        invariant forall n :: n in entries ==> entries[n] == dest.entries[n]
        decreases |todo|
      {
        var name :| name in todo;
        todo := todo - {name};
        if src.entries[name].Dir? {
          entries := entries - {name};
        }
      }
      tree := Some(Dir(entries));
      assert entries == WithoutSubdirs(src, dest).entries;
    }

    /** Brings the installation up to date with the bundle, if there is one. */
    method SyncResourceDir(src: Option<Directory>) returns (ok: bool)
      modifies this
      ensures src.None? ==> ok && tree == old(tree)
      ensures ok <==> !Fails(src, old(tree))
      ensures ok ==> tree == Synced(src, old(tree))
      ensures !ok ==> src.Some? && tree.Some? && Partly(src.value, Cleared(src.value, old(tree)), tree.value)
    {
      if src.None? {
        return true;
      }
      PruneStaleSiblingFiles(src.value);
      RemoveSubdirs(src.value);
      EmptyCleared(src.value);
      var left;
      ok, left := CopyDirRecursive(src.value, tree);
      tree := Some(left);
    }
  }

  /**
   What a failed sync leaves under a name: what is not bundled as a successful sync leaves it; a bundled file as bundled
   or as it was, if there at all; and a bundled subdirectory missing, or copied into, wholly or partly, from nothing.
   */
  ghost predicate LeftAt(src: Directory, dest: Option<Directory>, left: Option<Node>, n: string) {
    if n !in src.entries then
      left == if n in Or(dest).entries && Kept(src, n, Or(dest).entries[n]) then Some(Or(dest).entries[n]) else None
    else if src.entries[n].File? then
      left.Some? ==> left.value == src.entries[n] || At(Or(dest), n) == left
    else
      left.Some? ==> left.value.Dir? && (left.value == src.entries[n] || Partly(src.entries[n], Dir(map[]), left.value))
  }

  lemma FailedSyncIsPartial(src: Directory, dest: Option<Directory>, left: Directory, n: string)
    requires Partly(src, Cleared(src, dest), left)
    ensures LeftAt(src, dest, At(left, n), n)
  {
    hide Overlay, Partly, Cleared, Laid, Kept, At;
    PartlyAt(src, Cleared(src, dest), left, n);
    ClearedAt(src, dest, n);
    if n in src.entries {
      LaidOnNothing(src.entries[n]);
    }
  }

  lemma PartlyAt(src: Directory, dest: Directory, r: Directory, n: string)
    requires Partly(src, dest, r)
    ensures n !in src.entries ==> At(r, n) == At(dest, n)
    ensures n in r.entries && n in src.entries ==>
              || At(dest, n) == Some(r.entries[n])
              || r.entries[n] == Laid(src.entries[n], At(dest, n))
              || (src.entries[n].Dir? && r.entries[n].Dir? && Partly(src.entries[n], Below(At(dest, n)), r.entries[n]))
    ensures At(r, n) == if n in r.entries then Some(r.entries[n]) else None
  {
    hide Laid;
  }

  lemma ClearedAt(src: Directory, dest: Option<Directory>, n: string)
    ensures n in src.entries && src.entries[n].Dir? ==> At(Cleared(src, dest), n) == None
    ensures !(n in src.entries && src.entries[n].Dir?) ==>
              At(Cleared(src, dest), n)
              == if n in Or(dest).entries && Kept(src, n, Or(dest).entries[n]) then Some(Or(dest).entries[n]) else None
    ensures At(Or(dest), n) == if n in Or(dest).entries then Some(Or(dest).entries[n]) else None
  {
    hide Kept;
  }

  lemma LaidOnNothing(node: Node)
    ensures Laid(node, None) == node && (node.File? ==> forall there :: Laid(node, there) == node)
  {
    if node.Dir? {
      OverlayOnNothing(node);
    }
  }

  lemma EmptyCleared(src: Directory)
    ensures Cleared(src, None) == Dir(map[])
  {
    assert Cleared(src, None).entries == map[];
  }

  // ---------------------------------------------------------------------------------------------
  // Path by path
  // ---------------------------------------------------------------------------------------------

  /** What is at the end of a path. */
  function NodeAt(d: Directory, p: Path): Option<Node>
    decreases |p|
  {
    if p == [] then Some(d)
    else if p[0] !in d.entries then None
    else if d.entries[p[0]].Dir? then NodeAt(d.entries[p[0]], p[1..])
    else if |p| == 1 then Some(d.entries[p[0]])
    else None
  }

  predicate FileAt(d: Directory, p: Path) { NodeAt(d, p).Some? && NodeAt(d, p).value.File? }

  predicate DirAt(d: Directory, p: Path) { NodeAt(d, p).Some? && NodeAt(d, p).value.Dir? }

  lemma NodeBelow(d: Directory, n: string, p: Path)
    ensures NodeAt(d, [n] + p)
         == if n !in d.entries then None
            else if d.entries[n].Dir? then NodeAt(d.entries[n], p)
            else if p == [] then Some(d.entries[n]) else None
  {
    assert ([n] + p)[1..] == p;
  }

  /** Copying fails exactly if at some path one tree has a file and the other a directory. */
  lemma {:induction false} ClashMeaning(src: Directory, dest: Directory)
    ensures Clash(src, dest) <==> exists p :: (FileAt(src, p) && DirAt(dest, p)) || (DirAt(src, p) && FileAt(dest, p))
    decreases src
  {
    if Clash(src, dest) {
      var n :| n in src.entries && n in dest.entries &&
               if src.entries[n].File? then dest.entries[n].Dir?
               else dest.entries[n].File? || Clash(src.entries[n], dest.entries[n]);
      NodeBelow(src, n, []);
      NodeBelow(dest, n, []);
      if src.entries[n].Dir? && dest.entries[n].Dir? {
        ClashMeaning(src.entries[n], dest.entries[n]);
        var p :| (FileAt(src.entries[n], p) && DirAt(dest.entries[n], p)) || (DirAt(src.entries[n], p) && FileAt(dest.entries[n], p));
        NodeBelow(src, n, p);
        NodeBelow(dest, n, p);
        assert (FileAt(src, [n] + p) && DirAt(dest, [n] + p)) || (DirAt(src, [n] + p) && FileAt(dest, [n] + p));
      } else {
        assert (FileAt(src, [n] + []) && DirAt(dest, [n] + [])) || (DirAt(src, [n] + []) && FileAt(dest, [n] + []));
      }
    }
    if p :| (FileAt(src, p) && DirAt(dest, p)) || (DirAt(src, p) && FileAt(dest, p)) {
      var n := p[0];
      assert p == [n] + p[1..];
      NodeBelow(src, n, p[1..]);
      NodeBelow(dest, n, p[1..]);
      if src.entries[n].Dir? && dest.entries[n].Dir? {
        ClashMeaning(src.entries[n], dest.entries[n]);
        var q := p[1..];
        assert (FileAt(src.entries[n], q) && DirAt(dest.entries[n], q)) || (DirAt(src.entries[n], q) && FileAt(dest.entries[n], q));
      }
    }
  }

  /** Where copying does not fail, each file is the source's if the source has one there, and otherwise what was there. */
  lemma {:induction false} OverlayMeaning(src: Directory, dest: Directory, p: Path)
    requires !Clash(src, dest)
    ensures FileAt(src, p) ==> NodeAt(Overlay(src, dest), p) == NodeAt(src, p)
    ensures !FileAt(src, p) ==>
              (FileAt(Overlay(src, dest), p) <==> FileAt(dest, p)) &&
              (FileAt(dest, p) ==> NodeAt(Overlay(src, dest), p) == NodeAt(dest, p))
    ensures DirAt(Overlay(src, dest), p) <==> DirAt(src, p) || DirAt(dest, p)
    decreases |p|
  {
    if p != [] {
      var n, rest, laid := p[0], p[1..], Overlay(src, dest);
      assert p == [n] + rest;
      NodeBelow(src, n, rest);
      NodeBelow(dest, n, rest);
      NodeBelow(laid, n, rest);
      if n in src.entries && src.entries[n].Dir? {
        var there := if n in dest.entries && dest.entries[n].Dir? then dest.entries[n] else Dir(map[]);
        assert laid.entries[n] == Overlay(src.entries[n], there);
        OverlayOnNothing(src.entries[n]);
        OverlayMeaning(src.entries[n], there, rest);
        EmptyHasNothing(rest);
      }
    }
  }

  lemma EmptyHasNothing(p: Path)
    ensures NodeAt(Dir(map[]), p) == if p == [] then Some(Dir(map[])) else None
  {
  }

  lemma HasFileIsFileAt(d: Directory, p: Path)
    ensures HasFile(d, p) <==> FileAt(d, p)
    decreases |p|
  {
    if p != [] && p[0] in d.entries && d.entries[p[0]].Dir? {
      HasFileIsFileAt(d.entries[p[0]], p[1..]);
    }
  }

  /** A path is stale if its file is gone from the source, which has the file of the same stem and the other kind there. */
  lemma StalePathMeaning(src: Directory, dest: Directory, dir: Path, name: string)
    ensures StaleAt(src, dest, dir + [name]) <==>
            && FileAt(dest, dir + [name]) && !FileAt(src, dir + [name])
            && exists stem: string :: (name == stem + ".ts" && FileAt(src, dir + [stem + ".js"]))
                                      || (name == stem + ".js" && FileAt(src, dir + [stem + ".ts"]))
  {
    var p := dir + [name];
    assert p[|p| - 1] == name && p[..|p| - 1] == dir;
    HasFileIsFileAt(dest, p);
    HasFileIsFileAt(src, p);
    HasFileIsFileAt(src, dir + [Swapped(name)]);
    if stem: string :| (name == stem + ".ts" && FileAt(src, dir + [stem + ".js"])) || (name == stem + ".js" && FileAt(src, dir + [stem + ".ts"])) {
      Counterparts(stem);
    }
    if Compiled(name) {
      var stem := name[..|name| - 3];
      assert name == stem + name[|name| - 3..];
      Counterparts(stem);
    }
  }
}
