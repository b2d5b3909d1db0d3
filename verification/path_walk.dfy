/** The trusted path walk of `_root_controlled` (bluez_setup.py).

    The file system is a graph of inodes. `Resolve` is real path resolution
    (section 4.13 of POSIX.1-2017 Base Definitions): it works on inodes, takes
    `..` through the directory's parent entry and gives up after 40 links. The
    code never sees inodes: it keeps a path string and calls lstat on strings.
    `RootControlled` is that code, proved to accept exactly the paths whose
    real resolution is trusted all the way. */
module PathWalk {
  import opened Options

  type Id = nat

  const MAX_LINKS := 40

  datatype Node =
    | Dir(uid: nat, mode: bv16, entries: map<string, Id>, parent: Id)
    | Link(uid: nat, target: string)
    | File(uid: nat, mode: bv16)
    | Special(uid: nat, mode: bv16)

  datatype FileSystem = FileSystem(nodes: map<Id, Node>, root: Id) {
    /** Entries name existing nodes, and a directory's `..` is the one
        directory that lists it. */
    ghost predicate WellFormed() {
      && root in nodes && nodes[root].Dir? && nodes[root].parent == root
      && (forall d {:trigger nodes[d].parent} | IsDir(d) :: IsDir(nodes[d].parent))
      && (forall d, n {:trigger nodes[d].entries[n]} | IsDir(d) && n in nodes[d].entries ::
            var child := nodes[d].entries[n];
            child in nodes && (nodes[child].Dir? ==> nodes[child].parent == d))
    }

    /** Owned by root and, unless it is a link, not writable by others. */
    predicate Trusted(id: Id) {
      && id in nodes
      && nodes[id].uid == 0
      && (nodes[id].Link? || nodes[id].mode & 0x12 == 0)
    }

    predicate IsDir(id: Id) { id in nodes && nodes[id].Dir? }
    predicate IsFile(id: Id) { id in nodes && nodes[id].File? }
  }

  // ---- path strings -------------------------------------------------------

  /** `text.split("/")` */
  function Split(text: string): (parts: seq<string>)
    ensures |parts| >= 1
    ensures forall i | 0 <= i < |parts| :: '/' !in parts[i]
  {
    if text == "" then [""]
    else
      var rest := Split(text[1..]);
      if text[0] == '/' then [""] + rest else [[text[0]] + rest[0]] + rest[1..]
  }

  predicate IsAbs(path: string) { path != "" && path[0] == '/' }

  /** `os.path.join` */
  function Join(head: string, part: string): string {
    if IsAbs(part) then part
    else if head == "" || head[|head| - 1] == '/' then head + part
    else head + "/" + part
  }

  /** One past the last slash: `path.rfind("/") + 1`. */
  function AfterSlash(path: string): (i: nat)
    ensures i <= |path|
  {
    if path == "" then 0
    else if path[|path| - 1] == '/' then |path|
    else AfterSlash(path[..|path| - 1])
  }

  function StripSlashes(path: string): string {
    if path != "" && path[|path| - 1] == '/' then StripSlashes(path[..|path| - 1]) else path
  }

  /** `os.path.dirname` */
  function DirName(path: string): string {
    var head := path[..AfterSlash(path)];
    if forall i | 0 <= i < |head| :: head[i] == '/' then head else StripSlashes(head)
  }

  predicate IsName(part: string) { part != "" && part != "." && part != ".." && '/' !in part }

  /** The canonical string of a list of names: no links, dots or doubled slashes. */
  function Render(names: seq<string>): (path: string)
    ensures IsAbs(path)
  {
    if |names| == 0 then "/"
    else if |names| == 1 then "/" + names[0]
    else Render(names[..|names| - 1]) + "/" + names[|names| - 1]
  }

  // ---- real path resolution -----------------------------------------------

  datatype Outcome = Reached(node: Id, way: seq<Id>) | Failed {
    function After(visited: seq<Id>): Outcome {
      if Failed? then Failed else Reached(node, visited + way)
    }
  }

  /** Resolve `parts` from directory `at`. `way` lists every node the
      resolution goes through: directories entered (also through `..`), links
      read, and the end. `links` were followed before. */
  function Resolve(fs: FileSystem, at: Id, parts: seq<string>, links: nat, follow: bool): Outcome
    decreases MAX_LINKS + 1 - links, |parts|
  {
    if parts == [] then Reached(at, [])
    else if !fs.IsDir(at) then Failed
    else
      var part, rest := parts[0], parts[1..];
      if part == "" || part == "." then Resolve(fs, at, rest, links, follow)
      else if part == ".." then
        var up := fs.nodes[at].parent;
        Resolve(fs, up, rest, links, follow).After([up])
      else if part !in fs.nodes[at].entries then Failed
      else
        var next := fs.nodes[at].entries[part];
        if next !in fs.nodes then Failed
        else if !fs.nodes[next].Link? then Resolve(fs, next, rest, links, follow).After([next])
        else if rest == [] && !follow then Reached(next, [next])
        else
          var target := fs.nodes[next].target;
          if links >= MAX_LINKS || target == "" then Failed
          else if IsAbs(target) then
            Resolve(fs, fs.root, Split(target) + rest, links + 1, follow).After([next, fs.root])
          else
            Resolve(fs, at, Split(target) + rest, links + 1, follow).After([next])
  }

  /** Resolution of an absolute path, following a final link. */
  function ResolvePath(fs: FileSystem, path: string): Outcome {
    Resolve(fs, fs.root, Split(path), 0, true).After([fs.root])
  }

  /** What lstat(path) finds for an absolute path; None stands for OSError. */
  function Lstat(fs: FileSystem, path: string): Option<Id> {
    match Resolve(fs, fs.root, Split(path), 0, false)
    case Reached(id, _) => if id in fs.nodes then Some(id) else None
    case Failed => None
  }

  /** The guarantee: resolution reaches a regular file and everything on the
      way there is in root's hands alone. */
  ghost predicate Accepted(fs: FileSystem, outcome: Outcome) {
    && outcome.Reached?
    && fs.IsFile(outcome.node)
    && forall i | 0 <= i < |outcome.way| :: fs.Trusted(outcome.way[i])
  }

  // ---- strings name inodes ------------------------------------------------

  ghost predicate Names(names: seq<string>) { forall i | 0 <= i < |names| :: IsName(names[i]) }

  lemma {:induction false} SplitName(name: string)
    requires '/' !in name
    ensures Split(name) == [name]
  {
    if name != "" {
      assert name[0] in name;
      assert forall c | c in name[1..] :: c in name;
      SplitName(name[1..]);
      assert [name[0]] + name[1..] == name;
    }
  }

  lemma {:induction false} SplitJoined(head: string, name: string)
    requires '/' !in name
    ensures Split(head + "/" + name) == Split(head) + [name]
  {
    var text := head + "/" + name;
    if head == "" {
      assert text[1..] == name;
      SplitName(name);
    } else {
      assert text[1..] == head[1..] + "/" + name;
      SplitJoined(head[1..], name);
      var rest := Split(head[1..]);
      assert (rest + [name])[1..] == rest[1..] + [name];
    }
  }

  lemma {:induction false} SplitRendered(names: seq<string>)
    requires Names(names) && names != []
    ensures Split(Render(names)) == [""] + names
  {
    var last := names[|names| - 1];
    var init := names[..|names| - 1];
    assert init + [last] == names;
    if init == [] {
      assert Render(names) == "" + "/" + last;
      SplitJoined("", last);
    } else {
      SplitRendered(init);
      SplitJoined(Render(init), last);
    }
  }

  lemma {:induction false} NoTrailingSlash(names: seq<string>)
    requires Names(names) && names != []
    ensures var path := Render(names); path[|path| - 1] != '/'
  {
    var last := names[|names| - 1];
    assert last[|last| - 1] in last;
  }

  lemma {:induction false} AfterSlashOf(head: string, name: string)
    requires '/' !in name
    ensures AfterSlash(head + "/" + name) == |head| + 1
  {
    var text := head + "/" + name;
    if name != "" {
      assert name[|name| - 1] in name;
      assert text[..|text| - 1] == head + "/" + name[..|name| - 1];
      AfterSlashOf(head, name[..|name| - 1]);
    }
  }

  lemma {:induction false} DirNameJoined(head: string, name: string)
    requires '/' !in name
    requires head == "" || head[|head| - 1] != '/'
    ensures DirName(head + "/" + name) == if head == "" then "/" else head
  {
    AfterSlashOf(head, name);
    var cut := head + "/";
    assert (head + "/" + name)[..|head| + 1] == cut;
    assert cut[..|head|] == head;
    if head == "" {
      assert cut == "/";
    } else {
      assert cut[|head| - 1] != '/';
      assert StripSlashes(cut) == StripSlashes(head) == head;
    }
  }

  /** `os.path.dirname` of a canonical path drops its last name. */
  lemma {:induction false} DirNameOfRendered(names: seq<string>)
    requires Names(names)
    ensures DirName(Render(names)) == Render(if names == [] then [] else names[..|names| - 1])
  {
    if names == [] {
      assert AfterSlash("/") == 1;
    } else if |names| == 1 {
      assert Render(names) == "" + "/" + names[0];
      DirNameJoined("", names[0]);
    } else {
      NoTrailingSlash(names[..|names| - 1]);
      DirNameJoined(Render(names[..|names| - 1]), names[|names| - 1]);
    }
  }

  lemma {:induction false} JoinRendered(names: seq<string>, name: string)
    requires Names(names) && IsName(name)
    ensures Join(Render(names), name) == Render(names + [name])
  {
    assert name[0] in name;
    if names != [] {
      NoTrailingSlash(names);
      assert (names + [name])[..|names|] == names;
    }
  }

  /** `chain` holds the directories a canonical path goes through, one more
      than its names, all trusted. */
  ghost predicate Checked(fs: FileSystem, names: seq<string>, chain: seq<Id>) {
    && |chain| == |names| + 1
    && (forall i | 0 <= i < |chain| :: fs.IsDir(chain[i]) && fs.Trusted(chain[i]))
    && (forall i {:trigger names[i]} | 0 <= i < |names| ::
          && IsName(names[i])
          && names[i] in fs.nodes[chain[i]].entries
          && fs.nodes[chain[i]].entries[names[i]] == chain[i + 1])
  }

  /** Real resolution walks plain names one directory entry at a time. */
  lemma {:induction false} ResolvePlain(fs: FileSystem, names: seq<string>, chain: seq<Id>, name: string)
    requires fs.WellFormed() && Checked(fs, names, chain) && IsName(name)
    ensures var entries := fs.nodes[chain[|names|]].entries;
            var r := Resolve(fs, chain[0], names + [name], 0, false);
            && (name in entries <==> r.Reached?)
            && (r.Reached? ==> r.node == entries[name])
    decreases |names|
  {
    if names == [] {
      assert [] + [name] == [name] && [name][1..] == [];
    } else {
      assert (names + [name])[1..] == names[1..] + [name];
      ResolvePlain(fs, names[1..], chain[1..], name);
    }
  }

  /** lstat of a canonical path finds the named entry of its directory. */
  lemma {:induction false} LstatChild(fs: FileSystem, names: seq<string>, chain: seq<Id>, name: string)
    requires fs.WellFormed() && Checked(fs, names, chain) && chain[0] == fs.root && IsName(name)
    ensures var entries := fs.nodes[chain[|names|]].entries;
            Lstat(fs, Render(names + [name])) == if name in entries then Some(entries[name]) else None
  {
    SplitRendered(names + [name]);
    assert ([""] + (names + [name]))[1..] == names + [name];
    ResolvePlain(fs, names, chain, name);
  }

  lemma LstatRoot(fs: FileSystem)
    requires fs.WellFormed()
    ensures Lstat(fs, "/") == Some(fs.root)
  {
    assert Split("/") == ["", ""];
    assert ["", ""][1..] == [""] && [""][1..] == [];
    assert Resolve(fs, fs.root, [""], 0, false) == Reached(fs.root, []);
  }

  // ---- the walk -----------------------------------------------------------

  lemma AfterTwice(outcome: Outcome, visited: seq<Id>, more: seq<Id>)
    ensures outcome.After(more).After(visited) == outcome.After(visited + more)
  {
    if outcome.Reached? {
      assert visited + (more + outcome.way) == (visited + more) + outcome.way;
    }
  }

  /** Where the walk stands: directory `at`, whose canonical path has these
      names, after visiting these nodes. */
  datatype Spot = Spot(names: seq<string>, chain: seq<Id>, at: Id, visited: seq<Id>) {
    ghost predicate In(fs: FileSystem, current: string) {
      && Checked(fs, names, chain)
      && chain[0] == fs.root && chain[|names|] == at
      && current == Render(names)
    }

    function Up(parent: Id): Spot
      requires |chain| > |names|
    {
      if names == [] then this.(at := parent, visited := visited + [parent])
      else Spot(names[..|names| - 1], chain[..|names|], parent, visited + [parent])
    }

    function Down(name: string, next: Id): Spot {
      Spot(names + [name], chain + [next], next, visited + [next])
    }

    function Via(link: Id): Spot { this.(visited := visited + [link]) }

    function Restart(link: Id, root: Id): Spot { Spot([], [root], root, visited + [link, root]) }
  }

  lemma CheckedUp(fs: FileSystem, names: seq<string>, chain: seq<Id>)
    requires Checked(fs, names, chain) && names != []
    ensures Checked(fs, names[..|names| - 1], chain[..|names|])
    ensures var entries, last := fs.nodes[chain[|names| - 1]].entries, names[|names| - 1];
            IsName(last) && last in entries && entries[last] == chain[|names|]
  {
  }

  lemma {:induction false} LstatStanding(fs: FileSystem, current: string, spot: Spot)
    requires fs.WellFormed() && spot.In(fs, current)
    ensures Lstat(fs, current) == Some(spot.at)
  {
    var names := spot.names;
    if names == [] {
      LstatRoot(fs);
    } else {
      CheckedUp(fs, names, spot.chain);
      LstatChild(fs, names[..|names| - 1], spot.chain[..|names|], names[|names| - 1]);
      assert names[..|names| - 1] + [names[|names| - 1]] == names;
    }
  }

  lemma StepDown(fs: FileSystem, current: string, spot: Spot, name: string)
    requires fs.WellFormed() && spot.In(fs, current) && IsName(name)
    ensures var entries := fs.nodes[spot.at].entries;
            && Lstat(fs, Join(current, name)) == (if name in entries then Some(entries[name]) else None)
            && (name in entries && fs.IsDir(entries[name]) && fs.Trusted(entries[name])
                ==> spot.Down(name, entries[name]).In(fs, Join(current, name)))
  {
    assert Join(current, name) == Render(spot.names + [name]) by {
      assert forall i | 0 <= i < |spot.names| :: IsName(spot.names[i]);
      JoinRendered(spot.names, name);
    }
    LstatChild(fs, spot.names, spot.chain, name);
  }

  /** Dropping the last name leads to the inode's own `..`, checked before. */
  lemma StepUp(fs: FileSystem, current: string, spot: Spot)
    requires fs.WellFormed() && spot.In(fs, current)
    ensures var up := fs.nodes[spot.at].parent;
            fs.Trusted(up) && spot.Up(up).In(fs, DirName(current))
  {
    DirNameOfRendered(spot.names);
    if spot.names != [] {
      assert fs.nodes[spot.chain[|spot.names| - 1]].entries[spot.names[|spot.names| - 1]] == spot.at;
    }
  }

  ghost predicate AllTrusted(fs: FileSystem, ids: seq<Id>) {
    forall i | 0 <= i < |ids| :: fs.Trusted(ids[i])
  }

  /** The walk's invariant: everything visited is trusted, and resolving
      `remaining` from here completes the resolution of the whole path. */
  ghost predicate Walking(fs: FileSystem, path: string, current: string, remaining: seq<string>, links: nat,
                          spot: Spot) {
    && links <= MAX_LINKS
    && (forall i | 0 <= i < |remaining| :: '/' !in remaining[i])
    && AllTrusted(fs, spot.visited)
    && ResolvePath(fs, path) == Resolve(fs, spot.at, remaining, links, true).After(spot.visited)
    && Lstat(fs, current) == Some(spot.at)
    && (remaining != [] ==> spot.In(fs, current))
  }

  lemma WalkStart(fs: FileSystem, path: string)
    requires fs.WellFormed()
    ensures Lstat(fs, "/") == Some(fs.root)
    ensures !fs.Trusted(fs.root) ==> !Accepted(fs, ResolvePath(fs, path))
    ensures fs.Trusted(fs.root)
            ==> Walking(fs, path, "/", Split(path), 0, Spot([], [fs.root], fs.root, [fs.root]))
  {
    LstatRoot(fs);
    assert ResolvePath(fs, path).Reached? ==> ResolvePath(fs, path).way[0] == fs.root;
  }

  lemma WalkEnd(fs: FileSystem, path: string, current: string, links: nat, spot: Spot)
    requires fs.WellFormed() && Walking(fs, path, current, [], links, spot)
    ensures Lstat(fs, current) == Some(spot.at)
    ensures Accepted(fs, ResolvePath(fs, path)) <==> fs.IsFile(spot.at)
  {
    assert spot.visited + [] == spot.visited;
  }

  lemma WalkUp(fs: FileSystem, path: string, current: string, remaining: seq<string>, links: nat, spot: Spot)
    requires fs.WellFormed() && Walking(fs, path, current, remaining, links, spot)
    requires remaining != [] && remaining[0] == ".."
    ensures var up := fs.nodes[spot.at].parent;
            Walking(fs, path, DirName(current), remaining[1..], links, spot.Up(up))
  {
    StepUp(fs, current, spot);
    var up := fs.nodes[spot.at].parent;
    LstatStanding(fs, DirName(current), spot.Up(up));
    AfterTwice(Resolve(fs, up, remaining[1..], links, true), spot.visited, [up]);
  }

  lemma WalkAbsoluteLink(fs: FileSystem, path: string, current: string, remaining: seq<string>, links: nat,
                         spot: Spot, next: Id)
    requires fs.WellFormed() && Walking(fs, path, current, remaining, links, spot)
    requires fs.Trusted(fs.root) && links < MAX_LINKS
    requires remaining != [] && IsName(remaining[0])
    requires Lstat(fs, Join(current, remaining[0])) == Some(next)
    requires fs.Trusted(next) && fs.nodes[next].Link? && fs.nodes[next].target != ""
    requires IsAbs(fs.nodes[next].target)
    ensures Walking(fs, path, "/", Split(fs.nodes[next].target) + remaining[1..], links + 1,
                    spot.Restart(next, fs.root))
  {
    var ahead := Split(fs.nodes[next].target) + remaining[1..];
    StepDown(fs, current, spot, remaining[0]);
    LstatRoot(fs);
    AfterTwice(Resolve(fs, fs.root, ahead, links + 1, true), spot.visited, [next, fs.root]);
  }

  lemma WalkRelativeLink(fs: FileSystem, path: string, current: string, remaining: seq<string>, links: nat,
                         spot: Spot, next: Id)
    requires fs.WellFormed() && Walking(fs, path, current, remaining, links, spot)
    requires fs.Trusted(fs.root) && links < MAX_LINKS
    requires remaining != [] && IsName(remaining[0])
    requires Lstat(fs, Join(current, remaining[0])) == Some(next)
    requires fs.Trusted(next) && fs.nodes[next].Link? && fs.nodes[next].target != ""
    requires !IsAbs(fs.nodes[next].target)
    ensures Walking(fs, path, current, Split(fs.nodes[next].target) + remaining[1..], links + 1, spot.Via(next))
  {
    var ahead := Split(fs.nodes[next].target) + remaining[1..];
    StepDown(fs, current, spot, remaining[0]);
    AfterTwice(Resolve(fs, spot.at, ahead, links + 1, true), spot.visited, [next]);
  }

  lemma WalkLink(fs: FileSystem, path: string, current: string, remaining: seq<string>, links: nat, spot: Spot,
                 next: Id)
    requires fs.WellFormed() && Walking(fs, path, current, remaining, links, spot)
    requires fs.Trusted(fs.root) && links < MAX_LINKS
    requires remaining != [] && IsName(remaining[0])
    requires Lstat(fs, Join(current, remaining[0])) == Some(next)
    requires fs.Trusted(next) && fs.nodes[next].Link? && fs.nodes[next].target != ""
    ensures var target := fs.nodes[next].target;
            var ahead := Split(target) + remaining[1..];
            if IsAbs(target) then Walking(fs, path, "/", ahead, links + 1, spot.Restart(next, fs.root))
            else Walking(fs, path, current, ahead, links + 1, spot.Via(next))
  {
    if IsAbs(fs.nodes[next].target) {
      WalkAbsoluteLink(fs, path, current, remaining, links, spot, next);
    } else {
      WalkRelativeLink(fs, path, current, remaining, links, spot, next);
    }
  }

  lemma WalkEntry(fs: FileSystem, path: string, current: string, remaining: seq<string>, links: nat, spot: Spot,
                  next: Id)
    requires fs.WellFormed() && Walking(fs, path, current, remaining, links, spot)
    requires remaining != [] && IsName(remaining[0])
    requires Lstat(fs, Join(current, remaining[0])) == Some(next)
    requires fs.Trusted(next) && !fs.nodes[next].Link?
    requires remaining[1..] == [] || fs.IsDir(next)
    ensures Walking(fs, path, Join(current, remaining[0]), remaining[1..], links, spot.Down(remaining[0], next))
  {
    StepDown(fs, current, spot, remaining[0]);
    AfterTwice(Resolve(fs, next, remaining[1..], links, true), spot.visited, [next]);
  }

  lemma UntrustedRefused(fs: FileSystem, outcome: Outcome, visited: seq<Id>, next: Id, more: seq<Id>)
    requires !fs.Trusted(next)
    ensures !Accepted(fs, outcome.After([next] + more).After(visited))
  {
    AfterTwice(outcome, visited, [next] + more);
    if outcome.Reached? {
      assert (visited + ([next] + more) + outcome.way)[|visited|] == next;
    }
  }

  /** Each reason to refuse an entry means the real resolution is unacceptable. */
  lemma {:induction false} WalkRefused(fs: FileSystem, path: string, current: string, remaining: seq<string>,
                                       links: nat, spot: Spot)
    requires fs.WellFormed() && Walking(fs, path, current, remaining, links, spot)
    requires remaining != [] && IsName(remaining[0])
    requires match Lstat(fs, Join(current, remaining[0]))
             case None => true
             case Some(next) =>
               || !fs.Trusted(next)
               || (fs.nodes[next].Link? && (links == MAX_LINKS || fs.nodes[next].target == ""))
               || (!fs.nodes[next].Link? && remaining[1..] != [] && !fs.IsDir(next))
    ensures !Accepted(fs, ResolvePath(fs, path))
  {
    StepDown(fs, current, spot, remaining[0]);
    var rest := remaining[1..];
    if remaining[0] in fs.nodes[spot.at].entries {
      var next := fs.nodes[spot.at].entries[remaining[0]];
      if !fs.nodes[next].Link? {
        if !fs.Trusted(next) {
          assert [next] + [] == [next];
          UntrustedRefused(fs, Resolve(fs, next, rest, links, true), spot.visited, next, []);
        } else {
          assert Resolve(fs, next, rest, links, true).Failed?;
        }
      } else if links < MAX_LINKS && fs.nodes[next].target != "" {
        var target := fs.nodes[next].target;
        if IsAbs(target) {
          assert [next] + [fs.root] == [next, fs.root];
          UntrustedRefused(fs, Resolve(fs, fs.root, Split(target) + rest, links + 1, true), spot.visited, next,
                           [fs.root]);
        } else {
          assert [next] + [] == [next];
          UntrustedRefused(fs, Resolve(fs, spot.at, Split(target) + rest, links + 1, true), spot.visited, next, []);
        }
      }
    }
  }

  /** bluez_setup.py:185-241. `fs` answers stat and readlink. */
  method RootControlled(fs: FileSystem, path: string) returns (ok: bool)
    requires fs.WellFormed()
    ensures ok <==> IsAbs(path) && Accepted(fs, ResolvePath(fs, path))
  {
    if !IsAbs(path) {
      return false;
    }
    var current := "/";
    var remaining := Split(path);
    var links := 0;
    WalkStart(fs, path);
    var root := Lstat(fs, current);
    if !fs.Trusted(root.value) || !fs.IsDir(root.value) {
      return false;
    }
    ghost var spot := Spot([], [fs.root], fs.root, [fs.root]);
    while remaining != []
      invariant links <= MAX_LINKS
      invariant Walking(fs, path, current, remaining, links, spot)
      decreases MAX_LINKS + 1 - links, |remaining|
    {
      ghost var before := remaining;
      var part := remaining[0];
      remaining := remaining[1..];
      if part == "" || part == "." {
        continue;
      }
      if part == ".." {
        WalkUp(fs, path, current, before, links, spot);
        current := DirName(current);
        spot := spot.Up(fs.nodes[spot.at].parent);
        continue;
      }
      var candidate := Join(current, part);
      var info := Lstat(fs, candidate);
      if info.None? || fs.nodes[info.value].uid != 0 {
        WalkRefused(fs, path, current, before, links, spot);
        return false;
      }
      if fs.nodes[info.value].Link? {
        var target := fs.nodes[info.value].target;
        if links + 1 > MAX_LINKS || target == "" {
          WalkRefused(fs, path, current, before, links, spot);
          return false;
        }
        WalkLink(fs, path, current, before, links, spot, info.value);
        links := links + 1;
        if IsAbs(target) {
          current := "/";
          spot := spot.Restart(info.value, fs.root);
        } else {
          spot := spot.Via(info.value);
        }
        remaining := Split(target) + remaining;
        continue;
      }
      if fs.nodes[info.value].mode & 0x12 != 0 || (remaining != [] && !fs.IsDir(info.value)) {
        WalkRefused(fs, path, current, before, links, spot);
        return false;
      }
      WalkEntry(fs, path, current, before, links, spot, info.value);
      current := candidate;
      spot := spot.Down(part, info.value);
    }
    WalkEnd(fs, path, current, links, spot);
    var end := Lstat(fs, current);
    return fs.IsFile(end.value);
  }

  // ---- what acceptance is for ---------------------------------------------

  /** `after` is what anyone but root can make of `before`: nodes that root
      alone controls are as they were; all others may be anything. */
  ghost predicate UnprivilegedChange(before: FileSystem, after: FileSystem) {
    && after.root == before.root
    && forall id | before.Trusted(id) :: id in after.nodes && after.nodes[id] == before.nodes[id]
  }

  lemma {:induction false} SameResolution(fs: FileSystem, after: FileSystem, at: Id, parts: seq<string>,
                                          links: nat)
    requires fs.WellFormed() && UnprivilegedChange(fs, after)
    requires fs.Trusted(at) && fs.Trusted(fs.root)
    requires Accepted(fs, Resolve(fs, at, parts, links, true))
    ensures Resolve(after, at, parts, links, true) == Resolve(fs, at, parts, links, true)
    decreases MAX_LINKS + 1 - links, |parts|
  {
    if parts == [] {
      return;
    }
    var whole := Resolve(fs, at, parts, links, true);
    var part, rest := parts[0], parts[1..];
    if part == "" || part == "." {
      SameResolution(fs, after, at, rest, links);
      return;
    }
    assert whole.way != [] ==> fs.Trusted(whole.way[0]);
    if part == ".." {
      var up := fs.nodes[at].parent;
      WayTail(fs, [up], Resolve(fs, up, rest, links, true));
      SameResolution(fs, after, up, rest, links);
      return;
    }
    var next := fs.nodes[at].entries[part];
    if !fs.nodes[next].Link? {
      WayTail(fs, [next], Resolve(fs, next, rest, links, true));
      SameResolution(fs, after, next, rest, links);
    } else {
      var target := fs.nodes[next].target;
      if IsAbs(target) {
        WayTail(fs, [next, fs.root], Resolve(fs, fs.root, Split(target) + rest, links + 1, true));
        SameResolution(fs, after, fs.root, Split(target) + rest, links + 1);
      } else {
        WayTail(fs, [next], Resolve(fs, at, Split(target) + rest, links + 1, true));
        SameResolution(fs, after, at, Split(target) + rest, links + 1);
      }
    }
  }

  lemma WayTail(fs: FileSystem, head: seq<Id>, tail: Outcome)
    requires Accepted(fs, tail.After(head))
    ensures Accepted(fs, tail)
    ensures forall i | 0 <= i < |head| :: fs.Trusted(head[i])
  {
    forall i | 0 <= i < |tail.way|
      ensures fs.Trusted(tail.way[i])
    {
      assert (head + tail.way)[|head| + i] == tail.way[i];
    }
    forall i | 0 <= i < |head|
      ensures fs.Trusted(head[i])
    {
      assert (head + tail.way)[i] == head[i];
    }
  }

  /** Nobody but root can make an accepted path lead anywhere else. */
  lemma AcceptedPathCannotBeRedirected(fs: FileSystem, after: FileSystem, path: string)
    requires fs.WellFormed() && UnprivilegedChange(fs, after)
    requires Accepted(fs, ResolvePath(fs, path))
    ensures ResolvePath(after, path) == ResolvePath(fs, path)
    ensures var end := ResolvePath(fs, path).node;
            end in after.nodes && after.nodes[end] == fs.nodes[end]
  {
    var tail := Resolve(fs, fs.root, Split(path), 0, true);
    WayTail(fs, [fs.root], tail);
    assert fs.Trusted([fs.root][0]);
    SameResolution(fs, after, fs.root, Split(path), 0);
    EndOnTheWay(fs, fs.root, Split(path), 0);
  }

  /** A resolution that ends in a file has that file on its way. */
  lemma {:induction false} EndOnTheWay(fs: FileSystem, at: Id, parts: seq<string>, links: nat)
    requires fs.WellFormed() && fs.IsDir(at)
    requires var r := Resolve(fs, at, parts, links, true); r.Reached? && fs.IsFile(r.node)
    ensures var r := Resolve(fs, at, parts, links, true); r.node in r.way
    decreases MAX_LINKS + 1 - links, |parts|
  {
    var part, rest := parts[0], parts[1..];
    if part == "" || part == "." {
      EndOnTheWay(fs, at, rest, links);
    } else if part == ".." {
      EndOnTheWay(fs, fs.nodes[at].parent, rest, links);
    } else {
      var next := fs.nodes[at].entries[part];
      if fs.nodes[next].Link? {
        var target := fs.nodes[next].target;
        EndOnTheWay(fs, if IsAbs(target) then fs.root else at, Split(target) + rest, links + 1);
      } else if fs.IsDir(next) {
        EndOnTheWay(fs, next, rest, links);
      }
    }
  }
}
