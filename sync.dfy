/** Directory synchronisation bookkeeping (Shared/Sync.py): the recursive listing of a synced
    folder, the watchdog event filter, and the `SyncClient` / `SyncServer` state -- the known
    files, the suppressed paths and the started flag -- with the messages each one emits.
    The directory is an abstract tree; file contents, hashes and modification times are
    opaque inputs, and writes to the folder are returned as operations. */
module Sync {
  import opened Lists

  /** A directory entry: a file, or a folder with its entries in `os.listdir` order. */
  datatype Node = File(name: string) | Dir(name: string, children: seq<Node>)

  /** A name a real directory can hold: non-empty and without a slash. */
  predicate EntryName(s: string) {
    s != [] && '/' !in s
  }

  /** What a real directory guarantees: proper names, and no two entries of one folder with
      the same name. */
  ghost predicate Tree(items: seq<Node>)
    decreases items
  {
    (forall i :: 0 <= i < |items| ==> EntryName(items[i].name))
    && (forall i, j :: 0 <= i < j < |items| ==> items[i].name != items[j].name)
    && (forall i :: 0 <= i < |items| ==> items[i].Dir? ==> Tree(items[i].children))
  }

  /** The component lists `ps`, each put below the folder `name`. */
  function Prefixed(name: string, ps: seq<seq<string>>): (r: seq<seq<string>>)
    ensures |r| == |ps|
    ensures forall i :: 0 <= i < |ps| ==> r[i] == [name] + ps[i]
  {
    seq(|ps|, i requires 0 <= i < |ps| => [name] + ps[i])
  }

  lemma InPrefixed(name: string, ps: seq<seq<string>>, q: seq<string>)
    ensures q in Prefixed(name, ps) <==> |q| >= 1 && q[0] == name && q[1..] in ps
  {
    var r := Prefixed(name, ps);
    if q in r {
      var i :| 0 <= i < |r| && r[i] == q;
      assert q[1..] == ps[i];
    }
    if |q| >= 1 && q[0] == name && q[1..] in ps {
      var i :| 0 <= i < |ps| && ps[i] == q[1..];
      assert r[i] == q;
    }
  }

  /** `relative_recursive_ls` on one entry, as component lists relative to the synced folder:
      an excluded name is skipped with everything below it, a file lists itself, and a folder
      lists its own contents. */
  function ListNode(n: Node, exclude: seq<string>): (r: seq<seq<string>>)
    ensures forall i :: 0 <= i < |r| ==> |r[i]| >= 1 && r[i][0] == n.name && n.name !in exclude
    decreases n
  {
    if n.name in exclude then []
    else if n.File? then [[n.name]]
    else Prefixed(n.name, ListItems(n.children, exclude))
  }

  /** `relative_recursive_ls` over the entries of one folder, in `os.listdir` order. */
  function ListItems(items: seq<Node>, exclude: seq<string>): (r: seq<seq<string>>)
    ensures forall i :: 0 <= i < |r| ==> |r[i]| >= 1 && r[i][0] !in exclude
    decreases items
  {
    if items == [] then [] else ListNode(items[0], exclude) + ListItems(items[1..], exclude)
  }

  /** `p` names a file reached from entry `n`: its first component is `n`'s name, and the
      rest leads to a file inside `n`. */
  ghost predicate FileAt(n: Node, p: seq<string>)
    decreases n
  {
    |p| >= 1 && p[0] == n.name && (if n.File? then |p| == 1 else FileIn(n.children, p[1..]))
  }

  /** `p` names a file reached from one of `items`. */
  ghost predicate FileIn(items: seq<Node>, p: seq<string>)
    decreases items
  {
    exists i :: 0 <= i < |items| && FileAt(items[i], p)
  }

  /** No component of `p` is an excluded name. */
  predicate Clean(p: seq<string>, exclude: seq<string>) {
    forall k :: 0 <= k < |p| ==> p[k] !in exclude
  }

  lemma CleanCons(p: seq<string>, exclude: seq<string>)
    requires |p| >= 1
    ensures Clean(p, exclude) <==> p[0] !in exclude && Clean(p[1..], exclude)
  {
    if p[0] !in exclude && Clean(p[1..], exclude) {
      forall k | 0 <= k < |p| ensures p[k] !in exclude {
        if k > 0 { assert p[k] == p[1..][k - 1]; }
      }
    }
    if Clean(p, exclude) {
      forall k | 0 <= k < |p[1..]| ensures p[1..][k] !in exclude {
        assert p[1..][k] == p[k + 1];
      }
    }
  }

  /** The listing below one entry holds exactly the files there whose path avoids every
      excluded name. */
  lemma {:induction false} ListNodeExact(n: Node, exclude: seq<string>, p: seq<string>)
    decreases n
    ensures p in ListNode(n, exclude) <==> FileAt(n, p) && Clean(p, exclude)
  {
    if |p| >= 1 {
      CleanCons(p, exclude);
    }
    if n.name in exclude {
      assert !(FileAt(n, p) && Clean(p, exclude)) by {
        if FileAt(n, p) { assert p[0] in exclude; }
      }
    } else if n.File? {
      if FileAt(n, p) { assert p == [n.name]; }
    } else {
      InPrefixed(n.name, ListItems(n.children, exclude), p);
      if |p| >= 1 {
        ListItemsExact(n.children, exclude, p[1..]);
      }
    }
  }

  /** Soundness and completeness of `relative_recursive_ls`: a path is listed exactly when it
      leads to a file and none of its components is excluded. */
  lemma {:induction false} ListItemsExact(items: seq<Node>, exclude: seq<string>, p: seq<string>)
    decreases items
    ensures p in ListItems(items, exclude) <==> FileIn(items, p) && Clean(p, exclude)
  {
    if items != [] {
      ListNodeExact(items[0], exclude, p);
      ListItemsExact(items[1..], exclude, p);
      if FileIn(items, p) {
        var i :| 0 <= i < |items| && FileAt(items[i], p);
        if i > 0 {
          assert items[1..][i - 1] == items[i];
        }
      }
      if FileIn(items[1..], p) {
        var i :| 0 <= i < |items[1..]| && FileAt(items[1..][i], p);
        assert items[1..][i] == items[i + 1];
      }
    }
  }

  lemma PrefixedNoDup(name: string, ps: seq<seq<string>>)
    requires NoDup(ps)
    ensures NoDup(Prefixed(name, ps))
  {
    var r := Prefixed(name, ps);
    forall i, j | 0 <= i < j < |r| ensures r[i] != r[j] {
      assert r[i][1..] == ps[i] && r[j][1..] == ps[j];
    }
  }

  lemma TreeTail(items: seq<Node>)
    requires Tree(items) && items != []
    ensures Tree(items[1..])
  {
    var t := items[1..];
    forall i | 0 <= i < |t| ensures t[i] == items[i + 1] {}
  }

  /** Every path listed from a tree of entries names a different file: one path per file. */
  lemma {:induction false} ListItemsNoDup(items: seq<Node>, exclude: seq<string>)
    requires Tree(items)
    decreases items
    ensures NoDup(ListItems(items, exclude))
  {
    if items != [] {
      var n := items[0];
      var a := ListNode(n, exclude);
      var b := ListItems(items[1..], exclude);
      if n.Dir? && n.name !in exclude {
        ListItemsNoDup(n.children, exclude);
        PrefixedNoDup(n.name, ListItems(n.children, exclude));
      }
      TreeTail(items);
      ListItemsNoDup(items[1..], exclude);
      forall y | y in b ensures y !in a {
        ListItemsExact(items[1..], exclude, y);
        ListNodeExact(n, exclude, y);
        var j :| 0 <= j < |items[1..]| && FileAt(items[1..][j], y);
        assert items[1..][j] == items[j + 1];
      }
      NoDupConcat(a, b);
    }
  }

  /** Every component of a path to a file in a tree is a proper entry name. */
  lemma {:induction false} FileInNames(items: seq<Node>, p: seq<string>)
    requires Tree(items) && FileIn(items, p)
    decreases items
    ensures |p| >= 1
    ensures forall k :: 0 <= k < |p| ==> EntryName(p[k])
  {
    var i :| 0 <= i < |items| && FileAt(items[i], p);
    var n := items[i];
    if n.Dir? {
      FileInNames(n.children, p[1..]);
      forall k | 0 <= k < |p| ensures EntryName(p[k]) {
        if k > 0 { assert p[k] == p[1..][k - 1]; }
      }
    }
  }

  /** Component lists joined with '/', as `os.path.relpath` spells them. */
  function Joined(ps: seq<seq<string>>): (r: seq<string>)
    ensures |r| == |ps|
    ensures forall i :: 0 <= i < |ps| ==> r[i] == Join(ps[i], "/")
  {
    seq(|ps|, i requires 0 <= i < |ps| => Join(ps[i], "/"))
  }

  /** `relative_recursive_ls(folder, folder, exclude)` for a folder holding `items`. */
  function RelativeLs(items: seq<Node>, exclude: seq<string>): (r: seq<string>)
    ensures |r| == |ListItems(items, exclude)|
  {
    Joined(ListItems(items, exclude))
  }

  /** A listed relative path splits back into the component list it was joined from. */
  lemma RelativeLsSplits(items: seq<Node>, exclude: seq<string>, i: nat)
    requires Tree(items) && i < |ListItems(items, exclude)|
    ensures Split(RelativeLs(items, exclude)[i], '/') == ListItems(items, exclude)[i]
  {
    var p := ListItems(items, exclude)[i];
    ListItemsExact(items, exclude, p);
    FileInNames(items, p);
    SplitJoin(p, '/');
  }

  /** The listing as strings: a relative path `r` is listed exactly when its components lead
      to a file and none of them is excluded. */
  lemma RelativeLsExact(items: seq<Node>, exclude: seq<string>, r: string)
    requires Tree(items)
    ensures r in RelativeLs(items, exclude) <==>
      FileIn(items, Split(r, '/')) && Clean(Split(r, '/'), exclude)
  {
    var ps := ListItems(items, exclude);
    var p := Split(r, '/');
    if r in RelativeLs(items, exclude) {
      var i :| 0 <= i < |ps| && RelativeLs(items, exclude)[i] == r;
      RelativeLsSplits(items, exclude, i);
      ListItemsExact(items, exclude, ps[i]);
    }
    if FileIn(items, p) && Clean(p, exclude) {
      ListItemsExact(items, exclude, p);
      var i :| 0 <= i < |ps| && ps[i] == p;
      JoinSplit(r, '/');
      assert RelativeLs(items, exclude)[i] == r;
    }
  }

  /** The listing of a directory has no duplicate path. */
  lemma RelativeLsNoDup(items: seq<Node>, exclude: seq<string>)
    requires Tree(items)
    ensures NoDup(RelativeLs(items, exclude))
  {
    var ps := ListItems(items, exclude);
    var rs := RelativeLs(items, exclude);
    ListItemsNoDup(items, exclude);
    forall i, j | 0 <= i < j < |rs| ensures rs[i] != rs[j] {
      RelativeLsSplits(items, exclude, i);
      RelativeLsSplits(items, exclude, j);
    }
  }

  /** `os.path.basename`: everything after the last '/', which is the longest slash-free
      tail of the path. */
  function Basename(path: string): (name: string)
    ensures '/' !in name
    ensures |name| <= |path| && name == path[|path| - |name|..]
    ensures |name| < |path| ==> path[|path| - |name| - 1] == '/'
  {
    if path == [] || path[|path| - 1] == '/' then []
    else Basename(path[..|path| - 1]) + [path[|path| - 1]]
  }

  /** Whatever precedes a slash does not affect the basename. */
  lemma {:induction false} BasenameAfterSlash(s: string, t: string)
    requires s == [] || s[|s| - 1] == '/'
    decreases |t|
    ensures Basename(s + t) == Basename(t)
  {
    var u := s + t;
    if t == [] {
      assert u == s;
    } else {
      var c := t[|t| - 1];
      assert u[|u| - 1] == c;
      if c != '/' {
        var t' := t[..|t| - 1];
        assert u[..|u| - 1] == s + t';
        BasenameAfterSlash(s, t');
        assert Basename(u) == Basename(s + t') + [c];
        assert Basename(t) == Basename(t') + [c];
      }
    }
  }

  /** A slash-free name is its own basename. */
  lemma BasenameOfName(a: string)
    requires '/' !in a
    ensures Basename(a) == a
  {
  }

  /** The basename of a joined path is its last component. */
  lemma {:induction false} BasenameOfJoin(p: seq<string>)
    requires |p| >= 1 && forall k :: 0 <= k < |p| ==> '/' !in p[k]
    ensures Basename(Join(p, "/")) == p[|p| - 1]
  {
    if |p| == 1 {
      BasenameOfName(p[0]);
    } else {
      var rest := p[1..];
      assert rest[|rest| - 1] == p[|p| - 1];
      assert forall k :: 0 <= k < |rest| ==> '/' !in rest[k] by {
        forall k | 0 <= k < |rest| ensures '/' !in rest[k] {
          assert rest[k] == p[k + 1];
        }
      }
      BasenameOfJoin(rest);
      var j := Join(rest, "/");
      var head := p[0] + "/";
      JoinStep(p);
      assert Join(p, "/") == head + j;
      BasenameAfterSlash(head, j);
      assert Basename(head + j) == Basename(j);
    }
  }

  lemma JoinStep(p: seq<string>)
    requires |p| >= 2
    ensures Join(p, "/") == (p[0] + "/") + Join(p[1..], "/")
  {
  }

  /** `get_name_from_path`: the basename, or None when it is empty -- exactly when the path
      is empty or ends with '/'. */
  function NameFromPath(path: string): (r: Option<string>)
    ensures r.None? <==> path == [] || path[|path| - 1] == '/'
    ensures r.Some? ==> r.value == Basename(path)
  {
    var name := Basename(path);
    if name != [] then Some(name) else None
  }

  /** The `ReloadHandler` filter: an event is handed on unless it is for a directory or its
      name is excluded. `None` is never in the exclusion list, so a path with an empty
      basename is handed on. */
  predicate Forwards(srcPath: string, isDirectory: bool, exclude: seq<string>)
    ensures Forwards(srcPath, isDirectory, exclude) ==> !isDirectory
    ensures NameFromPath(srcPath).Some? && NameFromPath(srcPath).value in exclude ==> !Forwards(srcPath, isDirectory, exclude)
  {
    !isDirectory && (match NameFromPath(srcPath) case None => true case Some(name) => name !in exclude)
  }

  /** The filter in terms of the path's last component. */
  lemma ForwardsExact(srcPath: string, isDirectory: bool, exclude: seq<string>)
    ensures Forwards(srcPath, isDirectory, exclude) <==>
      !isDirectory && (Basename(srcPath) == [] || Basename(srcPath) !in exclude)
  {
  }

  /** Events for a file of the listing pass the filter: a listed path's basename is its last
      component, a proper name that is not excluded. */
  lemma ListedFileForwarded(items: seq<Node>, exclude: seq<string>, folder: string, r: string)
    requires Tree(items) && r in RelativeLs(items, exclude)
    requires folder == [] || folder[|folder| - 1] == '/'
    ensures Forwards(folder + r, false, exclude)
  {
    var ps := ListItems(items, exclude);
    var i :| 0 <= i < |ps| && RelativeLs(items, exclude)[i] == r;
    var p := ps[i];
    ListItemsExact(items, exclude, p);
    FileInNames(items, p);
    BasenameOfJoin(p);
    BasenameAfterSlash(folder, r);
    assert Basename(folder + r) == p[|p| - 1];
  }

  /** `folder if folder[-1] == "/" else folder + "/"` (an empty folder name raises IndexError). */
  function Slashed(folder: string): (r: string)
    requires folder != []
    ensures r != [] && r[|r| - 1] == '/'
    ensures folder <= r && |r| <= |folder| + 1
    ensures folder[|folder| - 1] == '/' ==> r == folder
  {
    if folder[|folder| - 1] == '/' then folder else folder + "/"
  }

  /** What the file system holds at a path: the bytes and the modification time. */
  datatype FileData = FileData(content: string, mtime: int)

  /** One file of a "list" message: its modification time and MD5 digest. */
  datatype Meta = Meta(mtime: int, md5: string)

  /** One file carried by an "add" message. */
  datatype Upload = Upload(path: string, content: string, mtime: int)

  /** One entry of a received "list" message, in the order the mapping yields them. */
  datatype Listed = Listed(path: string, meta: Meta)

  /** The messages the two ends exchange. */
  datatype Msg =
    | ListMsg(list: map<string, Meta>)
    | AddMsg(add: seq<Upload>)
    | DelMsg(del: seq<string>)
    | ReqMsg(req: seq<string>)

  /** A change a received message makes to the synced folder. */
  datatype FsOp = Write(path: string, content: string, mtime: int) | Remove(path: string)

  /** A received message: not a mapping, or a mapping with some of the four keys. */
  datatype SyncData =
    | NotDict
    | Dict(list: Option<seq<Listed>>, add: Option<seq<Upload>>, del: Option<seq<string>>, req: Option<seq<string>>)

  /** A watchdog event for the file `relpath` of the synced folder (its source path is the
      folder followed by `relpath`). */
  datatype FsEvent = FsEvent(relpath: string, isDirectory: bool)

  /** The "list" entry for a file, with `digest` standing for MD5 over its content. */
  function MetaOf(f: FileData, digest: string -> string): Meta {
    Meta(f.mtime, digest(f.content))
  }

  /** The single-file "add" for `path`, read from `f`. The code sends the content and mtime
      without the path (Shared/Sync.py:111, 120), so a receiver cannot tell which file it is;
      the model carries the path, as the receiving side (Shared/Sync.py:99-102) expects. */
  function AddOf(path: string, f: FileData): (m: Msg)
    ensures m.AddMsg? && UploadPaths(m.add) == [path]
    ensures m.AddMsg? && Writes(m.add) == [Write(path, f.content, f.mtime)]
  {
    AddMsg([Upload(path, f.content, f.mtime)])
  }

  /** The paths an "add" message writes. */
  function UploadPaths(us: seq<Upload>): (ps: seq<string>)
    ensures |ps| == |us|
    ensures forall i :: 0 <= i < |us| ==> ps[i] == us[i].path
  {
    seq(|us|, i requires 0 <= i < |us| => us[i].path)
  }

  /** The writes of an "add" message, in order. */
  function Writes(us: seq<Upload>): (ops: seq<FsOp>)
    ensures |ops| == |us|
    ensures forall i :: 0 <= i < |us| ==> ops[i] == Write(us[i].path, us[i].content, us[i].mtime)
  {
    seq(|us|, i requires 0 <= i < |us| => Write(us[i].path, us[i].content, us[i].mtime))
  }

  /** The removals of a "del" message, in order. */
  function Removes(ps: seq<string>): (ops: seq<FsOp>)
    ensures |ops| == |ps|
    ensures forall i :: 0 <= i < |ps| ==> ops[i] == Remove(ps[i])
  {
    seq(|ps|, i requires 0 <= i < |ps| => Remove(ps[i]))
  }

  /** The suppression list after suppress/unsuppress brackets around each of `ps` in turn:
      a path suppressed beforehand is released, and nothing is added. */
  function Brackets(s: seq<string>, ps: seq<string>): (r: seq<string>)
    ensures NoDup(s) ==> NoDup(r)
    ensures NoDup(s) ==> forall y :: y in r <==> y in s && y !in ps
  {
    if ps == [] then s
    else
      var init := Brackets(s, ps[..|ps| - 1]);
      var p := ps[|ps| - 1];
      assert ps == ps[..|ps| - 1] + [p];
      var r := RemoveFirst(AppendIfAbsent(init, p), p);
      if NoDup(s) then RemoveFirstNoDup(AppendIfAbsent(init, p), p); r else r
  }

  /** Brackets around paths that were not suppressed leave the suppression list as it was. */
  lemma {:induction false} BracketsRestore(s: seq<string>, ps: seq<string>)
    requires forall k :: 0 <= k < |ps| ==> ps[k] !in s
    ensures Brackets(s, ps) == s
  {
    if ps != [] {
      BracketsRestore(s, ps[..|ps| - 1]);
      AppendThenRemove(s, ps[|ps| - 1]);
    }
  }

  lemma WritesStep(us: seq<Upload>, i: nat)
    requires i < |us|
    ensures Writes(us[..i + 1]) == Writes(us[..i]) + [Write(us[i].path, us[i].content, us[i].mtime)]
  {
  }

  lemma RemovesStep(ps: seq<string>, i: nat)
    requires i < |ps|
    ensures Removes(ps[..i + 1]) == Removes(ps[..i]) + [Remove(ps[i])]
  {
  }

  lemma BracketsStep(s: seq<string>, ps: seq<string>, i: nat)
    requires i < |ps|
    ensures Brackets(s, ps[..i + 1]) == RemoveFirst(AppendIfAbsent(Brackets(s, ps[..i]), ps[i]), ps[i])
  {
    assert ps[..i + 1][..i] == ps[..i];
  }

  /** The answers to a "req": one single-file "add" per requested path the client knows,
      in request order; unknown paths are ignored. */
  function Served(req: seq<string>, files: seq<string>, disk: string -> FileData): (sent: seq<Msg>)
    ensures |sent| <= |req|
    ensures forall m :: m in sent ==> m.AddMsg? && |m.add| == 1
    ensures forall m :: m in sent ==> m == AddOf(m.add[0].path, disk(m.add[0].path))
    ensures forall m :: m in sent ==> m.add[0].path in req && m.add[0].path in files
  {
    if req == [] then []
    else
      var p := req[|req| - 1];
      var init := Served(req[..|req| - 1], files, disk);
      assert forall q :: q in req[..|req| - 1] ==> q in req;
      init + (if p in files then [AddOf(p, disk(p))] else [])
  }

  /** Every requested path the client knows is answered. */
  lemma {:induction false} ServedAll(req: seq<string>, files: seq<string>, disk: string -> FileData, p: string)
    requires p in req && p in files
    ensures AddOf(p, disk(p)) in Served(req, files, disk)
  {
    var init := req[..|req| - 1];
    if req[|req| - 1] != p {
      assert req == init + [req[|req| - 1]];
      assert p in init;
      ServedAll(init, files, disk, p);
    }
  }

  /** The responder's answer for one listed file. */
  datatype Decision = SendDel | Skip | SendReq

  /** The per-file decision of Shared/Sync.py:167-174: a file changed since the last stop is
      requested whatever its hash; an older one is deleted at the client unless the responder
      holds it with the same hash. `local` is the responder's own digest, None when the file
      is not among its known files. */
  function Decide(meta: Meta, lastStop: int, local: Option<string>): (d: Decision)
    ensures d == SendReq <==> meta.mtime >= lastStop
    ensures d == Skip <==> meta.mtime < lastStop && local == Some(meta.md5)
    ensures d == SendDel <==> meta.mtime < lastStop && (local.None? || local.value != meta.md5)
  {
    if meta.mtime < lastStop then
      if local.Some? then
        if meta.md5 != local.value then SendDel else Skip
      else SendDel
    else SendReq
  }

  /** The responder's digest of `path`, when it knows that file. */
  function LocalDigest(path: string, files: seq<string>, disk: string -> FileData, digest: string -> string): Option<string> {
    if path in files then Some(digest(disk(path).content)) else None
  }

  /** The message a decision sends for `path`, if any. */
  function ReplyFor(path: string, d: Decision): seq<Msg> {
    match d
    case SendDel => [DelMsg([path])]
    case Skip => []
    case SendReq => [ReqMsg([path])]
  }

  /** The decision for one entry of a "list". */
  function DecisionFor(e: Listed, lastStop: int, files: seq<string>, disk: string -> FileData, digest: string -> string): Decision {
    Decide(e.meta, lastStop, LocalDigest(e.path, files, disk, digest))
  }

  /** A file the responder holds with the content the client listed is never deleted: it is
      requested when it is newer than the last stop and left alone otherwise. */
  lemma UnchangedNeverDeleted(path: string, f: FileData, lastStop: int, files: seq<string>,
                              disk: string -> FileData, digest: string -> string)
    requires path in files && digest(disk(path).content) == digest(f.content)
    ensures DecisionFor(Listed(path, MetaOf(f, digest)), lastStop, files, disk, digest) != SendDel
  {
  }

  /** The replies to a whole "list", entry by entry. */
  function Reconciled(entries: seq<Listed>, lastStop: int, files: seq<string>,
                      disk: string -> FileData, digest: string -> string): (replies: seq<Msg>)
    ensures |replies| <= |entries|
  {
    if entries == [] then []
    else
      var init := entries[..|entries| - 1];
      var e := entries[|entries| - 1];
      Reconciled(init, lastStop, files, disk, digest) + ReplyFor(e.path, DecisionFor(e, lastStop, files, disk, digest))
  }

  /** Message `m` is among the replies to entry `e`. */
  ghost predicate SentFor(e: Listed, lastStop: int, files: seq<string>,
                          disk: string -> FileData, digest: string -> string, m: Msg) {
    m in ReplyFor(e.path, DecisionFor(e, lastStop, files, disk, digest))
  }

  /** The replies to a non-empty "list" are those to all but its last entry, then those to
      the last one. */
  lemma ReconciledStep(entries: seq<Listed>, lastStop: int, files: seq<string>,
                       disk: string -> FileData, digest: string -> string, m: Msg)
    requires entries != []
    ensures m in Reconciled(entries, lastStop, files, disk, digest) <==>
      m in Reconciled(entries[..|entries| - 1], lastStop, files, disk, digest)
      || SentFor(entries[|entries| - 1], lastStop, files, disk, digest, m)
  {
  }

  /** Every reply answers some entry. */
  lemma {:induction false} ReconciledAnswers(entries: seq<Listed>, lastStop: int, files: seq<string>,
                                             disk: string -> FileData, digest: string -> string, m: Msg)
    returns (k: nat)
    requires m in Reconciled(entries, lastStop, files, disk, digest)
    ensures k < |entries| && SentFor(entries[k], lastStop, files, disk, digest, m)
  {
    var init := entries[..|entries| - 1];
    ReconciledStep(entries, lastStop, files, disk, digest, m);
    if SentFor(entries[|entries| - 1], lastStop, files, disk, digest, m) {
      k := |entries| - 1;
    } else {
      k := ReconciledAnswers(init, lastStop, files, disk, digest, m);
      assert init[k] == entries[k];
    }
  }

  /** Every entry's replies are sent. */
  lemma {:induction false} ReconciledCovers(entries: seq<Listed>, lastStop: int, files: seq<string>,
                                            disk: string -> FileData, digest: string -> string, m: Msg, k: nat)
    requires k < |entries| && SentFor(entries[k], lastStop, files, disk, digest, m)
    ensures m in Reconciled(entries, lastStop, files, disk, digest)
  {
    var init := entries[..|entries| - 1];
    ReconciledStep(entries, lastStop, files, disk, digest, m);
    if k < |entries| - 1 {
      assert init[k] == entries[k];
      ReconciledCovers(init, lastStop, files, disk, digest, m, k);
    }
  }

  /** A message is among the replies to a "list" exactly when it is among the replies to one
      of its entries. */
  lemma ReconciledExact(entries: seq<Listed>, lastStop: int, files: seq<string>,
                        disk: string -> FileData, digest: string -> string, m: Msg)
    ensures m in Reconciled(entries, lastStop, files, disk, digest) <==>
      exists k :: 0 <= k < |entries| && SentFor(entries[k], lastStop, files, disk, digest, m)
  {
    if m in Reconciled(entries, lastStop, files, disk, digest) {
      var k := ReconciledAnswers(entries, lastStop, files, disk, digest, m);
    }
    if exists k :: 0 <= k < |entries| && SentFor(entries[k], lastStop, files, disk, digest, m) {
      var k :| 0 <= k < |entries| && SentFor(entries[k], lastStop, files, disk, digest, m);
      ReconciledCovers(entries, lastStop, files, disk, digest, m, k);
    }
  }

  /** The reconciliation rule per path: a "del" for `p` goes out iff some entry for `p` is
      older than the last stop and absent or different here; a "req" iff some entry for `p`
      is at least as new as the last stop. */
  lemma ReconciledSends(entries: seq<Listed>, lastStop: int, files: seq<string>,
                        disk: string -> FileData, digest: string -> string, p: string)
    ensures DelMsg([p]) in Reconciled(entries, lastStop, files, disk, digest) <==>
      exists k :: 0 <= k < |entries| && entries[k].path == p && entries[k].meta.mtime < lastStop
        && (p !in files || digest(disk(p).content) != entries[k].meta.md5)
    ensures ReqMsg([p]) in Reconciled(entries, lastStop, files, disk, digest) <==>
      exists k :: 0 <= k < |entries| && entries[k].path == p && entries[k].meta.mtime >= lastStop
  {
    ReconciledExact(entries, lastStop, files, disk, digest, DelMsg([p]));
    ReconciledExact(entries, lastStop, files, disk, digest, ReqMsg([p]));
  }

  /** The sending side (`SyncClient`, Shared/Sync.py:60-133). */
  class SyncClient {
    /** The synced folder, always ending in '/'. */
    const folder: string
    const exclude: seq<string>
    var started: bool
    /** The relative paths of the files the client knows. */
    var files: seq<string>
    /** `surpressed_fs_events`: the paths whose local events are not sent. */
    var suppressed: seq<string>

    ghost predicate Valid()
      reads this
    {
      NoDup(files) && NoDup(suppressed)
    }

    /** `SyncClient.__init__` (Shared/Sync.py:61-68) for a folder holding `tree`; starting the
        observer is not modelled. */
    constructor (folder: string, tree: seq<Node>, exclude: seq<string>)
      requires folder != [] && Tree(tree)
      ensures Valid()
      ensures this.folder == Slashed(folder) && this.exclude == exclude
      ensures !started && files == RelativeLs(tree, exclude) && suppressed == []
    {
      this.folder := Slashed(folder);
      this.exclude := exclude;
      started := false;
      RelativeLsNoDup(tree, exclude);
      files := RelativeLs(tree, exclude);
      suppressed := [];
    }

    /** `start` (Shared/Sync.py:74-80): announce every known file with its modification time
        and digest, exactly one entry per file, and mark the client started. */
    method Start(disk: string -> FileData, digest: string -> string) returns (sent: Msg)
      requires Valid()
      modifies this
      ensures Valid() && started
      ensures files == old(files) && suppressed == old(suppressed)
      ensures sent.ListMsg? && sent.list.Keys == set f | f in files
      ensures forall f :: f in sent.list ==>
        sent.list[f].mtime == disk(folder + f).mtime && sent.list[f].md5 == digest(disk(folder + f).content)
    {
      var m: map<string, Meta> := map[];
      for i := 0 to |files|
        invariant m.Keys == set f | f in files[..i]
        invariant forall f :: f in m ==> m[f] == MetaOf(disk(folder + f), digest)
      {
        var f := files[i];
        m := m[f := MetaOf(disk(folder + f), digest)];
        assert files[..i + 1] == files[..i] + [f];
      }
      assert files[..|files|] == files;
      sent := ListMsg(m);
      started := true;
    }

    /** `stop` (Shared/Sync.py:82-83). */
    method Stop()
      modifies this
      ensures !started && files == old(files) && suppressed == old(suppressed)
    {
      started := false;
    }

    /** `surpress_fs_event` (Shared/Sync.py:86-88): idempotent, and no path is listed twice. */
    method Suppress(path: string)
      requires Valid()
      modifies this
      ensures Valid() && started == old(started) && files == old(files)
      ensures suppressed == AppendIfAbsent(old(suppressed), path)
    {
      suppressed := AppendIfAbsent(suppressed, path);
    }

    /** `unsurpess_fs_event` (Shared/Sync.py:91-93): the path is no longer suppressed and
        every other path keeps its state; an absent path changes nothing. */
    method Unsuppress(path: string)
      requires Valid()
      modifies this
      ensures Valid() && started == old(started) && files == old(files)
      ensures suppressed == RemoveFirst(old(suppressed), path)
      ensures path !in suppressed && forall y :: y in suppressed <==> y in old(suppressed) && y != path
    {
      RemoveFirstNoDup(suppressed, path);
      suppressed := RemoveFirst(suppressed, path);
    }

    /** The "add" branch (Shared/Sync.py:98-103) as intended: each file is written with its
        modification time between a suppress and an unsuppress of its path. As written,
        `os.utime` is given a bare number where it takes a pair of times, so it raises
        TypeError right after the first file's content is written, leaving that path
        suppressed; the unsuppress after it would call `unsupress_fs_event`, which the class
        does not define. */
    method Receive(us: seq<Upload>) returns (ops: seq<FsOp>)
      requires Valid()
      modifies this
      ensures Valid() && started == old(started) && files == old(files)
      ensures ops == Writes(us)
      ensures suppressed == Brackets(old(suppressed), UploadPaths(us))
    {
      ops := [];
      var paths := UploadPaths(us);
      for i := 0 to |us|
        invariant Valid() && started == old(started) && files == old(files)
        invariant ops == Writes(us[..i])
        invariant suppressed == Brackets(old(suppressed), paths[..i])
      {
        var u := us[i];
        BracketsStep(old(suppressed), paths, i);
        WritesStep(us, i);
        Suppress(u.path);
        ops := ops + [Write(u.path, u.content, u.mtime)];
        Unsuppress(u.path);
      }
      assert us[..|us|] == us && paths[..|us|] == paths;
    }

    /** The "del" branch (Shared/Sync.py:104-107) as intended: each listed path is removed
        between a suppress and an unsuppress. As written the branch uses `file`, which is not
        bound there, so it raises NameError and removes nothing. */
    method Discard(ps: seq<string>) returns (ops: seq<FsOp>)
      requires Valid()
      modifies this
      ensures Valid() && started == old(started) && files == old(files)
      ensures ops == Removes(ps)
      ensures suppressed == Brackets(old(suppressed), ps)
    {
      ops := [];
      for i := 0 to |ps|
        invariant Valid() && started == old(started) && files == old(files)
        invariant ops == Removes(ps[..i])
        invariant suppressed == Brackets(old(suppressed), ps[..i])
      {
        var p := ps[i];
        BracketsStep(old(suppressed), ps, i);
        RemovesStep(ps, i);
        Suppress(p);
        ops := ops + [Remove(p)];
        Unsuppress(p);
      }
      assert ps[..|ps|] == ps;
    }

    /** The "req" branch (Shared/Sync.py:108-111) as intended: send each requested known file,
        reading it at the path as given. As written, `.encode()` is applied to the bytes that
        `base64.b64encode` returns, which raises AttributeError before the first answer is
        sent. */
    method Serve(req: seq<string>, disk: string -> FileData) returns (sent: seq<Msg>)
      ensures sent == Served(req, files, disk)
    {
      sent := [];
      for i := 0 to |req|
        invariant sent == Served(req[..i], files, disk)
      {
        var p := req[i];
        assert req[..i + 1][..i] == req[..i];
        if p in files {
          sent := sent + [AddOf(p, disk(p))];
        }
      }
      assert req[..|req|] == req;
    }

    /** `SyncClient.run` (Shared/Sync.py:96-111): an "add" takes precedence over a "del", which
        takes precedence over a "req"; anything else is ignored. */
    method Run(data: SyncData, disk: string -> FileData) returns (ops: seq<FsOp>, sent: seq<Msg>)
      requires Valid()
      modifies this
      ensures Valid() && started == old(started) && files == old(files)
      ensures data.NotDict? ==> ops == [] && sent == [] && suppressed == old(suppressed)
      ensures data.Dict? && data.add.Some? ==>
        ops == Writes(data.add.value) && sent == [] && suppressed == Brackets(old(suppressed), UploadPaths(data.add.value))
      ensures data.Dict? && data.add.None? && data.del.Some? ==>
        ops == Removes(data.del.value) && sent == [] && suppressed == Brackets(old(suppressed), data.del.value)
      ensures data.Dict? && data.add.None? && data.del.None? && data.req.Some? ==>
        ops == [] && sent == Served(data.req.value, files, disk) && suppressed == old(suppressed)
      ensures data.Dict? && data.add.None? && data.del.None? && data.req.None? ==>
        ops == [] && sent == [] && suppressed == old(suppressed)
    {
      ops, sent := [], [];
      if data.Dict? {
        if data.add.Some? {
          ops := Receive(data.add.value);
        } else if data.del.Some? {
          ops := Discard(data.del.value);
        } else if data.req.Some? {
          sent := Serve(data.req.value, disk);
        }
      }
    }

    /** `modified` (Shared/Sync.py:114-120): once started, remember the file and send it unless
        its path is suppressed; before `start`, nothing happens. As written, building the "add"
        applies `.encode()` to bytes and raises AttributeError after the file is remembered, so
        nothing is sent; the model sends the message as evidently intended. */
    method Modified(relpath: string, disk: string -> FileData) returns (sent: Option<Msg>)
      requires Valid()
      modifies this
      ensures Valid() && started == old(started) && suppressed == old(suppressed)
      ensures files == if started then AppendIfAbsent(old(files), relpath) else old(files)
      ensures sent.Some? <==> started && relpath !in suppressed
      ensures sent.Some? ==> sent.value == AddOf(relpath, disk(folder + relpath))
    {
      sent := None;
      if started {
        files := AppendIfAbsent(files, relpath);
        if relpath !in suppressed {
          sent := Some(AddOf(relpath, disk(folder + relpath)));
        }
      }
    }

    /** `created` (Shared/Sync.py:123-124) is `modified`. */
    method Created(relpath: string, disk: string -> FileData) returns (sent: Option<Msg>)
      requires Valid()
      modifies this
      ensures Valid() && started == old(started) && suppressed == old(suppressed)
      ensures files == if started then AppendIfAbsent(old(files), relpath) else old(files)
      ensures sent.Some? <==> started && relpath !in suppressed
      ensures sent.Some? ==> sent.value == AddOf(relpath, disk(folder + relpath))
    {
      sent := Modified(relpath, disk);
    }

    /** `deleted` (Shared/Sync.py:127-133): once started, forget the file -- it is then not
        known at all -- and announce the deletion unless its path is suppressed. */
    method Deleted(relpath: string) returns (sent: Option<Msg>)
      requires Valid()
      modifies this
      ensures Valid() && started == old(started) && suppressed == old(suppressed)
      ensures files == if started then RemoveFirst(old(files), relpath) else old(files)
      ensures started ==> forall y :: y in files <==> y in old(files) && y != relpath
      ensures sent.Some? <==> started && relpath !in suppressed
      ensures sent.Some? ==> sent.value == DelMsg([relpath])
    {
      sent := None;
      if started {
        RemoveFirstNoDup(files, relpath);
        files := RemoveFirst(files, relpath);
        if relpath !in suppressed {
          sent := Some(DelMsg([relpath]));
        }
      }
    }

    /** `ReloadHandler.on_modified` (Shared/Sync.py:45-47): events that pass the filter reach
        `modified`; the others change nothing. */
    method OnModified(event: FsEvent, disk: string -> FileData) returns (sent: Option<Msg>)
      requires Valid()
      modifies this
      ensures Valid() && started == old(started) && suppressed == old(suppressed)
      ensures !Forwards(folder + event.relpath, event.isDirectory, exclude) ==>
        files == old(files) && sent.None?
      ensures Forwards(folder + event.relpath, event.isDirectory, exclude) ==>
        files == (if started then AppendIfAbsent(old(files), event.relpath) else old(files))
        && (sent.Some? <==> started && event.relpath !in suppressed)
    {
      sent := None;
      if Forwards(folder + event.relpath, event.isDirectory, exclude) {
        sent := Modified(event.relpath, disk);
      }
    }

    /** `ReloadHandler.on_created` (Shared/Sync.py:50-52). */
    method OnCreated(event: FsEvent, disk: string -> FileData) returns (sent: Option<Msg>)
      requires Valid()
      modifies this
      ensures Valid() && started == old(started) && suppressed == old(suppressed)
      ensures !Forwards(folder + event.relpath, event.isDirectory, exclude) ==>
        files == old(files) && sent.None?
      ensures Forwards(folder + event.relpath, event.isDirectory, exclude) ==>
        files == (if started then AppendIfAbsent(old(files), event.relpath) else old(files))
        && (sent.Some? <==> started && event.relpath !in suppressed)
    {
      sent := None;
      if Forwards(folder + event.relpath, event.isDirectory, exclude) {
        sent := Created(event.relpath, disk);
      }
    }

    /** `ReloadHandler.on_deleted` (Shared/Sync.py:55-57). */
    method OnDeleted(event: FsEvent) returns (sent: Option<Msg>)
      requires Valid()
      modifies this
      ensures Valid() && started == old(started) && suppressed == old(suppressed)
      ensures !Forwards(folder + event.relpath, event.isDirectory, exclude) ==>
        files == old(files) && sent.None?
      ensures Forwards(folder + event.relpath, event.isDirectory, exclude) ==>
        files == (if started then RemoveFirst(old(files), event.relpath) else old(files))
        && (sent.Some? <==> started && event.relpath !in suppressed)
    {
      sent := None;
      if Forwards(folder + event.relpath, event.isDirectory, exclude) {
        sent := Deleted(event.relpath);
      }
    }
  }

  /** The responding side (`SyncServer`, Shared/Sync.py:136-206). */
  class SyncServer {
    /** The synced folder, always ending in '/'. */
    const folder: string
    const exclude: seq<string>
    /** The relative paths of the files the responder knows. */
    var files: seq<string>
    /** `surpressed_fs_events`. */
    var suppressed: seq<string>

    ghost predicate Valid()
      reads this
    {
      NoDup(files) && NoDup(suppressed)
    }

    /** `SyncServer.__init__` (Shared/Sync.py:137-141) for a folder holding `tree`. */
    constructor (folder: string, tree: seq<Node>, exclude: seq<string>)
      requires folder != [] && Tree(tree)
      ensures Valid()
      ensures this.folder == Slashed(folder) && this.exclude == exclude
      ensures files == RelativeLs(tree, exclude) && suppressed == []
    {
      this.folder := Slashed(folder);
      this.exclude := exclude;
      RelativeLsNoDup(tree, exclude);
      files := RelativeLs(tree, exclude);
      suppressed := [];
    }

    /** `surpress_fs_event` (Shared/Sync.py:152-154). */
    method Suppress(path: string)
      requires Valid()
      modifies this
      ensures Valid() && files == old(files)
      ensures suppressed == AppendIfAbsent(old(suppressed), path)
    {
      suppressed := AppendIfAbsent(suppressed, path);
    }

    /** `unsurpess_fs_event` (Shared/Sync.py:157-159). */
    method Unsuppress(path: string)
      requires Valid()
      modifies this
      ensures Valid() && files == old(files)
      ensures suppressed == RemoveFirst(old(suppressed), path)
      ensures path !in suppressed && forall y :: y in suppressed <==> y in old(suppressed) && y != path
    {
      RemoveFirstNoDup(suppressed, path);
      suppressed := RemoveFirst(suppressed, path);
    }

    /** The "list" branch (Shared/Sync.py:164-174): one decision per listed file, each answer
        sent back to the client that listed it. `lastStop` is the handler's `last_stop_time`. */
    method Reconcile(entries: seq<Listed>, lastStop: int, disk: string -> FileData, digest: string -> string)
      returns (replies: seq<Msg>)
      ensures replies == Reconciled(entries, lastStop, files, disk, digest)
    {
      replies := [];
      for i := 0 to |entries|
        invariant replies == Reconciled(entries[..i], lastStop, files, disk, digest)
      {
        var e := entries[i];
        assert entries[..i + 1][..i] == entries[..i];
        var local: Option<string> := None;
        if e.path in files {
          local := Some(digest(disk(e.path).content));
        }
        var d := Decide(e.meta, lastStop, local);
        if d == SendDel {
          replies := replies + [DelMsg([e.path])];
        } else if d == SendReq {
          replies := replies + [ReqMsg([e.path])];
        }
      }
      assert entries[..|entries|] == entries;
    }

    /** The "add" branch (Shared/Sync.py:175-180) as intended. As written, the `os.utime` call
        raises TypeError as on the client, unless `.decode()` on the received content has
        already raised before the write; the unsuppress after it would call the undefined
        `unsupress_fs_event`. */
    method Receive(us: seq<Upload>) returns (ops: seq<FsOp>)
      requires Valid()
      modifies this
      ensures Valid() && files == old(files)
      ensures ops == Writes(us)
      ensures suppressed == Brackets(old(suppressed), UploadPaths(us))
    {
      ops := [];
      var paths := UploadPaths(us);
      for i := 0 to |us|
        invariant Valid() && files == old(files)
        invariant ops == Writes(us[..i])
        invariant suppressed == Brackets(old(suppressed), paths[..i])
      {
        var u := us[i];
        BracketsStep(old(suppressed), paths, i);
        WritesStep(us, i);
        Suppress(u.path);
        ops := ops + [Write(u.path, u.content, u.mtime)];
        Unsuppress(u.path);
      }
      assert us[..|us|] == us && paths[..|us|] == paths;
    }

    /** The "del" branch (Shared/Sync.py:181-184) as intended; as written it uses the unbound
        `file` and raises NameError. */
    method Discard(ps: seq<string>) returns (ops: seq<FsOp>)
      requires Valid()
      modifies this
      ensures Valid() && files == old(files)
      ensures ops == Removes(ps)
      ensures suppressed == Brackets(old(suppressed), ps)
    {
      ops := [];
      for i := 0 to |ps|
        invariant Valid() && files == old(files)
        invariant ops == Removes(ps[..i])
        invariant suppressed == Brackets(old(suppressed), ps[..i])
      {
        var p := ps[i];
        BracketsStep(old(suppressed), ps, i);
        RemovesStep(ps, i);
        Suppress(p);
        ops := ops + [Remove(p)];
        Unsuppress(p);
      }
      assert ps[..|ps|] == ps;
    }

    /** `SyncServer.run` (Shared/Sync.py:162-184): a "list" takes precedence over an "add",
        which takes precedence over a "del"; anything else is ignored. */
    method Run(data: SyncData, lastStop: int, disk: string -> FileData, digest: string -> string)
      returns (ops: seq<FsOp>, replies: seq<Msg>)
      requires Valid()
      modifies this
      ensures Valid() && files == old(files)
      ensures data.NotDict? ==> ops == [] && replies == [] && suppressed == old(suppressed)
      ensures data.Dict? && data.list.Some? ==>
        ops == [] && replies == Reconciled(data.list.value, lastStop, files, disk, digest) && suppressed == old(suppressed)
      ensures data.Dict? && data.list.None? && data.add.Some? ==>
        ops == Writes(data.add.value) && replies == [] && suppressed == Brackets(old(suppressed), UploadPaths(data.add.value))
      ensures data.Dict? && data.list.None? && data.add.None? && data.del.Some? ==>
        ops == Removes(data.del.value) && replies == [] && suppressed == Brackets(old(suppressed), data.del.value)
      ensures data.Dict? && data.list.None? && data.add.None? && data.del.None? ==>
        ops == [] && replies == [] && suppressed == old(suppressed)
    {
      ops, replies := [], [];
      if data.Dict? {
        if data.list.Some? {
          replies := Reconcile(data.list.value, lastStop, disk, digest);
        } else if data.add.Some? {
          ops := Receive(data.add.value);
        } else if data.del.Some? {
          ops := Discard(data.del.value);
        }
      }
    }

    /** `SyncServer.modified` (Shared/Sync.py:187-194): remember the file and broadcast it
        unless its path is suppressed; there is no started flag on this side. The code names
        `handler` and `channel`, neither bound in the method, so the broadcast raises
        NameError; the model returns the message it evidently means to broadcast. */
    method Modified(relpath: string, disk: string -> FileData) returns (broadcast: Option<Msg>)
      requires Valid()
      modifies this
      ensures Valid() && suppressed == old(suppressed)
      ensures files == AppendIfAbsent(old(files), relpath)
      ensures broadcast.Some? <==> relpath !in suppressed
      ensures broadcast.Some? ==> broadcast.value == AddOf(relpath, disk(folder + relpath))
    {
      files := AppendIfAbsent(files, relpath);
      broadcast := None;
      if relpath !in suppressed {
        broadcast := Some(AddOf(relpath, disk(folder + relpath)));
      }
    }

    /** `SyncServer.created` (Shared/Sync.py:197-198) is `modified`. */
    method Created(relpath: string, disk: string -> FileData) returns (broadcast: Option<Msg>)
      requires Valid()
      modifies this
      ensures Valid() && suppressed == old(suppressed)
      ensures files == AppendIfAbsent(old(files), relpath)
      ensures broadcast.Some? <==> relpath !in suppressed
      ensures broadcast.Some? ==> broadcast.value == AddOf(relpath, disk(folder + relpath))
    {
      broadcast := Modified(relpath, disk);
    }

    /** `SyncServer.deleted` (Shared/Sync.py:201-206), with the same unbound names. */
    method Deleted(relpath: string) returns (broadcast: Option<Msg>)
      requires Valid()
      modifies this
      ensures Valid() && suppressed == old(suppressed)
      ensures files == RemoveFirst(old(files), relpath)
      ensures forall y :: y in files <==> y in old(files) && y != relpath
      ensures broadcast.Some? <==> relpath !in suppressed
      ensures broadcast.Some? ==> broadcast.value == DelMsg([relpath])
    {
      RemoveFirstNoDup(files, relpath);
      files := RemoveFirst(files, relpath);
      broadcast := None;
      if relpath !in suppressed {
        broadcast := Some(DelMsg([relpath]));
      }
    }
  }
}
