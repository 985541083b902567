/** Day 7: a file system rebuilt from a shell history of `cd` and `ls`.
    The entries share their parent and children through `Rc` links; here the
    links are positions in one list of entries, the root being entry 0. */
module Day07 {
  import opened Wrappers
  import opened Text

  datatype FileType = File | Directory

  /** `FileEntry`: `parent` and `items` are positions in the entry list. */
  datatype FileEntry = FileEntry(name: String, size: nat, parent: Option<nat>, items: seq<nat>, fileType: FileType)

  datatype SeventhError =
    | MissingArgumentForChangeDirectory
    | UnknownCommand(cmd: String)
    | InvalidFileSize(size: String)
    | DirectoryDoesNotExist(dir: String)
    | RootDirectoryHasNoParent
    | NoCandidateFound

  type Entries = seq<FileEntry>

  const Root: nat := 0

  /** The links form a tree rooted at the directory entry 0: every other
      entry has a parent before it that lists it, and every listed child comes
      after its parent and names it as parent. */
  ghost predicate Tree(e: Entries)
  {
    && |e| > 0
    && e[Root].parent.None?
    && e[Root].fileType == Directory
    && ParentsBefore(e)
    && ChildrenAfter(e)
  }

  ghost predicate ParentsBefore(e: Entries)
  {
    forall j | 0 < j < |e| :: e[j].parent.Some? && e[j].parent.value < j && j in e[e[j].parent.value].items
  }

  ghost predicate ChildrenAfter(e: Entries)
  {
    forall i, k | 0 <= i < |e| && 0 <= k < |e[i].items| :: i < e[i].items[k] < |e| && e[e[i].items[k]].parent == Some(i)
  }

  /** `FileEntry::size`: a file's own size, a directory's the sum over its items. */
  function Size(e: Entries, i: nat): (r: nat)
    requires Tree(e) && i < |e|
    ensures e[i].fileType == File ==> r == e[i].size
    ensures e[i].fileType == Directory ==> forall m | 0 <= m < |e[i].items| :: Size(e, e[i].items[m]) <= r
    decreases |e| - i, 1, 0
  {
    match e[i].fileType
    case File => e[i].size
    case Directory => ItemsSize(e, i, |e[i].items|)
  }

  /** The summed sizes of the first `k` items of entry `i`. */
  function ItemsSize(e: Entries, i: nat, k: nat): (r: nat)
    requires Tree(e) && i < |e| && k <= |e[i].items|
    ensures forall m | 0 <= m < k :: Size(e, e[i].items[m]) <= r
    decreases |e| - i, 0, k
  {
    if k == 0 then 0 else ItemsSize(e, i, k - 1) + Size(e, e[i].items[k - 1])
  }

  /** `FileSystem::default`: an empty root directory that is also the working directory. */
  function Empty(): (e: Entries)
    ensures Tree(e) && |e| == 1 && Size(e, Root) == 0
  {
    [FileEntry("", 0, None, [], Directory)]
  }

  /** `add` of an entry without items under `wd`: it goes to the end of the
      list and of `wd`'s items. */
  function Add(e: Entries, wd: nat, name: String, size: nat, fileType: FileType): (r: Entries)
    requires Tree(e) && wd < |e|
    ensures Tree(r)
    ensures |r| == |e| + 1 && r[|e|] == FileEntry(name, size, Some(wd), [], fileType)
    ensures r[wd].items == e[wd].items + [|e|]
    ensures forall j | 0 <= j < |e| :: r[j] == (if j == wd then e[j].(items := e[j].items + [|e|]) else e[j])
  {
    var r := e[wd := e[wd].(items := e[wd].items + [|e|])] + [FileEntry(name, size, Some(wd), [], fileType)];
    AddKeepsTree(e, wd, r[|e|], r);
    r
  }

  lemma AddKeepsTree(e: Entries, wd: nat, entry: FileEntry, r: Entries)
    requires Tree(e) && wd < |e| && entry.parent == Some(wd) && entry.items == []
    requires r == e[wd := e[wd].(items := e[wd].items + [|e|])] + [entry]
    ensures Tree(r)
  {
    forall j | 0 < j < |r|
      ensures r[j].parent.Some? && r[j].parent.value < j && j in r[r[j].parent.value].items
    {
      if j < |e| {
        var p := e[j].parent.value;
        assert j in e[p].items;
        assert forall x | x in e[p].items :: x in r[p].items;
      }
    }
    forall i, k | 0 <= i < |r| && 0 <= k < |r[i].items|
      ensures i < r[i].items[k] < |r| && r[r[i].items[k]].parent == Some(i)
    {
      if i == wd && k == |e[wd].items| {
      } else {
        assert r[i].items[k] == e[i].items[k];
      }
    }
  }

  /** The size of the first child of `wd` named `name`, if there is one
      (`items.iter().filter(..).next()`). */
  function FirstNamed(e: Entries, items: seq<nat>, name: String): (r: Option<nat>)
    ensures r.Some? ==> r.value in items && r.value < |e| && e[r.value].name == name
    ensures r.Some? ==> exists k | 0 <= k < |items| :: items[k] == r.value && forall m | 0 <= m < k :: !(items[m] < |e| && e[items[m]].name == name)
    ensures r.None? ==> forall k | 0 <= k < |items| :: !(items[k] < |e| && e[items[k]].name == name)
  {
    if items == [] then None
    else if items[0] < |e| && e[items[0]].name == name then Some(items[0])
    else
      var r := FirstNamed(e, items[1..], name);
      if r.Some? then
        var k :| 0 <= k < |items[1..]| && items[1..][k] == r.value && forall m | 0 <= m < k :: !(items[1..][m] < |e| && e[items[1..][m]].name == name);
        assert items[k + 1] == r.value;
        r
      else r
  }

  /** `exists`: some item of the working directory has that name. */
  predicate Exists(e: Entries, wd: nat, name: String): (r: bool)
    requires wd < |e|
    ensures r <==> exists k | 0 <= k < |e[wd].items| :: e[wd].items[k] < |e| && e[e[wd].items[k]].name == name
  {
    FirstNamed(e, e[wd].items, name).Some?
  }

  /** The working directory `cd(dir)` moves to: the parent for "..", the root
      for "/", otherwise the first item of that name, file or directory. */
  function CdTarget(e: Entries, wd: nat, dir: String): (r: Result<nat, SeventhError>)
    requires Tree(e) && wd < |e|
    ensures r.Ok? ==> r.value < |e|
    ensures dir == ".." ==> (r.Ok? <==> wd != Root) && (r.Ok? ==> r.value < wd && wd in e[r.value].items)
    ensures dir == ".." && r.Err? ==> r.error == RootDirectoryHasNoParent
    ensures dir == "/" ==> r == Ok(Root)
    ensures dir != ".." && dir != "/" ==> (r.Ok? <==> Exists(e, wd, dir))
    ensures dir != ".." && dir != "/" && r.Ok? ==> r.value in e[wd].items && e[r.value].name == dir
    ensures dir != ".." && dir != "/" && r.Err? ==> r.error == DirectoryDoesNotExist(dir)
  {
    if dir == ".." then
      match e[wd].parent
      case None => Err(RootDirectoryHasNoParent)
      case Some(p) => Ok(p)
    else if dir == "/" then Ok(Root)
    else
      match FirstNamed(e, e[wd].items, dir)
      case None => Err(DirectoryDoesNotExist(dir))
      case Some(c) => Ok(c)
  }

  /** `cd ..` undoes a `cd` into an item. */
  lemma CdBackUp(e: Entries, wd: nat, dir: String)
    requires Tree(e) && wd < |e|
    requires dir != ".." && dir != "/" && Exists(e, wd, dir)
    ensures CdTarget(e, CdTarget(e, wd, dir).value, "..") == Ok(wd)
  {
    var c := CdTarget(e, wd, dir).value;
    var k :| 0 <= k < |e[wd].items| && e[wd].items[k] == c;
  }

  /** A command of the history. `Ls` carries the listed entries, which have
      no parent and no items yet. */
  datatype Listing = Listing(name: String, size: nat, fileType: FileType)
  datatype Cmd = Cd(dir: String) | Ls(items: seq<Listing>)

  /** Executing the listing of an `ls`: a `touch` or `mkdir` per item, in order. */
  function AddAll(e: Entries, wd: nat, items: seq<Listing>): (r: Entries)
    requires Tree(e) && wd < |e|
    ensures Tree(r) && |r| == |e| + |items|
    decreases |items|
  {
    if items == [] then e
    else
      var last := items[|items| - 1];
      var prev := AddAll(e, wd, items[..|items| - 1]);
      var r := Add(prev, wd, last.name, (if last.fileType == File then last.size else 0), last.fileType);
      r
  }

  /** Listing one more item adds it after the ones listed so far. */
  lemma AddAllNext(e: Entries, wd: nat, items: seq<Listing>, k: nat)
    requires Tree(e) && wd < |e| && k < |items|
    ensures var size := if items[k].fileType == File then items[k].size else 0;
      AddAll(e, wd, items[..k + 1]) == Add(AddAll(e, wd, items[..k]), wd, items[k].name, size, items[k].fileType)
  {
    assert items[..k + 1][..k] == items[..k];
  }

  /** `FileSystem::execute`: the new entries and working directory, or the
      error of a failed `cd`. */
  function ExecuteOn(e: Entries, wd: nat, cmd: Cmd): (r: Result<(Entries, nat), SeventhError>)
    requires Tree(e) && wd < |e|
    ensures r.Ok? ==> Tree(r.value.0) && r.value.1 < |r.value.0|
    ensures cmd.Cd? ==> (r.Ok? <==> CdTarget(e, wd, cmd.dir).Ok?)
    ensures cmd.Cd? && r.Ok? ==> r.value == (e, CdTarget(e, wd, cmd.dir).value)
    ensures cmd.Ls? ==> r.Ok? && r.value.1 == wd && |r.value.0| == |e| + |cmd.items|
  {
    match cmd
    case Cd(dir) =>
      var t :- CdTarget(e, wd, dir);
      Ok((e, t))
    case Ls(items) => Ok((AddAll(e, wd, items), wd))
  }

  /** The extra bytes a new item of `s` bytes under `wd` adds to entry `i`:
      `s` for `wd` itself when it is a directory, nothing for files, and the
      sum over the items for the other directories. */
  function Gain(e: Entries, wd: nat, s: nat, i: nat): nat
    requires Tree(e) && i < |e|
    decreases |e| - i, 1, 0
  {
    match e[i].fileType
    case File => 0
    case Directory => if i == wd then s else ItemsGain(e, wd, s, i, |e[i].items|)
  }

  function ItemsGain(e: Entries, wd: nat, s: nat, i: nat, k: nat): nat
    requires Tree(e) && i < |e| && k <= |e[i].items|
    decreases |e| - i, 0, k
  {
    if k == 0 then 0 else ItemsGain(e, wd, s, i, k - 1) + Gain(e, wd, s, e[i].items[k - 1])
  }

  /** Entries after `wd` cannot contain it, so they gain nothing. */
  lemma {:induction false} GainAfter(e: Entries, wd: nat, s: nat, i: nat)
    requires Tree(e) && wd < i < |e|
    ensures Gain(e, wd, s, i) == 0
    decreases |e| - i, 1, 0
  {
    if e[i].fileType == Directory {
      ItemsGainAfter(e, wd, s, i, |e[i].items|);
    }
  }

  lemma {:induction false} ItemsGainAfter(e: Entries, wd: nat, s: nat, i: nat, k: nat)
    requires Tree(e) && wd < i < |e| && k <= |e[i].items|
    ensures ItemsGain(e, wd, s, i, k) == 0
    decreases |e| - i, 0, k
  {
    if k > 0 {
      ItemsGainAfter(e, wd, s, i, k - 1);
      GainAfter(e, wd, s, e[i].items[k - 1]);
    }
  }

  lemma {:induction false} ItemsGainOfOwn(e: Entries, wd: nat, s: nat, k: nat)
    requires Tree(e) && wd < |e| && k <= |e[wd].items|
    ensures ItemsGain(e, wd, s, wd, k) == 0
  {
    if k > 0 {
      ItemsGainOfOwn(e, wd, s, k - 1);
      GainAfter(e, wd, s, e[wd].items[k - 1]);
    }
  }

  /** Adding an item of size `s` under `wd` grows every entry by its `Gain`
      and nothing else: sizes elsewhere in the tree do not move. */
  lemma {:induction false} SizeAfterAdd(e: Entries, wd: nat, name: String, size: nat, fileType: FileType, i: nat)
    requires Tree(e) && wd < |e| && i < |e|
    ensures var s := if fileType == File then size else 0;
      Size(Add(e, wd, name, size, fileType), i) == Size(e, i) + Gain(e, wd, s, i)
    decreases |e| - i, 1, 0
  {
    var r := Add(e, wd, name, size, fileType);
    var s := if fileType == File then size else 0;
    if e[i].fileType == Directory {
      var n := |e[i].items|;
      ItemsSizeAfterAdd(e, wd, name, size, fileType, i, n);
      if i == wd {
        ItemsGainOfOwn(e, wd, s, n);
        assert Size(r, i) == ItemsSize(r, i, n) + Size(r, |e|);
      }
    }
  }

  lemma {:induction false} ItemsSizeAfterAdd(e: Entries, wd: nat, name: String, size: nat, fileType: FileType, i: nat, k: nat)
    requires Tree(e) && wd < |e| && i < |e| && k <= |e[i].items|
    ensures var s := if fileType == File then size else 0;
      var r := Add(e, wd, name, size, fileType);
      ItemsSize(r, i, k) == ItemsSize(e, i, k) + ItemsGain(e, wd, s, i, k)
    decreases |e| - i, 0, k
  {
    if k > 0 {
      ItemsSizeAfterAdd(e, wd, name, size, fileType, i, k - 1);
      SizeAfterAdd(e, wd, name, size, fileType, e[i].items[k - 1]);
      ItemsSizeAfterAddStep(e, wd, name, size, fileType, i, k);
    }
  }

  /** The step of ItemsSizeAfterAdd: item `k - 1` adds its own size and gain. */
  lemma ItemsSizeAfterAddStep(e: Entries, wd: nat, name: String, size: nat, fileType: FileType, i: nat, k: nat)
    requires Tree(e) && wd < |e| && i < |e| && 0 < k <= |e[i].items|
    requires var s := if fileType == File then size else 0;
      var r := Add(e, wd, name, size, fileType);
      && ItemsSize(r, i, k - 1) == ItemsSize(e, i, k - 1) + ItemsGain(e, wd, s, i, k - 1)
      && Size(r, e[i].items[k - 1]) == Size(e, e[i].items[k - 1]) + Gain(e, wd, s, e[i].items[k - 1])
    ensures var s := if fileType == File then size else 0;
      var r := Add(e, wd, name, size, fileType);
      ItemsSize(r, i, k) == ItemsSize(e, i, k) + ItemsGain(e, wd, s, i, k)
  {
    var r := Add(e, wd, name, size, fileType);
    var c := e[i].items[k - 1];
    AddKeepsItem(e, wd, name, size, fileType, i, k);
    ItemsSizeStep(r, i, k, c);
    ItemsSizeStep(e, i, k, c);
  }

  /** `add` keeps the items an entry already has. */
  lemma AddKeepsItem(e: Entries, wd: nat, name: String, size: nat, fileType: FileType, i: nat, k: nat)
    requires Tree(e) && wd < |e| && i < |e| && 0 < k <= |e[i].items|
    ensures var r := Add(e, wd, name, size, fileType);
      k <= |r[i].items| && r[i].items[k - 1] == e[i].items[k - 1]
  {
  }

  /** One more item adds its size. */
  lemma ItemsSizeStep(e: Entries, i: nat, k: nat, c: nat)
    requires Tree(e) && i < |e| && 0 < k <= |e[i].items| && c == e[i].items[k - 1]
    ensures c < |e| && ItemsSize(e, i, k) == ItemsSize(e, i, k - 1) + Size(e, c)
  {
  }

  /** `touch` in the root directory raises the disk usage by the file's size. */
  lemma TouchAtRootAddsSize(e: Entries, name: String, size: nat)
    requires Tree(e)
    ensures Size(Add(e, Root, name, size, File), Root) == Size(e, Root) + size
  {
    SizeAfterAdd(e, Root, name, size, File, Root);
  }

  /** `mkdir` changes no size anywhere. */
  lemma {:induction false} MkdirKeepsSizes(e: Entries, wd: nat, name: String, i: nat)
    requires Tree(e) && wd < |e| && i < |e|
    ensures Size(Add(e, wd, name, 0, Directory), i) == Size(e, i)
  {
    SizeAfterAdd(e, wd, name, 0, Directory, i);
    GainOfNothing(e, wd, i);
  }

  lemma {:induction false} GainOfNothing(e: Entries, wd: nat, i: nat)
    requires Tree(e) && i < |e|
    ensures Gain(e, wd, 0, i) == 0
    decreases |e| - i, 1, 0
  {
    if e[i].fileType == Directory && i != wd {
      ItemsGainOfNothing(e, wd, i, |e[i].items|);
    }
  }

  lemma {:induction false} ItemsGainOfNothing(e: Entries, wd: nat, i: nat, k: nat)
    requires Tree(e) && i < |e| && k <= |e[i].items|
    ensures ItemsGain(e, wd, 0, i, k) == 0
    decreases |e| - i, 0, k
  {
    if k > 0 {
      ItemsGainOfNothing(e, wd, i, k - 1);
      GainOfNothing(e, wd, e[i].items[k - 1]);
    }
  }

  /** A name and size reported by `folders_with`. */
  type Folder = (String, nat)

  /** The directory `j` holds the reported name and size. */
  ghost predicate IsFolder(e: Entries, j: nat, f: Folder)
    requires Tree(e) && j < |e|
  {
    e[j].fileType == Directory && e[j].name == f.0 && Size(e, j) == f.1
  }

  /** A pair some directory at or after position `i` holds, with a size
      that satisfies `p`. */
  ghost predicate Reported(e: Entries, i: nat, p: nat -> bool, f: Folder)
    requires Tree(e)
  {
    p(f.1) && exists j | i <= j < |e| :: IsFolder(e, j, f)
  }

  lemma ReportedFrom(e: Entries, i: nat, j: nat, p: nat -> bool, f: Folder)
    requires Tree(e) && i <= j && Reported(e, j, p, f)
    ensures Reported(e, i, p, f)
  {
  }

  /** `walker`: entry `i` first when it is a directory whose size satisfies
      `p`, then the walks of its items in order. */
  function Walk(e: Entries, i: nat, p: nat -> bool): (r: seq<Folder>)
    requires Tree(e) && i < |e|
    ensures forall k | 0 <= k < |r| :: p(r[k].1)
    ensures e[i].fileType == Directory && p(Size(e, i)) ==> |r| > 0 && r[0] == (e[i].name, Size(e, i))
    decreases |e| - i, 1, 0
  {
    (if e[i].fileType == Directory && p(Size(e, i)) then [(e[i].name, Size(e, i))] else [])
    + WalkItems(e, i, |e[i].items|, p)
  }

  function WalkItems(e: Entries, i: nat, k: nat, p: nat -> bool): (r: seq<Folder>)
    requires Tree(e) && i < |e| && k <= |e[i].items|
    ensures forall m | 0 <= m < |r| :: p(r[m].1)
    decreases |e| - i, 0, k
  {
    if k == 0 then [] else WalkItems(e, i, k - 1, p) + Walk(e, e[i].items[k - 1], p)
  }

  /** Every pair the walk from `i` reports is a directory at or after `i`
      whose size satisfies `p`. */
  lemma {:induction false} WalkReportsFolders(e: Entries, i: nat, p: nat -> bool)
    requires Tree(e) && i < |e|
    ensures forall k | 0 <= k < |Walk(e, i, p)| :: Reported(e, i, p, Walk(e, i, p)[k])
    decreases |e| - i, 1, 0
  {
    var own := if e[i].fileType == Directory && p(Size(e, i)) then [(e[i].name, Size(e, i))] else [];
    var rest := WalkItems(e, i, |e[i].items|, p);
    var r := own + rest;
    assert Walk(e, i, p) == r;
    WalkItemsReportFolders(e, i, |e[i].items|, p);
    forall k | 0 <= k < |r| ensures Reported(e, i, p, r[k]) {
      if k < |own| {
        assert r[k] == own[k];
        assert IsFolder(e, i, r[k]);
      } else {
        assert r[k] == rest[k - |own|];
        ReportedFrom(e, i, i + 1, p, r[k]);
      }
    }
  }

  lemma {:induction false} WalkItemsReportFolders(e: Entries, i: nat, k: nat, p: nat -> bool)
    requires Tree(e) && i < |e| && k <= |e[i].items|
    ensures forall m | 0 <= m < |WalkItems(e, i, k, p)| :: Reported(e, i + 1, p, WalkItems(e, i, k, p)[m])
    decreases |e| - i, 0, k
  {
    if k > 0 {
      var c := e[i].items[k - 1];
      WalkItemsReportFolders(e, i, k - 1, p);
      WalkReportsFolders(e, c, p);
      AllReportedJoin(e, i + 1, c, p, WalkItems(e, i, k - 1, p), Walk(e, c, p));
    }
  }

  /** Every pair of `s` is reported from position `i` on. */
  ghost predicate AllReported(e: Entries, i: nat, p: nat -> bool, s: seq<Folder>)
    requires Tree(e)
  {
    forall m | 0 <= m < |s| :: Reported(e, i, p, s[m])
  }

  lemma AllReportedJoin(e: Entries, i: nat, j: nat, p: nat -> bool, a: seq<Folder>, b: seq<Folder>)
    requires Tree(e) && i <= j && AllReported(e, i, p, a) && AllReported(e, j, p, b)
    ensures AllReported(e, i, p, a + b)
  {
    forall m | 0 <= m < |a + b| ensures Reported(e, i, p, (a + b)[m]) {
      if m < |a| {
        assert (a + b)[m] == a[m];
      } else {
        assert (a + b)[m] == b[m - |a|];
        ReportedFrom(e, i, j, p, b[m - |a|]);
      }
    }
  }

  /** Entry `j` lies in the tree under entry `i`: it is `i`, or its parent
      lies under `i`. */
  ghost predicate Under(e: Entries, i: nat, j: nat)
    requires Tree(e) && j < |e|
    decreases j
  {
    j == i || (j > 0 && Under(e, i, e[j].parent.value))
  }

  /** Every entry lies under the root. */
  lemma {:induction false} UnderRoot(e: Entries, j: nat)
    requires Tree(e) && j < |e|
    ensures Under(e, Root, j)
    decreases j
  {
    if j > 0 {
      UnderRoot(e, e[j].parent.value);
    }
  }

  /** An entry under `i`, other than `i`, lies under one of `i`'s items. */
  lemma {:induction false} UnderItem(e: Entries, i: nat, j: nat) returns (m: nat)
    requires Tree(e) && i < |e| && j < |e| && Under(e, i, j) && j != i
    ensures m < |e[i].items| && Under(e, e[i].items[m], j)
    decreases j
  {
    var q := e[j].parent.value;
    if q == i {
      m :| 0 <= m < |e[i].items| && e[i].items[m] == j;
    } else {
      m := UnderItem(e, i, q);
    }
  }

  /** A directory whose size `p` accepts, and the pair `walker` reports for it. */
  ghost predicate Selected(e: Entries, j: nat, p: nat -> bool)
    requires Tree(e) && j < |e|
  {
    e[j].fileType == Directory && p(Size(e, j))
  }

  function Pair(e: Entries, j: nat): Folder
    requires Tree(e) && j < |e|
  {
    (e[j].name, Size(e, j))
  }

  /** `s` occurs in `t` as one block starting at position `a`. */
  ghost predicate At(s: seq<Folder>, t: seq<Folder>, a: nat)
  {
    a + |s| <= |t| && forall k | 0 <= k < |s| :: t[a + k] == s[k]
  }

  /** `s` occurs in `t` as one contiguous block. */
  ghost predicate Within(s: seq<Folder>, t: seq<Folder>)
  {
    exists a: nat :: At(s, t, a)
  }

  /** `x` occurs in `s` before an occurrence of `y`. */
  ghost predicate Precedes(s: seq<Folder>, x: Folder, y: Folder)
  {
    exists a, b | 0 <= a < b < |s| :: s[a] == x && s[b] == y
  }

  lemma AtTrans(s: seq<Folder>, t: seq<Folder>, u: seq<Folder>, a: nat, b: nat)
    requires At(s, t, a) && At(t, u, b)
    ensures At(s, u, b + a)
  {
    forall k | 0 <= k < |s| ensures u[b + a + k] == s[k] {
      assert u[b + (a + k)] == t[a + k];
    }
  }

  lemma WithinTrans(s: seq<Folder>, t: seq<Folder>, u: seq<Folder>)
    requires Within(s, t) && Within(t, u)
    ensures Within(s, u)
  {
    var a: nat :| At(s, t, a);
    var b: nat :| At(t, u, b);
    AtTrans(s, t, u, a, b);
  }

  lemma AtEnds(x: seq<Folder>, s: seq<Folder>, y: seq<Folder>)
    ensures At(s, x + s + y, |x|)
  {
  }

  lemma PrecedesWithin(s: seq<Folder>, t: seq<Folder>, x: Folder, y: Folder)
    requires Precedes(s, x, y) && Within(s, t)
    ensures Precedes(t, x, y)
  {
    var a, b :| 0 <= a < b < |s| && s[a] == x && s[b] == y;
    var c: nat :| At(s, t, c);
    assert t[c + a] == s[a] && t[c + b] == s[b];
  }

  /** The walks of the first `k` items begin the walks of the first `n`. */
  lemma {:induction false} WalkItemsPrefix(e: Entries, i: nat, k: nat, n: nat, p: nat -> bool)
    requires Tree(e) && i < |e| && k <= n <= |e[i].items|
    ensures At(WalkItems(e, i, k, p), WalkItems(e, i, n, p), 0)
  {
    if k < n {
      WalkItemsPrefix(e, i, k, n - 1, p);
      AtEnds([], WalkItems(e, i, n - 1, p), Walk(e, e[i].items[n - 1], p));
      assert [] + WalkItems(e, i, n - 1, p) + Walk(e, e[i].items[n - 1], p) == WalkItems(e, i, n, p);
      AtTrans(WalkItems(e, i, k, p), WalkItems(e, i, n - 1, p), WalkItems(e, i, n, p), 0, 0);
    }
  }

  /** The walk of item `m` is one block of the walks of the first `k` items,
      after the walks of the items before it. */
  lemma WalkItemsHold(e: Entries, i: nat, m: nat, k: nat, p: nat -> bool)
    requires Tree(e) && i < |e| && m < k <= |e[i].items|
    ensures At(Walk(e, e[i].items[m], p), WalkItems(e, i, k, p), |WalkItems(e, i, m, p)|)
  {
    WalkItemsPrefix(e, i, m + 1, k, p);
    AtEnds(WalkItems(e, i, m, p), Walk(e, e[i].items[m], p), []);
    assert WalkItems(e, i, m, p) + Walk(e, e[i].items[m], p) + [] == WalkItems(e, i, m + 1, p);
    AtTrans(Walk(e, e[i].items[m], p), WalkItems(e, i, m + 1, p), WalkItems(e, i, k, p), |WalkItems(e, i, m, p)|, 0);
  }

  /** The walk from `i` holds the walk of every entry under `i` as one
      block: `walker` reports a subtree in one piece. */
  lemma {:induction false} WalkHolds(e: Entries, i: nat, j: nat, p: nat -> bool)
    requires Tree(e) && i < |e| && j < |e| && Under(e, i, j)
    ensures Within(Walk(e, j, p), Walk(e, i, p))
    decreases |e| - i
  {
    var w := Walk(e, i, p);
    if j == i {
      assert At(w, w, 0);
    } else {
      var m := UnderItem(e, i, j);
      var c := e[i].items[m];
      var items := WalkItems(e, i, |e[i].items|, p);
      WalkHolds(e, c, j, p);
      WalkItemsHold(e, i, m, |e[i].items|, p);
      WithinTrans(Walk(e, j, p), Walk(e, c, p), items);
      var own := if e[i].fileType == Directory && p(Size(e, i)) then [(e[i].name, Size(e, i))] else [];
      AtEnds(own, items, []);
      assert own + items + [] == w;
      WithinTrans(Walk(e, j, p), items, w);
    }
  }

  /** Completeness and order of `walker`: every directory under `i` whose
      size satisfies `p` is reported, and before every such directory
      under it. */
  lemma WalkFindsFolders(e: Entries, i: nat, p: nat -> bool)
    requires Tree(e) && i < |e|
    ensures forall j | 0 <= j < |e| && Under(e, i, j) && Selected(e, j, p) :: Pair(e, j) in Walk(e, i, p)
    ensures forall j, k | 0 <= j < |e| && 0 <= k < |e| && Under(e, i, j) && Under(e, j, k) && k != j
      && Selected(e, j, p) && Selected(e, k, p) :: Precedes(Walk(e, i, p), Pair(e, j), Pair(e, k))
  {
    forall j | 0 <= j < |e| && Under(e, i, j) && Selected(e, j, p) ensures Pair(e, j) in Walk(e, i, p) {
      Reports(e, i, j, p);
    }
    forall j, k | 0 <= j < |e| && 0 <= k < |e| && Under(e, i, j) && Under(e, j, k) && k != j
      && Selected(e, j, p) && Selected(e, k, p)
      ensures Precedes(Walk(e, i, p), Pair(e, j), Pair(e, k))
    {
      ReportsBefore(e, j, k, p);
      WalkHolds(e, i, j, p);
      PrecedesWithin(Walk(e, j, p), Walk(e, i, p), Pair(e, j), Pair(e, k));
    }
  }

  /** A selected directory under `i` is in the walk from `i`. */
  lemma Reports(e: Entries, i: nat, j: nat, p: nat -> bool)
    requires Tree(e) && i < |e| && j < |e| && Under(e, i, j) && Selected(e, j, p)
    ensures Pair(e, j) in Walk(e, i, p)
  {
    WalkHolds(e, i, j, p);
    var w, s := Walk(e, i, p), Walk(e, j, p);
    var a: nat :| At(s, w, a);
    assert s[0] == Pair(e, j);
    assert w[a + 0] == s[0];
  }

  /** A selected directory's pair comes before that of a selected
      directory under it. */
  lemma ReportsBefore(e: Entries, j: nat, k: nat, p: nat -> bool)
    requires Tree(e) && j < |e| && k < |e| && Under(e, j, k) && k != j && Selected(e, j, p) && Selected(e, k, p)
    ensures Precedes(Walk(e, j, p), Pair(e, j), Pair(e, k))
  {
    var m := UnderItem(e, j, k);
    var items, s, w := WalkItems(e, j, |e[j].items|, p), Walk(e, e[j].items[m], p), Walk(e, j, p);
    Reports(e, e[j].items[m], k, p);
    var b :| 0 <= b < |s| && s[b] == Pair(e, k);
    WalkItemsHold(e, j, m, |e[j].items|, p);
    WalkSplit(e, j, p);
    HeadPrecedes(Pair(e, j), items, s, w, |WalkItems(e, j, m, p)|, b);
  }

  /** Order of `walker` across siblings: everything reported under an
      earlier item of a directory comes before everything reported under a
      later one. */
  lemma WalkKeepsItemOrder(e: Entries, d: nat, m: nat, n: nat, j: nat, k: nat, p: nat -> bool)
    requires Tree(e) && d < |e| && m < n < |e[d].items| && j < |e| && k < |e|
    requires Under(e, e[d].items[m], j) && Under(e, e[d].items[n], k) && Selected(e, j, p) && Selected(e, k, p)
    ensures Precedes(Walk(e, d, p), Pair(e, j), Pair(e, k))
  {
    var items := WalkItems(e, d, |e[d].items|, p);
    var first, second := Walk(e, e[d].items[m], p), Walk(e, e[d].items[n], p);
    Reports(e, e[d].items[m], j, p);
    Reports(e, e[d].items[n], k, p);
    var a :| 0 <= a < |first| && first[a] == Pair(e, j);
    var b :| 0 <= b < |second| && second[b] == Pair(e, k);
    WalkItemsHold(e, d, m, |e[d].items|, p);
    WalkItemsHold(e, d, n, |e[d].items|, p);
    PrefixLonger(e, d, m, n, p);
    AtPrecedes(first, second, items, |WalkItems(e, d, m, p)|, |WalkItems(e, d, n, p)|, a, b);
    WalkSplit(e, d, p);
    PrecedesBehind(if Selected(e, d, p) then [Pair(e, d)] else [], items, Walk(e, d, p), Pair(e, j), Pair(e, k));
  }

  /** `walker` on a directory: its own pair when selected, then its items'. */
  lemma WalkSplit(e: Entries, d: nat, p: nat -> bool)
    requires Tree(e) && d < |e|
    ensures Walk(e, d, p) == (if Selected(e, d, p) then [Pair(e, d)] else []) + WalkItems(e, d, |e[d].items|, p)
  {
  }

  /** The head of `w` comes before every element of a block of its tail. */
  lemma HeadPrecedes(x: Folder, items: seq<Folder>, s: seq<Folder>, w: seq<Folder>, c: nat, b: nat)
    requires w == [x] + items && At(s, items, c) && b < |s|
    ensures Precedes(w, x, s[b])
  {
    assert w[0] == x && w[1 + (c + b)] == items[c + b] == s[b];
  }

  lemma PrecedesBehind(own: seq<Folder>, items: seq<Folder>, w: seq<Folder>, x: Folder, y: Folder)
    requires w == own + items && Precedes(items, x, y)
    ensures Precedes(w, x, y)
  {
    var a, b :| 0 <= a < b < |items| && items[a] == x && items[b] == y;
    assert w[|own| + a] == x && w[|own| + b] == y;
  }

  /** Two blocks of `u`, the first ending before the second begins: each
      element of the first comes before each element of the second. */
  lemma AtPrecedes(s: seq<Folder>, t: seq<Folder>, u: seq<Folder>, c: nat, c': nat, a: nat, b: nat)
    requires At(s, u, c) && At(t, u, c') && c + |s| <= c' && a < |s| && b < |t|
    ensures Precedes(u, s[a], t[b])
  {
    assert u[c + a] == s[a] && u[c' + b] == t[b];
  }

  /** The walks of the items up to and including item `m` end no later
      than the walks of the items before a later item `n` do. */
  lemma PrefixLonger(e: Entries, d: nat, m: nat, n: nat, p: nat -> bool)
    requires Tree(e) && d < |e| && m < n <= |e[d].items|
    ensures |WalkItems(e, d, m, p)| + |Walk(e, e[d].items[m], p)| <= |WalkItems(e, d, n, p)|
  {
    WalkItemsPrefix(e, d, m + 1, n, p);
    assert WalkItems(e, d, m + 1, p) == WalkItems(e, d, m, p) + Walk(e, e[d].items[m], p);
  }

  /** Sibling order seen from any entry above the directory. */
  lemma WalkInPreOrder(e: Entries, i: nat, p: nat -> bool)
    requires Tree(e) && i < |e|
    ensures forall d, m, n, j, k | 0 <= d < |e| && 0 <= m < n < |e[d].items| && 0 <= j < |e| && 0 <= k < |e|
      && Under(e, i, d) && Under(e, e[d].items[m], j) && Under(e, e[d].items[n], k) && Selected(e, j, p) && Selected(e, k, p)
      :: Precedes(Walk(e, i, p), Pair(e, j), Pair(e, k))
  {
    forall d, m, n, j, k | 0 <= d < |e| && 0 <= m < n < |e[d].items| && 0 <= j < |e| && 0 <= k < |e|
      && Under(e, i, d) && Under(e, e[d].items[m], j) && Under(e, e[d].items[n], k) && Selected(e, j, p) && Selected(e, k, p)
      ensures Precedes(Walk(e, i, p), Pair(e, j), Pair(e, k))
    {
      WalkKeepsItemOrder(e, d, m, n, j, k, p);
      WalkHolds(e, i, d, p);
      PrecedesWithin(Walk(e, d, p), Walk(e, i, p), Pair(e, j), Pair(e, k));
    }
  }

  /** The arena only grows: every item a history adds is a fresh entry. */
  class FileSystem {
    var entries: Entries
    var workingDir: nat

    ghost predicate Valid()
      reads this
    {
      Tree(entries) && workingDir < |entries|
    }

    /** `FileSystem::default`. */
    constructor ()
      ensures Valid() && entries == Empty() && workingDir == Root
    {
      entries := Empty();
      workingDir := Root;
    }

    /** `touch`: a file of that size under the working directory. */
    method Touch(name: String, size: nat)
      requires Valid()
      modifies this
      ensures Valid()
      ensures entries == Add(old(entries), old(workingDir), name, size, File)
      ensures workingDir == old(workingDir)
    {
      entries := Add(entries, workingDir, name, size, File);
    }

    /** `mkdir`: an empty directory under the working directory. */
    method Mkdir(name: String)
      requires Valid()
      modifies this
      ensures Valid()
      ensures entries == Add(old(entries), old(workingDir), name, 0, Directory)
      ensures workingDir == old(workingDir)
    {
      entries := Add(entries, workingDir, name, 0, Directory);
    }

    /** `cd`: moves the working directory, or reports why it cannot and
        leaves it where it was. */
    method Cd(dir: String) returns (r: Result<(), SeventhError>)
      requires Valid()
      modifies this
      ensures Valid() && entries == old(entries)
      ensures r.Ok? <==> CdTarget(entries, old(workingDir), dir).Ok?
      ensures r.Ok? ==> workingDir == CdTarget(entries, old(workingDir), dir).value
      ensures r.Err? ==> workingDir == old(workingDir) && r.error == CdTarget(entries, old(workingDir), dir).error
    {
      if dir == ".." {
        match entries[workingDir].parent
        case None =>
          return Err(RootDirectoryHasNoParent);
        case Some(p) =>
          workingDir := p;
      } else if dir == "/" {
        workingDir := Root;
      } else {
        var k := 0;
        while k < |entries[workingDir].items|
          invariant k <= |entries[workingDir].items|
          invariant FirstNamed(entries, entries[workingDir].items, dir) == FirstNamed(entries, entries[workingDir].items[k..], dir)
        {
          var c := entries[workingDir].items[k];
          assert entries[workingDir].items[k..][0] == c;
          assert entries[workingDir].items[k..][1..] == entries[workingDir].items[k + 1..];
          if entries[c].name == dir {
            workingDir := c;
            return Ok(());
          }
          k := k + 1;
        }
        return Err(DirectoryDoesNotExist(dir));
      }
      return Ok(());
    }

    /** `execute`: a `cd`, or a `touch`/`mkdir` per listed item. */
    method Execute(cmd: Cmd) returns (r: Result<(), SeventhError>)
      requires Valid()
      modifies this
      ensures Valid()
      ensures var expected := ExecuteOn(old(entries), old(workingDir), cmd);
        && (r.Ok? <==> expected.Ok?)
        && (r.Ok? ==> (entries, workingDir) == expected.value)
        && (r.Err? ==> entries == old(entries) && workingDir == old(workingDir) && r.error == expected.error)
    {
      match cmd
      case Cd(dir) =>
        r := Cd(dir);
      case Ls(items) =>
        List(items);
        r := Ok(());
    }

    /** The listing part of `execute`: a `touch` or `mkdir` per item. */
    method List(items: seq<Listing>)
      requires Valid()
      modifies this
      ensures Valid()
      ensures entries == AddAll(old(entries), old(workingDir), items)
      ensures workingDir == old(workingDir)
    {
      var k := 0;
      while k < |items|
        invariant k <= |items| && Valid()
        invariant workingDir == old(workingDir)
        invariant entries == AddAll(old(entries), workingDir, items[..k])
      {
        AddAllNext(old(entries), workingDir, items, k);
        ghost var prev := entries;
        ghost var size := if items[k].fileType == File then items[k].size else 0;
        if items[k].fileType == File {
          Touch(items[k].name, items[k].size);
        } else {
          Mkdir(items[k].name);
        }
        assert entries == Add(prev, workingDir, items[k].name, size, items[k].fileType);
        k := k + 1;
      }
      assert items[..k] == items;
    }

    /** `disk_usage`: the size of the root. */
    function DiskUsage(): (r: nat)
      reads this
      requires Valid()
      ensures forall m | 0 <= m < |entries[Root].items| :: Size(entries, entries[Root].items[m]) <= r
    {
      Size(entries, Root)
    }

    /** `folders_with`: the walk from the root. */
    function FoldersWith(p: nat -> bool): (r: seq<Folder>)
      reads this
      requires Valid()
      ensures forall k | 0 <= k < |r| :: Reported(entries, Root, p, r[k])
      ensures forall j | 0 <= j < |entries| && Selected(entries, j, p) :: Pair(entries, j) in r
      ensures forall j, k | 0 <= j < |entries| && 0 <= k < |entries| && Under(entries, j, k) && k != j
        && Selected(entries, j, p) && Selected(entries, k, p) :: Precedes(r, Pair(entries, j), Pair(entries, k))
      ensures forall d, m, n, j, k | 0 <= d < |entries| && 0 <= m < n < |entries[d].items| && 0 <= j < |entries| && 0 <= k < |entries|
        && Under(entries, entries[d].items[m], j) && Under(entries, entries[d].items[n], k)
        && Selected(entries, j, p) && Selected(entries, k, p)
        :: Precedes(r, Pair(entries, j), Pair(entries, k))
    {
      WalkReportsFolders(entries, Root, p);
      WalkFindsFolders(entries, Root, p);
      WalkInPreOrder(entries, Root, p);
      forall j | 0 <= j < |entries| ensures Under(entries, Root, j) {
        UnderRoot(entries, j);
      }
      Walk(entries, Root, p)
    }
  }

  /** The directory listing lines of an `ls`: lines without a space are
      skipped, "dir n" is a directory, "s n" a file whose size `s` must parse
      as a `usize`. The first bad size is the error. */
  function ParseListing(lines: seq<String>): (r: Result<seq<Listing>, SeventhError>)
    ensures r.Ok? ==> |r.value| <= |lines|
    ensures r.Err? ==> r.error.InvalidFileSize?
  {
    if lines == [] then Ok([])
    else
      match SplitOnce(lines[0], " ")
      case None => ParseListing(lines[1..])
      case Some((s, n)) =>
        var item :- if s == "dir" then Ok(Listing(n, 0, Directory))
                    else match ParseUnsigned(s, USIZE_MAX)
                      case None => Err(InvalidFileSize(s))
                      case Some(size) => Ok(Listing(n, size, File));
        var rest :- ParseListing(lines[1..]);
        Ok([item] + rest)
  }

  /** One command with its output: "cd <dir>" needs the space, "ls" reads its
      output lines, anything else is unknown. */
  function ParseCommand(cmd: String, output: String): (r: Result<Cmd, SeventhError>)
    ensures StartsWith(cmd, "cd") ==> (r.Ok? <==> Contains(cmd, " "))
    ensures StartsWith(cmd, "cd") && r.Ok? ==> r.value.Cd? && cmd == cmd[..Find(cmd, " ").value] + " " + r.value.dir
    ensures StartsWith(cmd, "cd") && r.Err? ==> r.error == MissingArgumentForChangeDirectory
    ensures !StartsWith(cmd, "cd") && StartsWith(cmd, "ls") ==> (r.Ok? <==> ParseListing(Lines(output)).Ok?)
    ensures !StartsWith(cmd, "cd") && !StartsWith(cmd, "ls") ==> r == Err(UnknownCommand(cmd))
  {
    if StartsWith(cmd, "cd") then
      match SplitOnce(cmd, " ")
      case None => Err(MissingArgumentForChangeDirectory)
      case Some((_, dir)) => Ok(Cd(dir))
    else if StartsWith(cmd, "ls") then
      var items :- ParseListing(Lines(output));
      Ok(Ls(items))
    else Err(UnknownCommand(cmd))
  }

  /** The trimmed text between two '$', cut at its first newline into the
      command and its output. */
  function CommandAndOutput(part: String): (String, String)
  {
    var line := Trim(part);
    match SplitOnce(line, "\n")
    case None => (line, [])
    case Some(p) => p
  }

  function ParseCommands(parts: seq<String>): (r: Result<seq<Cmd>, SeventhError>)
    ensures r.Ok? ==> |r.value| == |parts|
  {
    if parts == [] then Ok([])
    else
      var p := CommandAndOutput(parts[0]);
      var cmd :- ParseCommand(p.0, p.1);
      var rest :- ParseCommands(parts[1..]);
      Ok([cmd] + rest)
  }

  function NonEmpty(parts: seq<String>): (r: seq<String>)
    ensures |r| <= |parts|
    ensures forall k | 0 <= k < |r| :: r[k] != []
  {
    if parts == [] then []
    else if parts[0] == [] then NonEmpty(parts[1..])
    else [parts[0]] + NonEmpty(parts[1..])
  }

  /** `interprete_history`: one command per non-empty text between '$'
      markers, or the first error. */
  function InterpreteHistory(log: String): (r: Result<seq<Cmd>, SeventhError>)
    ensures r.Ok? ==> |r.value| == |NonEmpty(Split(log, "$"))|
  {
    ParseCommands(NonEmpty(Split(log, "$")))
  }

  /** The commands executed one after the other, stopping at the first error. */
  function Replay(e: Entries, wd: nat, cmds: seq<Cmd>): (r: Result<(Entries, nat), SeventhError>)
    requires Tree(e) && wd < |e|
    ensures r.Ok? ==> Tree(r.value.0) && r.value.1 < |r.value.0|
    decreases |cmds|
  {
    if cmds == [] then Ok((e, wd))
    else
      var prev :- Replay(e, wd, cmds[..|cmds| - 1]);
      ExecuteOn(prev.0, prev.1, cmds[|cmds| - 1])
  }

  /** Once a command fails the replay stays failed with that error. */
  lemma {:induction false} ReplayStopsAtFailure(e: Entries, wd: nat, cmds: seq<Cmd>, k: nat)
    requires Tree(e) && wd < |e| && k <= |cmds|
    requires Replay(e, wd, cmds[..k]).Err?
    ensures Replay(e, wd, cmds) == Replay(e, wd, cmds[..k])
    decreases |cmds|
  {
    if k < |cmds| {
      assert cmds[..|cmds| - 1][..k] == cmds[..k];
      ReplayStopsAtFailure(e, wd, cmds[..|cmds| - 1], k);
    } else {
      assert cmds[..k] == cmds;
    }
  }

  /** Replaying one more command executes it on the state replayed so far. */
  lemma ReplayNext(e: Entries, wd: nat, cmds: seq<Cmd>, k: nat)
    requires Tree(e) && wd < |e| && k < |cmds|
    requires Replay(e, wd, cmds[..k]).Ok?
    ensures var prev := Replay(e, wd, cmds[..k]).value;
      Replay(e, wd, cmds[..k + 1]) == ExecuteOn(prev.0, prev.1, cmds[k])
  {
    assert cmds[..k + 1][..k] == cmds[..k];
  }

  /** The loop of `FileSystem::new`: every command executed in turn on the
      file system, stopping at the first error. */
  method Run(fs: FileSystem, cmds: seq<Cmd>) returns (r: Result<(), SeventhError>)
    requires fs.Valid()
    modifies fs
    ensures fs.Valid()
    ensures var expected := Replay(old(fs.entries), old(fs.workingDir), cmds);
      && (r.Ok? <==> expected.Ok?)
      && (r.Ok? ==> (fs.entries, fs.workingDir) == expected.value)
      && (r.Err? ==> r.error == expected.error)
  {
    ghost var e, wd := fs.entries, fs.workingDir;
    var k := 0;
    while k < |cmds|
      invariant k <= |cmds| && fs.Valid()
      invariant Replay(e, wd, cmds[..k]) == Ok((fs.entries, fs.workingDir))
    {
      ReplayNext(e, wd, cmds, k);
      var step := fs.Execute(cmds[k]);
      if step.Err? {
        ReplayStopsAtFailure(e, wd, cmds, k + 1);
        return Err(step.error);
      }
      k := k + 1;
    }
    assert cmds[..k] == cmds;
    return Ok(());
  }

  /** `FileSystem::new` without the file reading: execute every command of
      the history from the empty file system, stopping at the first error. */
  method FromHistory(log: String) returns (r: Result<FileSystem, SeventhError>)
    ensures InterpreteHistory(log).Err? ==> r == Err(InterpreteHistory(log).error)
    ensures InterpreteHistory(log).Ok? ==>
      var expected := Replay(Empty(), Root, InterpreteHistory(log).value);
      && (r.Ok? <==> expected.Ok?)
      && (r.Ok? ==> fresh(r.value) && r.value.Valid() && (r.value.entries, r.value.workingDir) == expected.value)
      && (r.Err? ==> r.error == expected.error)
  {
    var history := InterpreteHistory(log);
    if history.Err? {
      return Err(history.error);
    }
    var fs := new FileSystem();
    var run := Run(fs, history.value);
    if run.Err? {
      return Err(run.error);
    }
    return Ok(fs);
  }

  /** `cd` into a name the empty file system does not hold fails. */
  lemma CdIntoMissingDirectory()
    ensures ExecuteOn(Empty(), Root, Cd("foo")) == Err(DirectoryDoesNotExist("foo"))
    ensures !Exists(Empty(), Root, "foo")
  {
  }

  /** Walks of plain files report nothing. */
  lemma WalkOfFile(e: Entries, i: nat, p: nat -> bool)
    requires Tree(e) && i < |e| && e[i].fileType == File && e[i].items == []
    ensures Walk(e, i, p) == []
  {
  }

  /** Items that are plain files report nothing. */
  lemma {:induction false} WalkItemsOfFiles(e: Entries, i: nat, j: nat, k: nat, p: nat -> bool)
    requires Tree(e) && i < |e| && j <= k <= |e[i].items|
    requires forall m | j <= m < k :: Leaf(e, e[i].items[m])
    ensures WalkItems(e, i, k, p) == WalkItems(e, i, j, p)
  {
    if j < k {
      WalkItemsOfFiles(e, i, j, k - 1, p);
      WalkOfFile(e, e[i].items[k - 1], p);
    }
  }

  /** The file system the puzzle's sample history builds: the root holds
      a, b.txt, c.dat and d; a holds e, f, g and h.lst; e holds i; d holds
      j, d.log, d.ext and k. */
  function SampleTree(): Entries
  {
    [ FileEntry("", 0, None, [1, 2, 3, 4], Directory),
      FileEntry("a", 0, Some(0), [5, 6, 7, 8], Directory),
      FileEntry("b.txt", 14848514, Some(0), [], File),
      FileEntry("c.dat", 8504156, Some(0), [], File),
      FileEntry("d", 0, Some(0), [10, 11, 12, 13], Directory),
      FileEntry("e", 0, Some(1), [9], Directory),
      FileEntry("f", 29116, Some(1), [], File),
      FileEntry("g", 2557, Some(1), [], File),
      FileEntry("h.lst", 62596, Some(1), [], File),
      FileEntry("i", 584, Some(5), [], File),
      FileEntry("j", 4060174, Some(4), [], File),
      FileEntry("d.log", 8033020, Some(4), [], File),
      FileEntry("d.ext", 5626152, Some(4), [], File),
      FileEntry("k", 7214296, Some(4), [], File) ]
  }

  /** Entry `j` is a file. */
  ghost predicate Leaf(e: Entries, j: nat)
  {
    j < |e| && e[j].fileType == File && e[j].items == []
  }

  /** The shape of the sample, stated entry by entry: directory names and
      items, file sizes, and the parent links. */
  ghost predicate Sample(e: Entries)
  {
    && |e| == 14
    && e[0].name == "" && e[1].name == "a" && e[4].name == "d" && e[5].name == "e"
    && e[0].items == [1, 2, 3, 4] && e[1].items == [5, 6, 7, 8]
    && e[4].items == [10, 11, 12, 13] && e[5].items == [9]
    && e[0].fileType == Directory && e[1].fileType == Directory
    && e[4].fileType == Directory && e[5].fileType == Directory
    && e[0].parent == None
    && (forall j | 1 <= j <= 4 :: e[j].parent == Some(0))
    && (forall j | 5 <= j <= 8 :: e[j].parent == Some(1))
    && e[9].parent == Some(5)
    && (forall j | 10 <= j <= 13 :: e[j].parent == Some(4))
    && Leaf(e, 2) && Leaf(e, 3) && Leaf(e, 6) && Leaf(e, 7) && Leaf(e, 8) && Leaf(e, 9)
    && Leaf(e, 10) && Leaf(e, 11) && Leaf(e, 12) && Leaf(e, 13)
    && e[2].size == 14848514 && e[3].size == 8504156 && e[6].size == 29116
    && e[7].size == 2557 && e[8].size == 62596 && e[9].size == 584
    && e[10].size == 4060174 && e[11].size == 8033020 && e[12].size == 5626152
    && e[13].size == 7214296
  }

  lemma SampleIsTree(e: Entries)
    requires Sample(e)
    ensures Tree(e)
  {
    SampleParentsBefore(e);
    SampleChildrenAfter(e);
  }

  lemma SampleParentsBefore(e: Entries)
    requires Sample(e)
    ensures ParentsBefore(e)
  {
    forall j | 0 < j < |e|
      ensures e[j].parent.Some? && e[j].parent.value < j && j in e[e[j].parent.value].items
    {
      if j <= 4 { assert e[0].items[j - 1] == j; }
      else if j <= 8 { assert e[1].items[j - 5] == j; }
      else if j == 9 { assert e[5].items[0] == j; }
      else { assert e[4].items[j - 10] == j; }
    }
  }

  lemma SampleChildrenAfter(e: Entries)
    requires Sample(e)
    ensures ChildrenAfter(e)
  {
    forall i | 0 <= i < |e|
      ensures forall k | 0 <= k < |e[i].items| :: i < e[i].items[k] < |e| && e[e[i].items[k]].parent == Some(i)
    {
      SampleChildrenOf(e, i);
    }
  }

  lemma SampleChildrenOf(e: Entries, i: nat)
    requires Sample(e) && i < |e|
    ensures forall k | 0 <= k < |e[i].items| :: i < e[i].items[k] < |e| && e[e[i].items[k]].parent == Some(i)
  {
    var items := e[i].items;
    if i == 0 {
      assert forall k | 0 <= k < |items| :: items[k] == k + 1;
    } else if i == 1 {
      assert forall k | 0 <= k < |items| :: items[k] == k + 5;
    } else if i == 4 {
      assert forall k | 0 <= k < |items| :: items[k] == k + 10;
    } else if i == 5 {
      assert forall k | 0 <= k < |items| :: items[k] == 9;
    } else {
      assert Leaf(e, i);
    }
  }

  lemma SampleSizeOfA(e: Entries)
    requires Sample(e) && Tree(e)
    ensures Size(e, 5) == 584 && Size(e, 1) == 94853
  {
    assert Size(e, 5) == 584 by {
      assert ItemsSize(e, 5, 1) == Size(e, 9);
    }
    assert ItemsSize(e, 1, 1) == Size(e, 5);
    assert ItemsSize(e, 1, 2) == ItemsSize(e, 1, 1) + Size(e, 6);
    assert ItemsSize(e, 1, 3) == ItemsSize(e, 1, 2) + Size(e, 7);
    assert ItemsSize(e, 1, 4) == ItemsSize(e, 1, 3) + Size(e, 8);
  }

  lemma SampleSizeOfD(e: Entries)
    requires Sample(e) && Tree(e)
    ensures Size(e, 4) == 24933642
  {
    assert ItemsSize(e, 4, 1) == Size(e, 10);
    assert ItemsSize(e, 4, 2) == ItemsSize(e, 4, 1) + Size(e, 11);
    assert ItemsSize(e, 4, 3) == ItemsSize(e, 4, 2) + Size(e, 12);
    assert ItemsSize(e, 4, 4) == ItemsSize(e, 4, 3) + Size(e, 13);
  }

  /** Directory sizes of the sample: e, a, d and the root. */
  lemma SampleSizes(e: Entries)
    requires Sample(e)
    ensures Tree(e)
    ensures Size(e, 5) == 584 && Size(e, 1) == 94853 && Size(e, 4) == 24933642
    ensures Size(e, Root) == 48381165
  {
    SampleIsTree(e);
    SampleSizeOfA(e);
    SampleSizeOfD(e);
    assert ItemsSize(e, 0, 1) == Size(e, 1);
    assert ItemsSize(e, 0, 2) == ItemsSize(e, 0, 1) + Size(e, 2);
    assert ItemsSize(e, 0, 3) == ItemsSize(e, 0, 2) + Size(e, 3);
    assert ItemsSize(e, 0, 4) == ItemsSize(e, 0, 3) + Size(e, 4);
  }

  /** The sample tree has that shape. */
  lemma SampleTreeIsSample()
    ensures Sample(SampleTree())
  {
    var e := SampleTree();
    SampleTreeShape(e);
    SampleTreeParents(e);
    SampleTreeLeaves(e);
  }

  lemma SampleTreeShape(e: Entries)
    requires e == SampleTree()
    ensures |e| == 14
    ensures e[0].name == "" && e[1].name == "a" && e[4].name == "d" && e[5].name == "e"
    ensures e[0].items == [1, 2, 3, 4] && e[1].items == [5, 6, 7, 8]
    ensures e[4].items == [10, 11, 12, 13] && e[5].items == [9]
    ensures e[0].fileType == Directory && e[1].fileType == Directory
    ensures e[4].fileType == Directory && e[5].fileType == Directory
  {
  }

  lemma SampleTreeParents(e: Entries)
    requires e == SampleTree()
    ensures |e| == 14 && e[0].parent == None
    ensures forall j | 1 <= j <= 4 :: e[j].parent == Some(0)
    ensures forall j | 5 <= j <= 8 :: e[j].parent == Some(1)
    ensures e[9].parent == Some(5)
    ensures forall j | 10 <= j <= 13 :: e[j].parent == Some(4)
  {
  }

  lemma SampleTreeLeaves(e: Entries)
    requires e == SampleTree()
    ensures |e| == 14
    ensures Leaf(e, 2) && Leaf(e, 3) && Leaf(e, 6) && Leaf(e, 7) && Leaf(e, 8) && Leaf(e, 9)
    ensures Leaf(e, 10) && Leaf(e, 11) && Leaf(e, 12) && Leaf(e, 13)
    ensures e[2].size == 14848514 && e[3].size == 8504156 && e[6].size == 29116
    ensures e[7].size == 2557 && e[8].size == 62596 && e[9].size == 584
    ensures e[10].size == 4060174 && e[11].size == 8033020 && e[12].size == 5626152
    ensures e[13].size == 7214296
  {
  }

  lemma SampleWalkOfE(e: Entries, p: nat -> bool)
    requires Sample(e)
    ensures Tree(e) && Walk(e, 5, p) == if p(584) then [("e", 584)] else []
  {
    SampleSizes(e);
    WalkItemsOfFiles(e, 5, 0, 1, p);
  }

  lemma SampleWalkOfD(e: Entries, p: nat -> bool)
    requires Sample(e)
    ensures Tree(e) && Walk(e, 4, p) == if p(24933642) then [("d", 24933642)] else []
  {
    SampleIsTree(e);
    SampleSizeOfD(e);
    SampleFilesOfD(e);
    WalkItemsOfFiles(e, 4, 0, 4, p);
  }

  /** The root holds a, then the files b.txt and c.dat, then d. */
  lemma SampleFilesOfRoot(e: Entries)
    requires Sample(e)
    ensures forall m | 1 <= m < 3 :: Leaf(e, e[0].items[m])
  {
    var items := e[0].items;
    forall m | 1 <= m < 3
      ensures Leaf(e, items[m])
    {
      if m == 1 {
        assert items[m] == 2;
      } else {
        assert items[m] == 3;
      }
    }
  }

  lemma SampleFilesOfD(e: Entries)
    requires Sample(e)
    ensures forall m | 0 <= m < 4 :: Leaf(e, e[4].items[m])
  {
    var items := e[4].items;
    forall m | 0 <= m < 4
      ensures Leaf(e, items[m])
    {
      assert items[m] == m + 10;
    }
  }

  /** Directory a holds e and then the files f, g and h.lst. */
  lemma SampleFilesOfA(e: Entries)
    requires Sample(e)
    ensures forall m | 1 <= m < 4 :: Leaf(e, e[1].items[m])
  {
    var items := e[1].items;
    forall m | 1 <= m < 4
      ensures Leaf(e, items[m])
    {
      if m == 1 {
        assert items[m] == 6;
      } else if m == 2 {
        assert items[m] == 7;
      } else {
        assert items[m] == 8;
      }
    }
  }

  lemma SampleWalkOfA(e: Entries, p: nat -> bool)
    requires Sample(e)
    ensures Tree(e) && Walk(e, 1, p) == (if p(94853) then [("a", 94853)] else []) + (if p(584) then [("e", 584)] else [])
  {
    SampleIsTree(e);
    SampleSizeOfA(e);
    SampleFilesOfA(e);
    WalkItemsOfFiles(e, 1, 1, 4, p);
    var ofE := Walk(e, 5, p);
    assert WalkItems(e, 1, 1, p) == [] + ofE == ofE;
    SampleWalkOfE(e, p);
  }

  /** `folders_with(p)` on the sample: the root, a, e and d in pre-order,
      each present when its size satisfies `p`. */
  lemma SampleFoldersWith(e: Entries, p: nat -> bool)
    requires Sample(e)
    ensures Tree(e)
    ensures Walk(e, Root, p) ==
      (if p(48381165) then [("", 48381165)] else [])
      + (if p(94853) then [("a", 94853)] else []) + (if p(584) then [("e", 584)] else [])
      + (if p(24933642) then [("d", 24933642)] else [])
  {
    SampleSizes(e);
    var own: seq<Folder> := if p(48381165) then [("", 48381165)] else [];
    var a := Walk(e, 1, p);
    var d := Walk(e, 4, p);
    SampleRootWalk(e, p);
    SampleWalkOfA(e, p);
    SampleWalkOfD(e, p);
    var oa: seq<Folder> := if p(94853) then [("a", 94853)] else [];
    var oe: seq<Folder> := if p(584) then [("e", 584)] else [];
    Regroup(own, oa, oe, d);
  }

  /** The root's walk: its own entry, then the walks of `a` and `d`; the
      files `b.txt` and `c.dat` add nothing. */
  lemma SampleRootWalk(e: Entries, p: nat -> bool)
    requires Sample(e)
    ensures Tree(e)
    ensures Walk(e, Root, p) ==
      (if p(48381165) then [("", 48381165)] else []) + (Walk(e, 1, p) + Walk(e, 4, p))
  {
    SampleSizes(e);
    assert WalkItems(e, 0, 3, p) == WalkItems(e, 0, 1, p) by {
      SampleFilesOfRoot(e);
      WalkItemsOfFiles(e, 0, 1, 3, p);
    }
    assert WalkItems(e, 0, 1, p) == Walk(e, 1, p) by {
      assert WalkItems(e, 0, 1, p) == WalkItems(e, 0, 0, p) + Walk(e, 1, p);
    }
    assert WalkItems(e, 0, 4, p) == WalkItems(e, 0, 3, p) + Walk(e, 4, p);
  }

  lemma Regroup(a: seq<Folder>, b: seq<Folder>, c: seq<Folder>, d: seq<Folder>)
    ensures a + ((b + c) + d) == a + b + c + d
  {
  }

  /** The first part's question: directories of at most 100000 bytes, whose
      sizes add up to 95437. */
  predicate AtMost100000(size: nat) { size <= 100000 }

  lemma SampleSmallDirectories(e: Entries)
    requires Sample(e)
    ensures Tree(e)
    ensures Walk(e, Root, AtMost100000) == [("a", 94853), ("e", 584)]
    ensures 94853 + 584 == 95437
  {
    SampleFoldersWith(e, AtMost100000);
  }

  /** The second part's question: with 70000000 bytes on the disk and
      30000000 needed, 21618835 are free and at least 8381165 must go. */
  predicate AtLeast8381165(size: nat) { size >= 30000000 - (70000000 - 48381165) }

  lemma SampleCandidates(e: Entries)
    requires Sample(e)
    ensures Tree(e)
    ensures Walk(e, Root, AtLeast8381165) == [("", 48381165), ("d", 24933642)]
  {
    SampleFoldersWith(e, AtLeast8381165);
  }

  /** A history of one command: the text after the '$' is the command. */
  lemma HistoryOfOneCommand(text: String)
    requires '$' !in text && text != []
    ensures InterpreteHistory("$" + text) == ParseCommands([text])
  {
    SplitOfConcat([], "$", text);
    assert [] + "$" + text == "$" + text;
    SplitWithout(text, "$");
    var parts: seq<String> := [[], text];
    assert Split("$" + text, "$") == parts;
    assert parts[1..] == [text];
    assert NonEmpty(parts) == NonEmpty([text]) == [text];
  }

  /** A history of one command that needs no trimming beyond the blank
      after the '$' and has no output. */
  lemma HistoryOfPlainCommand(cmd: String)
    requires cmd != [] && !IsSpace(cmd[0]) && !IsSpace(cmd[|cmd| - 1])
    requires '$' !in cmd && '\n' !in cmd
    ensures InterpreteHistory("$ " + cmd) == match ParseCommand(cmd, []) case Ok(c) => Ok([c]) case Err(e) => Err(e)
  {
    var text := " " + cmd;
    assert "$ " + cmd == "$" + text;
    HistoryOfOneCommand(text);
    TrimOfPadded(cmd);
    SplitWithout(cmd, "\n");
    assert CommandAndOutput(text) == (cmd, []);
    assert [text][1..] == [];
    var pc := ParseCommand(cmd, []);
    if pc.Ok? {
      assert ParseCommands([text]) == Ok([pc.value] + []);
      assert [pc.value] + [] == [pc.value];
    }
  }

  /** "$ cd <dir>" is one `cd` into that directory. */
  lemma HistoryWithCd(dir: String)
    requires dir != [] && !IsSpace(dir[|dir| - 1]) && '$' !in dir && '\n' !in dir
    ensures InterpreteHistory("$ cd " + dir) == Ok([Cd(dir)])
  {
    var cmd := "cd " + dir;
    assert "$ cd " + dir == "$ " + cmd;
    assert cmd[0] == 'c' && cmd[|cmd| - 1] == dir[|dir| - 1];
    assert '$' !in cmd && '\n' !in cmd by {
      assert forall i | 3 <= i < |cmd| :: cmd[i] == dir[i - 3];
    }
    HistoryOfPlainCommand(cmd);
    CdCommand(dir);
  }

  lemma CdCommand(dir: String)
    ensures ParseCommand("cd " + dir, []) == Ok(Cd(dir))
  {
    var cmd := "cd " + dir;
    SplitOfConcat("cd", " ", dir);
    assert "cd" + " " + dir == cmd;
    assert cmd[..2] == "cd";
  }

  /** A "cd" without a blank after it has no directory. */
  lemma HistoryWithBareCd(cmd: String)
    requires cmd == "cd"
    ensures InterpreteHistory("$ " + cmd) == Err(MissingArgumentForChangeDirectory)
  {
    HistoryOfPlainCommand(cmd);
    SplitWithout(cmd, " ");
  }

  /** Commands other than cd and ls are unknown. */
  lemma HistoryWithUnknownCommand(cmd: String)
    requires cmd != [] && !IsSpace(cmd[0]) && !IsSpace(cmd[|cmd| - 1])
    requires '$' !in cmd && '\n' !in cmd
    requires !StartsWith(cmd, "cd") && !StartsWith(cmd, "ls")
    ensures InterpreteHistory("$ " + cmd) == Err(UnknownCommand(cmd))
  {
    HistoryOfPlainCommand(cmd);
  }

  /** "$ touch" is an unknown command. */
  lemma HistoryWithTouch(touch: String)
    requires touch == "touch"
    ensures InterpreteHistory("$ " + touch) == Err(UnknownCommand("touch"))
  {
    assert touch[..2] == "to";
    HistoryWithUnknownCommand(touch);
  }

  /** The output "dir a\n1234 foo.txt" has two lines. */
  lemma LinesOfTest(dirLine: String, fileLine: String)
    requires dirLine == "dir a" && fileLine == "1234 foo.txt"
    ensures Lines(dirLine + "\n" + fileLine) == [dirLine, fileLine]
  {
    SplitOfConcat(dirLine, "\n", fileLine);
    SplitWithout(fileLine, "\n");
    assert Split(dirLine + "\n" + fileLine, "\n") == [dirLine, fileLine];
    assert dirLine[|dirLine| - 1] == 'a';
    assert StripCr(dirLine) == dirLine;
    assert [dirLine, fileLine][1..] == [fileLine];
    assert TerminatedLines([fileLine]) == [fileLine];
  }

  /** "<size> <name>" is a file of that size. */
  lemma ListingOfFile(size: nat, name: String)
    requires size <= USIZE_MAX
    ensures ParseListing([NatToDec(size) + " " + name]) == Ok([Listing(name, size, File)])
  {
    var digits := NatToDec(size);
    var line := digits + " " + name;
    var f := Listing(name, size, File);
    assert IsDigit(digits[0]);
    SplitOfConcat(digits, " ", name);
    ParseUnsignedOfNumeral(size, USIZE_MAX);
    assert [line][1..] == [];
    assert [f] + [] == [f];
  }

  lemma ListingOfFileLine(fileLine: String)
    requires fileLine == "1234 foo.txt"
    ensures ParseListing([fileLine]) == Ok([Listing("foo.txt", 1234, File)])
  {
    ListingOfFile(1234, "foo.txt");
    Numeral1234();
    assert "1234" + " " + "foo.txt" == fileLine;
  }

  lemma Numeral1234()
    ensures NatToDec(1234) == "1234"
  {
    assert NatToDec(1) == "1";
    assert NatToDec(12) == NatToDec(1) + "2";
    assert NatToDec(123) == NatToDec(12) + "3";
    assert NatToDec(1234) == NatToDec(123) + "4";
  }

  /** "dir a" is the directory a. */
  lemma ListingOfTest(dirLine: String, fileLine: String)
    requires dirLine == "dir a" && fileLine == "1234 foo.txt"
    ensures ParseListing(Lines(dirLine + "\n" + fileLine)) == Ok([Listing("a", 0, Directory), Listing("foo.txt", 1234, File)])
  {
    LinesOfTest(dirLine, fileLine);
    var d := Listing("a", 0, Directory);
    var f := Listing("foo.txt", 1234, File);
    assert [d] + [f] == [d, f];
    assert [dirLine, fileLine] == [dirLine] + [fileLine];
    ListingOfFileLine(fileLine);
    ListingOfDirThen(dirLine, [fileLine]);
  }

  lemma ListingOfDirThen(dirLine: String, rest: seq<String>)
    requires dirLine == "dir a"
    ensures ParseListing([dirLine] + rest) ==
      match ParseListing(rest) case Ok(items) => Ok([Listing("a", 0, Directory)] + items) case Err(e) => Err(e)
  {
    SplitOfConcat("dir", " ", "a");
    assert "dir" + " " + "a" == dirLine;
    assert SplitOnce(dirLine, " ") == Some(("dir", "a"));
    assert ([dirLine] + rest)[0] == dirLine && ([dirLine] + rest)[1..] == rest;
  }

  lemma CommandAndOutputOfLs(output: String)
    requires output != [] && !IsSpace(output[|output| - 1])
    ensures CommandAndOutput(" ls\n" + output) == ("ls", output)
  {
    var text := "ls\n" + output;
    assert " ls\n" + output == " " + text;
    TrimOfPadded(text);
    SplitOfConcat("ls", "\n", output);
    assert "ls" + "\n" + output == text;
  }

  /** "$ ls" and its output is one `ls` listing what the output lines say. */
  lemma HistoryOfLs(output: String)
    requires output != [] && !IsSpace(output[|output| - 1]) && '$' !in output
    ensures InterpreteHistory("$ ls\n" + output)
      == match ParseListing(Lines(output)) case Ok(items) => Ok([Ls(items)]) case Err(e) => Err(e)
  {
    var text := " ls\n" + output;
    assert "$ ls\n" + output == "$" + text;
    HistoryOfOneCommand(text);
    CommandAndOutputOfLs(output);
    OneCommand(text);
    LsCommand(output);
  }

  /** A history of one command parses as that command alone. */
  lemma OneCommand(text: String)
    ensures ParseCommands([text]) ==
      match ParseCommand(CommandAndOutput(text).0, CommandAndOutput(text).1)
      case Ok(c) => Ok([c]) case Err(e) => Err(e)
  {
    assert [text][1..] == [];
    assert ParseCommands([]) == Ok([]);
    var p := CommandAndOutput(text);
    match ParseCommand(p.0, p.1)
    case Ok(c) =>
      assert [c] + [] == [c];
    case Err(_) =>
  }

  lemma LsCommand(output: String)
    ensures ParseCommand("ls", output) ==
      match ParseListing(Lines(output)) case Ok(items) => Ok(Ls(items)) case Err(e) => Err(e)
  {
    var ls := "ls";
    assert ls[..2] == ls && ls[0] != 'c';
    assert !StartsWith(ls, "cd") && StartsWith(ls, "ls");
  }

  /** "$ ls" followed by "dir a" and "1234 foo.txt" lists a directory and a
      file of 1234 bytes. */
  lemma HistoryWithLs(dirLine: String, fileLine: String)
    requires dirLine == "dir a" && fileLine == "1234 foo.txt"
    ensures InterpreteHistory("$ ls\n" + (dirLine + "\n" + fileLine))
      == Ok([Ls([Listing("a", 0, Directory), Listing("foo.txt", 1234, File)])])
  {
    var output := dirLine + "\n" + fileLine;
    assert output[|output| - 1] == 't';
    HistoryOfLs(output);
    ListingOfTest(dirLine, fileLine);
  }
}
