/** The file system that the crew traverses: what lstat, opendir and readdir_r would say. */
module FileTree {

  /** A directory that cannot be opened is skipped with everything below it; links, regular files
      and the rest are leaves. */
  datatype Entry = Leaf | Directory(opens: bool, entries: seq<Entry>)

  /** The entries that lead from the root to a node. */
  type Path = seq<nat>

  /** `path` leads from `e` to a node below it, or to `e` itself. */
  predicate IsNode(e: Entry, path: Path)
    decreases |path|
  {
    path == [] ||
    (e.Directory? && path[0] < |e.entries| && IsNode(e.entries[path[0]], path[1..]))
  }

  /** Every directory of the tree can be opened. */
  predicate AllOpen(e: Entry)
  {
    e.Directory? ==> e.opens && forall i | 0 <= i < |e.entries| :: AllOpen(e.entries[i])
  }

  /** A node that the crew reaches, and whether it could be opened. */
  datatype Visit = Visit(path: Path, readable: bool)

  /** The visits that the entry at `path` is due. */
  ghost function Visits(path: Path, e: Entry): multiset<Visit>
    decreases e, 0
  {
    match e
    case Leaf => multiset{Visit(path, true)}
    case Directory(opens, entries) =>
      if opens then multiset{Visit(path, true)} + VisitsBelow(path, entries, 0) else multiset{Visit(path, false)}
  }

  /** The visits that the entries from the i-th on, of the directory at `path`, are due. */
  ghost function VisitsBelow(path: Path, entries: seq<Entry>, i: nat): multiset<Visit>
    decreases entries, |entries| - i
  {
    if i >= |entries| then multiset{}
    else Visits(path + [i], entries[i]) + VisitsBelow(path, entries, i + 1)
  }

  /** When everything opens, the nodes below an entry are due one visit each, and nothing else is. */
  lemma {:induction false} VisitsAreNodes(path: Path, e: Entry, v: Visit)
    requires AllOpen(e)
    ensures Visits(path, e)[v] == if v.readable && path <= v.path && IsNode(e, v.path[|path|..]) then 1 else 0
    decreases e, 0
  {
    if e.Directory? {
      VisitsBelowAreNodes(path, e.entries, 0, v);
    }
    if path <= v.path {
      var rest := v.path[|path|..];
      if rest == [] {
        assert v.path == path;
      } else {
        assert rest[0] == v.path[|path|] && rest[1..] == v.path[|path| + 1..];
      }
    }
  }

  lemma {:induction false} VisitsBelowAreNodes(path: Path, entries: seq<Entry>, i: nat, v: Visit)
    requires forall j | 0 <= j < |entries| :: AllOpen(entries[j])
    ensures VisitsBelow(path, entries, i)[v] ==
      if v.readable && path < v.path && i <= v.path[|path|] < |entries|
         && IsNode(entries[v.path[|path|]], v.path[|path| + 1..]) then 1 else 0
    decreases entries, |entries| - i
  {
    if i < |entries| {
      VisitsAreNodes(path + [i], entries[i], v);
      VisitsBelowAreNodes(path, entries, i + 1, v);
      assert path + [i] <= v.path <==> path < v.path && v.path[|path|] == i by {
        if path < v.path && v.path[|path|] == i {
          assert v.path == path + [i] + v.path[|path| + 1..];
        }
      }
    }
  }

  /** Everything opens just when no visit is due that fails. */
  lemma {:induction false} OpenIffNoFailure(path: Path, e: Entry)
    ensures AllOpen(e) <==> forall v | v in Visits(path, e) :: v.readable
    decreases e, 0
  {
    if e.Directory? {
      if e.opens {
        BelowOpenIffNoFailure(path, e.entries, 0);
      } else {
        assert Visit(path, false) in Visits(path, e);
      }
    }
  }

  lemma {:induction false} BelowOpenIffNoFailure(path: Path, entries: seq<Entry>, i: nat)
    ensures (forall j | i <= j < |entries| :: AllOpen(entries[j])) <==>
      forall v | v in VisitsBelow(path, entries, i) :: v.readable
    decreases entries, |entries| - i
  {
    if i < |entries| {
      OpenIffNoFailure(path + [i], entries[i]);
      BelowOpenIffNoFailure(path, entries, i + 1);
    }
  }
}
