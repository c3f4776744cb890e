/** Listing a repository through an endpoint that silently cuts every answer at a cap: walk the tree level by level
    under a request budget, and know when something may be missing. */
module RepoWalk {
  import opened Options
  import Sets

  /** A path relative to the repository, by components; the empty path stands for the repository itself and is what
      an entry without a usable path has. */
  type Path = seq<string>

  datatype Entry = Entry(path: Path, isDir: bool)

  /** A listing request fails or returns entries; the server sees the number of the request, the directory, and
      whether it was asked for the whole subtree. */
  datatype Reply = Failure | Listing(entries: seq<Entry>)

  type Server = (nat, Path, bool) -> Reply

  datatype Request = Request(dir: Path, recursive: bool)

  function Requests(dirs: seq<Path>, recursive: bool): (asked: seq<Request>)
    ensures |asked| == |dirs| && forall i | 0 <= i < |dirs| :: asked[i] == Request(dirs[i], recursive)
  {
    if dirs == [] then [] else Requests(dirs[..|dirs| - 1], recursive) + [Request(dirs[|dirs| - 1], recursive)]
  }

  /** The answer to request number k. */
  function Answer(server: Server, asked: seq<Request>, k: nat): Reply
    requires k < |asked|
  {
    server(k, asked[k].dir, asked[k].recursive)
  }

  /** Every request was answered with a listing. */
  ghost predicate AllAnswered(server: Server, asked: seq<Request>) {
    forall k: nat | k < |asked| :: Answer(server, asked, k).Listing?
  }

  // ---- The repository and the honest server -----------------------------------------------------------------

  /** A level is answered when each of its requests is. */
  lemma AnsweredMore(server: Server, asked: seq<Request>, dirs: seq<Path>, recursive: bool)
    requires AllAnswered(server, asked)
    ensures AllAnswered(server, asked + Requests(dirs, recursive)) <==>
      forall i | 0 <= i < |dirs| :: server(|asked| + i, dirs[i], recursive).Listing?
  {
    var all := asked + Requests(dirs, recursive);
    forall k: nat | k < |asked| ensures Answer(server, all, k) == Answer(server, asked, k) {
    }
    forall i | 0 <= i < |dirs|
      ensures Answer(server, all, |asked| + i) == server(|asked| + i, dirs[i], recursive)
    {
    }
    forall k: nat | k < |all| && forall i | 0 <= i < |dirs| :: server(|asked| + i, dirs[i], recursive).Listing?
      ensures Answer(server, all, k).Listing?
    {
      if k >= |asked| {
        assert Answer(server, all, |asked| + (k - |asked|)).Listing?;
      } else {
        assert Answer(server, asked, k).Listing?;
      }
    }
  }

  /** Every file and directory with its kind. */
  type Tree = map<Path, bool>

  predicate Below(d: Path, p: Path) {
    |d| < |p| && p[..|d|] == d
  }

  ghost predicate IsTree(tree: Tree) {
    forall p | p in tree :: p != [] && forall n | 0 < n < |p| :: p[..n] in tree && tree[p[..n]]
  }

  predicate Shown(d: Path, recursive: bool, p: Path) {
    Below(d, p) && (recursive || |p| == |d| + 1)
  }

  /** What an uncapped answer would hold. */
  function Full(tree: Tree, d: Path, recursive: bool): set<Entry> {
    set p | p in tree && Shown(d, recursive, p) :: Entry(p, tree[p])
  }

  /** The cap: a short answer is the whole listing, a longer one is any `limit` entries of it. */
  ghost predicate Faithful(tree: Tree, limit: nat, d: Path, recursive: bool, entries: seq<Entry>) {
    && (forall e | e in entries :: e in Full(tree, d, recursive))
    && (|Full(tree, d, recursive)| < limit ==>
          |entries| == |Full(tree, d, recursive)| && forall e | e in Full(tree, d, recursive) :: e in entries)
    && (|Full(tree, d, recursive)| >= limit ==> |entries| == limit)
  }

  /** Requests may fail, but what is answered is faithful. */
  ghost predicate Honest(server: Server, tree: Tree, limit: nat) {
    forall k: nat, d: Path, recursive: bool | server(k, d, recursive).Listing? ::
      Faithful(tree, limit, d, recursive, server(k, d, recursive).entries)
  }

  /** The directories the walk is about: the root and every directory under it. */
  predicate DirUnder(tree: Tree, root: Path, d: Path) {
    d == root || (Below(root, d) && d in tree && tree[d])
  }

  /** A directory with so many direct entries that no listing of it is ever whole. */
  predicate Flat(tree: Tree, limit: nat, d: Path) {
    |Full(tree, d, false)| >= limit
  }

  /** A faithful answer below the cap shows everything. */
  lemma ShortIsWhole(tree: Tree, limit: nat, d: Path, recursive: bool, entries: seq<Entry>, p: Path)
    requires Faithful(tree, limit, d, recursive, entries) && |entries| < limit
    requires p in tree && Shown(d, recursive, p)
    ensures Entry(p, tree[p]) in entries
  {
    assert Entry(p, tree[p]) in Full(tree, d, recursive);
  }

  /** A directory with too many direct entries makes every listing of a directory above it come back at the cap. */
  lemma FlatTruncates(tree: Tree, limit: nat, f: Path, d: Path, entries: seq<Entry>)
    requires f == d || Below(f, d)
    requires Flat(tree, limit, d) && Faithful(tree, limit, f, true, entries)
    ensures |entries| >= limit
  {
    forall e | e in Full(tree, d, false) ensures e in Full(tree, f, true) {
      assert e.path[..|f|] == e.path[..|d|][..|f|];
    }
    Sets.SubsetSize(Full(tree, d, false), Full(tree, f, true));
  }

  // ---- How many requests an honest repository takes ----------------------------------------------------------

  /** The root and every directory under it. */
  function Dirs(tree: Tree, root: Path): (dirs: set<Path>)
    ensures forall d :: d in dirs <==> DirUnder(tree, root, d)
  {
    {root} + set d | d in tree && DirUnder(tree, root, d)
  }

  /** Each directory, asked for with and without its subtree. */
  function TwiceEach(dirs: set<Path>): set<Request> {
    (set d | d in dirs :: Request(d, true)) + (set d | d in dirs :: Request(d, false))
  }

  lemma {:induction false} OncePerDir(dirs: set<Path>, recursive: bool)
    ensures |set d | d in dirs :: Request(d, recursive)| == |dirs|
  {
    if dirs != {} {
      var d :| d in dirs;
      OncePerDir(dirs - {d}, recursive);
      assert (set x | x in dirs :: Request(x, recursive))
          == (set x | x in dirs - {d} :: Request(x, recursive)) + {Request(d, recursive)};
    }
  }

  predicate Unrepeated(asked: seq<Request>) {
    forall i, j | 0 <= i < j < |asked| :: asked[i] != asked[j]
  }

  lemma {:induction false} NoMoreThan(asked: seq<Request>, among: set<Request>)
    requires Unrepeated(asked) && forall i | 0 <= i < |asked| :: asked[i] in among
    ensures |asked| <= |among|
  {
    if asked != [] {
      var n := |asked| - 1;
      NoMoreThan(asked[..n], among - {asked[n]});
    }
  }

  /** Request number i is about a directory above this depth or, in the middle of a level, for a subtree at it. */
  ghost predicate FreshAt(tree: Tree, root: Path, asked: seq<Request>, depth: nat, half: bool, i: nat) {
    && i < |asked| && DirUnder(tree, root, asked[i].dir)
    && (|asked[i].dir| < depth || (half && |asked[i].dir| == depth && asked[i].recursive))
  }

  /** No request was made twice, and none about what is still to be listed. */
  ghost predicate Fresh(tree: Tree, root: Path, asked: seq<Request>, depth: nat, half: bool) {
    && Unrepeated(asked)
    && forall i: nat {:trigger FreshAt(tree, root, asked, depth, half, i)} | i < |asked| ::
         FreshAt(tree, root, asked, depth, half, i)
  }

  lemma FreshIsFew(tree: Tree, root: Path, asked: seq<Request>, depth: nat, half: bool)
    requires Fresh(tree, root, asked, depth, half)
    ensures |asked| <= 2 * |Dirs(tree, root)|
  {
    var dirs := Dirs(tree, root);
    OncePerDir(dirs, true);
    OncePerDir(dirs, false);
    forall i: nat | i < |asked| ensures asked[i] in TwiceEach(dirs) {
      assert FreshAt(tree, root, asked, depth, half, i);
    }
    NoMoreThan(asked, TwiceEach(dirs));
  }

  /** Different directories of one depth. */
  predicate AtDepth(dirs: seq<Path>, depth: nat) {
    (forall i | 0 <= i < |dirs| :: |dirs[i]| == depth) && forall i, j | 0 <= i < j < |dirs| :: dirs[i] != dirs[j]
  }

  /** The requests of a level are new. */
  lemma LevelIsFresh(tree: Tree, root: Path, asked: seq<Request>, dirs: seq<Path>, depth: nat, recursive: bool)
    requires Fresh(tree, root, asked, depth, !recursive) && AtDepth(dirs, depth) && AllUnder(tree, root, dirs)
    ensures var all := asked + Requests(dirs, recursive);
      Fresh(tree, root, all, if recursive then depth else depth + 1, recursive)
  {
    var all := asked + Requests(dirs, recursive);
    var depth', half := if recursive then depth else depth + 1, recursive;
    forall i: nat | i < |all| ensures FreshAt(tree, root, all, depth', half, i) {
      if i < |asked| {
        assert FreshAt(tree, root, asked, depth, !recursive, i);
      } else {
        assert dirs[i - |asked|] in dirs;
      }
    }
    forall i, j | 0 <= i < j < |all| ensures all[i] != all[j] {
      if i < |asked| {
        assert FreshAt(tree, root, asked, depth, !recursive, i);
      }
    }
  }

  /** What a level asks for, as far as the budget goes, and what it has to leave. */
  lemma LevelIsFew(tree: Tree, root: Path, asked: seq<Request>, dirs: seq<Path>, n: nat, depth: nat, recursive: bool)
    requires Fresh(tree, root, asked, depth, !recursive) && AtDepth(dirs, depth) && AllUnder(tree, root, dirs)
    ensures var now := asked + Requests(Within(dirs, n), recursive);
      && Fresh(tree, root, now, if recursive then depth else depth + 1, recursive)
      && |now| + |Beyond(dirs, n)| <= 2 * |Dirs(tree, root)|
  {
    LevelIsFresh(tree, root, asked, dirs, depth, recursive);
    FreshIsFew(tree, root, asked + Requests(dirs, recursive), if recursive then depth else depth + 1, recursive);
    assert AllUnder(tree, root, Within(dirs, n)) && AtDepth(Within(dirs, n), depth);
    LevelIsFresh(tree, root, asked, Within(dirs, n), depth, recursive);
  }

  // ---- The walk ---------------------------------------------------------------------------------------------

  function PathsOf(entries: seq<Entry>): set<Path> {
    set e | e in entries && e.path != [] :: e.path
  }

  /** Paths of the sub-directories of a shallow listing, in order. */
  function ChildDirs(entries: seq<Entry>): (dirs: seq<Path>)
    ensures forall d :: d in dirs <==> d != [] && Entry(d, true) in entries
  {
    if entries == [] then []
    else
      var rest, last := ChildDirs(entries[..|entries| - 1]), entries[|entries| - 1];
      assert entries == entries[..|entries| - 1] + [last];
      if last.isDir && last.path != [] then rest + [last.path] else rest
  }

  method Dedup(paths: seq<Path>) returns (r: seq<Path>)
    ensures forall p :: p in r <==> p in paths
    ensures forall i, j | 0 <= i < j < |r| :: r[i] != r[j]
  {
    r := [];
    for i := 0 to |paths|
      invariant forall p :: p in r <==> p in paths[..i]
      invariant forall a, b | 0 <= a < b < |r| :: r[a] != r[b]
    {
      if paths[i] !in r {
        r := r + [paths[i]];
      }
    }
  }

  /** The directories that n requests reach, and the others. */
  function Within(roots: seq<Path>, n: nat): seq<Path> {
    if |roots| <= n then roots else roots[..n]
  }

  function Beyond(roots: seq<Path>, n: nat): seq<Path> {
    if |roots| <= n then [] else roots[n..]
  }

  class TreeWalk {
    const server: Server
    const limit: nat
    const budget: nat
    var collected: map<Path, Entry>
    var oversized: seq<Path>
    var requestsMade: nat
    var budgetSpent: bool
    ghost var asked: seq<Request>      // all requests that were made, by their numbers
    ghost var cut: seq<Path>           // directories that were to be listed when the budget was used up

    /** The books of the requests: the walk is marked exactly when something was cut, and then nothing is left. */
    ghost predicate Counted()
      reads this
    {
      && |asked| == requestsMade <= budget
      && (budgetSpent <==> cut != []) && (budgetSpent ==> requestsMade == budget)
    }

    constructor (server: Server, limit: nat, budget: nat)
      ensures this.server == server && this.limit == limit && this.budget == budget
      ensures collected == map[] && oversized == [] && requestsMade == 0 && !budgetSpent
      ensures asked == [] && cut == [] && Counted()
    {
      asked, cut := [], [];
      this.server, this.limit, this.budget := server, limit, budget;
      collected, oversized, requestsMade, budgetSpent := map[], [], 0, false;
    }

    /** Entries were really received for this request. */
    ghost predicate Received(d: Path, recursive: bool, entries: seq<Entry>) {
      exists k: nat :: server(k, d, recursive) == Listing(entries)
    }

    /** The first entry of a path wins. */
    method Absorb(entries: seq<Entry>)
      modifies this`collected
      ensures collected.Keys == old(collected.Keys) + PathsOf(entries)
      ensures forall p | p in old(collected) :: collected[p] == old(collected[p])
      ensures forall p | p in collected && p !in old(collected) :: collected[p] in entries && collected[p].path == p
    {
      for i := 0 to |entries|
        invariant collected.Keys == old(collected.Keys) + PathsOf(entries[..i])
        invariant forall p | p in old(collected) :: p in collected && collected[p] == old(collected[p])
        invariant forall p | p in collected && p !in old(collected) ::
          collected[p] in entries && collected[p].path == p
      {
        assert entries[..i + 1] == entries[..i] + [entries[i]];
        if entries[i].path != [] && entries[i].path !in collected {
          collected := collected[entries[i].path := entries[i]];
        }
      }
      assert entries[..|entries|] == entries;
    }

    /** Ask for each directory, numbered from `first` on; the first failure is raised. */
    method AskEach(batch: seq<Path>, first: nat, recursive: bool) returns (ok: bool, listings: map<Path, seq<Entry>>)
      ensures ok <==> forall i | 0 <= i < |batch| :: server(first + i, batch[i], recursive).Listing?
      ensures forall d | d in listings :: d in batch && Received(d, recursive, listings[d])
      ensures ok ==> forall d | d in batch :: d in listings
    {
      listings := map[];
      for i := 0 to |batch|
        invariant forall d | d in listings :: d in batch && Received(d, recursive, listings[d])
        invariant forall d | d in batch[..i] :: d in listings
        invariant forall k | 0 <= k < i :: server(first + k, batch[k], recursive).Listing?
      {
        match server(first + i, batch[i], recursive) {
          case Failure =>
            return false, listings;
          case Listing(entries) =>
            listings := listings[batch[i] := entries];
        }
      }
      ok := true;
    }

    /** The requests of a level. */
    method Ask(batch: seq<Path>, recursive: bool) returns (ok: bool, listings: map<Path, seq<Entry>>)
      requires |asked| == requestsMade && AllAnswered(server, asked)
      modifies this`requestsMade, this`asked
      ensures requestsMade == old(requestsMade) + |batch| && asked == old(asked) + Requests(batch, recursive)
      ensures ok <==> AllAnswered(server, asked)
      ensures forall d | d in listings :: d in batch && Received(d, recursive, listings[d])
      ensures ok ==> forall d | d in batch :: d in listings
    {
      AnsweredMore(server, asked, batch, recursive);
      ok, listings := AskEach(batch, requestsMade, recursive);
      requestsMade := requestsMade + |batch|;
      asked := asked + Requests(batch, recursive);
    }

    /** List several directories, clamped to what is left of the budget.  The walk is marked exactly when the budget
        cuts the list short, and it fails exactly when a request fails. */
    method FetchLevel(roots: seq<Path>, recursive: bool) returns (ok: bool, listings: map<Path, seq<Entry>>)
      requires Counted() && !budgetSpent && AllAnswered(server, asked)
      modifies this`requestsMade, this`budgetSpent, this`asked, this`cut
      ensures Counted() && (ok <==> AllAnswered(server, asked))
      ensures asked == old(asked) + Requests(Within(roots, budget - old(requestsMade)), recursive)
      ensures cut == Beyond(roots, budget - old(requestsMade))
      ensures forall d | d in listings :: d in roots && Received(d, recursive, listings[d])
      ensures ok && !budgetSpent ==> forall d | d in roots :: d in listings
    {
      if roots == [] {
        return true, map[];
      }
      var remaining := budget - requestsMade;
      if remaining <= 0 {
        budgetSpent, cut := true, roots;
        return true, map[];
      }
      var batch := roots;
      if |roots| > remaining {
        batch := roots[..remaining];
        budgetSpent, cut := true, roots[remaining..];
      }
      ok, listings := Ask(batch, recursive);
    }

    /** Keep what the subtree listings show, and name the ones that came back at the cap. */
    method AbsorbLevel(frontier: seq<Path>, known: map<Path, seq<Entry>>) returns (truncated: seq<Path>)
      modifies this`collected
      ensures forall d :: d in truncated <==> d in frontier && d in known && |known[d]| >= limit
      ensures forall depth: nat :: AtDepth(frontier, depth) ==> AtDepth(truncated, depth)
      ensures forall d | d in frontier && d in known :: PathsOf(known[d]) <= collected.Keys
      ensures Grown(old(collected), collected, frontier, known)
    {
      truncated := [];
      for i := 0 to |frontier|
        invariant forall d :: d in truncated <==> d in frontier[..i] && d in known && |known[d]| >= limit
        invariant forall depth: nat :: AtDepth(frontier, depth) ==> AtDepth(truncated, depth)
        invariant forall d | d in frontier[..i] && d in known :: PathsOf(known[d]) <= collected.Keys
        invariant Grown(old(collected), collected, frontier, known)
      {
        var subroot := frontier[i];
        if subroot in known {
          Absorb(known[subroot]);
          if |known[subroot]| >= limit {
            truncated := truncated + [subroot];
          }
        }
      }
    }

    /** Nothing collected before is lost, and every addition comes from one of the listings. */
    ghost predicate Grown(was: map<Path, Entry>, now: map<Path, Entry>, from: seq<Path>, known: map<Path, seq<Entry>>) {
      && (forall p | p in was :: p in now && now[p] == was[p])
      && (forall p | p in now && p !in was :: now[p].path == p && FromSome(now[p], from, known))
    }

    ghost predicate FromSome(e: Entry, from: seq<Path>, known: map<Path, seq<Entry>>) {
      exists d :: d in from && d in known && e in known[d]
    }

    /** List each truncated directory by itself: its direct entries are kept and its sub-directories form the next
        level.  A directory that is full by itself, or that has nothing to split by, is remembered. */
    method SplitLevel(truncated: seq<Path>, shallow: map<Path, seq<Entry>>) returns (next: seq<Path>)
      modifies this`collected, this`oversized
      ensures forall d | d in truncated && d in shallow :: PathsOf(shallow[d]) <= collected.Keys
      ensures Grown(old(collected), collected, truncated, shallow)
      ensures forall c :: c in next <==> exists d :: d in truncated && d in shallow && c in ChildDirs(shallow[d])
      ensures forall d :: d in oversized <==> d in old(oversized) || Stuck(d, truncated, shallow)
    {
      next := [];
      for i := 0 to |truncated|
        invariant forall d | d in truncated[..i] && d in shallow :: PathsOf(shallow[d]) <= collected.Keys
        invariant Grown(old(collected), collected, truncated, shallow)
        invariant forall c :: c in next <==>
          exists d :: d in truncated[..i] && d in shallow && c in ChildDirs(shallow[d])
        invariant forall d :: d in oversized <==> d in old(oversized) || Stuck(d, truncated[..i], shallow)
      {
        var subroot := truncated[i];
        assert truncated[..i + 1] == truncated[..i] + [subroot];
        if subroot in shallow {
          var entries := shallow[subroot];
          Absorb(entries);
          var dirs := ChildDirs(entries);
          if |entries| >= limit || dirs == [] {
            oversized := oversized + [subroot];
          }
          next := next + dirs;
        }
      }
      assert truncated[..|truncated|] == truncated;
    }

    ghost predicate Stuck(d: Path, truncated: seq<Path>, shallow: map<Path, seq<Entry>>) {
      d in truncated && d in shallow && (|shallow[d]| >= limit || ChildDirs(shallow[d]) == [])
    }
  }

  // ---- Correctness of a level -------------------------------------------------------------------------------

  lemma BelowTrans(a: Path, b: Path, c: Path)
    requires (a == b || Below(a, b)) && Below(b, c)
    ensures Below(a, c)
  {
    assert c[..|a|] == c[..|b|][..|a|];
  }

  /** Nothing foreign was collected, and the directories in hand lie under the root. */
  ghost predicate Exact(tree: Tree, root: Path, collected: map<Path, Entry>) {
    forall p | p in collected :: p in tree && Below(root, p) && collected[p] == Entry(p, tree[p])
  }

  ghost predicate AllUnder(tree: Tree, root: Path, dirs: seq<Path>) {
    forall d | d in dirs :: DirUnder(tree, root, d)
  }

  ghost predicate AllFlat(tree: Tree, root: Path, limit: nat, dirs: seq<Path>) {
    forall d | d in dirs :: DirUnder(tree, root, d) && Flat(tree, limit, d)
  }

  predicate Reaches(dirs: seq<Path>, p: Path) {
    exists d :: d in dirs && Below(d, p)
  }

  /** What is not collected yet is still ahead, and so is every directory that cannot be listed in full. */
  ghost predicate Ahead(tree: Tree, root: Path, limit: nat, collected: map<Path, Entry>, dirs: seq<Path>) {
    && (forall p | p in tree && Below(root, p) :: p in collected || Reaches(dirs, p))
    && (forall d | DirUnder(tree, root, d) && Flat(tree, limit, d) :: d in dirs || Reaches(dirs, d))
  }

  ghost predicate AllFaithful(tree: Tree, limit: nat, recursive: bool, listings: map<Path, seq<Entry>>) {
    forall d | d in listings :: Faithful(tree, limit, d, recursive, listings[d])
  }

  lemma GrownIsExact(walk: TreeWalk, tree: Tree, root: Path, was: map<Path, Entry>, now: map<Path, Entry>,
                     from: seq<Path>, listings: map<Path, seq<Entry>>, recursive: bool)
    requires Exact(tree, root, was) && AllUnder(tree, root, from)
    requires AllFaithful(tree, walk.limit, recursive, listings) && walk.Grown(was, now, from, listings)
    ensures Exact(tree, root, now)
  {
    forall p | p in now && p !in was ensures p in tree && Below(root, p) && now[p] == Entry(p, tree[p]) {
      var d :| d in from && d in listings && now[p] in listings[d];
      assert now[p] in Full(tree, d, recursive);
      BelowTrans(root, d, p);
    }
  }

  /** The subtree listings of a level settle everything below the directories whose listing was short. */
  lemma SubtreesKeepAhead(tree: Tree, root: Path, limit: nat, was: map<Path, Entry>, now: map<Path, Entry>,
                          frontier: seq<Path>, known: map<Path, seq<Entry>>, truncated: seq<Path>)
    requires AllFaithful(tree, limit, true, known) && Ahead(tree, root, limit, was, frontier)
    requires forall p | p in was :: p in now
    requires forall d | d in frontier :: d in known && PathsOf(known[d]) <= now.Keys
    requires forall d :: d in truncated <==> d in frontier && d in known && |known[d]| >= limit
    requires [] !in tree
    ensures Ahead(tree, root, limit, now, truncated)
  {
    forall p | p in tree && Below(root, p) ensures p in now || Reaches(truncated, p) {
      if p !in was {
        var d :| d in frontier && Below(d, p);
        if |known[d]| < limit {
          ShortIsWhole(tree, limit, d, true, known[d], p);
          assert p in PathsOf(known[d]);
        }
      }
    }
    forall d | DirUnder(tree, root, d) && Flat(tree, limit, d) ensures d in truncated || Reaches(truncated, d) {
      if d in frontier {
        FlatTruncates(tree, limit, d, d, known[d]);
      } else {
        var f :| f in frontier && Below(f, d);
        FlatTruncates(tree, limit, f, d, known[f]);
        assert f in truncated;
      }
    }
  }

  /** What lies deeper below a directory lies below one of its child directories. */
  lemma ChildOnTheWay(tree: Tree, limit: nat, d: Path, shallow: seq<Entry>, p: Path)
    requires IsTree(tree) && Faithful(tree, limit, d, false, shallow) && |shallow| < limit
    requires p in tree && Below(d, p)
    ensures if |p| == |d| + 1 then Entry(p, tree[p]) in shallow
            else p[..|d| + 1] in ChildDirs(shallow) && Below(p[..|d| + 1], p)
  {
    if |p| == |d| + 1 {
      ShortIsWhole(tree, limit, d, false, shallow, p);
    } else {
      var c := p[..|d| + 1];
      assert c in tree && tree[c];
      assert c[..|d|] == p[..|d|];
      ShortIsWhole(tree, limit, d, false, shallow, c);
    }
  }

  /** Unless some directory is full by itself, the next level leads to everything that is still missing. */
  lemma SplitKeepsAhead(tree: Tree, root: Path, limit: nat, was: map<Path, Entry>, now: map<Path, Entry>,
                        truncated: seq<Path>, shallow: map<Path, seq<Entry>>, next: seq<Path>)
    requires IsTree(tree) && AllFaithful(tree, limit, false, shallow)
    requires Ahead(tree, root, limit, was, truncated)
    requires forall p | p in was :: p in now
    requires forall d | d in truncated :: d in shallow && |shallow[d]| < limit && PathsOf(shallow[d]) <= now.Keys
    requires forall c :: c in next <==> exists d :: d in truncated && d in shallow && c in ChildDirs(shallow[d])
    ensures Ahead(tree, root, limit, now, next)
  {
    forall p | p in tree && Below(root, p) ensures p in now || Reaches(next, p) {
      if p !in was {
        var d :| d in truncated && Below(d, p);
        ChildOnTheWay(tree, limit, d, shallow[d], p);
        if |p| == |d| + 1 {
          assert p in PathsOf(shallow[d]);
        } else {
          assert p[..|d| + 1] in next;
        }
      }
    }
    forall d | DirUnder(tree, root, d) && Flat(tree, limit, d) ensures d in next || Reaches(next, d) {
      assert d !in truncated;
      var f :| f in truncated && Below(f, d);
      if d in tree {
        ChildOnTheWay(tree, limit, f, shallow[f], d);
        if |d| == |f| + 1 {
          assert d in ChildDirs(shallow[f]);
          assert d in next;
        } else {
          assert d[..|f| + 1] in next;
        }
      }
    }
  }

  /** A subtree listing at the cap and a whole shallow listing without sub-directories cannot both be honest. */
  lemma StuckMeansFlat(tree: Tree, limit: nat, d: Path, deep: seq<Entry>, shallow: seq<Entry>)
    requires IsTree(tree) && Faithful(tree, limit, d, true, deep) && Faithful(tree, limit, d, false, shallow)
    requires |deep| >= limit && (|shallow| >= limit || ChildDirs(shallow) == [])
    ensures Flat(tree, limit, d)
  {
    if |shallow| < limit {
      forall e | e in Full(tree, d, true) ensures e in Full(tree, d, false) {
        ChildOnTheWay(tree, limit, d, shallow, e.path);
      }
      Sets.SubsetSize(Full(tree, d, true), Full(tree, d, false));
    }
  }

  // ---- The whole walk ---------------------------------------------------------------------------------------

  /** A walk is given up when a request fails; otherwise it ends with what it collected and its own judgement. */
  datatype Outcome = Raised | Walked(collected: map<Path, Entry>, incomplete: bool, requests: nat)

  /** Judgement of a walk that was answered faithfully: nothing foreign is reported; a listing called complete is
      complete, and then no directory is too full to list; a listing is called incomplete exactly when directories under
      the root were left over when the budget was used up, or one is too full to list. */
  ghost predicate Judged(tree: Tree, root: Path, limit: nat, out: Outcome, cut: seq<Path>)
    requires out.Walked?
  {
    && Exact(tree, root, out.collected)
    && (!out.incomplete ==>
          && (forall p | p in tree && Below(root, p) :: p in out.collected)
          && (forall d | DirUnder(tree, root, d) :: !Flat(tree, limit, d)))
    && AllUnder(tree, root, cut)
    && (out.incomplete <==> cut != [] || exists d :: DirUnder(tree, root, d) && Flat(tree, limit, d))
  }

  lemma RepliedFaithfully(walk: TreeWalk, tree: Tree, recursive: bool, listings: map<Path, seq<Entry>>)
    requires Honest(walk.server, tree, walk.limit)
    requires forall d | d in listings :: walk.Received(d, recursive, listings[d])
    ensures AllFaithful(tree, walk.limit, recursive, listings)
  {
  }

  /** What was asked for and what was left over are no more than two requests for each directory. */
  ghost predicate Few(tree: Tree, root: Path, asked: seq<Request>, cut: seq<Path>) {
    |asked| + |cut| <= 2 * |Dirs(tree, root)|
  }

  /** Walk a tree level by level.  The walk ends against any server, even one that reports cyclic directories, never
      makes more requests than the budget, and is given up exactly when one of its requests fails; `tree` is any
      repository the answers may be faithful to. */
  method WalkRepoFiles(server: Server, root: Path, prefetched: Option<seq<Entry>>, limit: nat, budget: nat,
                       ghost tree: Tree)
    returns (out: Outcome, ghost asked: seq<Request>, ghost cut: seq<Path>)
    ensures |asked| <= budget && (out.Walked? ==> out.requests == |asked|)
    ensures out.Raised? <==> !AllAnswered(server, asked)
    ensures cut != [] ==> |asked| == budget
    ensures IsTree(tree) && Honest(server, tree, limit)
      && (prefetched.Some? ==> Faithful(tree, limit, root, true, prefetched.value)) && out.Walked?
      ==> Judged(tree, root, limit, out, cut) && Few(tree, root, asked, cut)
  {
    var walk := new TreeWalk(server, limit, budget);
    var frontier := [root];
    var known: map<Path, seq<Entry>> := match prefetched case None => map[] case Some(es) => map[root := es];
    ghost var honest := IsTree(tree) && Honest(server, tree, limit) && AllFaithful(tree, limit, true, known);
    ghost var depth: nat := |root|;
    if honest {
      FreshIsFew(tree, root, [], depth, false);
    }
    while frontier != []
      invariant walk.server == server && walk.limit == limit && walk.budget == budget
      invariant walk.Counted() && !walk.budgetSpent && AllAnswered(server, walk.asked)
      invariant honest ==> IsTree(tree) && Honest(server, tree, limit) && AllFaithful(tree, limit, true, known)
      invariant honest ==> Exact(tree, root, walk.collected) && AllUnder(tree, root, frontier)
      invariant honest ==> AllFlat(tree, root, limit, walk.oversized)
      invariant honest && walk.oversized == [] ==> Ahead(tree, root, limit, walk.collected, frontier)
      invariant honest ==> Fresh(tree, root, walk.asked, depth, false) && AtDepth(frontier, depth)
      invariant honest ==> Few(tree, root, walk.asked, walk.cut)
      decreases budget - walk.requestsMade
    {
      var ok, done, next := Level(walk, root, frontier, known, depth, tree, honest);
      asked, cut := walk.asked, walk.cut;
      if !ok {
        return Raised, asked, cut;
      }
      if done {
        frontier := [];
        break;
      }
      frontier, depth := next, depth + 1;
      known := map[];
    }
    asked, cut := walk.asked, walk.cut;
    out := Walked(walk.collected, walk.budgetSpent || walk.oversized != [], walk.requestsMade);
    if honest {
      Judge(walk, tree, root);
    }
  }

  lemma Judge(walk: TreeWalk, tree: Tree, root: Path)
    requires Exact(tree, root, walk.collected) && AllFlat(tree, root, walk.limit, walk.oversized)
    requires !walk.budgetSpent && walk.oversized == [] ==> Ahead(tree, root, walk.limit, walk.collected, [])
    requires walk.Counted() && AllUnder(tree, root, walk.cut)
    ensures Judged(tree, root, walk.limit,
                   Walked(walk.collected, walk.budgetSpent || walk.oversized != [], walk.requestsMade), walk.cut)
  {
    if walk.oversized != [] {
      assert walk.oversized[0] in walk.oversized;
    }
  }

  /** The first half of a level: subtree listings for the frontier. */
  method Subtrees(walk: TreeWalk, root: Path, frontier: seq<Path>, prefetched: map<Path, seq<Entry>>,
                  ghost depth: nat, ghost tree: Tree, ghost honest: bool)
    returns (ok: bool, truncated: seq<Path>, ghost known: map<Path, seq<Entry>>)
    requires walk.Counted() && !walk.budgetSpent && AllAnswered(walk.server, walk.asked)
    requires honest ==> IsTree(tree) && Honest(walk.server, tree, walk.limit)
    requires honest ==> AllFaithful(tree, walk.limit, true, prefetched)
    requires honest ==> Exact(tree, root, walk.collected) && AllUnder(tree, root, frontier)
    requires honest && walk.oversized == [] ==> Ahead(tree, root, walk.limit, walk.collected, frontier)
    requires honest ==> Fresh(tree, root, walk.asked, depth, false) && AtDepth(frontier, depth)
    modifies walk
    ensures walk.Counted() && (ok <==> AllAnswered(walk.server, walk.asked))
    ensures old(walk.requestsMade) <= walk.requestsMade && walk.oversized == old(walk.oversized)
    ensures ok && honest ==> AllUnder(tree, root, walk.cut) && Few(tree, root, walk.asked, walk.cut)
    ensures ok ==> forall d | d in truncated :: d in frontier && d in known && |known[d]| >= walk.limit
    ensures ok && honest ==> AllFaithful(tree, walk.limit, true, known) && Exact(tree, root, walk.collected)
    ensures ok && honest && !walk.budgetSpent && walk.oversized == []
      ==> Ahead(tree, root, walk.limit, walk.collected, truncated)
    ensures ok && honest ==> Fresh(tree, root, walk.asked, depth, true) && AtDepth(truncated, depth)
  {
    truncated, known := [], map[];
    var missing := Without(frontier, prefetched);
    ghost var left, asked, was := walk.budget - walk.requestsMade, walk.asked, walk.collected;
    var got;
    ok, got := walk.FetchLevel(missing, true);
    if !ok {
      return;
    }
    var listings := prefetched + got;
    known := listings;
    truncated := walk.AbsorbLevel(frontier, listings);
    if honest {
      RepliedFaithfully(walk, tree, true, got);
      LevelIsFew(tree, root, asked, missing, left, depth, true);
      GrownIsExact(walk, tree, root, was, walk.collected, frontier, known, true);
      if !walk.budgetSpent && walk.oversized == [] {
        SubtreesKeepAhead(tree, root, walk.limit, was, walk.collected, frontier, known, truncated);
      }
    }
  }

  /** One level: subtree listings for the frontier, then shallow listings for those that came back at the cap. */
  method Level(walk: TreeWalk, root: Path, frontier: seq<Path>, prefetched: map<Path, seq<Entry>>, ghost depth: nat,
               ghost tree: Tree, ghost honest: bool)
    returns (ok: bool, done: bool, next: seq<Path>)
    requires walk.Counted() && !walk.budgetSpent && AllAnswered(walk.server, walk.asked)
    requires honest ==> IsTree(tree) && Honest(walk.server, tree, walk.limit)
    requires honest ==> AllFaithful(tree, walk.limit, true, prefetched)
    requires honest ==> Exact(tree, root, walk.collected) && AllUnder(tree, root, frontier)
    requires honest ==> AllFlat(tree, root, walk.limit, walk.oversized)
    requires honest && walk.oversized == [] ==> Ahead(tree, root, walk.limit, walk.collected, frontier)
    requires honest ==> Fresh(tree, root, walk.asked, depth, false) && AtDepth(frontier, depth)
    modifies walk
    ensures walk.Counted() && (ok <==> AllAnswered(walk.server, walk.asked))
    ensures ok && !done ==> !walk.budgetSpent && old(walk.requestsMade) < walk.requestsMade
    ensures ok && honest ==> AllUnder(tree, root, walk.cut) && Few(tree, root, walk.asked, walk.cut)
    ensures ok && honest ==> Exact(tree, root, walk.collected) && AllFlat(tree, root, walk.limit, walk.oversized)
    ensures ok && honest && !done ==> AllUnder(tree, root, next)
    ensures ok && honest && !done && walk.oversized == [] ==> Ahead(tree, root, walk.limit, walk.collected, next)
    ensures ok && honest && !done ==> Fresh(tree, root, walk.asked, depth + 1, false) && AtDepth(next, depth + 1)
    ensures ok && honest && done && !walk.budgetSpent && walk.oversized == []
      ==> Ahead(tree, root, walk.limit, walk.collected, [])
  {
    done, next := true, [];
    ghost var known;
    var truncated;
    ok, truncated, known := Subtrees(walk, root, frontier, prefetched, depth, tree, honest);
    if !ok || truncated == [] || walk.budgetSpent {
      return;
    }
    ok, done, next := Split(walk, root, truncated, known, depth, tree, honest);
  }

  /** The second half of a level. */
  method Split(walk: TreeWalk, root: Path, truncated: seq<Path>, ghost known: map<Path, seq<Entry>>,
               ghost depth: nat, ghost tree: Tree, ghost honest: bool)
    returns (ok: bool, done: bool, next: seq<Path>)
    requires walk.Counted() && !walk.budgetSpent && AllAnswered(walk.server, walk.asked) && truncated != []
    requires forall d | d in truncated :: d in known && |known[d]| >= walk.limit
    requires honest ==> IsTree(tree) && Honest(walk.server, tree, walk.limit)
    requires honest ==> AllFaithful(tree, walk.limit, true, known)
    requires honest ==> Exact(tree, root, walk.collected) && AllUnder(tree, root, truncated)
    requires honest ==> AllFlat(tree, root, walk.limit, walk.oversized)
    requires honest && walk.oversized == [] ==> Ahead(tree, root, walk.limit, walk.collected, truncated)
    requires honest ==> Fresh(tree, root, walk.asked, depth, true) && AtDepth(truncated, depth)
    modifies walk
    ensures walk.Counted() && (ok <==> AllAnswered(walk.server, walk.asked))
    ensures ok && !done ==> !walk.budgetSpent && old(walk.requestsMade) < walk.requestsMade
    ensures ok && honest ==> AllUnder(tree, root, walk.cut) && Few(tree, root, walk.asked, walk.cut)
    ensures ok && done ==> walk.budgetSpent
    ensures ok && honest ==> Exact(tree, root, walk.collected) && AllFlat(tree, root, walk.limit, walk.oversized)
    ensures ok && honest && !done ==> AllUnder(tree, root, next)
    ensures ok && honest && !done && walk.oversized == [] ==> Ahead(tree, root, walk.limit, walk.collected, next)
    ensures ok && honest && !done ==> Fresh(tree, root, walk.asked, depth + 1, false) && AtDepth(next, depth + 1)
  {
    done, next := true, [];
    ghost var left, asked := walk.budget - walk.requestsMade, walk.asked;
    var shallow;
    ok, shallow := walk.FetchLevel(truncated, false);
    if !ok {
      return;
    }
    ghost var before, flat := walk.collected, walk.oversized;
    var children := walk.SplitLevel(truncated, shallow);
    if honest {
      LevelIsFew(tree, root, asked, truncated, left, depth, false);
      RepliedFaithfully(walk, tree, false, shallow);
      GrownIsExact(walk, tree, root, before, walk.collected, truncated, shallow, false);
      forall d | d in walk.oversized ensures DirUnder(tree, root, d) && Flat(tree, walk.limit, d) {
        if d !in flat {
          StuckMeansFlat(tree, walk.limit, d, known[d], shallow[d]);
        }
      }
    }
    if walk.budgetSpent {
      return;
    }
    next := Dedup(children);
    done := false;
    if honest {
      ChildrenUnder(tree, root, walk.limit, truncated, shallow, children);
      assert AtDepth(next, depth + 1) by {
        assert forall i | 0 <= i < |next| :: next[i] in next;
      }
      assert flat != [] ==> flat[0] in walk.oversized;
      if walk.oversized == [] {
        assert forall d | d in truncated :: !walk.Stuck(d, truncated, shallow);
        SplitKeepsAhead(tree, root, walk.limit, before, walk.collected, truncated, shallow, next);
      }
    }
  }

  method Without(paths: seq<Path>, known: map<Path, seq<Entry>>) returns (r: seq<Path>)
    ensures forall p :: p in r <==> p in paths && p !in known
    ensures forall depth: nat :: AtDepth(paths, depth) ==> AtDepth(r, depth)
  {
    r := [];
    for i := 0 to |paths|
      invariant forall p :: p in r <==> p in paths[..i] && p !in known
      invariant forall depth: nat :: AtDepth(paths, depth) ==> AtDepth(r, depth)
    {
      if paths[i] !in known {
        r := r + [paths[i]];
      }
    }
  }

  lemma ChildrenUnder(tree: Tree, root: Path, limit: nat, truncated: seq<Path>, shallow: map<Path, seq<Entry>>,
                      next: seq<Path>)
    requires AllUnder(tree, root, truncated) && AllFaithful(tree, limit, false, shallow)
    requires forall c :: c in next <==> exists d :: d in truncated && d in shallow && c in ChildDirs(shallow[d])
    ensures AllUnder(tree, root, next)
    ensures forall depth: nat :: AtDepth(truncated, depth) ==> forall c | c in next :: |c| == depth + 1
  {
    forall c | c in next ensures DirUnder(tree, root, c) {
      var d :| d in truncated && d in shallow && c in ChildDirs(shallow[d]);
      assert Entry(c, true) in Full(tree, d, false);
      BelowTrans(root, d, c);
    }
  }

  datatype Listed = ListingRaised | Files(entries: set<Entry>, incomplete: bool)

  /** The public listing.  It raises exactly when a request fails.  Against a faithful server, a result that is not
      marked incomplete is exactly what an uncapped answer would hold, and a marked one never holds anything else. */
  method ListRepoFiles(server: Server, root: Path, recursive: bool, limit: nat, budget: nat, ghost tree: Tree)
    returns (out: Listed, ghost asked: seq<Request>)
    ensures |asked| <= budget + 1 && (out.ListingRaised? <==> !AllAnswered(server, asked))
    ensures IsTree(tree) && Honest(server, tree, limit) && out.Files? ==>
      && out.entries <= Full(tree, root, recursive)
      && (!out.incomplete ==> out.entries == Full(tree, root, recursive))
    ensures IsTree(tree) && Honest(server, tree, limit) && out.Files? && out.incomplete ==>
      |asked| == budget + 1 || exists d :: DirUnder(tree, root, d) && Flat(tree, limit, d)
    ensures IsTree(tree) && Honest(server, tree, limit) && out.Files? && recursive
            && budget >= 2 * |Dirs(tree, root)| ==>
      (out.incomplete <==> exists d :: DirUnder(tree, root, d) && Flat(tree, limit, d))
    ensures IsTree(tree) && Honest(server, tree, limit) && out.Files? && !recursive ==>
      (out.incomplete <==> Flat(tree, limit, root))
  {
    ghost var honest := IsTree(tree) && Honest(server, tree, limit);
    asked := [Request(root, recursive)];
    match server(0, root, recursive) {
      case Failure =>
        assert !Answer(server, asked, 0).Listing?;
        return ListingRaised, asked;
      case Listing(entries) =>
        if |entries| < limit || !recursive {
          assert honest && |entries| >= limit ==> DirUnder(tree, root, root) && Flat(tree, limit, root);
          if honest && recursive {
            ShortHasNoFlat(tree, root, limit, entries);
          }
          return Files(set e | e in entries, |entries| >= limit), asked;
        }
        var later: Server := (k: nat, d: Path, r: bool) => server(k + 1, d, r);
        ghost var more, cut;
        var walked;
        walked, more, cut := WalkRepoFiles(later, root, Some(entries), limit, budget, tree);
        asked := asked + more;
        OneBefore(server, later, asked, more);
        match walked
        case Raised =>
          return ListingRaised, asked;
        case Walked(collected, incomplete, _) =>
          out := Files(set p | p in collected :: collected[p], incomplete);
          if honest {
            assert Honest(later, tree, limit);
            CollectedIsFull(tree, root, limit, walked, cut);
          }
    }
  }

  lemma ShortHasNoFlat(tree: Tree, root: Path, limit: nat, entries: seq<Entry>)
    requires Faithful(tree, limit, root, true, entries) && |entries| < limit
    ensures forall d | DirUnder(tree, root, d) :: !Flat(tree, limit, d)
  {
    forall d | DirUnder(tree, root, d) ensures !Flat(tree, limit, d) {
      if Flat(tree, limit, d) {
        FlatTruncates(tree, limit, root, d, entries);
      }
    }
  }

  /** The answers of a walk whose requests are numbered from one. */
  lemma OneBefore(server: Server, later: Server, asked: seq<Request>, more: seq<Request>)
    requires |asked| == |more| + 1 && asked[1..] == more && Answer(server, asked, 0).Listing?
    requires forall k: nat, d, r :: later(k, d, r) == server(k + 1, d, r)
    ensures AllAnswered(server, asked) <==> AllAnswered(later, more)
  {
    forall k: nat | k < |more| ensures Answer(later, more, k) == Answer(server, asked, k + 1) {
      assert asked[1..][k] == asked[k + 1];
    }
    if AllAnswered(later, more) {
      forall k: nat | k < |asked| ensures Answer(server, asked, k).Listing? {
        if k > 0 {
          assert Answer(later, more, k - 1).Listing?;
        }
      }
    }
  }

  lemma CollectedIsFull(tree: Tree, root: Path, limit: nat, out: Outcome, cut: seq<Path>)
    requires out.Walked? && Judged(tree, root, limit, out, cut)
    ensures var found := set p | p in out.collected :: out.collected[p];
      found <= Full(tree, root, true) && (!out.incomplete ==> found == Full(tree, root, true))
  {
    var found := set p | p in out.collected :: out.collected[p];
    if !out.incomplete {
      forall e | e in Full(tree, root, true) ensures e in found {
        assert out.collected[e.path] == e;
      }
    }
  }
}
