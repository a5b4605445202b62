/** The `zb lint` command: it splits the workspace's packages into those with
    a cached lint result and those without, runs gometalinter on the second
    kind and replays the cached result of the first kind, both in one sorted
    order, and folds every outcome into one exit code.

    The result cache, the linter run, project discovery, the generate target
    and the executable lookup are outside this model; each one is an oracle
    passed in as a function value or a result. */
module Lint {
  import opened Wrappers

  /** An error reported by one of the collaborators. */
  datatype Error = Error(message: string)

  /** A package as the lint command sees it. `id` is the package's place in
      the total order by which package lists are sorted. */
  datatype Package = Package(id: nat, dir: string, isVendored: bool)

  /** The two exit codes the command can surface. */
  const ExitOK: int := 0
  const ExitFailed: int := 1

  // ---------------------------------------------------------------------
  // Sequences of packages

  /** The elements of `s` that satisfy `keep`, in their order in `s`. */
  function Filter(s: seq<Package>, keep: Package -> bool): (r: seq<Package>)
    ensures |r| <= |s|
  {
    if s == [] then []
    else (if keep(s[0]) then [s[0]] else []) + Filter(s[1..], keep)
  }

  /** An element survives the filter exactly when it is in the list and kept. */
  lemma {:induction false} FilterMember(s: seq<Package>, keep: Package -> bool, x: Package)
    ensures x in Filter(s, keep) <==> x in s && keep(x)
  {
    if s != [] {
      FilterMember(s[1..], keep, x);
      assert x in s <==> x == s[0] || x in s[1..];
    }
  }

  /** Filtering a list with a known head. */
  lemma FilterCons(x: Package, t: seq<Package>, keep: Package -> bool)
    ensures Filter([x] + t, keep) == (if keep(x) then [x] else []) + Filter(t, keep)
  {
    assert ([x] + t)[0] == x && ([x] + t)[1..] == t;
  }

  lemma {:induction false} FilterAppend(a: seq<Package>, b: seq<Package>, keep: Package -> bool)
    ensures Filter(a + b, keep) == Filter(a, keep) + Filter(b, keep)
  {
    if a == [] {
      assert a + b == b;
    } else {
      var head := if keep(a[0]) then [a[0]] else [];
      assert a == [a[0]] + a[1..];
      assert a + b == [a[0]] + (a[1..] + b);
      FilterCons(a[0], a[1..] + b, keep);
      FilterCons(a[0], a[1..], keep);
      FilterAppend(a[1..], b, keep);
      assert head + (Filter(a[1..], keep) + Filter(b, keep)) == (head + Filter(a[1..], keep)) + Filter(b, keep);
    }
  }

  /** Each package's id is at most the next one's. */
  predicate SortedById(s: seq<Package>) {
    |s| < 2 || (s[0].id <= s[1].id && SortedById(s[1..]))
  }

  /** Sortedness relates every pair of positions, not only neighbours. */
  lemma {:induction false} SortedOrdersAllPairs(s: seq<Package>, i: nat, j: nat)
    requires SortedById(s) && i <= j < |s|
    ensures s[i].id <= s[j].id
  {
    if i < j {
      if i == 0 {
        SortedOrdersAllPairs(s[1..], 0, j - 1);
      } else {
        SortedOrdersAllPairs(s[1..], i - 1, j - 1);
      }
    }
  }

  /** Every element of a sorted list is at least its head. */
  lemma HeadIsLeast(s: seq<Package>, x: Package)
    requires SortedById(s) && x in s
    ensures s[0].id <= x.id
  {
    var k :| 0 <= k < |s| && s[k] == x;
    SortedOrdersAllPairs(s, 0, k);
  }

  /** A sorted list stays sorted when an element no larger than its head is
      put in front. */
  lemma PrependSorted(x: Package, s: seq<Package>)
    requires SortedById(s) && (s != [] ==> x.id <= s[0].id)
    ensures SortedById([x] + s)
  {
    assert ([x] + s)[1..] == s;
  }

  /** Inserts `p` before the first element whose id is not smaller. */
  function Insert(p: Package, s: seq<Package>): (r: seq<Package>)
    requires SortedById(s)
    ensures SortedById(r)
    ensures |r| == |s| + 1 && r[0] == if s == [] || p.id <= s[0].id then p else s[0]
  {
    if s == [] || p.id <= s[0].id then
      PrependSorted(p, s);
      [p] + s
    else
      var rest := Insert(p, s[1..]);
      assert |s| > 1 ==> s[0].id <= s[1].id;
      PrependSorted(s[0], rest);
      [s[0]] + rest
  }

  /** The package list sorted by id. The sort is stable: packages with equal
      ids keep their relative order. */
  function SortById(s: seq<Package>): (r: seq<Package>)
    ensures SortedById(r)
    ensures |r| == |s|
  {
    if s == [] then [] else Insert(s[0], SortById(s[1..]))
  }

  lemma {:induction false} InsertPermutes(p: Package, s: seq<Package>)
    requires SortedById(s)
    ensures multiset(Insert(p, s)) == multiset(s) + multiset{p}
  {
    if s != [] && s[0].id < p.id {
      InsertPermutes(p, s[1..]);
      assert s == [s[0]] + s[1..];
      assert multiset(Insert(p, s)) == multiset{s[0]} + multiset(Insert(p, s[1..]));
    }
  }

  /** Sorting only reorders: the result holds the same packages, each as
      many times. */
  lemma {:induction false} SortPermutes(s: seq<Package>)
    ensures multiset(SortById(s)) == multiset(s)
  {
    if s != [] {
      SortPermutes(s[1..]);
      InsertPermutes(s[0], SortById(s[1..]));
      assert s == [s[0]] + s[1..];
    }
  }

  /** No two packages of the list share an id. */
  predicate DistinctIds(s: seq<Package>) {
    forall i, j :: 0 <= i < j < |s| ==> s[i].id != s[j].id
  }

  /** Two sorted arrangements of the same packages with distinct ids start
      with the same package. */
  lemma SameHead(a: seq<Package>, b: seq<Package>)
    requires SortedById(a) && SortedById(b) && multiset(a) == multiset(b) && DistinctIds(a) && a != []
    ensures b != [] && a[0] == b[0]
  {
    assert a[0] in multiset(a);
    assert b != [] && b[0] in multiset(b);
    HeadIsLeast(b, a[0]);
    HeadIsLeast(a, b[0]);
    var k :| 0 <= k < |a| && a[k] == b[0];
    assert k == 0;
  }

  lemma DistinctTail(a: seq<Package>)
    requires DistinctIds(a) && a != []
    ensures DistinctIds(a[1..])
  {
    forall i, j | 0 <= i < j < |a| - 1
      ensures a[1..][i].id != a[1..][j].id
    {
      assert a[1..][i] == a[i + 1] && a[1..][j] == a[j + 1];
    }
  }

  lemma MultisetTail(a: seq<Package>, b: seq<Package>)
    requires a != [] && b != [] && a[0] == b[0] && multiset(a) == multiset(b)
    ensures multiset(a[1..]) == multiset(b[1..])
  {
    assert a == [a[0]] + a[1..] && b == [b[0]] + b[1..];
    assert multiset(a) == multiset{a[0]} + multiset(a[1..]);
    assert multiset(b) == multiset{a[0]} + multiset(b[1..]);
    assert multiset(a[1..]) == multiset(a) - multiset{a[0]};
    assert multiset(b[1..]) == multiset(b) - multiset{a[0]};
  }

  /** Two sorted arrangements of the same packages with distinct ids are
      the same list. */
  lemma {:induction false} SortedPermutationUnique(a: seq<Package>, b: seq<Package>)
    requires SortedById(a) && SortedById(b) && multiset(a) == multiset(b) && DistinctIds(a)
    ensures a == b
  {
    if a == [] {
      assert |b| == |multiset(b)| == 0;
    } else {
      SameHead(a, b);
      DistinctTail(a);
      MultisetTail(a, b);
      SortedPermutationUnique(a[1..], b[1..]);
      assert a == [a[0]] + a[1..] && b == [b[0]] + b[1..];
    }
  }

  /** Any sorting procedure, stable or not, that arranges the packages by id
      agrees with `SortById` once the ids are distinct. */
  lemma SortByIdIsTheSortedArrangement(s: seq<Package>, r: seq<Package>)
    requires SortedById(r) && multiset(r) == multiset(s) && DistinctIds(r)
    ensures r == SortById(s)
  {
    SortPermutes(s);
    SortedPermutationUnique(r, SortById(s));
  }

  lemma {:induction false} FilterSorted(s: seq<Package>, keep: Package -> bool)
    requires SortedById(s)
    ensures SortedById(Filter(s, keep))
  {
    if s != [] {
      FilterSorted(s[1..], keep);
      var tail := Filter(s[1..], keep);
      if tail != [] {
        assert tail[0] in tail;
        FilterMember(s[1..], keep, tail[0]);
        HeadIsLeast(s, tail[0]);
      }
      PrependSorted(s[0], tail);
      assert s == [s[0]] + s[1..];
      FilterCons(s[0], s[1..], keep);
      if !keep(s[0]) {
        assert Filter(s, keep) == tail;
      }
    }
  }

  /** Inserting at the front of a sorted list, then filtering. */
  lemma FilterInsertAtFront(p: Package, s: seq<Package>, keep: Package -> bool)
    requires SortedById(s) && (s == [] || p.id <= s[0].id)
    requires SortedById(Filter(s, keep))
    ensures Filter(Insert(p, s), keep) == if keep(p) then Insert(p, Filter(s, keep)) else Filter(s, keep)
  {
    var f := Filter(s, keep);
    var r := [p] + s;
    assert Insert(p, s) == r;
    assert r[0] == p && r[1..] == s;
    assert Filter(r, keep) == (if keep(p) then [p] else []) + f;
    if keep(p) {
      if f != [] {
        assert f[0] in f;
        FilterMember(s, keep, f[0]);
        HeadIsLeast(s, f[0]);
      }
      assert Insert(p, f) == [p] + f;
    }
  }

  /** The tail of a sorted list is sorted. */
  lemma SortedTail(s: seq<Package>)
    requires SortedById(s) && s != []
    ensures SortedById(s[1..])
  {
  }

  /** Inserting an element larger than the head of a sorted list keeps the head. */
  lemma InsertBehind(p: Package, x: Package, t: seq<Package>)
    requires SortedById([x] + t) && x.id < p.id
    ensures SortedById(t)
    ensures Insert(p, [x] + t) == [x] + Insert(p, t)
  {
    SortedTail([x] + t);
    assert ([x] + t)[0] == x && ([x] + t)[1..] == t;
  }

  /** Filtering a sorted list, before and after inserting behind its head,
      in terms of its tail. */
  lemma FilterInsertUnfold(p: Package, s: seq<Package>, keep: Package -> bool)
    requires SortedById(s) && s != [] && s[0].id < p.id
    ensures SortedById(s[1..])
    ensures keep(s[0]) ==> Filter(s, keep) == [s[0]] + Filter(s[1..], keep)
    ensures keep(s[0]) ==> Filter(Insert(p, s), keep) == [s[0]] + Filter(Insert(p, s[1..]), keep)
    ensures !keep(s[0]) ==> Filter(s, keep) == Filter(s[1..], keep)
    ensures !keep(s[0]) ==> Filter(Insert(p, s), keep) == Filter(Insert(p, s[1..]), keep)
  {
    assert s == [s[0]] + s[1..];
    InsertBehind(p, s[0], s[1..]);
    FilterCons(s[0], s[1..], keep);
    FilterCons(s[0], Insert(p, s[1..]), keep);
  }

  /** Inserting behind the head of a sorted list, then filtering, given the
      same fact for the tail. */
  lemma FilterInsertBehindHead(p: Package, s: seq<Package>, keep: Package -> bool)
    requires SortedById(s) && s != [] && s[0].id < p.id
    requires SortedById(Filter(s[1..], keep)) && SortedById(Filter(s, keep))
    requires Filter(Insert(p, s[1..]), keep) ==
             if keep(p) then Insert(p, Filter(s[1..], keep)) else Filter(s[1..], keep)
    ensures Filter(Insert(p, s), keep) == if keep(p) then Insert(p, Filter(s, keep)) else Filter(s, keep)
  {
    FilterInsertUnfold(p, s, keep);
    var tail := Filter(s[1..], keep);
    var inserted := Filter(Insert(p, s[1..]), keep);
    if keep(s[0]) {
      if keep(p) {
        InsertBehind(p, s[0], tail);
        calc {
          Filter(Insert(p, s), keep);
          [s[0]] + inserted;
          [s[0]] + Insert(p, tail);
          Insert(p, [s[0]] + tail);
          Insert(p, Filter(s, keep));
        }
      } else {
        calc {
          Filter(Insert(p, s), keep);
          [s[0]] + inserted;
          [s[0]] + tail;
          Filter(s, keep);
        }
      }
    } else {
      calc {
        Filter(Insert(p, s), keep);
        inserted;
        if keep(p) then Insert(p, tail) else tail;
      }
    }
  }

  /** Filtering and inserting commute on a sorted list. */
  lemma {:induction false} FilterInsert(p: Package, s: seq<Package>, keep: Package -> bool)
    requires SortedById(s)
    ensures SortedById(Filter(s, keep))
    ensures Filter(Insert(p, s), keep) == if keep(p) then Insert(p, Filter(s, keep)) else Filter(s, keep)
  {
    FilterSorted(s, keep);
    if s == [] || p.id <= s[0].id {
      FilterInsertAtFront(p, s, keep);
    } else {
      SortedTail(s);
      FilterSorted(s[1..], keep);
      FilterInsert(p, s[1..], keep);
      FilterInsertBehindHead(p, s, keep);
    }
  }

  /** Sorting a filtered list gives the filtered sorted list. */
  lemma {:induction false} SortFilterCommute(s: seq<Package>, keep: Package -> bool)
    ensures SortById(Filter(s, keep)) == Filter(SortById(s), keep)
  {
    if s != [] {
      var sorted := SortById(s[1..]);
      SortFilterCommute(s[1..], keep);
      assert SortById(Filter(s[1..], keep)) == Filter(sorted, keep);
      FilterInsert(s[0], sorted, keep);
      assert SortById(s) == Insert(s[0], sorted);
      var f := Filter(s, keep);
      if keep(s[0]) {
        assert f == [s[0]] + Filter(s[1..], keep);
        assert f[0] == s[0] && f[1..] == Filter(s[1..], keep);
        assert SortById(f) == Insert(s[0], SortById(Filter(s[1..], keep)));
      } else {
        assert f == Filter(s[1..], keep);
      }
    }
  }

  // ---------------------------------------------------------------------
  // buildLists

  /** All packages of all projects, project by project. */
  function Flatten(projects: seq<seq<Package>>): seq<Package> {
    if projects == [] then [] else projects[0] + Flatten(projects[1..])
  }

  lemma {:induction false} FlattenAppend(a: seq<seq<Package>>, b: seq<seq<Package>>)
    ensures Flatten(a + b) == Flatten(a) + Flatten(b)
  {
    if a == [] {
      assert a + b == b;
    } else {
      assert (a + b)[0] == a[0];
      assert (a + b)[1..] == a[1..] + b;
      FlattenAppend(a[1..], b);
    }
  }

  function NotVendored(p: Package): bool {
    !p.isVendored
  }

  /** The packages the lint command considers: every non-vendored package,
      in discovery order. */
  function Candidates(projects: seq<seq<Package>>): seq<Package> {
    Filter(Flatten(projects), NotVendored)
  }

  /** A package needs a linter run when the cache reports no result for it. */
  function NeedsLint(haveResult: Package -> Result<bool, Error>): Package -> bool {
    p => haveResult(p) == Success(false)
  }

  /** The first error the cache reports while the packages are checked in order. */
  function FirstCacheError(pkgs: seq<Package>, haveResult: Package -> Result<bool, Error>): Option<Error> {
    if pkgs == [] then None
    else if haveResult(pkgs[0]).Failure? then Some(haveResult(pkgs[0]).error)
    else FirstCacheError(pkgs[1..], haveResult)
  }

  lemma {:induction false} FirstCacheErrorAppend(a: seq<Package>, b: seq<Package>, haveResult: Package -> Result<bool, Error>)
    ensures FirstCacheError(a + b, haveResult) ==
            if FirstCacheError(a, haveResult).Some? then FirstCacheError(a, haveResult) else FirstCacheError(b, haveResult)
  {
    if a == [] {
      assert a + b == b;
    } else {
      assert (a + b)[0] == a[0];
      assert (a + b)[1..] == a[1..] + b;
      FirstCacheErrorAppend(a[1..], b, haveResult);
    }
  }

  /** One package of the walk in `BuildLists`: how the two lists and the
      first cache error change when the `j`-th package of a project follows
      the packages already seen. */
  lemma CollectStep(seen: seq<Package>, proj: seq<Package>, j: nat, pkgs: seq<Package>,
                    haveResult: Package -> Result<bool, Error>)
    requires j < |proj| && pkgs == Filter(seen + proj[..j], NotVendored)
    ensures var pkg := proj[j];
      var next := if pkg.isVendored then pkgs else pkgs + [pkg];
      && next == Filter(seen + proj[..j + 1], NotVendored)
      && Filter(next, NeedsLint(haveResult)) ==
         Filter(pkgs, NeedsLint(haveResult)) + (if !pkg.isVendored && haveResult(pkg) == Success(false) then [pkg] else [])
      && FirstCacheError(next, haveResult) ==
         if FirstCacheError(pkgs, haveResult).Some? || pkg.isVendored then FirstCacheError(pkgs, haveResult)
         else if haveResult(pkg).Failure? then Some(haveResult(pkg).error) else None
  {
    var pkg := proj[j];
    assert seen + proj[..j + 1] == (seen + proj[..j]) + [pkg];
    assert [pkg][1..] == [];
    FilterAppend(seen + proj[..j], [pkg], NotVendored);
    if !pkg.isVendored {
      FilterAppend(pkgs, [pkg], NeedsLint(haveResult));
      FirstCacheErrorAppend(pkgs, [pkg], haveResult);
    }
  }

  /** A cache error met at the `j`-th package of project `i` is the first
      cache error among all candidates. */
  lemma CacheErrorIsFirst(projects: seq<seq<Package>>, i: nat, j: nat, pkgs: seq<Package>,
                          haveResult: Package -> Result<bool, Error>)
    requires i < |projects| && j <= |projects[i]|
    requires pkgs == Filter(Flatten(projects[..i]) + projects[i][..j], NotVendored)
    requires FirstCacheError(pkgs, haveResult).Some?
    ensures FirstCacheError(Candidates(projects), haveResult) == FirstCacheError(pkgs, haveResult)
  {
    var prefix := Flatten(projects[..i]) + projects[i][..j];
    var rest := projects[i][j..] + Flatten(projects[i + 1..]);
    FlattenSplit(projects, i, j);
    FilterAppend(prefix, rest, NotVendored);
    FirstCacheErrorAppend(pkgs, Filter(rest, NotVendored), haveResult);
  }

  /** The packages of the projects, cut at the `j`-th package of project `i`. */
  lemma FlattenSplit(projects: seq<seq<Package>>, i: nat, j: nat)
    requires i < |projects| && j <= |projects[i]|
    ensures Flatten(projects) == (Flatten(projects[..i]) + projects[i][..j]) + (projects[i][j..] + Flatten(projects[i + 1..]))
  {
    assert projects == projects[..i] + ([projects[i]] + projects[i + 1..]);
    FlattenAppend(projects[..i], [projects[i]] + projects[i + 1..]);
    var rest := [projects[i]] + projects[i + 1..];
    assert rest[0] == projects[i] && rest[1..] == projects[i + 1..];
    assert projects[i] == projects[i][..j] + projects[i][j..];
  }

  /** The packages of the first `i` projects followed by project `i`. */
  lemma FlattenNext(projects: seq<seq<Package>>, i: nat)
    requires i < |projects|
    ensures Flatten(projects[..i + 1]) == Flatten(projects[..i]) + projects[i]
  {
    assert projects[..i + 1] == projects[..i] + [projects[i]];
    FlattenAppend(projects[..i], [projects[i]]);
    assert [projects[i]][1..] == [];
  }

  /** Collects the non-vendored packages into `pkgs` and those without a
      cached result into `toRun`, then sorts both lists the same way. The
      first error of the cache aborts the walk. */
  method BuildLists(projects: seq<seq<Package>>, haveResult: Package -> Result<bool, Error>)
    returns (pkgs: seq<Package>, toRun: seq<Package>, err: Option<Error>)
    ensures err == FirstCacheError(Candidates(projects), haveResult)
    ensures err == None ==> pkgs == SortById(Candidates(projects))
    ensures err == None ==> toRun == SortById(Filter(Candidates(projects), NeedsLint(haveResult)))
  {
    pkgs, toRun, err := [], [], None;
    for i := 0 to |projects|
      invariant pkgs == Filter(Flatten(projects[..i]), NotVendored)
      invariant toRun == Filter(pkgs, NeedsLint(haveResult))
      invariant FirstCacheError(pkgs, haveResult) == None
    {
      ghost var seen := Flatten(projects[..i]);
      var proj := projects[i];
      assert seen + proj[..0] == seen;
      for j := 0 to |proj|
        invariant pkgs == Filter(seen + proj[..j], NotVendored)
        invariant toRun == Filter(pkgs, NeedsLint(haveResult))
        invariant FirstCacheError(pkgs, haveResult) == None
      {
        var pkg := proj[j];
        CollectStep(seen, proj, j, pkgs, haveResult);
        if !pkg.isVendored {
          pkgs := pkgs + [pkg];
          var found := haveResult(pkg);
          if found.Failure? {
            err := Some(found.error);
            assert FirstCacheError(pkgs, haveResult) == err;
            CacheErrorIsFirst(projects, i, j + 1, pkgs, haveResult);
            return;
          }
          if !found.value {
            toRun := toRun + [pkg];
          }
          assert toRun == Filter(pkgs, NeedsLint(haveResult));
        }
        assert pkgs == Filter(seen + proj[..j + 1], NotVendored);
      }
      assert proj[..|proj|] == proj;
      FlattenNext(projects, i);
    }
    assert projects[..|projects|] == projects;
    pkgs := SortById(pkgs);
    toRun := SortById(toRun);
  }

  // ---------------------------------------------------------------------
  // exec

  /** The collaborators `exec` consults for each package. */
  datatype Oracles = Oracles(
    cacheFile: Package -> Result<string, Error>,       // the package's cache file path
    runLinter: (string, string) -> Result<int, Error>, // (directory, cache file) to the linter's exit code
    showResult: string -> Result<bool, Error>)         // replays a cache file; true when it records a failure

  /** What happened to one package: linted with an exit code, or replayed. */
  datatype Action = Linted(pkg: Package, code: int) | Replayed(pkg: Package, failed: bool)

  datatype Status = Finished(code: int, queue: seq<Package>) | Aborted(error: Error)

  /** The completed per-package actions of a walk, and how the walk ended. */
  datatype Trace = Trace(actions: seq<Action>, status: Status)

  /** What the command returns: nil, an exit error carrying a code, or an error. */
  datatype ExecResult = Ok | ExitError(code: int) | Failed(error: Error)

  function Then(done: seq<Action>, t: Trace): Trace {
    Trace(done + t.actions, t.status)
  }

  /** The walk over `pkgs` with `toRun` as a queue, starting from the
      aggregate exit code `code`. */
  function Walk(o: Oracles, pkgs: seq<Package>, toRun: seq<Package>, code: int): Trace
    decreases |pkgs|
  {
    if pkgs == [] then Trace([], Finished(code, toRun))
    else
      var pkg := pkgs[0];
      match o.cacheFile(pkg)
      case Failure(e) => Trace([], Aborted(e))
      case Success(file) =>
        if |toRun| > 0 && toRun[0] == pkg then
          match o.runLinter(pkg.dir, file)
          case Failure(e) => Trace([], Aborted(e))
          case Success(ecode) =>
            Then([Linted(pkg, ecode)], Walk(o, pkgs[1..], toRun[1..], if code == ExitOK then ecode else code))
        else
          match o.showResult(file)
          case Failure(e) => Trace([], Aborted(e))
          case Success(failed) =>
            Then([Replayed(pkg, failed)], Walk(o, pkgs[1..], toRun, if code == ExitOK && failed then ExitFailed else code))
  }

  lemma ThenThen(done: seq<Action>, step: seq<Action>, t: Trace)
    ensures Then(done, Then(step, t)) == Then(done + step, t)
  {
    assert done + (step + t.actions) == (done + step) + t.actions;
  }

  /** The walk from the `i`-th package on, by what its oracles answer. */
  lemma WalkAt(o: Oracles, pkgs: seq<Package>, i: nat, queue: seq<Package>, code: int)
    requires i < |pkgs|
    ensures var pkg := pkgs[i];
      var w := Walk(o, pkgs[i..], queue, code);
      && (o.cacheFile(pkg).Failure? ==> w == Trace([], Aborted(o.cacheFile(pkg).error)))
      && (o.cacheFile(pkg).Success? && |queue| > 0 && queue[0] == pkg ==>
            var run := o.runLinter(pkg.dir, o.cacheFile(pkg).value);
            && (run.Failure? ==> w == Trace([], Aborted(run.error)))
            && (run.Success? ==> w == Then([Linted(pkg, run.value)],
                  Walk(o, pkgs[i + 1..], queue[1..], if code == ExitOK then run.value else code))))
      && (o.cacheFile(pkg).Success? && !(|queue| > 0 && queue[0] == pkg) ==>
            var shown := o.showResult(o.cacheFile(pkg).value);
            && (shown.Failure? ==> w == Trace([], Aborted(shown.error)))
            && (shown.Success? ==> w == Then([Replayed(pkg, shown.value)],
                  Walk(o, pkgs[i + 1..], queue, if code == ExitOK && shown.value then ExitFailed else code))))
  {
    assert pkgs[i..][0] == pkgs[i] && pkgs[i..][1..] == pkgs[i + 1..];
  }

  /** Lints the packages at the head of the queue and replays the cached
      result of every other package, in the order of `pkgs`. */
  method Exec(o: Oracles, pkgs: seq<Package>, toRun: seq<Package>) returns (result: ExecResult, actions: seq<Action>)
    ensures actions == Walk(o, pkgs, toRun, ExitOK).actions
    ensures var s := Walk(o, pkgs, toRun, ExitOK).status;
      && (result == Ok <==> s.Finished? && s.code == ExitOK)
      && (result.ExitError? <==> s.Finished? && s.code != ExitOK)
      && (result.ExitError? ==> result.code == s.code)
      && (result.Failed? <==> s.Aborted?)
      && (result.Failed? ==> result.error == s.error)
  {
    var code := ExitOK;
    var queue := toRun;
    actions := [];
    assert pkgs[0..] == pkgs;
    for i := 0 to |pkgs|
      invariant Walk(o, pkgs, toRun, ExitOK) == Then(actions, Walk(o, pkgs[i..], queue, code))
    {
      var pkg := pkgs[i];
      WalkAt(o, pkgs, i, queue, code);
      var file := o.cacheFile(pkg);
      if file.Failure? {
        return Failed(file.error), actions;
      }
      if |queue| > 0 && queue[0] == pkg {
        var run := o.runLinter(pkg.dir, file.value);
        if run.Failure? {
          return Failed(run.error), actions;
        }
        if code == ExitOK {
          code := run.value;
        }
        ThenThen(actions, [Linted(pkg, run.value)], Walk(o, pkgs[i + 1..], queue[1..], code));
        actions := actions + [Linted(pkg, run.value)];
        queue := queue[1..];
      } else {
        var shown := o.showResult(file.value);
        if shown.Failure? {
          return Failed(shown.error), actions;
        }
        if code == ExitOK && shown.value {
          code := ExitFailed;
        }
        ThenThen(actions, [Replayed(pkg, shown.value)], Walk(o, pkgs[i + 1..], queue, code));
        actions := actions + [Replayed(pkg, shown.value)];
      }
    }
    assert pkgs[|pkgs|..] == [];
    assert actions + [] == actions;
    if code != ExitOK {
      return ExitError(code), actions;
    }
    return Ok, actions;
  }

  /** The packages a sequence of actions ran the linter on, in order. */
  function LintedPackages(actions: seq<Action>): seq<Package> {
    if actions == [] then []
    else (if actions[0].Linted? then [actions[0].pkg] else []) + LintedPackages(actions[1..])
  }

  /** The trace treats the packages one by one in order, linting exactly
      those that satisfy `keep` and replaying the others; when it finishes,
      it has treated all of them, linted each kept one once, in order, and
      emptied the queue. */
  predicate FollowsQueue(pkgs: seq<Package>, keep: Package -> bool, t: Trace) {
    && |t.actions| <= |pkgs|
    && (forall k :: 0 <= k < |t.actions| ==>
          t.actions[k].pkg == pkgs[k] && (t.actions[k].Linted? <==> keep(pkgs[k])))
    && (t.status.Finished? ==>
          |t.actions| == |pkgs| && t.status.queue == [] && LintedPackages(t.actions) == Filter(pkgs, keep))
  }

  /** One more action in front for one more package in front. */
  lemma FollowsQueueCons(pkgs: seq<Package>, keep: Package -> bool, a: Action, t: Trace)
    requires pkgs != [] && a.pkg == pkgs[0] && (a.Linted? <==> keep(pkgs[0]))
    requires FollowsQueue(pkgs[1..], keep, t)
    ensures FollowsQueue(pkgs, keep, Then([a], t))
  {
    var u := Then([a], t);
    forall k | 0 <= k < |u.actions|
      ensures u.actions[k].pkg == pkgs[k] && (u.actions[k].Linted? <==> keep(pkgs[k]))
    {
      if k > 0 {
        assert u.actions[k] == t.actions[k - 1];
        assert pkgs[k] == pkgs[1..][k - 1];
      }
    }
    assert u.actions[0] == a && u.actions[1..] == t.actions;
    assert pkgs == [pkgs[0]] + pkgs[1..];
    FilterCons(pkgs[0], pkgs[1..], keep);
  }

  /** With `toRun` the packages of `pkgs` that satisfy `keep`, the walk
      follows the queue. */
  lemma {:induction false} WalkFollowsQueue(o: Oracles, pkgs: seq<Package>, keep: Package -> bool, code: int)
    ensures FollowsQueue(pkgs, keep, Walk(o, pkgs, Filter(pkgs, keep), code))
  {
    if pkgs != [] {
      var pkg := pkgs[0];
      var queue := Filter(pkgs, keep);
      var rest := Filter(pkgs[1..], keep);
      assert pkgs == [pkg] + pkgs[1..];
      FilterCons(pkg, pkgs[1..], keep);
      if o.cacheFile(pkg).Success? {
        var file := o.cacheFile(pkg).value;
        if keep(pkg) {
          assert queue[0] == pkg && queue[1..] == rest;
          if o.runLinter(pkg.dir, file).Success? {
            var ecode := o.runLinter(pkg.dir, file).value;
            var next := if code == ExitOK then ecode else code;
            WalkFollowsQueue(o, pkgs[1..], keep, next);
            FollowsQueueCons(pkgs, keep, Linted(pkg, ecode), Walk(o, pkgs[1..], rest, next));
          }
        } else {
          assert queue == rest;
          if |queue| > 0 {
            assert queue[0] in rest;
            FilterMember(pkgs[1..], keep, queue[0]);
          }
          if o.showResult(file).Success? {
            var failed := o.showResult(file).value;
            var next := if code == ExitOK && failed then ExitFailed else code;
            WalkFollowsQueue(o, pkgs[1..], keep, next);
            FollowsQueueCons(pkgs, keep, Replayed(pkg, failed), Walk(o, pkgs[1..], rest, next));
          }
        }
      }
    }
  }

  /** The exit code one action contributes. */
  function OutcomeCode(a: Action): int {
    match a
    case Linted(_, code) => code
    case Replayed(_, failed) => if failed then ExitFailed else ExitOK
  }

  /** The first code in the actions other than ExitOK, or ExitOK. */
  function FirstNonOK(actions: seq<Action>): int {
    if actions == [] then ExitOK
    else if OutcomeCode(actions[0]) != ExitOK then OutcomeCode(actions[0])
    else FirstNonOK(actions[1..])
  }

  /** The aggregate code is the first outcome that is not OK: once the code
      is not OK, no later outcome changes it. */
  lemma {:induction false} WalkKeepsFirstFailure(o: Oracles, pkgs: seq<Package>, toRun: seq<Package>, code: int)
    ensures var t := Walk(o, pkgs, toRun, code);
      t.status.Finished? ==> t.status.code == if code != ExitOK then code else FirstNonOK(t.actions)
  {
    if pkgs != [] {
      var pkg := pkgs[0];
      if o.cacheFile(pkg).Success? {
        var file := o.cacheFile(pkg).value;
        if |toRun| > 0 && toRun[0] == pkg {
          if o.runLinter(pkg.dir, file).Success? {
            var ecode := o.runLinter(pkg.dir, file).value;
            var next := if code == ExitOK then ecode else code;
            WalkKeepsFirstFailure(o, pkgs[1..], toRun[1..], next);
            var t := Walk(o, pkgs[1..], toRun[1..], next);
            assert ([Linted(pkg, ecode)] + t.actions)[1..] == t.actions;
          }
        } else {
          if o.showResult(file).Success? {
            var failed := o.showResult(file).value;
            var next := if code == ExitOK && failed then ExitFailed else code;
            WalkKeepsFirstFailure(o, pkgs[1..], toRun, next);
            var t := Walk(o, pkgs[1..], toRun, next);
            assert ([Replayed(pkg, failed)] + t.actions)[1..] == t.actions;
          }
        }
      }
    }
  }

  /** Every oracle `exec` may consult for `p` succeeds. */
  predicate OraclesSucceed(o: Oracles, p: Package) {
    && o.cacheFile(p).Success?
    && o.runLinter(p.dir, o.cacheFile(p).value).Success?
    && o.showResult(o.cacheFile(p).value).Success?
  }

  /** The action taken for `p` is what its oracles answered: its cache file
      was found, and the linter's exit code or the replayed verdict is the
      one recorded. */
  predicate Answered(o: Oracles, p: Package, a: Action) {
    && a.pkg == p
    && o.cacheFile(p).Success?
    && match a
       case Linted(_, c) => o.runLinter(p.dir, o.cacheFile(p).value) == Success(c)
       case Replayed(_, f) => o.showResult(o.cacheFile(p).value) == Success(f)
  }

  /** The k-th action answers for the k-th package. */
  predicate ActionsAnswer(o: Oracles, pkgs: seq<Package>, actions: seq<Action>) {
    && |actions| <= |pkgs|
    && forall k :: 0 <= k < |actions| ==> Answered(o, pkgs[k], actions[k])
  }

  /** `e` is the error of the oracle `exec` consults for `p` when `queue` is
      left: the cache file lookup, then the linter when `p` heads the queue,
      the replay otherwise. */
  predicate FailedAt(o: Oracles, p: Package, queue: seq<Package>, e: Error) {
    match o.cacheFile(p)
    case Failure(e') => e == e'
    case Success(file) =>
      if |queue| > 0 && queue[0] == p then o.runLinter(p.dir, file) == Failure(e)
      else o.showResult(file) == Failure(e)
  }

  /** Each completed action answers for its package, and an aborted walk
      stopped at the package after them with the error of the oracle it
      consulted there, the queue having lost one head per linter run. */
  predicate Accountable(o: Oracles, pkgs: seq<Package>, toRun: seq<Package>, t: Trace) {
    && ActionsAnswer(o, pkgs, t.actions)
    && (t.status.Aborted? ==>
          && |t.actions| < |pkgs|
          && |LintedPackages(t.actions)| <= |toRun|
          && FailedAt(o, pkgs[|t.actions|], toRun[|LintedPackages(t.actions)|..], t.status.error))
  }

  /** One more answered action in front for one more package in front. */
  lemma AccountableCons(o: Oracles, pkgs: seq<Package>, toRun: seq<Package>, a: Action, t: Trace)
    requires pkgs != [] && Answered(o, pkgs[0], a)
    requires a.Linted? ==> |toRun| > 0
    requires Accountable(o, pkgs[1..], if a.Linted? then toRun[1..] else toRun, t)
    ensures Accountable(o, pkgs, toRun, Then([a], t))
  {
    var u := Then([a], t);
    forall k | 0 <= k < |u.actions|
      ensures Answered(o, pkgs[k], u.actions[k])
    {
      if k > 0 {
        assert u.actions[k] == t.actions[k - 1];
        assert pkgs[k] == pkgs[1..][k - 1];
      }
    }
    assert u.actions[0] == a && u.actions[1..] == t.actions;
    if t.status.Aborted? {
      assert pkgs[|u.actions|] == pkgs[1..][|t.actions|];
      if a.Linted? {
        assert toRun[|LintedPackages(u.actions)|..] == toRun[1..][|LintedPackages(t.actions)|..];
      }
    }
  }

  /** A walk answers for every package it completes and aborts exactly at
      the oracle error it meets, with that error; when no oracle fails, it
      finishes. */
  lemma {:induction false} WalkAbortsOnlyOnOracleError(o: Oracles, pkgs: seq<Package>, toRun: seq<Package>, code: int)
    ensures var t := Walk(o, pkgs, toRun, code);
      && Accountable(o, pkgs, toRun, t)
      && ((forall p :: p in pkgs ==> OraclesSucceed(o, p)) ==> t.status.Finished?)
  {
    if pkgs != [] {
      var pkg := pkgs[0];
      assert pkg in pkgs;
      forall p | p in pkgs[1..] ensures p in pkgs { }
      assert toRun[0..] == toRun;
      if o.cacheFile(pkg).Success? {
        var file := o.cacheFile(pkg).value;
        if |toRun| > 0 && toRun[0] == pkg {
          if o.runLinter(pkg.dir, file).Success? {
            var ecode := o.runLinter(pkg.dir, file).value;
            var next := if code == ExitOK then ecode else code;
            WalkAbortsOnlyOnOracleError(o, pkgs[1..], toRun[1..], next);
            AccountableCons(o, pkgs, toRun, Linted(pkg, ecode), Walk(o, pkgs[1..], toRun[1..], next));
          }
        } else {
          if o.showResult(file).Success? {
            var failed := o.showResult(file).value;
            var next := if code == ExitOK && failed then ExitFailed else code;
            WalkAbortsOnlyOnOracleError(o, pkgs[1..], toRun, next);
            AccountableCons(o, pkgs, toRun, Replayed(pkg, failed), Walk(o, pkgs[1..], toRun, next));
          }
        }
      }
    }
  }

  // ---------------------------------------------------------------------
  // run

  /** The steps of the command, in the order it takes them. */
  datatype Stage = Discovery | Generation | LinterLookup | Partition | Linting

  const Stages: seq<Stage> := [Discovery, Generation, LinterLookup, Partition, Linting]

  /** The collaborators of the command as a whole. */
  datatype Env = Env(
    projects: Result<seq<seq<Package>>, Error>,   // project discovery
    generate: seq<seq<Package>> -> Option<Error>, // the generate target over the projects
    lookPath: Option<Error>,                      // the gometalinter executable lookup
    haveResult: Package -> Result<bool, Error>,   // whether a package has a cached result
    oracles: Oracles)

  /** Discovers the projects, runs the generate target, looks up the linter,
      builds the two lists and walks them. `stages` lists the steps begun;
      the first error ends the command. */
  method Run(env: Env) returns (result: ExecResult, stages: seq<Stage>, actions: seq<Action>)
    ensures 1 <= |stages| <= |Stages| && stages == Stages[..|stages|]
    ensures |stages| < |Stages| ==> result.Failed? && actions == []
    ensures env.projects.Failure? ==> stages == [Discovery] && result == Failed(env.projects.error)
    ensures env.projects.Success? && env.generate(env.projects.value).Some? ==>
              |stages| == 2 && result == Failed(env.generate(env.projects.value).value)
    ensures env.projects.Success? && env.generate(env.projects.value).None? && env.lookPath.Some? ==>
              |stages| == 3 && result == Failed(env.lookPath.value)
    ensures env.projects.Success? && env.generate(env.projects.value).None? && env.lookPath.None? ==>
              var cands := Candidates(env.projects.value);
              var err := FirstCacheError(cands, env.haveResult);
              && (err.Some? ==> |stages| == 4 && result == Failed(err.value))
              && (err.None? ==> |stages| == 5)
    ensures |stages| == 5 ==>
              var cands := SortById(Candidates(env.projects.value));
              var toRun := Filter(cands, NeedsLint(env.haveResult));
              && |actions| <= |cands|
              && (forall k :: 0 <= k < |actions| ==>
                    actions[k].pkg == cands[k] && (actions[k].Linted? <==> NeedsLint(env.haveResult)(cands[k])))
              && (!result.Failed? ==> |actions| == |cands| && LintedPackages(actions) == toRun)
              && (result == Ok <==> !result.Failed? && FirstNonOK(actions) == ExitOK)
              && (result.ExitError? ==> result.code == FirstNonOK(actions))
              && ActionsAnswer(env.oracles, cands, actions)
              && (result.Failed? ==>
                    && |actions| < |cands|
                    && |LintedPackages(actions)| <= |toRun|
                    && FailedAt(env.oracles, cands[|actions|], toRun[|LintedPackages(actions)|..], result.error))
              && ((forall p :: p in cands ==> OraclesSucceed(env.oracles, p)) ==> !result.Failed?)
  {
    actions := [];
    if env.projects.Failure? {
      return Failed(env.projects.error), Stages[..1], actions;
    }
    var projects := env.projects.value;
    var genErr := env.generate(projects);
    if genErr.Some? {
      return Failed(genErr.value), Stages[..2], actions;
    }
    if env.lookPath.Some? {
      return Failed(env.lookPath.value), Stages[..3], actions;
    }
    var pkgs, toRun, err := BuildLists(projects, env.haveResult);
    if err.Some? {
      return Failed(err.value), Stages[..4], actions;
    }
    stages := Stages;
    SortFilterCommute(Candidates(projects), NeedsLint(env.haveResult));
    result, actions := Exec(env.oracles, pkgs, toRun);
    WalkFollowsQueue(env.oracles, pkgs, NeedsLint(env.haveResult), ExitOK);
    WalkKeepsFirstFailure(env.oracles, pkgs, toRun, ExitOK);
    WalkAbortsOnlyOnOracleError(env.oracles, pkgs, toRun, ExitOK);
  }
}
