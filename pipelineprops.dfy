/**
 * What the sequential run promises: pools never lose a dependency appended
 * for them, selectors only grow, each item is exported exactly when it is
 * fetched and every lookup of its worker whose failure skips the item
 * succeeds (ItemSaved), and the expansion passes add
 * exactly the members of the selected movies and galleries.
 */
module PipelineProps {
  import opened Slices
  import opened ExportSpecs
  import opened Store
  import opened Workers
  import opened Pipeline

  // ---------------------------------------------------------------- workers

  /** A worker appends only to the selectors of its targets. */
  ghost predicate FeedsOnlyTargets(work: Worker)
  {
    forall k, id, j :: j !in Targets(k) ==> work(k, id).For(j) == []
  }

  /**
   * A worker hands over the entity document of its own item, exactly when
   * `saved` says the item is saved, and no other entity document.
   */
  ghost predicate DocsMatch(work: Worker, saved: (Kind, int) -> bool)
  {
    forall k, id, k', id' :: HasDocOf(work(k, id).docs, k', id') <==> k' == k && id' == id && saved(k, id)
  }

  /** Whether the store has item `id` of type `k` and its worker saves it. */
  function Saved(store: Store, deps: bool): (Kind, int) -> bool
  {
    (k: Kind, id: int) => store.Has(k, id) && ItemSaved(store, k, id, deps)
  }

  /** The export's workers keep to their targets and save one document each. */
  lemma WorkSpec(store: Store, deps: bool)
    ensures FeedsOnlyTargets(Work(store, deps))
    ensures DocsMatch(Work(store, deps), Saved(store, deps))
  {
    var work := Work(store, deps);
    forall k, id, j | j !in Targets(k)
      ensures work(k, id).For(j) == []
    {
      if store.Has(k, id) {
        ItemEffectTargets(store, k, id, deps, j);
      }
    }
    forall k, id, k', id'
      ensures HasDocOf(work(k, id).docs, k', id') <==> k' == k && id' == id && Saved(store, deps)(k, id)
    {
      if store.Has(k, id) {
        ItemEffectDocs(store, k, id, deps, k', id');
      } else {
        assert work(k, id).docs == [];
      }
    }
  }

  // --------------------------------------------------------------- ordering

  /** Every type's feeders come before it in Start's pool order. */
  lemma FeedersRunFirst()
    ensures forall k :: k in PoolOrder
    ensures NoDuplicates(PoolOrder)
    ensures forall i, j :: 0 <= i < |PoolOrder| && 0 <= j < |PoolOrder| && PoolOrder[j] in Targets(PoolOrder[i]) ==> i < j
  {
    forall k
      ensures k in PoolOrder
    {
      match k
      case Scene => assert PoolOrder[0] == k;
      case Image => assert PoolOrder[1] == k;
      case Gallery => assert PoolOrder[2] == k;
      case Movie => assert PoolOrder[3] == k;
      case Performer => assert PoolOrder[4] == k;
      case Studio => assert PoolOrder[5] == k;
      case Tag => assert PoolOrder[6] == k;
    }
  }

  /** A pool leaves alone every selector that is not one of its targets. */
  lemma {:induction false} RunItemsFrame(work: Worker, k: Kind, ids: seq<int>, s: State, j: Kind)
    requires FeedsOnlyTargets(work) && j !in Targets(k)
    ensures RunItems(work, k, ids, s).selectors.Get(j) == s.selectors.Get(j)
    decreases |ids|
  {
    if ids != [] {
      RunItemsFrame(work, k, ids[..|ids| - 1], s, j);
      var last := ids[|ids| - 1];
      assert work(k, last).For(j) == [];
      ApplyEffectGet(RunItems(work, k, ids[..|ids| - 1], s).selectors, work(k, last), j);
      FeedBasics(RunItems(work, k, ids[..|ids| - 1], s).selectors.Get(j), 0);
      assert RunItems(work, k, ids, s) == Step(RunItems(work, k, ids[..|ids| - 1], s), work(k, last));
    }
  }

  lemma {:induction false} RunPoolsFrame(store: Store, work: Worker, ks: seq<Kind>, full: bool, s: State, j: Kind)
    requires store.Valid() && FeedsOnlyTargets(work)
    requires forall i :: 0 <= i < |ks| ==> j !in Targets(ks[i])
    ensures RunPools(store, work, ks, full, s).selectors.Get(j) == s.selectors.Get(j)
    decreases |ks|
  {
    if ks != [] {
      var init := ks[..|ks| - 1];
      RunPoolsFrame(store, work, init, full, s, j);
      var mid := RunPools(store, work, init, full, s);
      RunItemsFrame(work, ks[|ks| - 1], PoolItems(store, ks[|ks| - 1], full, mid.selectors), mid, j);
    }
  }

  lemma RunPoolsUnfold(store: Store, work: Worker, ks: seq<Kind>, full: bool, s: State)
    requires store.Valid() && ks != []
    ensures RunPools(store, work, ks, full, s)
         == RunPool(store, work, ks[|ks| - 1], full, RunPools(store, work, ks[..|ks| - 1], full, s))
  {
  }

  lemma {:induction false} RunPoolsSplit(store: Store, work: Worker, a: seq<Kind>, b: seq<Kind>, full: bool, s: State)
    requires store.Valid()
    ensures RunPools(store, work, a + b, full, s) == RunPools(store, work, b, full, RunPools(store, work, a, full, s))
    decreases |b|
  {
    if b == [] {
      assert a + b == a;
    } else {
      var ab := a + b;
      var init := b[..|b| - 1];
      RunPoolsUnfold(store, work, ab, full, s);
      assert ab[..|ab| - 1] == a + init;
      assert ab[|ab| - 1] == b[|b| - 1];
      RunPoolsSplit(store, work, a, init, full, s);
    }
  }

  /** The state the i-th pool of Start starts from. */
  function BeforePool(store: Store, cfg: TaskConfig, i: nat): State
    requires store.Valid() && i <= |PoolOrder|
  {
    RunPools(store, Work(store, cfg.includeDependencies), PoolOrder[..i], cfg.full, State(PrePass(store, cfg), []))
  }

  /** A pool of Start's order starts with the final contents of its own selector. */
  lemma PoolSeesFinalSelector(store: Store, work: Worker, full: bool, s: State, i: nat)
    requires store.Valid() && FeedsOnlyTargets(work) && i < |PoolOrder|
    ensures RunPools(store, work, PoolOrder[..i], full, s).selectors.Get(PoolOrder[i])
         == RunPools(store, work, PoolOrder, full, s).selectors.Get(PoolOrder[i])
  {
    var k := PoolOrder[i];
    assert PoolOrder == PoolOrder[..i] + PoolOrder[i..];
    RunPoolsSplit(store, work, PoolOrder[..i], PoolOrder[i..], full, s);
    FeedersRunFirst();
    var rest := PoolOrder[i..];
    forall m | 0 <= m < |rest|
      ensures k !in Targets(rest[m])
    {
      assert rest[m] == PoolOrder[i + m];
    }
    RunPoolsFrame(store, work, rest, full, RunPools(store, work, PoolOrder[..i], full, s), k);
  }

  /**
   * No dependency is lost: when a pool starts, its selector already holds
   * everything the run will ever append to it, so it fetches with the
   * selector's final contents.
   */
  lemma NoDependencyLost(store: Store, cfg: TaskConfig, i: nat)
    requires store.Valid() && i < |PoolOrder|
    ensures BeforePool(store, cfg, i).selectors.Get(PoolOrder[i])
         == RunExport(store, cfg).selectors.Get(PoolOrder[i])
  {
    WorkSpec(store, cfg.includeDependencies);
    PoolSeesFinalSelector(store, Work(store, cfg.includeDependencies), cfg.full, State(PrePass(store, cfg), []), i);
  }

  // ---------------------------------------------------------------- growth

  /**
   * `b` is `a` with ids appended: the same "all" flag, `a`'s ids an unchanged
   * prefix, and every appended id different from every id before it.
   */
  ghost predicate Grows(a: ExportSpec, b: ExportSpec)
  {
    && a.all == b.all
    && |a.ids| <= |b.ids|
    && b.ids[..|a.ids|] == a.ids
    && forall i, j :: 0 <= i < j < |b.ids| && |a.ids| <= j ==> b.ids[i] != b.ids[j]
  }

  lemma GrowsTransitive(a: ExportSpec, b: ExportSpec, c: ExportSpec)
    requires Grows(a, b) && Grows(b, c)
    ensures Grows(a, c)
  {
    assert c.ids[..|a.ids|] == c.ids[..|b.ids|][..|a.ids|];
    forall i, j | 0 <= i < j < |c.ids| && |a.ids| <= j
      ensures c.ids[i] != c.ids[j]
    {
      if j < |b.ids| {
        assert c.ids[i] == c.ids[..|b.ids|][i] == b.ids[i];
        assert c.ids[j] == c.ids[..|b.ids|][j] == b.ids[j];
      }
    }
  }

  lemma GrowsKeepsNoDuplicates(a: ExportSpec, b: ExportSpec)
    requires Grows(a, b) && NoDuplicates(a.ids)
    ensures NoDuplicates(b.ids)
  {
    forall i, j | 0 <= i < j < |b.ids|
      ensures b.ids[i] != b.ids[j]
    {
      if j < |a.ids| {
        assert b.ids[i] == b.ids[..|a.ids|][i] && b.ids[j] == b.ids[..|a.ids|][j];
      }
    }
  }

  lemma FeedGrows(spec: ExportSpec, ids: seq<int>)
    ensures Grows(spec, Feed(spec, ids))
  {
    var r := Feed(spec, ids).ids;
    AppendUniquesSpec(spec.ids, ids);
    forall i, j | 0 <= i < j < |r| && |spec.ids| <= j
      ensures r[i] != r[j]
    {
      if i < |spec.ids| {
        assert r[i] == r[..|spec.ids|][i] == spec.ids[i];
      } else {
        assert r[i] == r[|spec.ids|..][i - |spec.ids|] && r[j] == r[|spec.ids|..][j - |spec.ids|];
      }
    }
  }

  lemma {:induction false} RunItemsGrow(work: Worker, k: Kind, ids: seq<int>, s: State, j: Kind)
    ensures Grows(s.selectors.Get(j), RunItems(work, k, ids, s).selectors.Get(j))
    decreases |ids|
  {
    if ids == [] {
      var a := s.selectors.Get(j);
      assert a.ids[..|a.ids|] == a.ids;
    } else {
      var mid := RunItems(work, k, ids[..|ids| - 1], s);
      RunItemsGrow(work, k, ids[..|ids| - 1], s, j);
      var e := work(k, ids[|ids| - 1]);
      ApplyEffectGet(mid.selectors, e, j);
      FeedGrows(mid.selectors.Get(j), e.For(j));
      GrowsTransitive(s.selectors.Get(j), mid.selectors.Get(j), Feed(mid.selectors.Get(j), e.For(j)));
    }
  }

  lemma {:induction false} RunPoolsGrow(store: Store, work: Worker, ks: seq<Kind>, full: bool, s: State, j: Kind)
    requires store.Valid()
    ensures Grows(s.selectors.Get(j), RunPools(store, work, ks, full, s).selectors.Get(j))
    decreases |ks|
  {
    if ks == [] {
      var a := s.selectors.Get(j);
      assert a.ids[..|a.ids|] == a.ids;
    } else {
      var mid := RunPools(store, work, ks[..|ks| - 1], full, s);
      RunPoolsGrow(store, work, ks[..|ks| - 1], full, s, j);
      var k := ks[|ks| - 1];
      RunItemsGrow(work, k, PoolItems(store, k, full, mid.selectors), mid, j);
      GrowsTransitive(s.selectors.Get(j), mid.selectors.Get(j), RunPools(store, work, ks, full, s).selectors.Get(j));
    }
  }

  lemma PrePassGrows(store: Store, cfg: TaskConfig, j: Kind)
    requires store.Valid()
    ensures Grows(cfg.selectors.Get(j), PrePass(store, cfg).Get(j))
  {
    var sel := cfg.selectors;
    var a := sel.Get(j);
    assert a.ids[..|a.ids|] == a.ids;
    if !cfg.full {
      var sel1 := if !sel.scenes.all && cfg.includeDependencies then ExpandMovieScenes(store, cfg.full, sel) else sel;
      if sel1 != sel {
        FeedGrows(sel.scenes, MovieSceneIDs(store, PoolItems(store, Movie, cfg.full, sel)));
      }
      var b := sel1.Get(j);
      assert b.ids[..|b.ids|] == b.ids;
      if !sel1.images.all {
        FeedGrows(sel1.images, GalleryImageIDs(store, PoolItems(store, Gallery, cfg.full, sel1)));
      }
      GrowsTransitive(a, b, PrePass(store, cfg).Get(j));
    }
  }

  /**
   * Selectors only grow: across the whole run each keeps its "all" flag and
   * its original ids as a prefix, never gains an id it already holds, and so
   * stays free of duplicates when it started so.
   */
  lemma SelectorsOnlyGrow(store: Store, cfg: TaskConfig, k: Kind)
    requires store.Valid()
    ensures Grows(cfg.selectors.Get(k), RunExport(store, cfg).selectors.Get(k))
    ensures NoDuplicates(cfg.selectors.Get(k).ids) ==> NoDuplicates(RunExport(store, cfg).selectors.Get(k).ids)
  {
    PrePassGrows(store, cfg, k);
    RunPoolsGrow(store, Work(store, cfg.includeDependencies), PoolOrder, cfg.full, State(PrePass(store, cfg), []), k);
    GrowsTransitive(cfg.selectors.Get(k), PrePass(store, cfg).Get(k), RunExport(store, cfg).selectors.Get(k));
    if NoDuplicates(cfg.selectors.Get(k).ids) {
      GrowsKeepsNoDuplicates(cfg.selectors.Get(k), RunExport(store, cfg).selectors.Get(k));
    }
  }

  /** Feeding ids keeps the ids already there and adds every fed one. */
  lemma FeedContains(spec: ExportSpec, ids: seq<int>, x: int)
    requires x in spec.ids || x in ids
    ensures x in Feed(spec, ids).ids
  {
    AppendUniquesSpec(spec.ids, ids);
  }

  lemma GrowsKeeps(a: ExportSpec, b: ExportSpec, x: int)
    requires Grows(a, b) && x in a.ids
    ensures x in b.ids
  {
    assert x in b.ids[..|a.ids|];
  }

  /** Whatever the worker of one of a pool's items feeds ends up in that selector. */
  lemma {:induction false} RunItemsFeeds(work: Worker, k: Kind, ids: seq<int>, s: State, i: nat, j: Kind, x: int)
    requires i < |ids| && x in work(k, ids[i]).For(j)
    ensures x in RunItems(work, k, ids, s).selectors.Get(j).ids
    decreases |ids|
  {
    var n := |ids| - 1;
    var mid := RunItems(work, k, ids[..n], s);
    var e := work(k, ids[n]);
    ApplyEffectGet(mid.selectors, e, j);
    if i < n {
      assert ids[..n][i] == ids[i];
      RunItemsFeeds(work, k, ids[..n], s, i, j, x);
    }
    FeedContains(mid.selectors.Get(j), e.For(j), x);
  }

  /** The position of each type in Start's pool order. */
  function PoolIndex(k: Kind): (i: nat)
    ensures i < |PoolOrder| && PoolOrder[i] == k
  {
    match k
    case Scene => 0
    case Image => 1
    case Gallery => 2
    case Movie => 3
    case Performer => 4
    case Studio => 5
    case Tag => 6
  }

  lemma SplitAround<T>(ks: seq<T>, i: nat)
    requires i < |ks|
    ensures ks == ks[..i] + [ks[i]] + ks[i + 1..]
  {
    assert ks[..i] + [ks[i]] == ks[..i + 1];
  }

  /** What a pool's worker feeds for one of its items is in the selectors after that pool. */
  lemma LastPoolFeeds(store: Store, work: Worker, a: seq<Kind>, k: Kind, full: bool, s: State, id: int, j: Kind, x: int)
    requires store.Valid()
    requires id in PoolItems(store, k, full, RunPools(store, work, a, full, s).selectors)
    requires x in work(k, id).For(j)
    ensures x in RunPools(store, work, a + [k], full, s).selectors.Get(j).ids
  {
    var mid := RunPools(store, work, a, full, s);
    var items := PoolItems(store, k, full, mid.selectors);
    RunPoolsUnfold(store, work, a + [k], full, s);
    assert (a + [k])[..|a|] == a;
    var idx :| 0 <= idx < |items| && items[idx] == id;
    RunItemsFeeds(work, k, items, mid, idx, j, x);
  }

  /** A pool fetches the same items from any two selectors that agree on its type. */
  lemma PoolItemsSameSelector(store: Store, k: Kind, full: bool, sel: Selectors, sel': Selectors)
    requires store.Valid() && sel.Get(k) == sel'.Get(k)
    ensures PoolItems(store, k, full, sel) == PoolItems(store, k, full, sel')
  {
  }

  /** An id in a selector stays there through any later pools. */
  lemma LaterPoolsKeep(store: Store, work: Worker, a: seq<Kind>, b: seq<Kind>, full: bool, s: State, j: Kind, x: int)
    requires store.Valid() && x in RunPools(store, work, a, full, s).selectors.Get(j).ids
    ensures x in RunPools(store, work, a + b, full, s).selectors.Get(j).ids
  {
    var mid := RunPools(store, work, a, full, s);
    RunPoolsSplit(store, work, a, b, full, s);
    RunPoolsGrow(store, work, b, full, mid, j);
    GrowsKeeps(mid.selectors.Get(j), RunPools(store, work, b, full, mid).selectors.Get(j), x);
  }

  /**
   * When the pool for `k`, run after the pools `a`, starts with the final
   * contents of its selector,
   * whatever its worker appends for an item fetched with the final selectors
   * is in the final selectors.
   */
  lemma PoolFeedsAt(store: Store, work: Worker, ks: seq<Kind>, a: seq<Kind>, k: Kind, b: seq<Kind>, full: bool, s: State, id: int, j: Kind, x: int)
    requires store.Valid() && ks == a + [k] + b
    requires RunPools(store, work, a, full, s).selectors.Get(k) == RunPools(store, work, ks, full, s).selectors.Get(k)
    requires id in PoolItems(store, k, full, RunPools(store, work, ks, full, s).selectors)
    requires x in work(k, id).For(j)
    ensures x in RunPools(store, work, ks, full, s).selectors.Get(j).ids
  {
    PoolItemsSameSelector(store, k, full, RunPools(store, work, a, full, s).selectors, RunPools(store, work, a + [k] + b, full, s).selectors);
    LastPoolFeeds(store, work, a, k, full, s, id, j, x);
    LaterPoolsKeep(store, work, a + [k], b, full, s, j, x);
  }

  /**
   * Over Start's pool order, whatever a worker appends for an item its pool
   * fetches with the final selectors is in the final selector of that type.
   */
  lemma PoolOrderFeeds(store: Store, work: Worker, full: bool, s: State, k: Kind, id: int, j: Kind, x: int)
    requires store.Valid() && FeedsOnlyTargets(work)
    requires id in PoolItems(store, k, full, RunPools(store, work, PoolOrder, full, s).selectors)
    requires x in work(k, id).For(j)
    ensures x in RunPools(store, work, PoolOrder, full, s).selectors.Get(j).ids
  {
    var i := PoolIndex(k);
    PoolSeesFinalSelector(store, work, full, s, i);
    SplitAround(PoolOrder, i);
    PoolFeedsAt(store, work, PoolOrder, PoolOrder[..i], k, PoolOrder[i + 1..], full, s, id, j, x);
  }

  /**
   * With dependencies on, every id an exported item's worker appends, in
   * particular every id a saved item refers to, is in the final selector of
   * its type, which is what that type's pool fetches with (NoDependencyLost).
   */
  lemma DependenciesReachTargets(store: Store, cfg: TaskConfig, k: Kind, id: int, j: Kind, x: int)
    requires store.Valid() && cfg.includeDependencies
    requires id in PoolItems(store, k, cfg.full, RunExport(store, cfg).selectors)
    ensures x in ItemEffect(store, k, id, true).For(j) ==> x in RunExport(store, cfg).selectors.Get(j).ids
    ensures ItemSaved(store, k, id, true) && x in References(store, k, id, j)
        ==> x in RunExport(store, cfg).selectors.Get(j).ids
  {
    if ItemSaved(store, k, id, true) {
      ItemEffectFeeds(store, k, id, j);
    }
    if x in ItemEffect(store, k, id, true).For(j) {
      WorkSpec(store, cfg.includeDependencies);
      PoolOrderFeeds(store, Work(store, cfg.includeDependencies), cfg.full, State(PrePass(store, cfg), []), k, id, j, x);
    }
  }

  // ------------------------------------------------------------- documents

  /**
   * A pool hands over one entity document per item it exports, and an item
   * gets one exactly when it is among the pool's ids and its worker saves it;
   * documents already handed over stay as they are.
   */
  lemma {:induction false} RunItemsDocs(work: Worker, saved: (Kind, int) -> bool, k: Kind, ids: seq<int>, s: State, k': Kind, id': int)
    requires DocsMatch(work, saved)
    ensures |s.docs| <= |RunItems(work, k, ids, s).docs|
    ensures RunItems(work, k, ids, s).docs[..|s.docs|] == s.docs
    ensures HasDocOf(RunItems(work, k, ids, s).docs[|s.docs|..], k', id')
        <==> k' == k && id' in ids && saved(k, id')
    decreases |ids|
  {
    var r := RunItems(work, k, ids, s);
    if ids == [] {
      assert r.docs[|s.docs|..] == [];
    } else {
      var init := ids[..|ids| - 1];
      var last := ids[|ids| - 1];
      var mid := RunItems(work, k, init, s);
      RunItemsDocs(work, saved, k, init, s, k', id');
      var e := work(k, last);
      assert r.docs == mid.docs + e.docs;
      assert r.docs[..|mid.docs|] == mid.docs && r.docs[|mid.docs|..] == e.docs;
      assert r.docs[..|s.docs|] == mid.docs[..|s.docs|];
      HasDocOfSplit(|s.docs|, mid.docs, r.docs, k', id');
      assert id' in ids <==> id' in init || id' == last by {
        assert ids == init + [last];
      }
    }
  }

  /** Some pool of type `k` among `ks` fetches `id` from the selectors it starts with. */
  ghost predicate PoolFetches(store: Store, work: Worker, ks: seq<Kind>, full: bool, s: State, k: Kind, id: int)
    requires store.Valid()
  {
    exists i :: FetchesAt(store, work, ks, full, s, k, id, i)
  }

  /** The `i`-th pool of `ks`, of type `k`, fetches `id`. */
  ghost predicate FetchesAt(store: Store, work: Worker, ks: seq<Kind>, full: bool, s: State, k: Kind, id: int, i: int)
    requires store.Valid()
  {
    0 <= i < |ks| && ks[i] == k && id in PoolItems(store, k, full, RunPools(store, work, ks[..i], full, s).selectors)
  }

  lemma FetchesAtPrefix(store: Store, work: Worker, ks: seq<Kind>, full: bool, s: State, k: Kind, id: int, i: int)
    requires store.Valid() && ks != [] && 0 <= i < |ks| - 1
    ensures FetchesAt(store, work, ks, full, s, k, id, i) <==> FetchesAt(store, work, ks[..|ks| - 1], full, s, k, id, i)
  {
    assert ks[..|ks| - 1][..i] == ks[..i];
  }

  lemma PoolFetchesSnoc(store: Store, work: Worker, ks: seq<Kind>, full: bool, s: State, k: Kind, id: int)
    requires store.Valid() && ks != []
    ensures PoolFetches(store, work, ks, full, s, k, id)
        <==> PoolFetches(store, work, ks[..|ks| - 1], full, s, k, id)
             || FetchesAt(store, work, ks, full, s, k, id, |ks| - 1)
  {
    var n := |ks| - 1;
    var init := ks[..n];
    if PoolFetches(store, work, ks, full, s, k, id) {
      var i :| FetchesAt(store, work, ks, full, s, k, id, i);
      if i < n {
        FetchesAtPrefix(store, work, ks, full, s, k, id, i);
        assert PoolFetches(store, work, init, full, s, k, id);
      }
    }
    if PoolFetches(store, work, init, full, s, k, id) {
      var i :| FetchesAt(store, work, init, full, s, k, id, i);
      FetchesAtPrefix(store, work, ks, full, s, k, id, i);
      assert PoolFetches(store, work, ks, full, s, k, id);
    }
    if FetchesAt(store, work, ks, full, s, k, id, n) {
      assert PoolFetches(store, work, ks, full, s, k, id);
    }
  }

  /** The pools only append to the documents handed over before them. */
  lemma {:induction false} RunPoolsKeepDocs(store: Store, work: Worker, ks: seq<Kind>, full: bool, s: State)
    requires store.Valid()
    ensures |s.docs| <= |RunPools(store, work, ks, full, s).docs|
    ensures RunPools(store, work, ks, full, s).docs[..|s.docs|] == s.docs
    decreases |ks|
  {
    if ks != [] {
      var n := |ks| - 1;
      RunPoolsUnfold(store, work, ks, full, s);
      var mid := RunPools(store, work, ks[..n], full, s);
      RunPoolsKeepDocs(store, work, ks[..n], full, s);
      var r := RunPools(store, work, ks, full, s);
      RunItemsKeepDocs(work, ks[n], PoolItems(store, ks[n], full, mid.selectors), mid);
      assert r.docs[..|s.docs|] == r.docs[..|mid.docs|][..|s.docs|];
    }
  }

  lemma {:induction false} RunItemsKeepDocs(work: Worker, k: Kind, ids: seq<int>, s: State)
    ensures |s.docs| <= |RunItems(work, k, ids, s).docs|
    ensures RunItems(work, k, ids, s).docs[..|s.docs|] == s.docs
    decreases |ids|
  {
    if ids != [] {
      var mid := RunItems(work, k, ids[..|ids| - 1], s);
      RunItemsKeepDocs(work, k, ids[..|ids| - 1], s);
      var r := RunItems(work, k, ids, s);
      assert r.docs[..|s.docs|] == r.docs[..|mid.docs|][..|s.docs|];
    }
  }

  /**
   * The run of the pools `ks` hands over the document of item `id` of type
   * `k` exactly when a pool of type `k` fetches it and its worker saves it.
   */
  lemma {:induction false} RunPoolsDocs(store: Store, work: Worker, saved: (Kind, int) -> bool, ks: seq<Kind>, full: bool, s: State, k: Kind, id: int)
    requires store.Valid() && DocsMatch(work, saved)
    ensures |s.docs| <= |RunPools(store, work, ks, full, s).docs|
    ensures HasDocOf(RunPools(store, work, ks, full, s).docs[|s.docs|..], k, id)
        <==> PoolFetches(store, work, ks, full, s, k, id) && saved(k, id)
    decreases |ks|
  {
    RunPoolsKeepDocs(store, work, ks, full, s);
    var r := RunPools(store, work, ks, full, s);
    if ks == [] {
      assert r.docs[|s.docs|..] == [];
    } else {
      var n := |ks| - 1;
      var init := ks[..n];
      RunPoolsUnfold(store, work, ks, full, s);
      var mid := RunPools(store, work, init, full, s);
      RunPoolsDocs(store, work, saved, init, full, s, k, id);
      RunPoolsKeepDocs(store, work, init, full, s);
      var items := PoolItems(store, ks[n], full, mid.selectors);
      RunItemsDocs(work, saved, ks[n], items, mid, k, id);
      HasDocOfSplit(|s.docs|, mid.docs, r.docs, k, id);
      PoolFetchesSnoc(store, work, ks, full, s, k, id);
      assert ks[..n] == init;
    }
  }

  /**
   * Over Start's pool order, an item of type `k` gets its document exactly
   * when the pool for `k`, querying with the selector's final contents,
   * fetches it and its worker saves it.
   */
  lemma PoolOrderDocs(store: Store, work: Worker, saved: (Kind, int) -> bool, full: bool, s: State, k: Kind, id: int)
    requires store.Valid() && FeedsOnlyTargets(work) && DocsMatch(work, saved)
    ensures |s.docs| <= |RunPools(store, work, PoolOrder, full, s).docs|
    ensures HasDocOf(RunPools(store, work, PoolOrder, full, s).docs[|s.docs|..], k, id)
        <==> id in PoolItems(store, k, full, RunPools(store, work, PoolOrder, full, s).selectors) && saved(k, id)
  {
    RunPoolsDocs(store, work, saved, PoolOrder, full, s, k, id);
    FeedersRunFirst();
    assert k in PoolOrder;
    var i :| 0 <= i < |PoolOrder| && PoolOrder[i] == k;
    PoolSeesFinalSelector(store, work, full, s, i);
    if PoolFetches(store, work, PoolOrder, full, s, k, id) {
      var i' :| FetchesAt(store, work, PoolOrder, full, s, k, id, i');
      assert i' == i;
    }
    if id in PoolItems(store, k, full, RunPools(store, work, PoolOrder, full, s).selectors) {
      assert FetchesAt(store, work, PoolOrder, full, s, k, id, i);
    }
  }

  /**
   * Which items get exported: an item of type `k` gets its document exactly
   * when the pool for `k`, querying with the selector's final contents,
   * fetches it and its worker saves it (ItemSaved: every lookup whose
   * failure skips the item succeeds; lookups whose failure is only logged
   * do not matter).
   */
  lemma ExportedExactly(store: Store, cfg: TaskConfig, k: Kind, id: int)
    requires store.Valid()
    ensures HasDocOf(RunExport(store, cfg).docs, k, id)
        <==> id in PoolItems(store, k, cfg.full, RunExport(store, cfg).selectors)
             && ItemSaved(store, k, id, cfg.includeDependencies)
  {
    var s0 := State(PrePass(store, cfg), []);
    WorkSpec(store, cfg.includeDependencies);
    PoolOrderDocs(store, Work(store, cfg.includeDependencies), Saved(store, cfg.includeDependencies), cfg.full, s0, k, id);
    assert RunExport(store, cfg).docs[|s0.docs|..] == RunExport(store, cfg).docs;
  }

  /**
   * A full export takes every row of every type whose table query does not
   * fail, whatever the selectors say, and saves those whose worker does; a
   * type whose query fails gets no documents at all.
   */
  lemma FullExportTakesEveryRow(store: Store, cfg: TaskConfig, k: Kind, id: int)
    requires store.Valid() && cfg.full
    ensures PrePass(store, cfg) == cfg.selectors
    ensures store.Fails(k) ==> !HasDocOf(RunExport(store, cfg).docs, k, id)
    ensures !store.Fails(k) ==>
      (HasDocOf(RunExport(store, cfg).docs, k, id) <==>
        store.Has(k, id) && ItemSaved(store, k, id, cfg.includeDependencies))
  {
    ExportedExactly(store, cfg, k, id);
  }

  // ------------------------------------------------------- expansion passes

  /** Movie `m` is found and its scene lookup succeeds with scene `x` among its scenes. */
  ghost predicate MovieHasScene(store: Store, m: int, x: int)
  {
    m in store.movies.rows && MovieScenes !in store.movies.rows[m].failing && x in store.movies.rows[m].sceneIDs
  }

  /** Gallery `g` is found, its files and images load, and image `x` is among them. */
  ghost predicate GalleryHasImage(store: Store, g: int, x: int)
  {
    g in store.galleries.rows && GalleryImagesFound(store.galleries.rows[g]) && x in store.galleries.rows[g].imageIDs
  }

  /** The scenes collected are exactly those of the movies whose scene lookup succeeds. */
  lemma {:induction false} MovieSceneIDsContents(store: Store, movieIDs: seq<int>, x: int)
    requires AllRows(store, Movie, movieIDs)
    ensures x in MovieSceneIDs(store, movieIDs) <==> exists m :: m in movieIDs && MovieHasScene(store, m, x)
    decreases |movieIDs|
  {
    if movieIDs != [] {
      var init := movieIDs[..|movieIDs| - 1];
      var m := movieIDs[|movieIDs| - 1];
      MovieSceneIDsContents(store, init, x);
      assert movieIDs == init + [m];
      assert m in movieIDs;
      var r := store.movies.rows[m];
      assert MovieSceneIDs(store, movieIDs)
          == MovieSceneIDs(store, init) + (if MovieScenes in r.failing then [] else r.sceneIDs);
      if MovieHasScene(store, m, x) {
        assert m in movieIDs;
      }
      if exists m' :: m' in movieIDs && MovieHasScene(store, m', x) {
        var m' :| m' in movieIDs && MovieHasScene(store, m', x);
        assert m' in init || m' == m;
      }
      if exists m' :: m' in init && MovieHasScene(store, m', x) {
        var m' :| m' in init && MovieHasScene(store, m', x);
        assert m' in movieIDs;
      }
    }
  }

  /** The images collected are exactly those of the galleries whose files and images load. */
  lemma {:induction false} GalleryImageIDsContents(store: Store, galleryIDs: seq<int>, x: int)
    requires AllRows(store, Gallery, galleryIDs)
    ensures x in GalleryImageIDs(store, galleryIDs) <==> exists g :: g in galleryIDs && GalleryHasImage(store, g, x)
    decreases |galleryIDs|
  {
    if galleryIDs != [] {
      var init := galleryIDs[..|galleryIDs| - 1];
      var g := galleryIDs[|galleryIDs| - 1];
      GalleryImageIDsContents(store, init, x);
      assert galleryIDs == init + [g];
      assert g in galleryIDs;
      var r := store.galleries.rows[g];
      assert GalleryImageIDs(store, galleryIDs)
          == GalleryImageIDs(store, init) + (if GalleryImagesFound(r) then r.imageIDs else []);
      if GalleryHasImage(store, g, x) {
        assert g in galleryIDs;
      }
      if exists g' :: g' in galleryIDs && GalleryHasImage(store, g', x) {
        var g' :| g' in galleryIDs && GalleryHasImage(store, g', x);
        assert g' in init || g' == g;
      }
      if exists g' :: g' in init && GalleryHasImage(store, g', x) {
        var g' :| g' in init && GalleryHasImage(store, g', x);
        assert g' in galleryIDs;
      }
    }
  }

  /**
   * populateMovieScenes keeps the scene selector's ids as a prefix, adds
   * exactly the scenes of the movies the movie selector fetches, adds none
   * twice and none already there, and changes no other selector.
   */
  lemma ExpandMovieScenesSpec(store: Store, full: bool, sel: Selectors, x: int)
    requires store.Valid()
    ensures forall j :: j != Scene ==> ExpandMovieScenes(store, full, sel).Get(j) == sel.Get(j)
    ensures Grows(sel.scenes, ExpandMovieScenes(store, full, sel).scenes)
    ensures x in ExpandMovieScenes(store, full, sel).scenes.ids
        <==> x in sel.scenes.ids
             || exists m :: m in PoolItems(store, Movie, full, sel) && MovieHasScene(store, m, x)
  {
    var found := MovieSceneIDs(store, PoolItems(store, Movie, full, sel));
    AppendUniquesSpec(sel.scenes.ids, found);
    FeedGrows(sel.scenes, found);
    MovieSceneIDsContents(store, PoolItems(store, Movie, full, sel), x);
  }

  /**
   * populateGalleryImages keeps the image selector's ids as a prefix, adds
   * exactly the images of the galleries the gallery selector fetches, adds
   * none twice and none already there, and changes no other selector.
   */
  lemma ExpandGalleryImagesSpec(store: Store, full: bool, sel: Selectors, x: int)
    requires store.Valid()
    ensures forall j :: j != Image ==> ExpandGalleryImages(store, full, sel).Get(j) == sel.Get(j)
    ensures Grows(sel.images, ExpandGalleryImages(store, full, sel).images)
    ensures x in ExpandGalleryImages(store, full, sel).images.ids
        <==> x in sel.images.ids
             || exists g :: g in PoolItems(store, Gallery, full, sel) && GalleryHasImage(store, g, x)
  {
    var found := GalleryImageIDs(store, PoolItems(store, Gallery, full, sel));
    AppendUniquesSpec(sel.images.ids, found);
    FeedGrows(sel.images, found);
    GalleryImageIDsContents(store, PoolItems(store, Gallery, full, sel), x);
  }

  /**
   * Start's gating: a full export expands nothing; otherwise the scenes of
   * the selected movies join the scenes only when scenes are not exported in
   * full and dependencies are included, and the images of the selected
   * galleries join the images whenever images are not exported in full.
   */
  lemma PrePassGating(store: Store, cfg: TaskConfig, x: int)
    requires store.Valid()
    ensures cfg.full ==> PrePass(store, cfg) == cfg.selectors
    ensures forall j :: j != Scene && j != Image ==> PrePass(store, cfg).Get(j) == cfg.selectors.Get(j)
    ensures x in PrePass(store, cfg).scenes.ids
        <==> x in cfg.selectors.scenes.ids
             || (!cfg.full && !cfg.selectors.scenes.all && cfg.includeDependencies
                 && exists m :: m in PoolItems(store, Movie, false, cfg.selectors) && MovieHasScene(store, m, x))
    ensures x in PrePass(store, cfg).images.ids
        <==> x in cfg.selectors.images.ids
             || (!cfg.full && !cfg.selectors.images.all
                 && exists g :: g in PoolItems(store, Gallery, false, cfg.selectors) && GalleryHasImage(store, g, x))
  {
    var sel := cfg.selectors;
    if !cfg.full {
      var sel1 := if !sel.scenes.all && cfg.includeDependencies then ExpandMovieScenes(store, false, sel) else sel;
      if !sel.scenes.all && cfg.includeDependencies {
        ExpandMovieScenesSpec(store, false, sel, x);
      }
      assert sel1.Get(Gallery) == sel.Get(Gallery) && sel1.images == sel.images;
      assert PoolItems(store, Gallery, false, sel1) == PoolItems(store, Gallery, false, sel);
      if !sel1.images.all {
        ExpandGalleryImagesSpec(store, false, sel1, x);
      }
    }
  }
}
