/**
 * The export run as a sequential function of the store snapshot and the export
 * configuration: the expansion passes (populateMovieScenes,
 * populateGalleryImages) and their gating in Start, then the seven pools in
 * Start's fixed order, each working through the rows its selection rule
 * fetches, one item at a time. The ExportTask class is proved to compute
 * exactly this.
 */
module Pipeline {
  import opened Slices
  import opened ExportSpecs
  import opened Store
  import opened Workers

  /** The selectors and the documents handed to the writer so far. */
  datatype State = State(selectors: Selectors, docs: seq<Doc>)

  /** Append `ids` to one selector with AppendUniques; "all" is untouched. */
  function Feed(spec: ExportSpec, ids: seq<int>): ExportSpec
  {
    spec.(ids := AppendUniques(spec.ids, ids))
  }

  /** Feeding no ids changes nothing; feeding one id is one AppendUnique. */
  lemma FeedBasics(spec: ExportSpec, x: int)
    ensures Feed(spec, []) == spec
    ensures Feed(spec, [x]) == spec.(ids := AppendUnique(spec.ids, x))
  {
    assert AppendUniques(AppendUnique(spec.ids, x), [x][1..]) == AppendUnique(spec.ids, x);
  }

  /** Every selector gets the ids the effect feeds it. */
  function ApplyEffect(sel: Selectors, e: Effect): Selectors
  {
    Selectors(
      sel.scenes,
      sel.images,
      Feed(sel.performers, e.toPerformers),
      Feed(sel.movies, e.toMovies),
      Feed(sel.tags, e.toTags),
      Feed(sel.studios, e.toStudios),
      Feed(sel.galleries, e.toGalleries))
  }

  lemma ApplyEffectGet(sel: Selectors, e: Effect, k: Kind)
    ensures ApplyEffect(sel, e).Get(k) == Feed(sel.Get(k), e.For(k))
  {
    FeedBasics(sel.Get(k), 0);
  }

  /** An effect that only hands over documents leaves every selector as it was. */
  lemma ApplyOnly(sel: Selectors, docs: seq<Doc>)
    ensures ApplyEffect(sel, Only(docs)) == sel
  {
    FeedBasics(sel.performers, 0);
    FeedBasics(sel.movies, 0);
    FeedBasics(sel.tags, 0);
    FeedBasics(sel.studios, 0);
    FeedBasics(sel.galleries, 0);
  }

  function Step(s: State, e: Effect): State
  {
    State(ApplyEffect(s.selectors, e), s.docs + e.docs)
  }

  predicate AllRows(store: Store, k: Kind, ids: seq<int>)
  {
    forall id :: id in ids ==> store.Has(k, id)
  }

  /** What the worker of type `k` does with item `id`. */
  type Worker = (Kind, int) -> Effect

  /**
   * The export's workers over a store snapshot. A pool only hands its worker
   * ids its fetch returned, which the store has; any other id does nothing.
   */
  function Work(store: Store, deps: bool): Worker
  {
    (k: Kind, id: int) => if store.Has(k, id) then ItemEffect(store, k, id, deps) else Only([])
  }

  /** One worker pool, run sequentially over its items. */
  function RunItems(work: Worker, k: Kind, ids: seq<int>, s: State): State
    decreases |ids|
  {
    if ids == [] then s
    else Step(RunItems(work, k, ids[..|ids| - 1], s), work(k, ids[|ids| - 1]))
  }

  /** The ids of the rows the pool of type `k` fetches from the current selectors. */
  function PoolItems(store: Store, k: Kind, full: bool, sel: Selectors): (ids: seq<int>)
    requires store.Valid()
    ensures AllRows(store, k, ids)
  {
    store.FetchIDs(k, Selection(full, sel.Get(k)))
  }

  /** Export<Type>s: fetch with the selection rule, then export every item. */
  function RunPool(store: Store, work: Worker, k: Kind, full: bool, s: State): State
    requires store.Valid()
  {
    RunItems(work, k, PoolItems(store, k, full, s.selectors), s)
  }

  /** The order Start runs the pools in. */
  const PoolOrder: seq<Kind> := [Scene, Image, Gallery, Movie, Performer, Studio, Tag]

  function RunPools(store: Store, work: Worker, ks: seq<Kind>, full: bool, s: State): State
    requires store.Valid()
    decreases |ks|
  {
    if ks == [] then s
    else RunPool(store, work, ks[|ks| - 1], full, RunPools(store, work, ks[..|ks| - 1], full, s))
  }

  /** One more item of a pool's list is one more step. */
  lemma RunItemsNext(work: Worker, k: Kind, ids: seq<int>, i: nat, s: State)
    requires i < |ids|
    ensures RunItems(work, k, ids[..i + 1], s) == Step(RunItems(work, k, ids[..i], s), work(k, ids[i]))
  {
    assert ids[..i + 1][..i] == ids[..i];
  }

  /** The pools of PoolOrder, one after the other. */
  lemma RunPoolOrder(store: Store, work: Worker, full: bool, s: State)
    requires store.Valid()
    ensures RunPools(store, work, PoolOrder, full, s)
         == var s1 := RunPool(store, work, Scene, full, s);
            var s2 := RunPool(store, work, Image, full, s1);
            var s3 := RunPool(store, work, Gallery, full, s2);
            var s4 := RunPool(store, work, Movie, full, s3);
            var s5 := RunPool(store, work, Performer, full, s4);
            var s6 := RunPool(store, work, Studio, full, s5);
            RunPool(store, work, Tag, full, s6)
  {
    assert [] + [Scene] == [Scene];
    assert [Scene] + [Image] == [Scene, Image];
    assert [Scene, Image] + [Gallery] == [Scene, Image, Gallery];
    assert [Scene, Image, Gallery] + [Movie] == [Scene, Image, Gallery, Movie];
    assert [Scene, Image, Gallery, Movie] + [Performer] == [Scene, Image, Gallery, Movie, Performer];
    assert [Scene, Image, Gallery, Movie, Performer] + [Studio] == [Scene, Image, Gallery, Movie, Performer, Studio];
    assert [Scene, Image, Gallery, Movie, Performer, Studio] + [Tag] == PoolOrder;
    RunPoolsSnoc(store, work, [], Scene, full, s);
    RunPoolsSnoc(store, work, [Scene], Image, full, s);
    RunPoolsSnoc(store, work, [Scene, Image], Gallery, full, s);
    RunPoolsSnoc(store, work, [Scene, Image, Gallery], Movie, full, s);
    RunPoolsSnoc(store, work, [Scene, Image, Gallery, Movie], Performer, full, s);
    RunPoolsSnoc(store, work, [Scene, Image, Gallery, Movie, Performer], Studio, full, s);
    RunPoolsSnoc(store, work, [Scene, Image, Gallery, Movie, Performer, Studio], Tag, full, s);
  }

  lemma RunPoolsSnoc(store: Store, work: Worker, ks: seq<Kind>, k: Kind, full: bool, s: State)
    requires store.Valid()
    ensures RunPools(store, work, ks + [k], full, s) == RunPool(store, work, k, full, RunPools(store, work, ks, full, s))
  {
    assert (ks + [k])[..|ks|] == ks;
  }

  // ------------------------------------------------------- expansion passes

  /** The scenes of the given movies, skipping a movie whose lookup fails. */
  function MovieSceneIDs(store: Store, movieIDs: seq<int>): seq<int>
    requires AllRows(store, Movie, movieIDs)
    decreases |movieIDs|
  {
    if movieIDs == [] then []
    else
      var m := movieIDs[|movieIDs| - 1];
      assert m in movieIDs;
      var r := store.movies.rows[m];
      MovieSceneIDs(store, movieIDs[..|movieIDs| - 1]) + (if MovieScenes in r.failing then [] else r.sceneIDs)
  }

  /** populateMovieScenes: the scenes of the selected movies join the scene selector. */
  function ExpandMovieScenes(store: Store, full: bool, sel: Selectors): Selectors
    requires store.Valid()
  {
    sel.(scenes := Feed(sel.scenes, MovieSceneIDs(store, PoolItems(store, Movie, full, sel))))
  }

  predicate GalleryImagesFound(r: GalleryRow)
  {
    GalleryFiles !in r.failing && GalleryImages !in r.failing
  }

  /** The images of the given galleries, skipping a gallery whose files or images fail to load. */
  function GalleryImageIDs(store: Store, galleryIDs: seq<int>): seq<int>
    requires AllRows(store, Gallery, galleryIDs)
    decreases |galleryIDs|
  {
    if galleryIDs == [] then []
    else
      var g := galleryIDs[|galleryIDs| - 1];
      assert g in galleryIDs;
      var r := store.galleries.rows[g];
      GalleryImageIDs(store, galleryIDs[..|galleryIDs| - 1]) + (if GalleryImagesFound(r) then r.imageIDs else [])
  }

  /** populateGalleryImages: the images of the selected galleries join the image selector. */
  function ExpandGalleryImages(store: Store, full: bool, sel: Selectors): Selectors
    requires store.Valid()
  {
    sel.(images := Feed(sel.images, GalleryImageIDs(store, PoolItems(store, Gallery, full, sel))))
  }

  /** Start's gating of the two expansion passes. */
  function PrePass(store: Store, cfg: TaskConfig): Selectors
    requires store.Valid()
  {
    var sel := cfg.selectors;
    if cfg.full then sel
    else
      var sel1 := if !sel.scenes.all && cfg.includeDependencies then ExpandMovieScenes(store, cfg.full, sel) else sel;
      if !sel1.images.all then ExpandGalleryImages(store, cfg.full, sel1) else sel1
  }

  /** The whole run inside the transaction, from an empty output. */
  function RunExport(store: Store, cfg: TaskConfig): State
    requires store.Valid()
  {
    RunPools(store, Work(store, cfg.includeDependencies), PoolOrder, cfg.full, State(PrePass(store, cfg), []))
  }
}
