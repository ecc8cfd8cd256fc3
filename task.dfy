/**
 * The export task itself: an ExportTask object whose seven selectors the
 * expansion passes and the workers update in place, run sequentially. Each
 * method follows its Go counterpart step by step (early `continue` becomes an
 * early return of the per-item method) and is proved to compute what the
 * Pipeline functions say.
 */
module Task {
  import opened Common
  import opened Slices
  import opened ExportSpecs
  import opened DirEntries
  import opened Store
  import opened Workers
  import opened Pipeline

  class ExportTask {
    /** The repository snapshot the transaction reads. */
    const store: Store
    const full: bool
    const includeDependencies: bool

    var scenes: ExportSpec
    var images: ExportSpec
    var performers: ExportSpec
    var movies: ExportSpec
    var tags: ExportSpec
    var studios: ExportSpec
    var galleries: ExportSpec

    /** The JSON documents handed to the writer so far, in order. */
    var written: seq<Doc>

    /** The seven selectors. */
    function Specs(): Selectors
      reads this
    {
      Selectors(scenes, images, performers, movies, tags, studios, galleries)
    }

    /** The selectors together with the documents written. */
    function Current(): State
      reads this
    {
      State(Specs(), written)
    }

    /** A task configured as CreateExportTask (or a full export) configures it, with nothing written yet. */
    constructor (store: Store, cfg: TaskConfig)
      ensures this.store == store && full == cfg.full && includeDependencies == cfg.includeDependencies
      ensures Specs() == cfg.selectors && written == []
    {
      this.store := store;
      full := cfg.full;
      includeDependencies := cfg.includeDependencies;
      scenes := cfg.selectors.scenes;
      images := cfg.selectors.images;
      performers := cfg.selectors.performers;
      movies := cfg.selectors.movies;
      tags := cfg.selectors.tags;
      studios := cfg.selectors.studios;
      galleries := cfg.selectors.galleries;
      written := [];
    }

    // ------------------------------------------------------------ documents

    /** exportFile: the file's JSON record goes to the writer. */
    method ExportFile(f: File)
      modifies this
      ensures written == old(written) + [FileDoc(FileToJSON(f))]
      ensures Specs() == old(Specs())
    {
      written := written + [FileDoc(FileToJSON(f))];
    }

    /** The files of an item, exported in order. */
    method ExportFiles(files: seq<File>)
      modifies this
      ensures written == old(written) + FileDocs(files)
      ensures Specs() == old(Specs())
    {
      var i := 0;
      while i < |files|
        invariant 0 <= i <= |files|
        invariant written == old(written) + FileDocs(files[..i])
        invariant Specs() == old(Specs())
      {
        assert files[..i + 1][..i] == files[..i];
        ExportFile(files[i]);
        i := i + 1;
      }
      assert files[..i] == files;
    }

    /** exportFolder: the folder's JSON record goes to the writer. */
    method ExportFolder(f: Folder)
      modifies this
      ensures written == old(written) + [FolderDoc(FolderToJSON(f))]
      ensures Specs() == old(Specs())
    {
      written := written + [FolderDoc(FolderToJSON(f))];
    }

    // -------------------------------------------------------------- workers

    /** What feeding nothing, or one studio, does to the current selectors. */
    lemma FeedAll(studioID: Option<int>)
      ensures forall k :: Feed(Specs().Get(k), []) == Specs().Get(k)
      ensures Feed(studios, IDOf(studioID))
           == if studioID.Some? then studios.(ids := AppendUnique(studios.ids, studioID.value)) else studios
    {
      forall k
        ensures Feed(Specs().Get(k), []) == Specs().Get(k)
      {
        FeedBasics(Specs().Get(k), 0);
      }
      FeedBasics(studios, if studioID.Some? then studioID.value else 0);
    }

    /** The loop body of exportScene, for one scene. */
    method ExportScene(id: int)
      requires store.Has(Scene, id)
      modifies this
      ensures Specs() == ApplyEffect(old(Specs()), ItemEffect(store, Scene, id, includeDependencies))
      ensures written == old(written) + ItemEffect(store, Scene, id, includeDependencies).docs
    {
      var s := store.scenes.rows[id];
      // a failure of LoadRelationships is only logged
      if SceneJSON in s.failing {
        ApplyOnly(Specs(), []);
        return;
      }
      ExportFiles(s.files);
      ApplyOnly(Specs(), FileDocs(s.files));
      if SceneStudioName in s.failing || SceneGalleries in s.failing {
        return;
      }
      // a failure of a gallery's LoadFiles is only logged
      if ScenePerformers in s.failing || SceneTagNames in s.failing {
        return;
      }
      if SceneMarkers in s.failing || SceneMovies in s.failing {
        return;
      }
      if includeDependencies {
        AppendSceneDependencies(s);
        if DependentTags in s.failing || DependentMovies in s.failing {
          return;
        }
      } else {
        ApplyOnly(Specs(), FileDocs(s.files) + [EntityDoc(Scene, id, None)]);
      }
      written := written + [EntityDoc(Scene, id, None)];
    }

    /**
     * The dependency block of exportScene: the studio and galleries, then the
     * dependent tags if they load, then the movies and performers if the
     * dependent movies load.
     */
    method AppendSceneDependencies(s: SceneRow)
      modifies this
      ensures written == old(written)
      ensures Specs() == ApplyEffect(old(Specs()),
        if DependentTags in s.failing then Effect([], IDOf(s.studioID), s.galleryIDs, [], [], [])
        else if DependentMovies in s.failing then Effect([], IDOf(s.studioID), s.galleryIDs, s.dependentTagIDs, [], [])
        else Effect([], IDOf(s.studioID), s.galleryIDs, s.dependentTagIDs, s.dependentMovieIDs, s.performerIDs))
    {
      FeedAll(s.studioID);
      if s.studioID.Some? {
        studios := studios.(ids := AppendUnique(studios.ids, s.studioID.value));
      }
      galleries := galleries.(ids := AppendUniques(galleries.ids, s.galleryIDs));
      if DependentTags in s.failing {
        return;
      }
      tags := tags.(ids := AppendUniques(tags.ids, s.dependentTagIDs));
      if DependentMovies in s.failing {
        return;
      }
      movies := movies.(ids := AppendUniques(movies.ids, s.dependentMovieIDs));
      performers := performers.(ids := AppendUniques(performers.ids, s.performerIDs));
    }

    /** The loop body of exportImage, for one image. */
    method ExportImage(id: int)
      requires store.Has(Image, id)
      modifies this
      ensures Specs() == ApplyEffect(old(Specs()), ItemEffect(store, Image, id, includeDependencies))
      ensures written == old(written) + ItemEffect(store, Image, id, includeDependencies).docs
    {
      var s := store.images.rows[id];
      if ImageFiles in s.failing || ImageURLs in s.failing {
        ApplyOnly(Specs(), []);
        return;
      }
      ExportFiles(s.files);
      ApplyOnly(Specs(), FileDocs(s.files));
      if ImageStudioName in s.failing || ImageGalleries in s.failing {
        return;
      }
      // a failure of a gallery's LoadFiles is only logged
      if ImagePerformers in s.failing || ImageTags in s.failing {
        return;
      }
      if includeDependencies {
        FeedAll(s.studioID);
        if s.studioID.Some? {
          studios := studios.(ids := AppendUnique(studios.ids, s.studioID.value));
        }
        galleries := galleries.(ids := AppendUniques(galleries.ids, s.galleryIDs));
        tags := tags.(ids := AppendUniques(tags.ids, s.tagIDs));
        performers := performers.(ids := AppendUniques(performers.ids, s.performerIDs));
      } else {
        ApplyOnly(Specs(), FileDocs(s.files) + [EntityDoc(Image, id, None)]);
      }
      written := written + [EntityDoc(Image, id, None)];
    }

    /** The loop body of exportGallery, for one gallery. */
    method ExportGallery(id: int)
      requires store.Has(Gallery, id)
      modifies this
      ensures Specs() == ApplyEffect(old(Specs()), ItemEffect(store, Gallery, id, includeDependencies))
      ensures written == old(written) + ItemEffect(store, Gallery, id, includeDependencies).docs
    {
      var g := store.galleries.rows[id];
      if GalleryFiles in g.failing || GalleryJSON in g.failing {
        ApplyOnly(Specs(), []);
        return;
      }
      ExportFiles(g.files);
      ApplyOnly(Specs(), FileDocs(g.files));
      if g.folderID.Some? {
        if GalleryFolder in g.failing || g.folder.None? {
          return;
        }
        ExportFolder(g.folder.value);
      } else {
        assert FileDocs(g.files) + FolderDocs(g) == FileDocs(g.files);
      }
      ApplyOnly(Specs(), FileDocs(g.files) + FolderDocs(g));
      FinishGallery(id, g);
    }

    /**
     * The rest of exportGallery once its files and folder are out: the
     * studio name, performers, tags and chapters must all load before the
     * dependencies are appended and the gallery is saved.
     */
    method FinishGallery(id: int, g: GalleryRow)
      modifies this
      ensures !GalleryLateOk(g) ==> Specs() == old(Specs()) && written == old(written)
      ensures GalleryLateOk(g) && !includeDependencies ==> Specs() == old(Specs())
      ensures GalleryLateOk(g) && includeDependencies ==>
        Specs() == ApplyEffect(old(Specs()), Effect([], IDOf(g.studioID), [], g.tagIDs, [], g.performerIDs))
      ensures GalleryLateOk(g) ==> written == old(written) + [EntityDoc(Gallery, id, Some(GalleryNameKey(id, g)))]
    {
      if GalleryStudioName in g.failing || GalleryPerformers in g.failing {
        return;
      }
      if GalleryTags in g.failing || GalleryChapters in g.failing {
        return;
      }
      if includeDependencies {
        FeedAll(g.studioID);
        if g.studioID.Some? {
          studios := studios.(ids := AppendUnique(studios.ids, g.studioID.value));
        }
        tags := tags.(ids := AppendUniques(tags.ids, g.tagIDs));
        performers := performers.(ids := AppendUniques(performers.ids, g.performerIDs));
      }
      written := written + [EntityDoc(Gallery, id, Some(GalleryNameKey(id, g)))];
    }

    /** The loop body of exportMovie, for one movie. */
    method ExportMovie(id: int)
      requires store.Has(Movie, id)
      modifies this
      ensures Specs() == ApplyEffect(old(Specs()), ItemEffect(store, Movie, id, includeDependencies))
      ensures written == old(written) + ItemEffect(store, Movie, id, includeDependencies).docs
    {
      var m := store.movies.rows[id];
      if MovieJSON in m.failing {
        ApplyOnly(Specs(), []);
        return;
      }
      if includeDependencies {
        FeedAll(m.studioID);
        if m.studioID.Some? {
          studios := studios.(ids := AppendUnique(studios.ids, m.studioID.value));
        }
      } else {
        ApplyOnly(Specs(), [EntityDoc(Movie, id, None)]);
      }
      written := written + [EntityDoc(Movie, id, None)];
    }

    /** The loop body of exportPerformer, for one performer. */
    method ExportPerformer(id: int)
      requires store.Has(Performer, id)
      modifies this
      ensures Specs() == ApplyEffect(old(Specs()), ItemEffect(store, Performer, id, includeDependencies))
      ensures written == old(written) + ItemEffect(store, Performer, id, includeDependencies).docs
    {
      var p := store.performers.rows[id];
      if PerformerJSON in p.failing || PerformerTags in p.failing {
        ApplyOnly(Specs(), []);
        return;
      }
      if includeDependencies {
        FeedAll(Option.None);
        tags := tags.(ids := AppendUniques(tags.ids, p.tagIDs));
      } else {
        ApplyOnly(Specs(), [EntityDoc(Performer, id, None)]);
      }
      written := written + [EntityDoc(Performer, id, None)];
    }

    /** The loop body of exportStudio, for one studio. */
    method ExportStudio(id: int)
      requires store.Has(Studio, id)
      modifies this
      ensures Specs() == ApplyEffect(old(Specs()), ItemEffect(store, Studio, id, includeDependencies))
      ensures written == old(written) + ItemEffect(store, Studio, id, includeDependencies).docs
    {
      ApplyOnly(Specs(), [EntityDoc(Studio, id, None)]);
      if store.studios.rows[id].jsonFails {
        ApplyOnly(Specs(), []);
        return;
      }
      written := written + [EntityDoc(Studio, id, None)];
    }

    /** The loop body of exportTag, for one tag. */
    method ExportTag(id: int)
      requires store.Has(Tag, id)
      modifies this
      ensures Specs() == ApplyEffect(old(Specs()), ItemEffect(store, Tag, id, includeDependencies))
      ensures written == old(written) + ItemEffect(store, Tag, id, includeDependencies).docs
    {
      ApplyOnly(Specs(), [EntityDoc(Tag, id, None)]);
      if store.tags.rows[id].jsonFails {
        ApplyOnly(Specs(), []);
        return;
      }
      written := written + [EntityDoc(Tag, id, None)];
    }

    // ---------------------------------------------------------------- pools

    /** The loop body of the worker of type `k`, for one item. */
    method ExportItem(k: Kind, id: int)
      requires store.Has(k, id)
      modifies this
      ensures Current() == Step(old(Current()), Work(store, includeDependencies)(k, id))
    {
      match k
      case Scene => ExportScene(id);
      case Image => ExportImage(id);
      case Gallery => ExportGallery(id);
      case Movie => ExportMovie(id);
      case Performer => ExportPerformer(id);
      case Studio => ExportStudio(id);
      case Tag => ExportTag(id);
    }

    /**
     * Export<Type>s: fetch the rows the selection rule picks from the current
     * selector of type `k`, then hand each to the worker in fetch order.
     */
    method ExportPool(k: Kind)
      requires store.Valid()
      modifies this
      ensures Current() == RunPool(store, Work(store, includeDependencies), k, full, old(Current()))
    {
      var ids := PoolItems(store, k, full, Specs());
      ghost var work := Work(store, includeDependencies);
      ghost var start := Current();
      var i := 0;
      while i < |ids|
        invariant 0 <= i <= |ids|
        invariant Current() == RunItems(work, k, ids[..i], start)
      {
        RunItemsNext(work, k, ids, i, start);
        ExportItem(k, ids[i]);
        i := i + 1;
      }
      assert ids[..i] == ids;
    }

    // ------------------------------------------------------------ expansion

    /** The inner loop of populateMovieScenes: each scene id is appended unless present. */
    method AddScenes(ids: seq<int>)
      modifies this
      ensures Specs() == old(Specs()).(scenes := Feed(old(scenes), ids))
      ensures written == old(written)
    {
      var j := 0;
      assert ids[..0] == [];
      while j < |ids|
        invariant 0 <= j <= |ids|
        invariant Specs() == old(Specs()).(scenes := Feed(old(scenes), ids[..j]))
        invariant written == old(written)
      {
        AppendUniquesSnoc(old(scenes).ids, ids[..j], ids[j]);
        assert ids[..j] + [ids[j]] == ids[..j + 1];
        scenes := scenes.(ids := AppendUnique(scenes.ids, ids[j]));
        j := j + 1;
      }
      assert ids[..j] == ids;
    }

    /** populateMovieScenes: every scene of every selected movie joins the scene selector. */
    method PopulateMovieScenes()
      requires store.Valid()
      modifies this
      ensures Specs() == ExpandMovieScenes(store, full, old(Specs()))
      ensures written == old(written)
    {
      var movieIDs := PoolItems(store, Movie, full, Specs());
      var i := 0;
      while i < |movieIDs|
        invariant 0 <= i <= |movieIDs|
        invariant Specs() == old(Specs()).(scenes := Feed(old(scenes), MovieSceneIDs(store, movieIDs[..i])))
        invariant written == old(written)
      {
        assert movieIDs[..i + 1][..i] == movieIDs[..i];
        assert movieIDs[i] in movieIDs;
        var m := store.movies.rows[movieIDs[i]];
        // a movie whose scenes fail to load is skipped
        var found := if MovieScenes in m.failing then [] else m.sceneIDs;
        AppendUniquesConcat(old(scenes).ids, MovieSceneIDs(store, movieIDs[..i]), found);
        AddScenes(found);
        i := i + 1;
      }
      assert movieIDs[..i] == movieIDs;
    }

    /** The inner loop of populateGalleryImages: each image id is appended unless present. */
    method AddImages(ids: seq<int>)
      modifies this
      ensures Specs() == old(Specs()).(images := Feed(old(images), ids))
      ensures written == old(written)
    {
      var j := 0;
      assert ids[..0] == [];
      while j < |ids|
        invariant 0 <= j <= |ids|
        invariant Specs() == old(Specs()).(images := Feed(old(images), ids[..j]))
        invariant written == old(written)
      {
        AppendUniquesSnoc(old(images).ids, ids[..j], ids[j]);
        assert ids[..j] + [ids[j]] == ids[..j + 1];
        images := images.(ids := AppendUnique(images.ids, ids[j]));
        j := j + 1;
      }
      assert ids[..j] == ids;
    }

    /** populateGalleryImages: every image of every selected gallery joins the image selector. */
    method PopulateGalleryImages()
      requires store.Valid()
      modifies this
      ensures Specs() == ExpandGalleryImages(store, full, old(Specs()))
      ensures written == old(written)
    {
      var galleryIDs := PoolItems(store, Gallery, full, Specs());
      var i := 0;
      while i < |galleryIDs|
        invariant 0 <= i <= |galleryIDs|
        invariant Specs() == old(Specs()).(images := Feed(old(images), GalleryImageIDs(store, galleryIDs[..i])))
        invariant written == old(written)
      {
        assert galleryIDs[..i + 1][..i] == galleryIDs[..i];
        assert galleryIDs[i] in galleryIDs;
        var g := store.galleries.rows[galleryIDs[i]];
        // a gallery whose files or images fail to load is skipped
        var found := if GalleryImagesFound(g) then g.imageIDs else [];
        AppendUniquesConcat(old(images).ids, GalleryImageIDs(store, galleryIDs[..i]), found);
        AddImages(found);
        i := i + 1;
      }
      assert galleryIDs[..i] == galleryIDs;
    }

    // ---------------------------------------------------------------- start

    /**
     * The body of Start's transaction: the gated expansion passes, then the
     * seven pools in their fixed order.
     */
    method Start()
      requires store.Valid()
      modifies this
      ensures Current() == RunPools(store, Work(store, includeDependencies), PoolOrder, full,
        State(PrePass(store, TaskConfig(full, includeDependencies, old(Specs()))), old(written)))
    {
      if !full {
        // movie scenes only come in with dependencies
        if !scenes.all && includeDependencies {
          PopulateMovieScenes();
        }
        // gallery images always come in
        if !images.all {
          PopulateGalleryImages();
        }
      }
      RunPoolOrder(store, Work(store, includeDependencies), full, Current());
      ExportPool(Scene);
      ExportPool(Image);
      ExportPool(Gallery);
      ExportPool(Movie);
      ExportPool(Performer);
      ExportPool(Studio);
      ExportPool(Tag);
    }
  }

  /**
   * A whole run: a task created with `cfg` (by CreateExportTask, or as a full
   * export) and Start's transaction. Returns the documents handed to the
   * writer and the final selectors.
   */
  method RunTask(store: Store, cfg: TaskConfig) returns (docs: seq<Doc>, final: Selectors)
    requires store.Valid()
    ensures State(final, docs) == RunExport(store, cfg)
  {
    var t := new ExportTask(store, cfg);
    t.Start();
    docs := t.written;
    final := t.Specs();
  }
}
