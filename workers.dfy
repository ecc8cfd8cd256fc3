/**
 * What one export worker does with one item (the loop bodies of exportScene,
 * exportImage, exportGallery, exportMovie, exportPerformer, exportStudio and
 * exportTag), stated declaratively: which documents it hands to the writer,
 * and which ids it appends to which other selectors.
 *
 * Each worker runs a sequence of lookups. A failure of most of them skips the
 * rest of the item (`continue`), but what was done before the failure stays
 * done; a few failures are only logged.
 */
module Workers {
  import opened Common
  import opened ExportSpecs
  import opened DirEntries
  import opened Store
  import GoPath

  /** The key a gallery's file name is made from: a base name and the id. */
  datatype NameKey = NameKey(basename: string, hash: string)

  /**
   * A document handed to the writer. An entity document stands for the JSON
   * the external builders produce; a gallery's carries its name key.
   */
  datatype Doc =
    | FileDoc(entry: DirEntry)
    | FolderDoc(entry: DirEntry)
    | EntityDoc(kind: Kind, id: int, name: Option<NameKey>)

  predicate IsDocOf(d: Doc, k: Kind, id: int)
  {
    d.EntityDoc? && d.kind == k && d.id == id
  }

  /** `docs` holds the entity document of item `id` of type `k`. */
  ghost predicate HasDocOf(docs: seq<Doc>, k: Kind, id: int)
  {
    exists d :: d in docs && IsDocOf(d, k, id)
  }

  /** Splitting the documents after position `n` where a known prefix `b` ends. */
  lemma HasDocOfSplit(n: nat, b: seq<Doc>, c: seq<Doc>, k: Kind, id: int)
    requires n <= |b| <= |c| && c[..|b|] == b
    ensures HasDocOf(c[n..], k, id) <==> HasDocOf(b[n..], k, id) || HasDocOf(c[|b|..], k, id)
  {
    assert c[n..] == b[n..] + c[|b|..];
    HasDocOfConcat(b[n..], c[|b|..], k, id);
  }

  lemma HasDocOfConcat(a: seq<Doc>, b: seq<Doc>, k: Kind, id: int)
    ensures HasDocOf(a + b, k, id) <==> HasDocOf(a, k, id) || HasDocOf(b, k, id)
  {
    if HasDocOf(a + b, k, id) {
      var d :| d in a + b && IsDocOf(d, k, id);
      assert d in a || d in b;
    }
    if HasDocOf(a, k, id) {
      var d :| d in a && IsDocOf(d, k, id);
      assert d in a + b;
    }
    if HasDocOf(b, k, id) {
      var d :| d in b && IsDocOf(d, k, id);
      assert d in a + b;
    }
  }

  /** The outcome of one item: its documents and the ids it feeds to others. */
  datatype Effect = Effect(
    docs: seq<Doc>,
    toStudios: seq<int>,
    toGalleries: seq<int>,
    toTags: seq<int>,
    toMovies: seq<int>,
    toPerformers: seq<int>)
  {
    /** The ids this item appends to the selector of type `k`. */
    function For(k: Kind): seq<int>
    {
      match k
      case Studio => toStudios
      case Gallery => toGalleries
      case Tag => toTags
      case Movie => toMovies
      case Performer => toPerformers
      case _ => []
    }
  }

  function Only(docs: seq<Doc>): Effect
  {
    Effect(docs, [], [], [], [], [])
  }

  function IDOf(id: Option<int>): seq<int>
  {
    match id
    case Some(i) => [i]
    case None => []
  }

  /** exportFile for each file of an item, in order. */
  function FileDocs(files: seq<File>): seq<Doc>
    decreases |files|
  {
    if files == [] then [] else FileDocs(files[..|files| - 1]) + [FileDoc(FileToJSON(files[|files| - 1]))]
  }

  // ---------------------------------------------------------------- scenes

  /** Every scene lookup whose failure skips the scene, dependencies aside, succeeds. */
  predicate SceneBuilt(r: SceneRow)
  {
    && SceneJSON !in r.failing && SceneStudioName !in r.failing && SceneGalleries !in r.failing
    && ScenePerformers !in r.failing && SceneTagNames !in r.failing && SceneMarkers !in r.failing
    && SceneMovies !in r.failing
  }

  /**
   * exportScene for one scene. Nothing happens if its basic JSON fails; its
   * files are exported once the JSON is built; any later lookup failure skips
   * the rest. With dependencies on, the studio and galleries are appended,
   * then the dependent tags, then the movies and performers, each only if the
   * lookup before it succeeded, and the scene is saved only if all did.
   */
  function SceneEffect(id: int, r: SceneRow, deps: bool): (e: Effect)
    ensures e.docs == (if SceneJSON in r.failing then [] else FileDocs(r.files))
                      + (if SceneSaved(r, deps) then [EntityDoc(Scene, id, None)] else [])
    ensures !deps || !SceneBuilt(r) ==> e == Only(e.docs)
    ensures e.toMovies + e.toPerformers != [] ==> SceneSaved(r, deps)
    ensures deps && SceneBuilt(r) ==> e.toStudios == IDOf(r.studioID) && e.toGalleries == r.galleryIDs
    ensures deps && SceneBuilt(r) && DependentTags !in r.failing ==> e.toTags == r.dependentTagIDs
    ensures deps && SceneSaved(r, deps) ==> e.toMovies == r.dependentMovieIDs && e.toPerformers == r.performerIDs
  {
    if SceneJSON in r.failing then Only([])
    else
      var files := FileDocs(r.files);
      var doc := EntityDoc(Scene, id, None);
      if !SceneBuilt(r) then Only(files)
      else if !deps then Only(files + [doc])
      else if DependentTags in r.failing then
        Effect(files, IDOf(r.studioID), r.galleryIDs, [], [], [])
      else if DependentMovies in r.failing then
        Effect(files, IDOf(r.studioID), r.galleryIDs, r.dependentTagIDs, [], [])
      else
        Effect(files + [doc], IDOf(r.studioID), r.galleryIDs, r.dependentTagIDs, r.dependentMovieIDs, r.performerIDs)
  }

  predicate SceneSaved(r: SceneRow, deps: bool)
  {
    && SceneBuilt(r)
    && (deps ==> DependentTags !in r.failing && DependentMovies !in r.failing)
  }

  // ---------------------------------------------------------------- images

  /** Every image lookup whose failure skips the image succeeds. */
  predicate ImageBuilt(r: ImageRow)
  {
    && ImageFiles !in r.failing && ImageURLs !in r.failing && ImageStudioName !in r.failing
    && ImageGalleries !in r.failing && ImagePerformers !in r.failing && ImageTags !in r.failing
  }

  /**
   * exportImage for one image: files are exported once files and URLs have
   * loaded; the image is saved, and with dependencies on its studio,
   * galleries, tags and performers are appended, only if every lookup whose
   * failure skips the image succeeds (a failure to load a gallery's files is
   * only logged).
   */
  function ImageEffect(id: int, r: ImageRow, deps: bool): (e: Effect)
    ensures e.docs == (if ImageFiles in r.failing || ImageURLs in r.failing then [] else FileDocs(r.files))
                      + (if ImageBuilt(r) then [EntityDoc(Image, id, None)] else [])
    ensures !deps || !ImageBuilt(r) ==> e == Only(e.docs)
    ensures e.toMovies == []
    ensures deps && ImageBuilt(r) ==>
      && e.toStudios == IDOf(r.studioID) && e.toGalleries == r.galleryIDs
      && e.toTags == r.tagIDs && e.toPerformers == r.performerIDs
  {
    if ImageFiles in r.failing || ImageURLs in r.failing then Only([])
    else
      var files := FileDocs(r.files);
      var doc := EntityDoc(Image, id, None);
      if !ImageBuilt(r) then Only(files)
      else if !deps then Only(files + [doc])
      else Effect(files + [doc], IDOf(r.studioID), r.galleryIDs, r.tagIDs, [], r.performerIDs)
  }

  // ------------------------------------------------------------- galleries

  /**
   * The name key of a gallery document: the base name of its path, or its
   * title when it has no path, and its id in decimal, which keeps galleries
   * with the same base name apart.
   */
  function GalleryNameKey(id: int, r: GalleryRow): (key: NameKey)
    ensures key.hash == GoPath.Itoa(id)
    ensures r.path == [] ==> key.basename == r.title
    ensures r.path != [] ==> key.basename == GoPath.Base(r.path)
  {
    var basename := if r.path != [] then GoPath.Base(r.path) else r.title;
    NameKey(basename, GoPath.Itoa(id))
  }

  /** Galleries with different ids never share a name key. */
  lemma GalleryNameKeysDistinct(id1: int, r1: GalleryRow, id2: int, r2: GalleryRow)
    requires id1 != id2
    ensures GalleryNameKey(id1, r1) != GalleryNameKey(id2, r2)
  {
    GoPath.ItoaInjective(id1, id2);
  }

  /** The folder step passes: no folder, or a folder the lookup found. */
  predicate GalleryFolderFound(r: GalleryRow)
  {
    r.folderID.None? || (GalleryFolder !in r.failing && r.folder.Some?)
  }

  /** The gallery lookups after its folder succeed. */
  predicate GalleryLateOk(r: GalleryRow)
  {
    GalleryStudioName !in r.failing && GalleryPerformers !in r.failing
    && GalleryTags !in r.failing && GalleryChapters !in r.failing
  }

  /** Every gallery lookup whose failure skips the gallery succeeds. */
  predicate GallerySaved(r: GalleryRow)
  {
    GalleryFiles !in r.failing && GalleryJSON !in r.failing && GalleryFolderFound(r) && GalleryLateOk(r)
  }

  /** The folder record a gallery with a found folder hands over. */
  function FolderDocs(r: GalleryRow): seq<Doc>
  {
    if r.folderID.Some? && r.folder.Some? then [FolderDoc(FolderToJSON(r.folder.value))] else []
  }

  /**
   * exportGallery for one gallery: files are exported once the files have
   * loaded and the JSON is built; then its folder, when it has one and the
   * lookup finds it (a failed lookup skips the rest); the gallery is saved,
   * and with dependencies on its studio, tags and performers appended, only
   * if every later lookup succeeds.
   */
  function GalleryEffect(id: int, r: GalleryRow, deps: bool): (e: Effect)
    ensures GallerySaved(r) ==>
      e.docs == FileDocs(r.files) + FolderDocs(r) + [EntityDoc(Gallery, id, Some(GalleryNameKey(id, r)))]
    ensures !GallerySaved(r) ==> e.docs <= FileDocs(r.files) + FolderDocs(r)
    ensures GalleryFiles in r.failing || GalleryJSON in r.failing ==> e == Only([])
    ensures GalleryFiles !in r.failing && GalleryJSON !in r.failing && !GalleryFolderFound(r)
      ==> e == Only(FileDocs(r.files))
    ensures !deps || !GallerySaved(r) ==> e == Only(e.docs)
    ensures GalleryFiles !in r.failing && GalleryJSON !in r.failing && GalleryFolderFound(r) && !GalleryLateOk(r)
      ==> e.docs == FileDocs(r.files) + FolderDocs(r)
    ensures e.toGalleries == [] && e.toMovies == []
    ensures deps && GallerySaved(r) ==>
      e.toStudios == IDOf(r.studioID) && e.toTags == r.tagIDs && e.toPerformers == r.performerIDs
  {
    if GalleryFiles in r.failing || GalleryJSON in r.failing then Only([])
    else
      var files := FileDocs(r.files);
      if !GalleryFolderFound(r) then Only(files)
      else
        var pre := files + FolderDocs(r);
        var doc := EntityDoc(Gallery, id, Some(GalleryNameKey(id, r)));
        if !GalleryLateOk(r) then Only(pre)
        else if !deps then Only(pre + [doc])
        else Effect(pre + [doc], IDOf(r.studioID), [], r.tagIDs, [], r.performerIDs)
  }

  // ------------------------------------------- movies, performers, studios, tags

  /** exportMovie: saved when its JSON builds; feeds only its studio. */
  function MovieEffect(id: int, r: MovieRow, deps: bool): (e: Effect)
    ensures MovieJSON !in r.failing <==> EntityDoc(Movie, id, None) in e.docs
    ensures |e.docs| <= 1
    ensures e.docs == [] || e.docs == [EntityDoc(Movie, id, None)]
    ensures MovieJSON in r.failing ==> e == Only([])
    ensures e.toStudios == (if deps && e.docs != [] then IDOf(r.studioID) else [])
    ensures e.toGalleries + e.toTags + e.toMovies + e.toPerformers == []
  {
    if MovieJSON in r.failing then Only([])
    else if !deps then Only([EntityDoc(Movie, id, None)])
    else Effect([EntityDoc(Movie, id, None)], IDOf(r.studioID), [], [], [], [])
  }

  /** exportPerformer: saved when its JSON and tags load; feeds only its tags. */
  function PerformerEffect(id: int, r: PerformerRow, deps: bool): (e: Effect)
    ensures PerformerJSON !in r.failing && PerformerTags !in r.failing <==> EntityDoc(Performer, id, None) in e.docs
    ensures |e.docs| <= 1
    ensures e.docs == [] || e.docs == [EntityDoc(Performer, id, None)]
    ensures PerformerJSON in r.failing || PerformerTags in r.failing ==> e == Only([])
    ensures e.toTags == (if deps && e.docs != [] then r.tagIDs else [])
    ensures e.toStudios + e.toGalleries + e.toMovies + e.toPerformers == []
  {
    if PerformerJSON in r.failing || PerformerTags in r.failing then Only([])
    else if !deps then Only([EntityDoc(Performer, id, None)])
    else Effect([EntityDoc(Performer, id, None)], [], [], r.tagIDs, [], [])
  }

  /** exportStudio: saved when its JSON builds. */
  function StudioEffect(id: int, r: StudioRow): (e: Effect)
    ensures !r.jsonFails <==> EntityDoc(Studio, id, None) in e.docs
    ensures |e.docs| <= 1 && e == Only(e.docs)
    ensures e.docs == [] || e.docs == [EntityDoc(Studio, id, None)]
    ensures r.jsonFails ==> e == Only([])
  {
    if r.jsonFails then Only([]) else Only([EntityDoc(Studio, id, None)])
  }

  /** exportTag: saved when its JSON builds. */
  function TagEffect(id: int, r: TagRow): (e: Effect)
    ensures !r.jsonFails <==> EntityDoc(Tag, id, None) in e.docs
    ensures |e.docs| <= 1 && e == Only(e.docs)
    ensures e.docs == [] || e.docs == [EntityDoc(Tag, id, None)]
    ensures r.jsonFails ==> e == Only([])
  {
    if r.jsonFails then Only([]) else Only([EntityDoc(Tag, id, None)])
  }

  /** The effect of exporting item `id` of type `k`. */
  function ItemEffect(store: Store, k: Kind, id: int, deps: bool): Effect
    requires store.Has(k, id)
  {
    match k
    case Scene => SceneEffect(id, store.scenes.rows[id], deps)
    case Image => ImageEffect(id, store.images.rows[id], deps)
    case Gallery => GalleryEffect(id, store.galleries.rows[id], deps)
    case Movie => MovieEffect(id, store.movies.rows[id], deps)
    case Performer => PerformerEffect(id, store.performers.rows[id], deps)
    case Studio => StudioEffect(id, store.studios.rows[id])
    case Tag => TagEffect(id, store.tags.rows[id])
  }

  /** Whether item `id` of type `k` gets its document saved. */
  predicate ItemSaved(store: Store, k: Kind, id: int, deps: bool)
    requires store.Has(k, id)
  {
    match k
    case Scene => SceneSaved(store.scenes.rows[id], deps)
    case Image => ImageBuilt(store.images.rows[id])
    case Gallery =>
      GallerySaved(store.galleries.rows[id])
    case Movie => MovieJSON !in store.movies.rows[id].failing
    case Performer => PerformerJSON !in store.performers.rows[id].failing && PerformerTags !in store.performers.rows[id].failing
    case Studio => !store.studios.rows[id].jsonFails
    case Tag => !store.tags.rows[id].jsonFails
  }

  // ------------------------------------------------------------ properties

  /** The selectors each type's worker appends to. */
  function Targets(k: Kind): set<Kind>
  {
    match k
    case Scene => {Studio, Gallery, Tag, Movie, Performer}
    case Image => {Studio, Gallery, Tag, Performer}
    case Gallery => {Studio, Tag, Performer}
    case Movie => {Studio}
    case Performer => {Tag}
    case Studio => {}
    case Tag => {}
  }

  /**
   * The ids of type `j` that item `id` of type `k` refers to, as its worker
   * looks them up: a scene's dependent tags are its own tags and those of its
   * markers, its movies are those it belongs to.
   */
  function References(store: Store, k: Kind, id: int, j: Kind): seq<int>
    requires store.Has(k, id)
  {
    match (k, j)
    case (Scene, Studio) => IDOf(store.scenes.rows[id].studioID)
    case (Scene, Gallery) => store.scenes.rows[id].galleryIDs
    case (Scene, Tag) => store.scenes.rows[id].dependentTagIDs
    case (Scene, Movie) => store.scenes.rows[id].dependentMovieIDs
    case (Scene, Performer) => store.scenes.rows[id].performerIDs
    case (Image, Studio) => IDOf(store.images.rows[id].studioID)
    case (Image, Gallery) => store.images.rows[id].galleryIDs
    case (Image, Tag) => store.images.rows[id].tagIDs
    case (Image, Performer) => store.images.rows[id].performerIDs
    case (Gallery, Studio) => IDOf(store.galleries.rows[id].studioID)
    case (Gallery, Tag) => store.galleries.rows[id].tagIDs
    case (Gallery, Performer) => store.galleries.rows[id].performerIDs
    case (Movie, Studio) => IDOf(store.movies.rows[id].studioID)
    case (Performer, Tag) => store.performers.rows[id].tagIDs
    case _ => []
  }

  /**
   * With dependencies on, a saved item appends to each selector exactly the
   * ids of that type it refers to.
   */
  lemma ItemEffectFeeds(store: Store, k: Kind, id: int, j: Kind)
    requires store.Has(k, id) && ItemSaved(store, k, id, true)
    ensures ItemEffect(store, k, id, true).For(j) == References(store, k, id, j)
  {
  }

  /** A worker appends only to its targets, and only with dependencies on. */
  lemma ItemEffectTargets(store: Store, k: Kind, id: int, deps: bool, j: Kind)
    requires store.Has(k, id)
    requires j !in Targets(k) || !deps
    ensures ItemEffect(store, k, id, deps).For(j) == []
  {
  }

  /** One file record per file, in the order of the files. */
  lemma {:induction false} FileDocsSpec(files: seq<File>)
    ensures |FileDocs(files)| == |files|
    ensures forall i :: 0 <= i < |files| ==> FileDocs(files)[i] == FileDoc(FileToJSON(files[i]))
    decreases |files|
  {
    if files != [] {
      FileDocsSpec(files[..|files| - 1]);
    }
  }

  /**
   * Side documents (file and folder records) followed, when saved, by one
   * entity document: the entity document is found exactly when it is there.
   */
  lemma SideDocsThen(pre: seq<Doc>, d: Doc, k: Kind, id: int)
    requires forall x :: x in pre ==> !x.EntityDoc?
    ensures !HasDocOf(pre, k, id)
    ensures HasDocOf(pre + [d], k, id) <==> IsDocOf(d, k, id)
  {
    HasDocOfConcat(pre, [d], k, id);
    if IsDocOf(d, k, id) {
      assert d in [d];
    }
  }

  lemma FilesAreSideDocs(files: seq<File>, more: seq<Doc>)
    requires forall x :: x in more ==> x.FolderDoc?
    ensures forall x :: x in FileDocs(files) + more ==> !x.EntityDoc?
  {
    FileDocsSpec(files);
  }

  /**
   * Each item hands over exactly one entity document, its own, when it is
   * saved, and none otherwise.
   */
  lemma {:induction false} ItemEffectDocs(store: Store, k: Kind, id: int, deps: bool, k': Kind, id': int)
    requires store.Has(k, id)
    ensures HasDocOf(ItemEffect(store, k, id, deps).docs, k', id')
      <==> k' == k && id' == id && ItemSaved(store, k, id, deps)
  {
    match k
    case Scene =>
      var r := store.scenes.rows[id];
      FilesAreSideDocs(r.files, []);
      assert FileDocs(r.files) + [] == FileDocs(r.files);
      SideDocsThen(FileDocs(r.files), EntityDoc(Scene, id, None), k', id');
      SideDocsThen([], EntityDoc(Scene, id, None), k', id');
    case Image =>
      var r := store.images.rows[id];
      FilesAreSideDocs(r.files, []);
      assert FileDocs(r.files) + [] == FileDocs(r.files);
      SideDocsThen(FileDocs(r.files), EntityDoc(Image, id, None), k', id');
      SideDocsThen([], EntityDoc(Image, id, None), k', id');
    case Gallery =>
      var r := store.galleries.rows[id];
      FilesAreSideDocs(r.files, []);
      FilesAreSideDocs(r.files, FolderDocs(r));
      assert FileDocs(r.files) + [] == FileDocs(r.files);
      SideDocsThen(FileDocs(r.files), EntityDoc(Gallery, id, None), k', id');
      SideDocsThen(FileDocs(r.files) + FolderDocs(r), EntityDoc(Gallery, id, Some(GalleryNameKey(id, r))), k', id');
      SideDocsThen([], EntityDoc(Gallery, id, None), k', id');
    case Movie =>
      SideDocsThen([], EntityDoc(Movie, id, None), k', id');
    case Performer =>
      SideDocsThen([], EntityDoc(Performer, id, None), k', id');
    case Studio =>
      SideDocsThen([], EntityDoc(Studio, id, None), k', id');
    case Tag =>
      SideDocsThen([], EntityDoc(Tag, id, None), k', id');
  }

  /** Lookups whose failure a scene only logs: the relationship load and gallery files. */
  lemma SceneLoggedOnly(id: int, r: SceneRow, deps: bool)
    ensures SceneEffect(id, r.(failing := r.failing - {LoadRelationships, SceneGalleryFiles}), deps)
         == SceneEffect(id, r, deps)
  {
  }

  /** The lookup whose failure an image only logs: a related gallery's files. */
  lemma ImageLoggedOnly(id: int, r: ImageRow, deps: bool)
    ensures ImageEffect(id, r.(failing := r.failing - {ImageGalleryFiles}), deps)
         == ImageEffect(id, r, deps)
  {
  }

  /**
   * A dependent-tag failure still leaves the scene's files exported and its
   * studio and galleries appended, but saves nothing and appends no tags,
   * movies or performers.
   */
  lemma SceneTagFailureAfterSideEffects(id: int, r: SceneRow)
    requires SceneBuilt(r) && DependentTags in r.failing
    ensures SceneEffect(id, r, true)
         == Effect(FileDocs(r.files), IDOf(r.studioID), r.galleryIDs, [], [], [])
  {
  }

  /** Likewise after a dependent-movie failure, with the tags appended too. */
  lemma SceneMovieFailureAfterSideEffects(id: int, r: SceneRow)
    requires SceneBuilt(r) && DependentTags !in r.failing && DependentMovies in r.failing
    ensures SceneEffect(id, r, true)
         == Effect(FileDocs(r.files), IDOf(r.studioID), r.galleryIDs, r.dependentTagIDs, [], [])
  {
  }

  /** A gallery whose folder lookup fails keeps its exported files but is not saved. */
  lemma GalleryFolderFailureAfterFiles(id: int, r: GalleryRow, deps: bool)
    requires GalleryFiles !in r.failing && GalleryJSON !in r.failing
    requires r.folderID.Some? && (GalleryFolder in r.failing || r.folder.None?)
    ensures GalleryEffect(id, r, deps) == Only(FileDocs(r.files))
  {
  }
}
