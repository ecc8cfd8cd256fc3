/**
 * The repository, seen through one read transaction, as a finite snapshot.
 * Each table maps ids to rows; `order` lists every row, in the order All
 * returns them in. Each row records what the per-item lookups the export
 * workers make return, and which of those lookups fail.
 *
 * FindMany is taken to return exactly the requested rows, in request order,
 * and to fail when one of them is missing; a failed query is taken to return
 * no rows (the repository's code is not part of this model).
 */
module Store {
  import opened Common
  import opened ExportSpecs
  import opened DirEntries

  datatype Table<R> = Table(rows: map<int, R>, order: seq<int>, fails: bool)
  {
    /** All lists every row of the table, and nothing else. */
    predicate Valid()
    {
      && (forall id :: id in order ==> id in rows)
      && (forall id :: id in rows ==> id in order)
    }

    /** The ids of the rows a query returns. */
    function Fetch(q: Query): (ids: seq<int>)
      requires Valid()
      ensures forall id :: id in ids ==> id in rows
      ensures fails || q.FetchNone? ==> ids == []
      ensures !fails && q.FetchAll? ==> ids == order
      ensures q.FetchMany? && !fails && (forall id :: id in q.ids ==> id in rows) ==> ids == q.ids
      ensures q.FetchMany? && (exists id :: id in q.ids && id !in rows) ==> ids == []
    {
      if fails then []
      else match q
        case FetchAll => order
        case FetchMany(want) => if forall id :: id in want ==> id in rows then want else []
        case FetchNone => []
    }
  }

  // ---------------------------------------------------------------- scenes

  /** The lookups exportScene makes for one scene, in the order it makes them. */
  datatype SceneStep =
    | LoadRelationships | SceneJSON | SceneStudioName | SceneGalleries | SceneGalleryFiles
    | ScenePerformers | SceneTagNames | SceneMarkers | SceneMovies | DependentTags | DependentMovies

  datatype SceneRow = SceneRow(
    studioID: Option<int>,
    files: seq<File>,
    galleryIDs: seq<int>,
    performerIDs: seq<int>,
    dependentTagIDs: seq<int>,
    dependentMovieIDs: seq<int>,
    failing: set<SceneStep>)

  // ---------------------------------------------------------------- images

  datatype ImageStep =
    | ImageFiles | ImageURLs | ImageStudioName | ImageGalleries | ImageGalleryFiles
    | ImagePerformers | ImageTags

  datatype ImageRow = ImageRow(
    studioID: Option<int>,
    files: seq<File>,
    galleryIDs: seq<int>,
    performerIDs: seq<int>,
    tagIDs: seq<int>,
    failing: set<ImageStep>)

  // ------------------------------------------------------------- galleries

  /** GalleryImages is the FindByGalleryID lookup of populateGalleryImages. */
  datatype GalleryStep =
    | GalleryFiles | GalleryJSON | GalleryFolder | GalleryStudioName | GalleryPerformers
    | GalleryTags | GalleryChapters | GalleryImages

  /**
   * `folder` is what the folder lookup returns for `folderID` when it does not
   * fail: a folder, or nothing.
   */
  datatype GalleryRow = GalleryRow(
    studioID: Option<int>,
    files: seq<File>,
    path: string,
    title: string,
    folderID: Option<int>,
    folder: Option<Folder>,
    performerIDs: seq<int>,
    tagIDs: seq<int>,
    imageIDs: seq<int>,
    failing: set<GalleryStep>)

  // ------------------------------------------- movies, performers, studios, tags

  /** MovieScenes is the FindByMovieID lookup of populateMovieScenes. */
  datatype MovieStep = MovieJSON | MovieScenes

  datatype MovieRow = MovieRow(studioID: Option<int>, sceneIDs: seq<int>, failing: set<MovieStep>)

  datatype PerformerStep = PerformerJSON | PerformerTags

  datatype PerformerRow = PerformerRow(tagIDs: seq<int>, failing: set<PerformerStep>)

  datatype StudioRow = StudioRow(jsonFails: bool)

  datatype TagRow = TagRow(jsonFails: bool)

  // ----------------------------------------------------------------- store

  datatype Store = Store(
    scenes: Table<SceneRow>,
    images: Table<ImageRow>,
    galleries: Table<GalleryRow>,
    movies: Table<MovieRow>,
    performers: Table<PerformerRow>,
    studios: Table<StudioRow>,
    tags: Table<TagRow>)
  {
    predicate Valid()
    {
      && scenes.Valid() && images.Valid() && galleries.Valid() && movies.Valid()
      && performers.Valid() && studios.Valid() && tags.Valid()
    }

    predicate Has(k: Kind, id: int)
    {
      match k
      case Scene => id in scenes.rows
      case Image => id in images.rows
      case Gallery => id in galleries.rows
      case Movie => id in movies.rows
      case Performer => id in performers.rows
      case Studio => id in studios.rows
      case Tag => id in tags.rows
    }

    /** Whether every query on the table of type `k` fails. */
    predicate Fails(k: Kind)
    {
      match k
      case Scene => scenes.fails
      case Image => images.fails
      case Gallery => galleries.fails
      case Movie => movies.fails
      case Performer => performers.fails
      case Studio => studios.fails
      case Tag => tags.fails
    }

    /** The ids of the rows of type `k` that a query returns. */
    function FetchIDs(k: Kind, q: Query): (ids: seq<int>)
      requires Valid()
      ensures forall id :: id in ids ==> Has(k, id)
      ensures q.FetchAll? ==> forall id :: id in ids <==> !Fails(k) && Has(k, id)
    {
      match k
      case Scene => scenes.Fetch(q)
      case Image => images.Fetch(q)
      case Gallery => galleries.Fetch(q)
      case Movie => movies.Fetch(q)
      case Performer => performers.Fetch(q)
      case Studio => studios.Fetch(q)
      case Tag => tags.Fetch(q)
    }
  }
}
