/**
 * The caller's export request and the per-type selectors built from it
 * (ExportObjectTypeInput, ExportObjectsInput, exportSpec, newExportSpec,
 * CreateExportTask), and the rule every export pool uses to decide which rows
 * it fetches.
 */
module ExportSpecs {
  import opened Common

  /** The seven exported entity types. */
  datatype Kind = Scene | Image | Gallery | Movie | Performer | Studio | Tag

  /** exportSpec: an explicit id list, or "all rows" (the ids may still grow). */
  datatype ExportSpec = ExportSpec(ids: seq<int>, all: bool)

  /** One type's part of the request; the ids are taken as already parsed. */
  datatype ExportObjectTypeInput = ExportObjectTypeInput(ids: seq<int>, all: Option<bool>)

  datatype ExportObjectsInput = ExportObjectsInput(
    scenes: Option<ExportObjectTypeInput>,
    images: Option<ExportObjectTypeInput>,
    studios: Option<ExportObjectTypeInput>,
    performers: Option<ExportObjectTypeInput>,
    tags: Option<ExportObjectTypeInput>,
    movies: Option<ExportObjectTypeInput>,
    galleries: Option<ExportObjectTypeInput>,
    includeDependencies: Option<bool>)
  {
    function For(k: Kind): Option<ExportObjectTypeInput>
    {
      match k
      case Scene => scenes
      case Image => images
      case Gallery => galleries
      case Movie => movies
      case Performer => performers
      case Studio => studios
      case Tag => tags
    }
  }

  /**
   * newExportSpec: no input gives no ids and not "all"; otherwise the given
   * ids, and "all" only when the caller explicitly sent all = true.
   */
  function NewExportSpec(input: Option<ExportObjectTypeInput>): (s: ExportSpec)
    ensures input.None? ==> s.ids == []
    ensures input.Some? ==> s.ids == input.value.ids
    ensures s.all <==> input.Some? && input.value.all == Some(true)
  {
    match input
    case None => ExportSpec([], false)
    case Some(i) =>
      var all := match i.all case Some(b) => b case None => false;
      ExportSpec(i.ids, all)
  }

  /** The seven selectors of a task (the exportSpec fields of ExportTask). */
  datatype Selectors = Selectors(
    scenes: ExportSpec,
    images: ExportSpec,
    performers: ExportSpec,
    movies: ExportSpec,
    tags: ExportSpec,
    studios: ExportSpec,
    galleries: ExportSpec)
  {
    function Get(k: Kind): ExportSpec
    {
      match k
      case Scene => scenes
      case Image => images
      case Gallery => galleries
      case Movie => movies
      case Performer => performers
      case Studio => studios
      case Tag => tags
    }

    function Set(k: Kind, s: ExportSpec): (r: Selectors)
      ensures r.Get(k) == s
      ensures forall j :: j != k ==> r.Get(j) == Get(j)
    {
      match k
      case Scene => this.(scenes := s)
      case Image => this.(images := s)
      case Gallery => this.(galleries := s)
      case Movie => this.(movies := s)
      case Performer => this.(performers := s)
      case Studio => this.(studios := s)
      case Tag => this.(tags := s)
    }
  }

  /** What a task is created with; `full` selects the full-export mode. */
  datatype TaskConfig = TaskConfig(full: bool, includeDependencies: bool, selectors: Selectors)

  /**
   * CreateExportTask: one selector per type from the request, dependencies
   * only when explicitly requested, and never a full export.
   */
  function CreateExportTask(input: ExportObjectsInput): (c: TaskConfig)
    ensures !c.full
    ensures c.includeDependencies <==> input.includeDependencies == Some(true)
    ensures forall k :: c.selectors.Get(k) == NewExportSpec(input.For(k))
  {
    var includeDeps := match input.includeDependencies case Some(b) => b case None => false;
    TaskConfig(
      false,
      includeDeps,
      Selectors(
        NewExportSpec(input.scenes),
        NewExportSpec(input.images),
        NewExportSpec(input.performers),
        NewExportSpec(input.movies),
        NewExportSpec(input.tags),
        NewExportSpec(input.studios),
        NewExportSpec(input.galleries)))
  }

  /** The repository query a pool issues: All, FindMany(ids), or none at all. */
  datatype Query = FetchAll | FetchMany(ids: seq<int>) | FetchNone

  /**
   * The selection rule shared by every pool and by the two expansion passes:
   * every row on a full export or an "all" selector, otherwise exactly the
   * listed ids, and nothing (without an error) when the list is empty.
   */
  function Selection(full: bool, spec: ExportSpec): (q: Query)
    ensures q.FetchAll? <==> full || spec.all
    ensures q.FetchMany? <==> !full && !spec.all && spec.ids != []
    ensures q.FetchMany? ==> q.ids == spec.ids
    ensures q.FetchNone? <==> !full && !spec.all && spec.ids == []
  {
    if full || spec.all then FetchAll
    else if |spec.ids| > 0 then FetchMany(spec.ids)
    else FetchNone
  }

  /** A full export ignores every selector. */
  lemma FullIgnoresSelectors(a: ExportSpec, b: ExportSpec)
    ensures Selection(true, a) == Selection(true, b) == FetchAll
  {
  }
}
