# Verified model of stash's export task

This project models the export task of stash (`internal/manager/task_export.go`). The export task writes the scenes, images, galleries, movies, performers, studios and tags of a library as JSON documents. For a partial export it also packs them into a zip archive.

An `ExportTask` holds seven per-type selectors. Each selector is a list of ids plus an "all" flag.

- `newExportSpec` and `CreateExportTask` build the selectors from the caller's request.
- `Start` widens the scene and image selectors with the members of the selected movies and galleries. Whether each widening runs depends on the export's flags.
- `Start` then runs seven pools in a fixed order. Each pool fetches its rows with one shared selection rule and hands each row to its worker.
- A worker is a chain of fallible lookups. It writes file and folder records as side documents. When dependencies are included, it appends the ids the item references to the other types' selectors. It saves the item's document only if every lookup whose failure skips the item succeeds (`Workers.ItemSaved`). Some failures, such as a scene's `LoadRelationships` or a related gallery's `LoadFiles`, are only logged.
- `zipFiles` walks the seven output directories into the archive.

The model is sequential. The repository is a finite snapshot in which every lookup may fail.

Layout, one module per file:

- `common.dfy`: `Option`.
- `slices.dfy`: `AppendUnique` / `AppendUniques` and their algebra.
- `gopath.dfy`: `filepath.Base`, `filepath.Join` and `strconv.Itoa` for a `/`-separated host.
- `direntries.dfy`: stored files and folders, `fileToJSON` and `folderToJSON`, and the inverses that show nothing is lost.
- `exportspecs.dfy`: the request types, `newExportSpec`, `CreateExportTask` and the selection rule.
- `store.dfy`: the repository snapshot. It holds one table per type. Each row records what the per-item lookups return and which of them fail.
- `workers.dfy`: what each worker does with one item, stated as an `Effect`. An `Effect` is the documents written plus the ids appended to each selector.
- `pipeline.dfy`: the whole run as a function. It covers the expansion passes and their gating in `Start`, and each pool over the rows it fetches, in `Start`'s order.
- `pipelineprops.dfy`: what the run promises. Every pool sees its selector's final contents. Selectors only grow and keep no duplicates. An item is exported exactly when it is fetched and saved. The expansions add exactly the members of the selected movies and galleries.
- `task.dfy`: the `ExportTask` class. Its seven selector fields are updated in place by methods that follow the Go code step by step. Each method is proved to compute what `pipeline.dfy` says.
- `archive.dfy`: `zipFiles`, `walkWarn`, `zipWalkFunc` and `zipFile` over a zip writer object and a file system given as a parameter.

## Model

All source paths are in `internal/manager/task_export.go`.

| member | source | states |
|---|---|---|
| ExportSpecs.NewExportSpec | internal/manager/task_export.go:76-92 | A missing type input gives no ids and not "all". Otherwise the ids are the input's, and "all" holds exactly when the caller sent `all = true`. |
| ExportSpecs.CreateExportTask | internal/manager/task_export.go:94-112 | The created export task is never a full export. Dependencies are included exactly when the request says `true`. Every type's selector is `newExportSpec` of that type's input. |
| Task.ExportTask.constructor | internal/manager/task_export.go:94-112 | A new task starts with the configured selectors and flags and has written nothing. |
| ExportSpecs.Selection | internal/manager/task_export.go:352-357 | The rule every pool uses (also lines 602-607, 730-735, 873-878, 946-951, 1007-1012 and 1068-1073). It fetches all rows exactly when the export is full or the selector is "all". Otherwise it fetches exactly the listed ids when there are some, and nothing when there are none. |
| ExportSpecs.FullIgnoresSelectors | internal/manager/task_export.go:352-357 | On a full export every selector selects all rows. |
| Store.Table.Fetch | internal/manager/task_export.go:352-361 | A fetch returns only rows of the table. All returns the table's order, which lists every row, and FindMany returns the requested ids. A failed fetch is only logged and yields no rows. |
| Store.Store.FetchIDs | internal/manager/task_export.go:352-361 | Every fetched id is a row of its type. An All query returns exactly the rows of the type when the type's query does not fail, and nothing when it fails. |
| DirEntries.FileToJSON | internal/manager/task_export.go:398-450 | A video file becomes a Video entry, an image file an Image entry, and any other file a File entry. Path and size are copied, and so is the format-specific payload. The zip path is set exactly when the file lies in a zip. Fingerprints are copied one for one. |
| DirEntries.FingerprintsToJSON | internal/manager/task_export.go:416-421 | The fingerprints are copied in order, each with the same type and value. |
| DirEntries.FingerprintsRoundTrip | internal/manager/task_export.go:416-421 | Reading the copied fingerprints back gives the original list. |
| DirEntries.FileRoundTrip | internal/manager/task_export.go:398-450 | The stored file can be read back from its entry unchanged, provided its zip path is not empty. |
| DirEntries.FileEmptyZipPathIsLost | internal/manager/task_export.go:412-414 | A zip file with an empty path reads back as "not in a zip": the entry cannot tell the two apart. |
| DirEntries.FolderToJSON | internal/manager/task_export.go:462-476 | A folder always becomes a Folder entry with the same path and times. The zip path is set only when the folder lies in a zip. |
| DirEntries.FolderRoundTrip | internal/manager/task_export.go:462-476 | The folder can be read back from its entry unchanged, provided its zip path is not empty. |
| Workers.GalleryNameKey | internal/manager/task_export.go:848-859 | The key's hash is the gallery id in decimal. Its base name is the base of the gallery's path, or its title when it has no path. |
| Workers.GalleryNameKeysDistinct | internal/manager/task_export.go:849-850 | Two galleries with different ids never get the same key, even when their base names match. |
| Workers.FileDocsSpec | internal/manager/task_export.go:503-506 | An item's files produce one file record each, in order. |
| Task.ExportTask.ExportFile | internal/manager/task_export.go:388-396 | Appends the file's `fileToJSON` record to the written documents and changes no selector. |
| Task.ExportTask.ExportFiles | internal/manager/task_export.go:503-506 | The loop over an item's files writes exactly their records, in order. |
| Task.ExportTask.ExportFolder | internal/manager/task_export.go:452-460 | Appends the folder's `folderToJSON` record and changes no selector. |
| Task.ExportTask.ExportScene | internal/manager/task_export.go:478-592 | One scene changes the selectors and the written documents exactly as its staged effect says (`Workers.SceneEffect`). |
| Task.ExportTask.AppendSceneDependencies | internal/manager/task_export.go:559-581 | Appends the studio and galleries first. The dependent tags follow only if they load. The movies and performers follow only if the dependent movies load. Nothing is written. |
| Task.ExportTask.ExportImage | internal/manager/task_export.go:638-721 | One image changes selectors and documents exactly as `Workers.ImageEffect` says. Files are written after files and URLs load. The image is saved, and its studio, galleries, tags and performers appended, only if every lookup whose failure skips the image succeeds. A failure to load a related gallery's files is only logged. |
| Task.ExportTask.ExportGallery | internal/manager/task_export.go:767-865 | One gallery changes selectors and documents exactly as `Workers.GalleryEffect` says. Files come first, then the folder if the gallery has one and it is found, then the document. |
| Task.ExportTask.FinishGallery | internal/manager/task_export.go:810-863 | After files and folder, the gallery is saved, and its studio, tags and performers appended, only if the studio name, performers, tags and chapters all load. |
| Task.ExportTask.ExportMovie | internal/manager/task_export.go:1102-1129 | A movie is saved when its JSON builds. With dependencies on, its studio is appended. |
| Task.ExportTask.ExportPerformer | internal/manager/task_export.go:906-938 | A performer is saved when its JSON and tags load. With dependencies on, its tags are appended. |
| Task.ExportTask.ExportStudio | internal/manager/task_export.go:980-999 | A studio is saved when its JSON builds and appends nothing. |
| Task.ExportTask.ExportTag | internal/manager/task_export.go:1041-1060 | A tag is saved when its JSON builds and appends nothing. |
| Workers.SceneEffect | internal/manager/task_export.go:478-592 | A scene whose JSON fails does nothing. Otherwise its file records are written, followed by its own document exactly when `SceneSaved` holds. Without dependencies, or when a lookup before the dependency block fails (`!SceneBuilt`), no selector is fed. With dependencies and `SceneBuilt`, it appends exactly its studio and its galleries, and exactly its dependent tags once those load. A saved scene appends exactly its dependent movies and its performers; an unsaved one appends neither. |
| Workers.ImageEffect | internal/manager/task_export.go:638-721 | An image whose files or URLs fail does nothing. Otherwise its file records are written, followed by its own document exactly when `ImageBuilt` holds. Without dependencies, or when a lookup that skips the image fails, no selector is fed. With dependencies and `ImageBuilt`, it appends exactly its studio, galleries, tags and performers (lines 705-713). No movie is ever appended. |
| Workers.GalleryEffect | internal/manager/task_export.go:767-865 | A gallery whose files or JSON fail to load writes nothing and feeds nothing (lines 777-788). Otherwise its file records are written; if its folder lookup fails or finds nothing, exactly those and nothing else. Once the folder is found, its folder record follows when it has a folder. If a later lookup fails, exactly the file and folder records are written. A saved gallery (`GallerySaved`) then writes its document keyed by `GalleryNameKey`. Without dependencies, or for an unsaved gallery, no selector is fed; with dependencies a saved gallery appends exactly its studio, tags and performers (lines 839-846). Galleries and movies are never fed. |
| Workers.MovieEffect | internal/manager/task_export.go:1102-1129 | A movie writes either nothing or exactly its own document, and its document exactly when its JSON builds. A movie whose JSON fails writes nothing and feeds nothing (lines 1111-1114). With dependencies a saved movie appends its studio, and no other selector is fed. |
| Workers.PerformerEffect | internal/manager/task_export.go:906-938 | A performer writes either nothing or exactly its own document, and its document exactly when its JSON and its tags load. A performer whose JSON or tags fail writes nothing and feeds nothing (lines 913-924). With dependencies a saved performer appends its tags, and no other selector is fed. |
| Workers.StudioEffect | internal/manager/task_export.go:980-999 | A studio writes either nothing or exactly its own document, and its document exactly when its JSON builds. A studio whose JSON fails writes nothing. It never feeds a selector. |
| Workers.TagEffect | internal/manager/task_export.go:1041-1060 | A tag writes either nothing or exactly its own document, and its document exactly when its JSON builds. A tag whose JSON fails writes nothing. It never feeds a selector. |
| Workers.ItemSaved | internal/manager/task_export.go:478-1129 | Reference definition with no contract of its own. Per type, it is the conjunction of the lookups whose failure makes the worker `continue` before the save. Lookups whose failure is only logged are left out. `Workers.ItemEffectDocs` proves that an item's document is written exactly when it holds. |
| Workers.ItemEffectDocs | internal/manager/task_export.go:478-592 | Every worker writes its item's own document exactly when `ItemSaved` holds, that is when every lookup whose failure skips the item succeeds, and it writes no other entity document. |
| Workers.ItemEffectTargets | internal/manager/task_export.go:559-581 | Each worker appends nothing outside its own targets, and nothing at all without dependencies. Scenes may feed only studios, galleries, tags, movies and performers; images only studios, galleries, tags and performers; galleries only studios, tags and performers; movies only studios; performers only tags (lines 705-713, 839-846, 928-930, 1117-1121). |
| Workers.ItemEffectFeeds | internal/manager/task_export.go:559-581 | With dependencies on, a saved item of any type appends to each selector exactly the ids of that type it references (`Workers.References`). A scene appends its studio, galleries, dependent tags, dependent movies and performers. An image appends its studio, galleries, tags and performers (lines 705-713), a gallery its studio, tags and performers (lines 839-846), a performer its tags (lines 928-930) and a movie its studio (lines 1117-1121). |
| Workers.SceneLoggedOnly | internal/manager/task_export.go:493-495 | A failed relationship load, or a failed gallery file load (lines 520-525), changes nothing about what the scene does. |
| Workers.ImageLoggedOnly | internal/manager/task_export.go:680-685 | A failed load of a related gallery's files changes nothing about what the image does. |
| Workers.SceneTagFailureAfterSideEffects | internal/manager/task_export.go:559-572 | A failed dependent-tag lookup leaves the scene's files written and its studio and galleries appended. It saves nothing and appends no tags, movies or performers. |
| Workers.SceneMovieFailureAfterSideEffects | internal/manager/task_export.go:573-578 | A failed dependent-movie lookup also leaves the tags appended, but saves nothing. |
| Workers.GalleryFolderFailureAfterFiles | internal/manager/task_export.go:795-808 | A gallery whose folder lookup fails or finds nothing keeps its written files, but is not saved and appends nothing. |
| Task.ExportTask.ExportPool | internal/manager/task_export.go:345-386 | An `Export<Type>s` pool, the same for all seven types. It fetches with the selection rule from its selector as it stands when the pool starts, then runs the worker on every fetched row in order (`Pipeline.RunPool`). |
| Task.ExportTask.AddScenes | internal/manager/task_export.go:303-305 | Appends each scene id with AppendUnique. |
| Task.ExportTask.PopulateMovieScenes | internal/manager/task_export.go:278-307 | The scene selector becomes `Pipeline.ExpandMovieScenes` of the old selectors; nothing else changes. |
| Task.ExportTask.AddImages | internal/manager/task_export.go:339-341 | Appends each image id with AppendUnique. |
| Task.ExportTask.PopulateGalleryImages | internal/manager/task_export.go:309-343 | The image selector becomes `Pipeline.ExpandGalleryImages` of the old selectors; nothing else changes. |
| Task.ExportTask.Start | internal/manager/task_export.go:153-171 | The gated expansions, then the seven pools in order, compute exactly `Pipeline.RunPools` over `PrePass`. |
| Task.RunTask | internal/manager/task_export.go:153-171 | A task created from a configuration and started ends with exactly the documents and selectors of `Pipeline.RunExport`. |
| Pipeline.RunPoolOrder | internal/manager/task_export.go:165-171 | The run goes through the scenes, images, galleries, movies, performers, studios and tags pools, one after another. |
| Pipeline.PrePass | internal/manager/task_export.go:153-163 | Reference definition with no contract of its own. It gives the selectors after `Start`'s gated expansion passes. `PipelineProps.PrePassGating` states what it adds. |
| Pipeline.ExpandMovieScenes | internal/manager/task_export.go:278-307 | Reference definition with no contract of its own. It is populateMovieScenes: it feeds the scenes of the movies the movie selector fetches into the scene selector. `PipelineProps.ExpandMovieScenesSpec` states the result. |
| Pipeline.ExpandGalleryImages | internal/manager/task_export.go:309-343 | Reference definition with no contract of its own. It is populateGalleryImages: it feeds the images of the fetched galleries into the image selector. `PipelineProps.ExpandGalleryImagesSpec` states the result. |
| Pipeline.RunPool | internal/manager/task_export.go:345-386 | Reference definition with no contract of its own. One pool fetches with the selection rule from the selectors as they stand, then applies each fetched item's effect in fetch order. `Task.ExportTask.ExportPool` is proved equal to it. |
| Pipeline.RunExport | internal/manager/task_export.go:153-171 | Reference definition with no contract of its own. It is the whole run: `PrePass`, then the pools in `PoolOrder`, from no documents. `Task.RunTask` is proved equal to it, and `PipelineProps.ExportedExactly` states which items it exports. |
| PipelineProps.PrePassGating | internal/manager/task_export.go:153-163 | A full export expands nothing. Otherwise a scene joins the scenes only if it was there already, or if scenes are not "all", dependencies are on, and the scene belongs to a fetched movie. An image joins the images only if it was there already, or if images are not "all" and it belongs to a fetched gallery. No other selector changes. |
| PipelineProps.MovieSceneIDsContents | internal/manager/task_export.go:296-306 | The collected scene ids are exactly the scenes of the movies whose scene lookup succeeds. A failing movie contributes nothing and does not stop the rest. |
| PipelineProps.GalleryImageIDsContents | internal/manager/task_export.go:327-342 | The collected image ids are exactly the images of the galleries whose files and images load. |
| PipelineProps.ExpandMovieScenesSpec | internal/manager/task_export.go:278-307 | The old scene ids stay as an unchanged prefix. Exactly the scenes of the fetched movies are added, none twice and none already present. No other selector changes. |
| PipelineProps.ExpandGalleryImagesSpec | internal/manager/task_export.go:309-343 | The same for the images of the fetched galleries. |
| PipelineProps.WorkSpec | internal/manager/task_export.go:559-581 | Taken together, the export's workers feed only their targets. Each writes only its own item's document, and only when it is saved. |
| PipelineProps.FeedersRunFirst | internal/manager/task_export.go:165-171 | The pool order holds each type once. Every type that feeds another runs before it. |
| PipelineProps.NoDependencyLost | internal/manager/task_export.go:165-171 | When a pool starts, its selector already holds everything the whole run appends to it. No dependency appended for a type is missed. |
| PipelineProps.RunItemsFeeds | internal/manager/task_export.go:345-386 | Whatever the worker appends for any one item of a pool is in the selectors when the pool ends. |
| PipelineProps.PoolOrderFeeds | internal/manager/task_export.go:165-171 | For workers that feed only their targets, whatever a worker appends for an item its pool fetches is in the selectors when the whole run ends. |
| PipelineProps.DependenciesReachTargets | internal/manager/task_export.go:153-171 | With dependencies on, for every item its pool fetches, whatever its worker appends is in the final selector of that type. In particular every id a saved item references is in the final selector of its type. |
| PipelineProps.SelectorsOnlyGrow | internal/manager/task_export.go:561-580 | Over the run, every selector keeps its flag and its ids as a prefix, and only appends ids it does not hold yet. A list without duplicates stays without duplicates. |
| PipelineProps.ExportedExactly | internal/manager/task_export.go:153-171 | An item gets its document exactly when its type's pool fetches it with the selector's final contents and its worker saves it (`ItemSaved`: every lookup whose failure skips the item succeeds). |
| PipelineProps.FullExportTakesEveryRow | internal/manager/task_export.go:352-357 | On a full export nothing is expanded. For a type whose table query succeeds, an item is exported exactly when it is a row of the store and its worker saves it (`ItemSaved`). A type whose query fails gets no documents. |
| Slices.AppendUniquesSpec | internal/manager/task_export.go:564 | AppendUniques keeps the list as a prefix and adds exactly the new ids, each once. |
| Slices.AppendUniquesIdempotent | internal/manager/task_export.go:564 | Appending the same ids twice equals appending them once. |
| Slices.AppendUniquesKeepsNoDuplicates | internal/manager/task_export.go:564 | A list without duplicates keeps that property. |
| Archive.EntryNameInDir | internal/manager/task_export.go:253-257 | The entry is the output directory, a slash, and the file's base name. Every file lands directly in its type's directory under its own name. |
| Archive.EntryName | internal/manager/task_export.go:253-257 | Reference definition with no contract of its own. The entry name is the base name joined to the output directory. `Archive.EntryNameInDir` states its shape. |
| Archive.ZipFileOutcome | internal/manager/task_export.go:253-276 | zipFile fails exactly when the entry cannot be created or the file cannot be opened or copied. It leaves no entry exactly when creation fails. Otherwise it leaves one entry for the file, which is complete exactly when nothing failed. The entry's name is `EntryName` by definition. |
| Archive.VisitOutcome | internal/manager/task_export.go:239-251 | A walk error is returned with no entry. A directory is skipped without error. A file visit fails exactly when zipFile fails to create the entry, open the file or copy it. |
| Archive.Walk | internal/manager/task_export.go:232-251 | Reference definition with no contract of its own. filepath.Walk with zipWalkFunc stops at the first error. `Archive.WalkFailsIff`, `Archive.WalkStopsAtError`, `Archive.WalkClean` and `Archive.WalkEntriesAreFiles` state its properties. |
| Archive.ZipFile | internal/manager/task_export.go:253-276 | The entry is created before the file is opened. A failed create adds nothing. A failed open or copy leaves an incomplete entry and returns an error. |
| Archive.ZipWalkFunc | internal/manager/task_export.go:239-251 | A walk error is passed on, a directory adds no entry, and any other path is zipped. |
| Archive.WalkWarn | internal/manager/task_export.go:232-237 | One root's walk adds exactly `Archive.Walk`'s entries. Its error is only reported as a warning. |
| Archive.WalkFailsIff | internal/manager/task_export.go:233-236 | A root's walk reports an error exactly when one of its visits fails. |
| Archive.WalkStopsAtError | internal/manager/task_export.go:239-244 | Nothing after the first failing visit of a root reaches the archive. |
| Archive.WalkClean | internal/manager/task_export.go:239-251 | A walk without errors gives one complete entry per file, in walk order, and none for directories. |
| Archive.WalkEntriesAreFiles | internal/manager/task_export.go:245-250 | Every entry comes from a file, never a directory, and is named after it. |
| Archive.WalkRoot | internal/manager/task_export.go:221-227 | One `walkWarn` line of zipFiles: the root's entries are added, and its warning if its walk fails. |
| Archive.ZipFiles | internal/manager/task_export.go:213-230 | Walks tags, galleries, performers, studios, movies, scenes and images, in this order. A failed walk does not stop the next. Always returns nil. |

## Left out

- Goroutines, channels, the wait groups and the worker count. Each pool is a sequential loop over its rows. The source's concurrent, unsynchronised `AppendUnique` writes to the selectors are a data race; the model gives them sequential semantics.
- Repository calls are fallible lookups on a snapshot. FindMany is assumed to return exactly the requested rows in request order, and to fail when one is missing. The repository's code is not part of this model.
- `sliceutil.AppendUnique` and `AppendUniques` are not part of this model. They are taken to mean "append if absent", applied to the ids in order.
- The transaction (`WithTxn`). Its error is only logged, and the download is still generated; neither is modelled.
- `generateDownload`, temporary files, `EmptyJSONDirs` / `EnsureJSONDirs`, the download store and the JSON file writes. Every save is modelled as a document handed to the writer. A failed save is only logged, so this changes nothing the model tracks.
- The entity JSON builders and filename methods (`ToBasicJSON`, `ToJSON`, `GetNames`, `GetRefs`, `Filename`) are not part of this model. An entity document is identified by its type, its id and, for galleries, its name key.
- `stringslice.StringSliceToIntSlice`: ids are taken as already parsed.
- Logging, progress output and timing. Where logging is the only effect of a branch, the model returns a warning flag (`Archive.WalkWarn`).
- Float and time fields of files are carried as opaque values.
- The file system that `filepath.Walk` reads is a parameter of zipFiles. It gives the visits of each root in walk order. `paths.GetJSONPaths` is not part of this model, so the roots and output directories are parameters too.
- Archive.EntryName: `filepath.Join`'s lexical cleaning and Windows separators are not modelled; `ToSlash` is the identity on a `/`-separated host.
- `zipFiles` (internal/manager/task_export.go:213-230) walks only the seven type directories. The `files` and `folders` documents that the workers write (398-476) are not put in the archive.
