# PhotoFlow core, modelled and proved in Dafny

PhotoFlow edits photographs as a tree of layers. This project models the parts of its core that
keep state and whose result has to agree with something simpler, and proves that it does, or
states exactly when it does. `dafny verify dfyconfig.toml` checks everything.

| part | files | what it is about |
|---|---|---|
| Layer tree | `Basics`, `LayerTree`, `LayerQueries` | layers with sublayers, intensity and opacity maps and explicit inputs; who feeds whom |
| Dirty flags | `DirtyFlags` | the walk that decides what is stale, against a dependency graph |
| Incremental rebuild | `Rebuild`, `EditSession`, `LayerManager`, `Compositing`, `EditEffects`, `UnsafeUpdates`, `InputChanges`, `StaleGroups` | the pass that reuses cached images, against evaluation from scratch and against equations for each layer, over all runs of edits |
| Layer files | `XmlText`, `DecimalText`, `PfiWriter`, `PfiReader`, `PfiRoundTrip`, `PfiSameTree`, `PfiPreset`, `PfiOldFiles`, `PfiLoader` | printer and event-driven loader; when a tree comes back, where a preset lands |
| Curves | `NaturalSpline`, `SplineCurve` | editable natural cubic splines over real numbers |
| Brush | `BrushStrokes`, `OpaqueStrokes`, `BrushPoints`, `RawBuffer` | strokes on a pixel file |
| Caches and indexes | `CacheBuffer`, `ImagePyramid`, `ImageHierarchy` | tile cache, lazy pyramid, ancestors with their paddings |
| Requests | `RequestQueue`, `RequestWorker` | producers, one worker, batches with redundant requests dropped; what the worker gets done |
| Colour | `IccTransform`, `ColorConversions` | linear RGB matrices, HSV and HSL |

Code that updates objects in place is modelled by classes and loops (`LayerManager`, `FileLoader`,
`SplineCurve`, `RawBuffer`, `HierarchyArray`, `Images`, `CacheBuffer`, `ImageProcessor`,
`ImagePyramid`, `ICCTransform`). Their methods are proved against functions over values, and the
laws are lemmas about these functions.

Proofs by induction are written out: wherever Dafny would add an induction hypothesis of its own, the
lemma carries `{:induction false}`.

Operations and blenders are total functions from images and settings to images (`Rebuild.Engine`).
Numbers are exact: `real` stands for the floating-point types, `int` for the integer types.

Where the code does not do what it seems meant to do, the model follows the code, and a lemma gives
either the exact condition or a concrete case:

* An explicit input is honoured by the dirty walk only if its layer is finished before its user is
  visited (`DirtyFlags.ExplicitInputsHonoured`).
* An update clears the flags of layers inside disabled groups without building them. An image held
  for such a layer can go stale by it if and only if the walk marks the layer, or everything is
  being rebuilt (`UnsafeUpdates.SafeExactlyIfNeverStale`;
  `StaleGroups.DisabledGroupGoesStale` is a concrete run). This is exact for what the flags and
  the set of held images tell: the images themselves, which no guard can compare, range over all
  that the flags allow.
* Setting an explicit input marks the layer dirty but not its operation. The change is taken up if the
  image is built anew for another reason: everything is, no image is held, or the walk marks the
  operation; a group or a disabled layer has no need of it (`EditSession.TakenUp`). Otherwise the
  held images stay (`InputChanges.InputChangeIsIgnored`). The next update is right if and only if
  the change is taken up or the held images happen to be those of the new inputs
  (`InputChanges.InputChangeExactly`); for an additional input, being taken up is exact for what the
  flags and the set of held images tell (`InputChanges.TakenUpExactlyIfNeverStale`).
* Mask chains do not see that the layers below their owner have changed
  (`DirtyFlags.MapsIgnoreChain`), although by default a mask layer reads the input of its owner.
* A saved tree comes back if and only if it is portable; for example empty property values, hidden
  layers, tabs in names and inputs to later layers do not survive
  (`PfiSameTree.SameTreeExactlyIfPortable`). An explicit input that was never set is not saved, and
  the inputs behind it move up by one place (`PfiSameTree.UnsetInputsVanish`).
* Of a preset that is to go behind a given layer only the first layer is inserted there; all others
  land at the end of the list. A preset stays together if and only if it has one layer at most or the
  given layer is the last one (`PfiPreset.PresetStaysTogetherExactlyIf`).
* An opaque pen does not read a row back before it writes it. A stroke colours exactly the pixels it
  touches if and only if, whenever a pixel is written for the last time, it is new in the stroke or
  an earlier row has inked the position of the row buffer that is written to it
  (`OpaqueStrokes.OpaqueStrokeExactly`, `BrushPoints.OpaqueDragExactly`). A drag away from the right
  border can fail this (`RawBuffers.OpaqueDragLosesPixel`).
* An operation with maps loses the hierarchy of its inputs (`ImageHierarchy.InputsListed`).
* An update request that no rebuild follows in its batch is merged into the last request of the
  batch, whatever that is. It is done if and only if that is an update of the same pipeline
  (`RequestQueue.UpdateIsDone`). An update that a rebuild follows is dropped. Of all images, a batch
  rebuilds exactly that of its last rebuild (`RequestQueue.RebuildIsDone`), whatever images the
  other rebuilds were for.
* The two conversions from HSV differ at a hue of exactly 360 degrees
  (`ColorConversions.FullTurn`).

## Model

| member | source | states |
|---|---|---|
| `DirtyFlags.UpdateDirtyIsLeastClosure` | src/base/layermanager.cc:641-748 | The walk marks exactly the least set of layers that holds the modified or dirty ones and is closed under "reads from": chain order, sublayers, maps, settled explicit inputs |
| `DirtyFlags.UpdateDirtyMarksReaders` | src/base/layermanager.cc:641-748 | Which processors and blenders end up modified, as an equation: an operation if it reads a dirty layer other than through its opacity map, a blender also through it |
| `DirtyFlags.LaterLayersAreMarked` | src/base/layermanager.cc:712-746 | Every layer after a dirty one in its list is dirty, with processor and blender modified |
| `DirtyFlags.ExplicitInputsHonoured` | src/base/layermanager.cc:676-684 | For all flags, every explicit input carries dirt to its user, if and only if inputs name layers finished before their user is visited, or layers inside it |
| `DirtyFlags.MisplacedIsMissed` | src/base/layermanager.cc:676-684 | For any tree with a misplaced input, a concrete modified layer whose user stays clean |
| `DirtyFlags.CleanWalk` | src/base/layermanager.cc:641-748 | Without dirty or modified layers the walk changes nothing |
| `DirtyFlags.VisitListGrows` | src/base/layermanager.cc:641-748 | The walk never clears a flag and touches only layers of the list |
| `DirtyFlags.MapsIgnoreChain` | src/base/layermanager.cc:687-691 | Layers in the maps of a layer get the same marks whether or not what lies below the layer is stale |
| `LayerQueries.InputsAndChildrenAreDual` | src/base/layermanager.cc:133-248 | y is a child of x exactly if x is an input of y or y is a layer around x |
| `LayerQueries.Bounds` | src/base/layermanager.cc:133-248 | Inputs, children and containers of a layer lie in the tree; a layer is none of its own |
| `LayerQueries.FindListFinds` | src/base/layermanager.cc:486-520 | The recursive search finds the one list that holds the layer, for every layer of the tree |
| `LayerQueries.FindContainerFinds` | src/base/layermanager.cc:398-484 | The container search finds the owner, for a layer held in a map list exactly if the map flag of its processor is set |
| `LayerQueries.ClimbStep` | src/base/layermanager.cc:133-172 | One level of the recursion: what lies before or after in the list, plus the same for the owner, which is one level less deep |
| `LayerManagement.LayerManager.ExpandLayer` | src/base/layermanager.cc:98-130 | Appends the layer and everything inside it in build order |
| `LayerManagement.LayerManager.GetList` | src/base/layermanager.cc:486-520 | Returns the list found by the specification search |
| `LayerManagement.LayerManager.GetContainerLayer` | src/base/layermanager.cc:398-467 | Returns the owner found by the specification search |
| `LayerManagement.LayerManager.GetInputLayers` | src/base/layermanager.cc:133-172 | Lists exactly the input layers of a layer, with the recursion over containers |
| `LayerManagement.LayerManager.GetChildLayers` | src/base/layermanager.cc:186-248 | Lists exactly the child layers of a layer |
| `LayerManagement.LayerManager.GetParentLayers` | src/base/layermanager.cc:255-304 | Lists the layers that precede a layer in build order, and whether it was found |
| `LayerManagement.LayerManager.GetDefaultInput` | src/base/layermanager.cc:306-396 | The nearest visible preceding layer whose colour space the operation accepts |
| `LayerManagement.LayerManager.UpdateVisible` | src/base/layermanager.cc:609-636 | Afterwards exactly the layers are visible that are enabled together with all layers around them |
| `Compositing.VisibleExactly` | src/base/layermanager.cc:609-636 | A layer is visible exactly if it and all layers around it are enabled |
| `Compositing.InputsComeBefore` | src/base/layermanager.cc:255-304 | Without masks the input layers of a layer are those found before it in build order |
| `LayerManagement.LayerManager.UpdateDirty` | src/base/layermanager.cc:641-748 | The method over the flag sets computes the specification walk |
| `LayerManagement.LayerManager.ResetFlags` | src/base/layermanager.cc:777-796 | Clears the flags of exactly the layers of the list, at any depth |
| `LayerManagement.LayerManager.CollectInputs` | src/base/layermanager.cc:1344-1439 | The images an operation is given: default input, then explicit inputs in order |
| `LayerManagement.LayerManager.RebuildChain` | src/base/layermanager.cc:1123-1704 | The loop over the chain computes the specification of the incremental pass, nodes and output |
| `LayerManagement.LayerManager.DoUpdate` | src/base/layermanager.cc:1706-1767 | Prepare, rebuild and finalize together are the update step of a session, and show what evaluation from scratch shows; if the update is safe, the invariant holds afterwards |
| `LayerManagement.LayerManager.InsertLayer` | src/base/layermanager.cc:1074-1098 | Inserts behind the named layer, at the end for a negative id, and fails otherwise |
| `LayerManagement.LayerManager.RemoveInput` | src/base/layer.cc:183-196 | The restart loop removes exactly the inputs that name the layer, keeping the order of the others |
| `LayerManagement.LayerManager.RemoveLayer` | src/base/image.cc:861-881 | Flags the children, drops the layer from all inputs and from its list: the removal step of a session |
| `LayerManagement.LayerManager.Enable` | src/base/layer.hh:128-137 | A changed enable flag marks the layer and its processor modified; an unchanged one does nothing |
| `LayerTree.AssignInput` | src/base/layer.hh:191-198 | The loop fills up with unset inputs and sets the input at the position |
| `LayerManagement.LayerManager.ChangeInput` | src/gui/widgets/layerlist.cc:251-263 | Sets an explicit input and marks the layer dirty, no more, unless the input is set to the layer it already names: an edit step of a session |
| `LayerManagement.LayerManager.ChangeLevel` | src/base/pipeline.hh:112-120 | A changed pyramid level forces the next pass to rebuild everything |
| `Rebuild.RebuildIsScratch` | src/base/layermanager.cc:1123-1704 | On one list: if every node that may be reused is the one a fresh evaluation gives, then so are all nodes after the pass |
| `Rebuild.ReuseIsScratch` | src/base/layermanager.cc:1186-1242 | The branch that keeps an image, or only blends it again, gives the node of a fresh evaluation |
| `Rebuild.BuildIsScratch` | src/base/layermanager.cc:1303-1704 | The branch that builds a layer gives the node of a fresh evaluation |
| `Rebuild.InputsAgree` | src/base/layermanager.cc:1344-1439 | Inputs fetched from the pipeline are those a fresh evaluation passes |
| `Rebuild.ParentsFind` | src/base/layermanager.cc:255-304 | The search for preceding layers finds exactly the layers that are evaluated before |
| `EditSession.UpdateMatchesScratch` | src/base/layermanager.cc:1706-1767 | After any update, also with groups disabled, the node of every visible layer and the output are those of evaluation from scratch |
| `EditSession.ChangeKeepsValid` | src/base/layer.hh:114-137 | Every edit of a layer (settings, blender, enable flag, explicit input if the change is taken up, new sublayer) leaves the caches trustworthy where the flags say so |
| `Compositing.ComposedExactlyIfFromScratch` | src/base/layermanager.cc:1123-1704 | Nodes agree with evaluation from scratch if and only if they satisfy one equation for each visible layer: it holds what its operation makes of its inputs and of what lies below it, and shows the first of these images, blended with what lies below it if the operation has an opacity; what lies below is the blended image of the nearest enabled layer before it in its list, or what lies below the group |
| `Compositing.UpdatedIsComposed` | src/base/layermanager.cc:1123-1704 | After any update every visible layer satisfies its equation, and the output is what the last enabled layer shows |
| `Compositing.OutputIsStacked` | src/base/layermanager.cc:1673-1681 | The output of any update is the fold of blending over the images held for the enabled layers at the top |
| `Compositing.FetchedAreFed` | src/base/layermanager.cc:1344-1439 | The images a layer is given: the blended image of the last suitable layer before it, and for each explicit input the blended image, or the image with the given index, of the layer it names if that is visible |
| `EditEffects.EditSetsOneField` | src/base/layer.hh:108-198 | The edited layer has the new value in the field that the edit sets and keeps all others |
| `EditEffects.EditKeepsOthers` | src/base/layer.hh:108-198 | All other layers keep all their fields and members; no layer comes or goes but the one added |
| `EditEffects.SetInputSets` | src/base/layer.hh:191-198 | The input stands at its position, all others stay, and gaps hold unset inputs |
| `EditEffects.InsertAfterInserts` | src/base/layermanager.cc:1074-1098 | Where an inserted layer stands |
| `EditEffects.EditMarks` | src/base/layer.hh:117-137 | Exactly which flags each edit raises, and when it raises none |
| `EditEffects.InsertionMarks` | src/base/layermanager.cc:1074-1098 | An inserted layer is marked dirty, and no other flag changes |
| `EditEffects.RemovalTakesOneLayer` | src/base/image.cc:861-881 | One layer goes with everything inside it; every other layer loses its inputs that name it, and keeps all else in its order |
| `EditEffects.RemovalMarks` | src/base/image.cc:861-881 | Everything that may depend on the removed layer is marked; flags and nodes of what is removed go, all others stay |
| `EditSession.AddLayerKeepsValid` | src/base/layermanager.cc:1074-1098 | So does the insertion of a layer |
| `EditSession.RemoveKeepsValid` | src/base/image.cc:861-881 | So does the removal of a layer |
| `EditSession.UpdateKeepsValid` | src/base/layermanager.cc:1706-1767 | So does a safe update, which clears all flags: safe if no image held for an enabled layer inside a disabled one is marked for rebuilding |
| `EditSession.UpdatedIsTrusted` | src/base/layermanager.cc:1706-1767 | On every part of the tree, whatever the flags were: after a safe update all held images are those of a fresh evaluation, visible or not |
| `EditSession.HiddenStaysTrusted` | src/base/layermanager.cc:777-796 | Inside a disabled layer nothing changes, and what the walk left unmarked may still be trusted |
| `EditSession.RebuildTouchesVisible` | src/base/layermanager.cc:1138-1143 | A pass changes nodes of visible layers only |
| `EditSession.RunKeepsValid` | src/base/layermanager.cc:1706-1767 | The invariant holds after every run of edits and safe updates |
| `EditSession.EveryRunMatchesFreshPipeline` | src/base/layermanager.cc:1706-1767 | After any run of edits, insertions, removals, level changes and safe updates from an empty document, an update shows the same output, and the same node of every visible layer, as a new pipeline with empty caches |
| `UnsafeUpdates.SafeExactlyIfNeverStale` | src/base/layermanager.cc:777-796 | The guard is exact: an update is safe if and only if, for all images that may go with the same tree, flags and set of held images, every legal run after it leads to documents that an update shows right |
| `UnsafeUpdates.UnsafeGoesStale` | src/base/layermanager.cc:777-796 | Wherever the guard fails: images and a run of edits after which a visible layer shows a stale image |
| `UnsafeUpdates.WalkPassesBy` | src/base/layermanager.cc:641-748 | While only layers around a layer are marked, the walk does not mark the layer |
| `EditSession.InputChangeKeepsValid` | src/base/layermanager.cc:676-684 | A change of an explicit input that is taken up leaves the caches trustworthy where the flags say so, whatever else is marked |
| `InputChanges.InputChangeIsIgnored` | src/base/layermanager.cc:1186-1242 | A change that is not taken up: the next update keeps the images held for the layer, in every session |
| `InputChanges.InputChangeExactly` | src/base/layermanager.cc:1186-1242 | In every sound session, for a visible layer and any change of its inputs: the next update is right if and only if the change is taken up or the held images are those the new inputs give |
| `InputChanges.TakenUpExactlyIfNeverStale` | src/base/layermanager.cc:1186-1242 | For a change that gives a visible layer more inputs the guard is exact: it is taken up if and only if, for all images that may go with the same tree, flags and set of held images, the next update is right |
| `InputChanges.IgnoredInputGoesStale` | src/base/layermanager.cc:1186-1242 | Where it is not taken up: images for which the next update is wrong |
| `InputChanges.ChangedInputGoesStale` | src/base/layer.hh:191-198 | A concrete document that is shown wrong after an input was set |
| `StaleGroups.DisabledGroupGoesStale` | src/base/layermanager.cc:777-796 | A concrete run with an update that is not safe: a group is disabled, a layer below it edited, the document updated, the group enabled again, and it shows its old image |
| `XmlText.UnescapeEscape` | src/base/file_util.cc:97-110 | Text written into an attribute is read back with its line ends and white space normalized (XML 1.0, sections 2.4, 2.11, 3.3.3 and 4.6) |
| `XmlText.TextRoundTrip` | src/base/file_util.cc:97-110 | Text comes back unchanged if and only if it holds no tabs and line breaks |
| `XmlText.NormalizeInTwoSteps` | src/base/file_util.cc:97-110 | What reading does to white space: line ends first, then tabs and line feeds (XML 1.0, sections 2.11 and 3.3.3) |
| `XmlText.EscapeIsInjective` | src/base/file_util.cc:97-110 | Different texts without tabs and line breaks are written differently |
| `XmlText.EscapedIsLegal` | src/base/file_util.cc:97-110 | The written text may stand between double quotes if and only if the text holds no double quote |
| `XmlText.EscapeXml` | src/base/file_util.cc:97-110 | The index loop computes the escaped text |
| `DecimalText.ReadsInputs` | src/base/pf_file_loader.cc:166-196 | The stream loop reads back every printed list of inputs, from file version 4 on |
| `DecimalText.ReadsOldInputs` | src/base/pf_file_loader.cc:166-196 | Files before version 4 give the first image of each input, and before version 3 all inputs blended |
| `DecimalText.AtoiPrinted` | src/base/pf_file_loader.cc:158-165 | Printed integers are read back, negative ones included |
| `PfiWriter.PrintLayer` | src/base/layer.cc:200-257 | The recursive printer writes exactly the events of the specification |
| `PfiWriter.PrintOperation` | src/base/operation.cc:511-546 | The printer of operations writes one element for every property |
| `PfiWriter.SavedListDelivered` | src/base/layer.cc:200-257 | The markup of every tree is well formed attribute text, and a parser delivers the same events with normalized names and values |
| `PfiLoader.FileLoader.AppendLayer` | src/base/pf_file_loader.cc:79-100 | Inserts behind the first place of the previous layer if the list holds it, otherwise at the end |
| `PfiPreset.PresetLands` | src/base/pf_file_loader.cc:496-539 | Saving layers as a preset and loading it behind a given layer of any document: the first comes behind that layer, all others at the end of the list, and the rest of the document stays as it is |
| `PfiPreset.PresetStaysTogetherExactlyIf` | src/base/pf_file_loader.cc:399-404 | The preset goes as a whole behind the layer if and only if it has at most one layer or that layer is the last of its list |
| `PfiLoader.FileLoader.ReadLayerAttributes` | src/base/pf_file_loader.cc:149-201 | The loop over the attributes of a layer reads each of them, in any order |
| `PfiLoader.FileLoader.ReadLayerInputs` | src/base/pf_file_loader.cc:166-196 | The loop over the inputs maps known layers to their new ids and leaves gaps for the others |
| `PfiLoader.FileLoader.MapId` | src/base/pf_file_loader.cc:201-203 | Registers the new id of a layer, growing the table as needed |
| `PfiLoader.FileLoader.StartElement` | src/base/pf_file_loader.cc:104-356 | The handler of start tags is the specification step |
| `PfiLoader.FileLoader.EndElement` | src/base/pf_file_loader.cc:370-436 | The handler of end tags is the specification step |
| `PfiLoader.FileLoader.Parse` | src/base/pf_file_loader.cc:449-492 | The handlers driven by a whole stream of events compute the specification of loading |
| `PfiLoader.StacksStayInStep` | src/base/pf_file_loader.cc:104-436 | At every point of every well formed file the two stacks are in step, belong together, and the current container and map flag are the top of the stack |
| `PfiLoader.SavedFileInStep` | src/base/pf_file_loader.cc:104-436 | In particular after any number of the events of a saved tree |
| `PfiLoader.MapFlagMeansBelowMaps` | src/base/pf_file_loader.cc:248-263 | The map flag of the open list is set exactly if some list around the place is a map list |
| `PfiLoader.OperationFlagged` | src/base/pf_file_loader.cc:315-316 | An operation is flagged as a map exactly if its layer lies below some map list |
| `PfiLoader.ReloadedFlagsFit` | src/base/pf_file_loader.cc:248-316 | In every loaded tree all operations and blenders carry the flag of their place, whatever the saved flags were |
| `PfiRoundTrip.PropsLoad` | src/base/pf_file_loader.cc:339-352 | Reading the properties of an operation overlays its defaults with the saved, non-empty values |
| `PfiRoundTrip.OperationLoads` | src/base/pf_file_loader.cc:284-316 | Reading an operation element gives the layer the operation and a default blender |
| `PfiRoundTrip.BlenderLoads` | src/base/pf_file_loader.cc:290-316 | Reading a blender element fills the blender of the layer |
| `PfiRoundTrip.ListLoads` | src/base/pf_file_loader.cc:104-436 | Reading the saved events of any list of layers, at any depth, appends the specified layers to the open list and changes nothing else, stacks and current pointers included |
| `PfiSameTree.PropsComeBack` | src/base/pf_file_loader.cc:339-352 | The values of an operation come back if and only if they hold no tabs and line breaks and every empty one is the default |
| `PfiSameTree.InputsComeBack` | src/base/pf_file_loader.cc:166-196 | The inputs of a layer come back under the new ids if and only if all of them are set and name layers started before it |
| `PfiSameTree.UnsetInputsVanish` | src/base/layer.cc:208-214 | Of any inputs exactly the set ones come back, in order and without gaps: those behind an unset one change their places |
| `PfiSameTree.PortableComesBack` | src/base/pf_file_loader.cc:104-436 | A portable tree comes back under a one-to-one renaming of ids, extended layer by layer |
| `PfiSameTree.SameTreeExactlyIfPortable` | src/base/layer.cc:200-257 | The loaded layers are the saved ones up to a bijective renaming of ids if and only if the tree is portable: no hidden layers, no tabs or line breaks, no empty values where the default is not empty, no enabled layer of a type that starts switched off, map flags where they belong, all explicit inputs set and naming layers that start earlier |
| `PfiSameTree.SavedImageLoads` | src/base/image.cc:1075-1093 | Saving an image and loading the file into any document appends those layers and leaves the rest of the document alone |
| `PfiOldFiles.OldPropsLoad` | src/base/pf_file_loader.cc:339-352 | Before version 2 opacity and blend mode of an operation go to the blender of its layer, in any list of properties, and all others to the operation |
| `PfiOldFiles.OldGroupGetsBuffer` | src/base/pf_file_loader.cc:210-223 | Before version 2 a group is given a buffer when it starts; no other layer is given an operation |
| `PfiReader.FreshIsLowest` | src/base/layermanager.cc:53-68 | A new layer takes the lowest free slot of the pool |
| `NaturalSpline.PivotStep` | src/base/splinecurve.cc:238-245 | Every pivot of the elimination is greater than one and the coefficients stay in (-1, 0] |
| `NaturalSpline.Solve` | src/base/splinecurve.cc:228-249 | Both array loops leave the second derivatives of the natural spline: every interior equation holds and both ends are zero |
| `NaturalSpline.NaturalIsUnique` | src/base/splinecurve.cc:228-249 | The system has no other solution |
| `NaturalSpline.CubicExpands` | src/base/splinecurve.cc:296-302 | The formulas for slope and curvature are the derivatives of the evaluated cubic: its Taylor expansion is exact |
| `NaturalSpline.CubicMeetsKnots` | src/base/splinecurve.cc:296-302 | Each cubic passes through the knots at its ends |
| `NaturalSpline.SmoothExactlyIfBalanced` | src/base/splinecurve.cc:238-245 | Neighbouring cubics have equal slopes at a knot if and only if the equation of the knot holds |
| `NaturalSpline.NaturalIsSmooth` | src/base/splinecurve.cc:228-249 | Value, slope and curvature continue across every interior knot; the curvature vanishes at both ends |
| `SplineCurves.AddKeepsOrder` | src/base/splinecurve.cc:59-87 | An added knot keeps the abscissae increasing if and only if its abscissa is new |
| `SplineCurves.RemoveKeepsOrder` | src/base/splinecurve.cc:126-146 | Removing keeps the order and both end knots |
| `SplineCurves.SetKeepsOrder` | src/base/splinecurve.cc:149-173 | Moving a knot keeps the order, the number of knots, all other abscissae, and the unit interval |
| `SplineCurves.EditsKeepOrder` | src/base/splinecurve.cc:59-173 | Over every run of edits with new abscissae for added knots the abscissae strictly increase |
| `SplineCurves.AddPutsOneKnot` | src/base/splinecurve.cc:59-87 | The new knot stands before the first one further right, all others in their order |
| `SplineCurves.RemoveTakesOneKnot` | src/base/splinecurve.cc:126-146 | Exactly the given knot goes; the ends stay |
| `SplineCurves.SetMovesOneKnot` | src/base/splinecurve.cc:149-173 | Where the knot moves, that it stays between its neighbours, and that no other knot moves but the opposite end of a circular curve |
| `SplineCurves.ExtendedInOrder` | src/base/splinecurve.cc:183-214 | The circular extension is strictly increasing if and only if the knots fit into one period |
| `SplineCurves.ExtendedSpans` | src/base/splinecurve.cc:183-214 | With knots in [0, 1] it is strictly increasing and reaches over the whole interval |
| `SplineCurves.ExtendedIsPeriodic` | src/base/splinecurve.cc:183-214 | It is a window of the periodic continuation of the knots |
| `SplineCurves.ValueIsUnique` | src/base/splinecurve.cc:258-313 | The value at each x is determined: one interval brackets it |
| `SplineCurves.PassesThroughKnots` | src/base/splinecurve.cc:258-313 | The curve passes through every knot with an ordinate in [0, 1] |
| `SplineCurves.TwoKnotsAreALine` | src/base/splinecurve.cc:288-291 | With two knots the values lie on the straight line through both |
| `SplineCurves.DefaultIsIdentity` | src/base/splinecurve.cc:35-54 | The curve of a new object is the identity on [0, 1] |
| `SplineCurves.ValueStaysInside` | src/base/splinecurve.cc:258-313 | With ordinates in [0, 1] every value is in [0, 1] |
| `SplineCurves.SplineCurve.UpdateSpline` | src/base/splinecurve.cc:176-252 | Tabulates the knots, extended on a circular curve, and solves for them; with fewer than two knots nothing changes |
| `SplineCurves.SplineCurve.AddPoint` | src/base/splinecurve.cc:59-87 | Inserts before the first knot further right and returns its position |
| `SplineCurves.SplineCurve.RemovePoint` | src/base/splinecurve.cc:126-146 | Refuses the first and the last knot |
| `SplineCurves.SplineCurve.SetPoint` | src/base/splinecurve.cc:149-173 | Clamps, keeps the order, and ties the ends of a circular curve together |
| `SplineCurves.SplineCurve.GetValue` | src/base/splinecurve.cc:258-313 | Binary search and evaluation give the value of the specified curve |
| `SplineCurves.SplineCurve.Bracket` | src/base/splinecurve.cc:272-280 | The search ends with neighbouring knots around x |
| `BrushStrokes.DrawnPixel` | src/base/rawbuffer.cc:249-301 | One row, seen at any pixel of the file: painted if new in the stroke; if painted before, kept by a translucent pen and overwritten from the row buffer by an opaque one |
| `BrushStrokes.CoverGrows` | src/base/rawbuffer.cc:383-401 | The list of painted ranges of a row covers exactly the old and the new columns |
| `BrushStrokes.TranslucentStroke` | src/base/rawbuffer.cc:304-402 | Over any rows in any order with any translucent pens: each touched pixel is painted once, by the first pen that touches it, over its value at the start of the stroke; all others are unchanged |
| `OpaqueStrokes.BufferIs` | src/base/rawbuffer.cc:282-292 | Over any rows drawn with an opaque pen: the row buffer holds the colour exactly at the positions some row has inked at a pixel new in the stroke, and is empty elsewhere |
| `OpaqueStrokes.OpaquePixel` | src/base/rawbuffer.cc:282-296 | What any touched pixel ends up as: the colour, if at the last row that touches it it was new or the position of the row buffer was inked, and the empty value otherwise |
| `OpaqueStrokes.OpaqueStrokeExactly` | src/base/rawbuffer.cc:282-292 | An opaque stroke colours exactly the pixels it touches if and only if the row buffer holds the colour at each last writing, or the colour is that of an empty buffer |
| `OpaqueStrokes.OpaqueStroke` | src/base/rawbuffer.cc:282-292 | In particular if no row is wider than the first |
| `BrushPoints.PointCoversDisk` | src/base/rawbuffer.cc:420-438 | Inside the image the rows of a point cover exactly the pixels with dx^2 + dy^2 <= size^2 |
| `BrushPoints.IntersectIsCommon` | src/base/rawbuffer.cc:441-452 | The common part of two rectangles holds exactly the pixels of both |
| `BrushPoints.UpdateAreaIsTight` | src/base/rawbuffer.cc:441-452 | The reported rectangle holds every touched pixel, and each of its rows and columns is touched |
| `BrushPoints.DragMixesOnce` | src/base/rawbuffer.cc:406-438 | Dragging a translucent pen over any points mixes once into every pixel near one of them and changes nothing else |
| `BrushPoints.OpaqueDragExactly` | src/base/rawbuffer.cc:282-292 | Dragging an opaque pen colours exactly the pixels near the points if and only if that condition holds of the rows of the points |
| `BrushPoints.OpaqueDrag` | src/base/rawbuffer.cc:282-292 | In particular if no point reaches over more columns than the first |
| `RawBuffers.OpaqueDragLosesPixel` | src/base/rawbuffer.cc:282-292 | A concrete failure: a drag away from the right border sets a painted pixel to zero |
| `RawBuffers.RawBuffer.StartStroke` | src/base/rawbuffer.cc:499-528 | Empties the row buffer and the ranges of all rows |
| `RawBuffers.RawBuffer.MaskRow` | src/base/rawbuffer.cc:315-323 | The mask marks exactly the columns not painted in this stroke |
| `RawBuffers.RawBuffer.NoteRange` | src/base/rawbuffer.cc:383-401 | Inserts the range in order of its first column |
| `RawBuffers.RawBuffer.DrawRow` | src/base/rawbuffer.cc:304-402 | Mask, buffer, file and ranges change as specified, in place |
| `RawBuffers.RawBuffer.DrawPoint` | src/base/rawbuffer.cc:406-457 | Draws the rows of the point in order and returns the update rectangle |
| `ImageHierarchy.HierarchiesAreRight` | src/base/image_hierarchy.cc:55-126 | After any fills of an acyclic image graph each image lists every ancestor once, with the largest sum of paddings along any derivation; nothing else is listed |
| `ImageHierarchy.WithAllTakesLargest` | src/base/image_hierarchy.cc:55-78 | Adding elements keeps each image once, with its largest padding |
| `ImageHierarchy.WithElementLooksUp` | src/base/image_hierarchy.cc:55-78 | Adding raises the padding of a listed image, or lists a new one, and leaves the others alone |
| `ImageHierarchy.InputsListed` | src/base/operation.cc:502-506 | An operation with maps fills twice: its inputs are listed only as far as the maps contribute them |
| `ImageHierarchy.MapHidesInput` | src/base/operation.cc:502-506 | A concrete operation whose input is not listed because it has a map |
| `ImageHierarchy.PreferenceIsConsistent` | src/base/image_hierarchy.cc:130-175 | Comparing in either order never prefers the second image twice, unless neither has a hierarchy |
| `ImageHierarchy.LargerPaddingWins` | src/base/image_hierarchy.cc:154-174 | The first image wins if it has the smaller padding on no common ancestor; the second if moreover it has the larger one on some |
| `ImageHierarchy.OneCommonAncestorDecides` | src/base/image_hierarchy.cc:154-174 | A single common ancestor decides by its two paddings, a draw for the first image |
| `ImageHierarchy.UnknownGivesWay` | src/base/image_hierarchy.cc:130-152 | An image without a hierarchy, or with an empty one, gives way to one that has ancestors |
| `ImageHierarchy.ExcessSwaps` | src/base/image_hierarchy.cc:154-174 | The two totals of a comparison swap with the images |
| `ImageHierarchy.CompareImages` | src/base/image_hierarchy.cc:130-175 | The nested loops decide by the sign of the total excess over common ancestors |
| `ImageHierarchy.HierarchyArray.AddElement` | src/base/image_hierarchy.cc:55-78 | The method over the array does what the specification of one addition says |
| `ImageHierarchy.Images.FillHierarchy` | src/base/image_hierarchy.cc:81-126 | The nested loops attach the specified hierarchy to the image |
| `CacheBuffers.NextTile` | src/base/cachebuffer.cc:130-140 | Each tile adds its pixels to those that are done, none of which was done before |
| `CacheBuffers.WalkEnds` | src/base/cachebuffer.cc:116-141 | The walk is complete after exactly ceil(W/128) * ceil(H/128) tiles |
| `CacheBuffers.CompletedIsImage` | src/base/cachebuffer.cc:168-196 | A completed buffer holds the image |
| `CacheBuffers.CacheBuffer.StepCb` | src/base/cachebuffer.cc:298-329 | A tile buffer holds the pixels of its part of the image, clipped at the border |
| `CacheBuffers.CacheBuffer.CopyTile` | src/base/cachebuffer.cc:168-196 | Copying a tile writes its pixels and no others |
| `CacheBuffers.CacheBuffer.Step` | src/base/cachebuffer.cc:100-200 | With any number of threads: the next tiles are copied, the pixels done are those of the image, the others are untouched |
| `CacheBuffers.CacheAll` | src/base/cachebuffer.cc:100-200 | Stepping until completion, with any number of threads at each step, terminates with the buffer equal to the image |
| `RequestQueue.NothingLost` | src/base/imageprocessor.cc:127-186 | In every interleaving of submissions and the worker, requests other than rebuilds and updates are executed or waiting exactly once, in order of submission |
| `RequestQueue.AllExecuted` | src/base/imageprocessor.cc:248-251 | When the worker rests with an empty queue all of them have been executed |
| `RequestWorker.RunsUntilEnd` | src/base/imageprocessor.cc:189-427 | In every interleaving the worker is running exactly if it has executed no end request, and stops only if it has |
| `RequestWorker.WorkerIsNeverStuck` | src/base/imageprocessor.cc:189-427 | Until then it has a step to take while anything is queued, drained or to be done |
| `RequestWorker.ComesToRest` | src/base/imageprocessor.cc:189-427 | From every point of every run the worker, left to itself, stops at an end request or comes to rest before an empty queue |
| `RequestWorker.EverythingGetsDone` | src/base/imageprocessor.cc:189-427 | After every run without an end request, the worker left to itself executes all requests other than rebuilds and updates, in the order of submission |
| `RequestWorker.RoundExecutesBatch` | src/base/imageprocessor.cc:127-145 | In one round it executes exactly what optimizing leaves of what was queued when it began; what is submitted before it optimizes stays queued |
| `RequestWorker.OptimizedArePicked` | src/base/imageprocessor.cc:152-185 | Optimizing keeps, in their order, the last rebuild, a final update, and every other request; only the area of the last one changes |
| `RequestQueue.LastRebuildKept` | src/base/imageprocessor.cc:158-163 | A batch with rebuilds keeps exactly the last |
| `RequestQueue.RebuildIsDone` | src/base/imageprocessor.cc:158-163 | Some rebuild of an image is among the optimized requests if and only if the last rebuild of the batch is for that image |
| `RequestQueue.WidenedIsBoundingBox` | src/base/imageprocessor.cc:164-173 | The area of the last request becomes the bounding box of itself and all updates that no rebuild follows, whatever pipelines they are for: it covers them, and lies in every rectangle that does |
| `RequestQueue.CoversAllPixels` | src/base/imageprocessor.cc:164-173 | One area covers another if and only if it holds all of its pixels |
| `RequestQueue.UpdateIsDone` | src/base/imageprocessor.cc:164-173 | Such an update is done, by an update of its pipeline that covers its area, if and only if the batch ends with an update of the same pipeline |
| `RequestQueue.RebuildOfOtherImageLost` | src/base/imageprocessor.cc:158-163 | Of two rebuilds for different images in one batch only the second is executed |
| `RequestQueue.ImageProcessor.OptimizeRequests` | src/base/imageprocessor.cc:127-186 | Draining the queue and the reverse loop give the specified batch |
| `RequestQueue.ImageProcessor.RemoveImageFromQueue` | src/base/imageprocessor.cc:105-124 | Rotating the queue removes exactly the requests of the image and keeps the order of the others |
| `RequestQueue.WithoutKeepsOthers` | src/base/imageprocessor.cc:105-124 | Exactly the requests of other images are left in the queue, in their order |
| `ImagePyramids.LazyIsEager` | src/base/imagepyramid.cc:249-493 | In every history of calls the pyramid built on demand gives the same levels and images as one built at once |
| `ImagePyramids.LastIsFirstSmall` | src/base/imagepyramid.cc:315-323 | The last level is the first whose larger side is at most 256 |
| `ImagePyramids.BuiltIsPart` | src/base/imagepyramid.cc:315-472 | Exactly the missing levels up to the requested one are built, and all stay as they were |
| `ImagePyramids.ImagePyramid.GetLevel` | src/base/imagepyramid.cc:249-493 | Returns the requested level, or the last one, with its image |
| `ImagePyramids.ImagePyramid.Reset` | src/base/imagepyramid.cc:107-126 | Keeps only the base image |
| `IccTransforms.InverseIsTwoSided` | src/base/iccstore.cc:121-147 | The closed form is the inverse from both sides |
| `IccTransforms.Mat3Inv` | src/base/iccstore.cc:121-156 | Inverts in place unless the determinant is below 1e-7, then reports failure and leaves the result alone |
| `IccTransforms.ConversionsCompose` | src/base/iccstore.cc:864-914 | Converting from A to B to C equals converting from A to C, as matrices and on every pixel |
| `IccTransforms.ConversionRoundTrip` | src/base/iccstore.cc:864-914 | Converting from A to B and back gives every pixel back |
| `IccTransforms.ConversionKeepsColor` | src/base/iccstore.cc:864-914 | The converted pixel has the same XYZ values |
| `IccTransforms.PrimariesAreColorants` | src/base/iccstore.cc:868-889 | Each primary has the XYZ values of its triple of the colorants |
| `IccTransforms.ICCTransform.ReadColorants` | src/base/iccstore.cc:868-889 | The colorants are the columns of the matrix of a profile |
| `IccTransforms.ICCTransform.Multiply` | src/base/iccstore.cc:902-909 | The triple loop computes the matrix product |
| `IccTransforms.ICCTransform.Init` | src/base/iccstore.cc:864-914 | The matrix of the fast path converts over XYZ, for an invertible output profile |
| `IccTransforms.ICCTransform.ApplyTo` | src/base/iccstore.cc:960-1001 | Every pixel is multiplied by the matrix, also when input and output are the same buffer |
| `ColorConversions.HsvRoundTrip` | src/base/color.hh:81-162 | RGB to HSV to RGB is the identity on the unit cube |
| `ColorConversions.HsvRoundTripBack` | src/base/color.hh:81-162 | HSV to RGB to HSV is the identity for hue in [0, 360) and positive saturation and value |
| `ColorConversions.ConversionsAgree` | src/base/color.hh:107-228 | Both conversions from HSV agree for hue in [0, 360) |
| `ColorConversions.FullTurn` | src/base/color.hh:107-228 | At a hue of exactly 360 they agree if and only if the colour is grey or black |
| `ColorConversions.HslRoundTrip` | src/base/color.hh:234-294 | RGB to HSL to RGB is the identity on the unit cube |
| `ColorConversions.HslRoundTripBack` | src/base/color.hh:234-294 | HSL to RGB to HSL is the identity for hue in [0, 360), positive saturation and lightness strictly between 0 and 1 |
| `ColorConversions.HslIsShade` | src/base/color.cc:100-113 | The three values with hues two sextants apart are the colour of the hue |
| `ColorConversions.GreysHaveNoHue` | src/base/color.hh:81-105 | Exactly the greys have saturation zero, and then hue zero; all other colours have one hue below a full turn, the same in both notations |
| `ColorConversions.HueIsShade` | src/base/color.hh:81-105 | Every colour but a grey is determined by its hue and its smallest and largest component |

## Left out

- EditSession.EveryRunMatchesFreshPipeline: covers trees without masks and without operations flagged as maps. The walk does not carry changes into mask chains (`DirtyFlags.MapsIgnoreChain`), so a mask layer, which by default reads the input of its owner (src/base/layermanager.cc:365-389), is not marked when that input changes. Explicit inputs name layers that are finished earlier, because of `DirtyFlags.ExplicitInputsHonoured`; an input is changed only where the change is taken up, because of `InputChanges.InputChangeExactly`. All these, and safety, are guards a caller can look up before the step.
- InputChanges.TakenUpExactlyIfNeverStale: changes that replace one input by another are left to `InputChanges.InputChangeExactly`, because they need not change an image at all: two inputs that name layers which are not visible give nothing either way.
- EditSession.UpdateMatchesScratch: trees without masks, for the reason given above; the same holds of the members that rest on it.
- LayerManagement.LayerManager.DoUpdate: trees without masks.
- EditSession.UpdateKeepsValid: trees without masks.
- EditSession.UpdatedIsTrusted: trees without masks.
- EditSession.HiddenStaysTrusted: trees without masks.
- UnsafeUpdates.SafeExactlyIfNeverStale: trees without masks, as are `UnsafeUpdates.UnsafeGoesStale` and `UnsafeUpdates.WalkPassesBy`.
- Rebuild.RebuildIsScratch: trees without masks, as are `Rebuild.ReuseIsScratch`, `Rebuild.BuildIsScratch`, `Rebuild.InputsAgree` and `Rebuild.ParentsFind`, for the same reason.
- UnsafeUpdates.SafeExactlyIfNeverStale: the images are those the flags allow, not those of one run; a mark may also be raised by an edit that changes nothing, which no guard on flags can tell.
- LayerManagement.LayerManager.GetParentLayers: the search for layers that are no masks; the mask lists, which are searched for mask layers only, are left out.
- LayerManagement.LayerManager.GetDefaultInput: of a layer that is no mask; a mask layer takes the input of its owner.
- LayerManagement.LayerManager.CollectInputs: the chains of intensity and opacity masks, which are built beside the inputs, are left out.
- LayerManagement.LayerManager.RebuildChain: for chains without masks.
- EditSession.EveryRunMatchesFreshPipeline: one pipeline that is rebuilt at every update; updates of a single pipeline among several, moving layers between lists, tile caches for output, automatic zoom and the scaling of layers whose operation renders at another level are not modelled. An operation always returns an image, every layer has a processor and a blender, and image hints, formats and render modes are part of the engine functions.
- LayerManagement.LayerManager: edits replace the tree value instead of updating shared layer objects, so aliasing between lists is not captured.
- DirtyFlags.UpdateDirtyIsLeastClosure: requires that no layer occurs twice in the tree, which the layer pool ensures.
- PfiLoader.FileLoader.StartElement: property values are texts; that a typed property parses its own text back is not modelled. A layer element without an id, for which the original writes outside its table, registers nothing. What `finalize()` and the configuration dialogs do at the end of a layer is left out, and so are non-persistent properties.
- PfiWriter.SavedListDelivered: operation types and property names are plain words.
- PfiPreset.PresetStaysTogetherExactlyIf: the given layer is a member of the list and is listed once up to its place, and all members exist, as for the callers of the original.
- SplineCurves.SplineCurve.AddPoint: requires a new abscissa, and one in [0, 1] on a circular curve; otherwise the original divides by zero or leaves its period. The tone curve applied to linear curves is any strictly increasing function.
- SplineCurves.SplineCurve.RemovePoint: requires at least one knot; `clear_points` and copying are not modelled, and rounding is not.
- RawBuffers.RawBuffer.DrawPoint: the point lies inside the image, as for the callers of a stroke; segments, which draw a point at each end, and reading or writing failures are left out. The square root is exact.
- CacheBuffers.CacheBuffer.Step: only the branch that keeps the buffer in memory; threads are modelled as tiles computed one after the other, and the disk branch is left out.
- ImagePyramids.ImagePyramid.GetLevel: the shrinking of the image library is any function that makes images longer than 256 pixels smaller; failures to allocate are left out.
- IccTransforms.ICCTransform.Init: says nothing about the matrix if the output profile is not invertible; the original ignores the failure of the inversion and multiplies an uninitialized matrix.
- RequestQueue.NothingLost: removing an image from the queue is a step of its own (`RequestQueue.ImageProcessor.RemoveImageFromQueue`) and not interleaved with the worker's popping. What each request does to its image is left out.
- ColorConversions.ConversionsAgree: the channel type is the floating-point one, whose scaling to [0, 1] is the identity.
- `ImagePyramid::update` (src/base/imagepyramid.cc:129-245): its right and bottom limits have the wrong sign, so no coverage theorem holds.
- `ImageProcessor::wait_for_processing_completed`: the flag does not mean that the queue is empty (src/base/imageprocessor.cc:432-437).
- Tone curves, gamut mapping, luminance and the formulas of the individual blend modes, options, Exif, pencil masks and the user interface: pointwise code or foreign libraries.
