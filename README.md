# Open3D: PLY point-cloud I/O, the editing view control, the TensorBoard window state and materials

This project models four parts of Open3D and proves properties of the models.

- **PLY point-cloud reading and writing** (`t/io/file_format/FilePLY.cpp`).
  - The rply type tables `GetDtype`, `GetDtypeString` and `GetPlyType`.
  - The reader's property-registration loop, which binds one `AttrState` cursor per supported vertex property to the tensor it fills.
  - The `ReadAttributeCallback` that rply calls for every value.
  - The writer's attribute validation, its header declarations and its nested write loop.
- **The editing camera** `ViewControlWithEditing`:
  - its locked and orthogonal modes;
  - the saved free view;
  - its status line.
- **The window state of the TensorBoard plugin** (`plugin.py`).
  - Run, tag, step and batch-index validation.
  - The scene diff of `_update_scene`.
  - The window-size clamp of `_new_window`, the window registry of `_close_window`, and the step-reference guard of `read_geometry`.
- **Rendering `Material`.** Its defaults, its texture maps, and its conversion into a `MaterialRecord`.

Files:

| file | module | what it holds |
|---|---|---|
| `wrappers.dfy` | `Wrappers` | `Option` and `Result` |
| `ply_types.dfy` | `PlyTypes` | the PLY and tensor type tables |
| `ply_reader.dfy` | `PlyReader` | the reader |
| `ply_writer.dfy` | `PlyWriter` | the writer |
| `view_control.dfy` | `ViewControlEditing` | the editing camera |
| `tensorboard_window.dfy` | `TensorboardPlugin` | the plugin window and the registry of windows |
| `material.dfy` | `Rendering` | materials |

How the model is built:

- **Imperative code is a class.** Each class mirrors a source object: `PlyReaderState`, `AttrState`, `EditingViewControl`, `PluginWindow`, `PluginWindows`, `Material` and `MaterialRecord`. Their methods update its fields.
- **Each method is proved against a value-level function.** Examples are `Register`, `WriteResult`, `AfterReset`, `GeometryNames` and `Converted`. The properties the source promises are lemmas about those functions.
- **Reader cursors write into arrays.** The heap-level reader keeps one `array<real>` per tensor. `Mirrors` ties these arrays to the value-level registration, so a cursor's writes land in the tensor the cloud holds under its key.

## Model

| member | source | states |
|---|---|---|
| PlyTypes.GetDtypeString | cpp/open3d/t/io/file_format/FilePLY.cpp:89-127 | every PLY type has a proper name; the "unknown" fallback is never returned |
| PlyTypes.DtypeStringInjective | cpp/open3d/t/io/file_format/FilePLY.cpp:89-127 | two PLY types with the same name are the same type |
| PlyTypes.GetDtype | cpp/open3d/t/io/file_format/FilePLY.cpp:129-155 | a PLY type maps to Undefined or to one of UInt8, UInt16, Int32, Float32, Float64 |
| PlyTypes.SupportedTypes | cpp/open3d/t/io/file_format/FilePLY.cpp:129-155 | a type is supported exactly when it is one of the nine types the table lists; lists and the other types are Undefined |
| PlyTypes.GetDtypeTable | cpp/open3d/t/io/file_format/FilePLY.cpp:129-155 | for each element type, the exact set of PLY types that produce it, in both directions |
| PlyTypes.GetPlyType | cpp/open3d/t/io/file_format/FilePLY.cpp:324-344 | the declared type is one the reader supports; for the five PLY-exchangeable element types it reads back as that type, and every other element type is declared as double |
| PlyTypes.DtypeRoundTrip | cpp/open3d/t/io/file_format/FilePLY.cpp:324-344 | for the five PLY-exchangeable element types, reading the declared PLY type gives back the element type; every other element type is declared as double |
| PlyTypes.WrittenTypesAreReadable | cpp/open3d/t/io/file_format/FilePLY.cpp:324-344 | every PLY type the writer declares is one the reader supports |
| PlyTypes.ReadWriteReadStable | cpp/open3d/t/io/file_format/FilePLY.cpp:129-155 | read, then write, then read again gives the element type of the first read |
| PlyTypes.GetPlyTypeDeadBranches | cpp/open3d/t/io/file_format/FilePLY.cpp:324-344 | the writer never declares `uchar` or `float`, because the tests that would return them repeat earlier tests |
| PlyReader.PropertyLayout | cpp/open3d/t/io/file_format/FilePLY.cpp:226-296 | stride 3 exactly for x/y/z, nx/ny/nz and red/green/blue, whose tensor key and column reproduce the name; any other name is its own one-column tensor |
| PlyReader.LayoutInjective | cpp/open3d/t/io/file_format/FilePLY.cpp:226-296 | two different property names never share a tensor column |
| PlyReader.Supported | cpp/open3d/t/io/file_format/FilePLY.cpp:204-208 | the properties that get a callback are exactly those of a supported type |
| PlyReader.StepAsWritten | cpp/open3d/t/io/file_format/FilePLY.cpp:204-301 | one iteration of the property loop as written keeps the registration well formed |
| PlyReader.RegisterAsWritten | cpp/open3d/t/io/file_format/FilePLY.cpp:199-305 | the property loop as written, one StepAsWritten per property in header order; its registrations stay well formed (RegisterRefinesAsWritten relates it to Register) |
| PlyReader.MixesComponentTypes | cpp/open3d/t/io/file_format/FilePLY.cpp:226-244 | the first corrected check: a component property whose key's tensor already exists with another element type |
| PlyReader.ShadowsTensor | cpp/open3d/t/io/file_format/FilePLY.cpp:286-296 | the second corrected check: a supported property whose tensor key already names a tensor it must not share, namely a one-column name already in the cloud, or a component key naming an earlier one-column tensor |
| PlyReader.Step | cpp/open3d/t/io/file_format/FilePLY.cpp:199-305 | the corrected iteration accepts only what the as-written iteration accepts, and then produces the same registration; it also refuses a component whose tensor was allocated with another element type, a one-column property whose name is already a tensor key, and a component whose key names an earlier one-column tensor |
| PlyReader.StepRefusals | cpp/open3d/t/io/file_format/FilePLY.cpp:204-301 | each corrected check refuses, with its own error, a property the loop as written accepts; when neither applies the corrected iteration is the one as written |
| PlyReader.Register | cpp/open3d/t/io/file_format/FilePLY.cpp:199-305 | the corrected loop, one Step per property; its registrations stay well formed, and RegisterSound, RegisterRefinesAsWritten, RegisterLayout and RegisterErrPersists state its properties |
| PlyReader.StepEarlyExits | cpp/open3d/t/io/file_format/FilePLY.cpp:204-223 | an unsupported property is skipped without change; a supported property whose size differs from the element's is an error |
| PlyReader.StepSound | cpp/open3d/t/io/file_format/FilePLY.cpp:226-296 | an accepted iteration keeps every cursor bound to the cloud's current tensor, with that tensor's element type and column count |
| PlyReader.RegisterSound | cpp/open3d/t/io/file_format/FilePLY.cpp:199-305 | every cursor the corrected loop registers is sound |
| PlyReader.RegisterRefinesAsWritten | cpp/open3d/t/io/file_format/FilePLY.cpp:199-305 | when the corrected loop accepts, it registers exactly what the loop as written registers |
| PlyReader.RegisterLayout | cpp/open3d/t/io/file_format/FilePLY.cpp:210-301 | cursor k serves the k-th supported property, with that property's layout and dtype |
| PlyReader.RegisterErrPersists | cpp/open3d/t/io/file_format/FilePLY.cpp:218-223 | once a prefix of the properties is refused, the whole read is refused with the same error |
| PlyReader.WriteIndexBound | cpp/open3d/t/io/file_format/FilePLY.cpp:74-77 | the callback's write index `stride*current + offset` stays inside the `stride*size` values of its tensor |
| PlyReader.CallbackTable | cpp/open3d/t/io/file_format/FilePLY.cpp:212-217 | the k-th read callback is registered for the k-th supported property under id k |
| PlyReader.MixedTypesAsWritten | cpp/open3d/t/io/file_format/FilePLY.cpp:226-244 | x as float and y as double: as written, y's cursor writes doubles into the Float32 positions tensor; the corrected loop refuses |
| PlyReader.ShadowedPositionsAsWritten | cpp/open3d/t/io/file_format/FilePLY.cpp:286-296 | x, then a property named "positions", then y: as written, x's cursor is left on a replaced tensor and y writes three columns into a one-column one; the corrected loop refuses |
| PlyReader.PositionsThenXAsWritten | cpp/open3d/t/io/file_format/FilePLY.cpp:286-296 | a property named "positions" and then x: as written, x allocates a new three-column positions tensor and the "positions" property's cursor is left on the replaced one; the corrected loop refuses |
| PlyReader.LonePositionsRead | cpp/open3d/t/io/file_format/FilePLY.cpp:286-296 | a lone float property named "positions" is accepted as one one-column tensor under that name |
| PlyReader.FirstPositionRegistered | cpp/open3d/t/io/file_format/FilePLY.cpp:226-244 | x alone registers one cursor at column 0 of a fresh three-column Float32 positions tensor |
| PlyReader.AttrState.constructor | cpp/open3d/t/io/file_format/FilePLY.cpp:45-52 | a cursor starts empty, with its stride and offset inside its buffer |
| PlyReader.Recorded | cpp/open3d/t/io/file_format/FilePLY.cpp:300 | inserting under a name keeps a cursor already recorded there and records a new name |
| PlyReader.RegisteredComplete | cpp/open3d/t/io/file_format/FilePLY.cpp:197-305 | after the last property, the heap holds exactly the registration, callbacks and names of `Register` |
| PlyReader.PlyReaderState.constructor | cpp/open3d/t/io/file_format/FilePLY.cpp:44-60 | the reader state starts with no cursors |
| PlyReader.PlyReaderState.ReadAttributeCallback | cpp/open3d/t/io/file_format/FilePLY.cpp:62-85 | a full cursor refuses (0) and nothing changes; otherwise it accepts (1), stores the value at `stride*current + offset`, advances by one, and touches no other value or cursor |
| PlyReader.PlyReaderState.Push | cpp/open3d/t/io/file_format/FilePLY.cpp:300-301 | the cursor is appended under the next id and recorded under its name only if that name is new |
| PlyReader.PlyReaderState.Attach | cpp/open3d/t/io/file_format/FilePLY.cpp:210-301 | the new cursor is appended under the next id, and the heap then mirrors one more property of `Register`, with the callback for it recorded |
| PlyReader.PlyReaderState.RegisterNext | cpp/open3d/t/io/file_format/FilePLY.cpp:199-305 | one iteration: on error the loop's value is that error and nothing changes; otherwise the heap mirrors one more property of `Register` |
| PlyReader.PlyReaderState.RegisterSupported | cpp/open3d/t/io/file_format/FilePLY.cpp:210-301 | a supported property of the right size gets a fresh cursor appended under the next id, or the error `Register` gives |
| PlyReader.PlyReaderState.RegisterProperties | cpp/open3d/t/io/file_format/FilePLY.cpp:197-305 | implements the corrected checks: the loop fails exactly when `Register` does, with its error; on success the cursors mirror `Register`, the callback table is `CallbackTable` of the supported properties, and the names recorded are theirs |
| PlyReader.PlyReaderState.RegisterPrefix | cpp/open3d/t/io/file_format/FilePLY.cpp:199-305 | the loop stops at the first refused property i, and `Register` of the first i+1 properties gives that error; otherwise it runs to the end; either way the heap mirrors `Register` of the properties processed, with fresh cursors and distinct fresh tensors |
| PlyReader.PlyReaderState.Read | cpp/open3d/t/io/file_format/FilePLY.cpp:311-316 | callbacks are delivered in order until one is refused; a refusal comes from a full cursor; each cursor advances by the number of accepted invocations that carry its id; with disjoint cursors, the j-th value delivered to id k is at `stride*j + offset` of its tensor, and every other entry of every tensor keeps its old value |
| PlyReader.PlyReaderState.Deliver | cpp/open3d/t/io/file_format/FilePLY.cpp:62-85 | one callback: a refusal comes from a full cursor and keeps the progress of the invocations before it; an acceptance extends the progress by that invocation |
| PlyReader.ReadRegistered | cpp/open3d/t/io/file_format/FilePLY.cpp:311-316 | the read is aborted exactly when some id is delivered more often than the element has points; otherwise the cloud is returned and, with disjoint cursors, holds each id's delivered values in its column |
| PlyReader.FilledFromCursors | cpp/open3d/t/io/file_format/FilePLY.cpp:62-85 | when every cursor started empty on the cloud's tensor, the progress of the read means each tensor column holds the values delivered to its cursor |
| PlyReader.RegisterSlotsDisjoint | cpp/open3d/t/io/file_format/FilePLY.cpp:226-296 | when the supported property names are distinct, no two cursors of an accepted registration write the same entry |
| PlyReader.MirrorsDisjoint | cpp/open3d/t/io/file_format/FilePLY.cpp:226-296 | cursors mirroring disjoint slots over distinct tensors never write the same array entry |
| PlyReader.CountIdPrefix | cpp/open3d/t/io/file_format/FilePLY.cpp:311-316 | a prefix of the invocations carries an id no more often than all of them |
| PlyReader.ComponentStepMirrors | cpp/open3d/t/io/file_format/FilePLY.cpp:226-285 | a component property's cursor, bound to its key's three-column tensor, extends the mirror of the registration |
| PlyReader.CustomStepMirrors | cpp/open3d/t/io/file_format/FilePLY.cpp:286-296 | a one-column property that shadows nothing extends the mirror with a fresh tensor |
| PlyReader.NewCursor | cpp/open3d/t/io/file_format/FilePLY.cpp:210-299 | the new cursor is created exactly when the corrected iteration accepts, and is bound to the tensor that iteration registers |
| PlyReader.VertexElementIndex | cpp/open3d/t/io/file_format/FilePLY.cpp:174-191 | the first element named "vertex"; None exactly when there is none |
| PlyReader.FindVertexElement | cpp/open3d/t/io/file_format/FilePLY.cpp:174-191 | the element loop finds the first "vertex" element |
| PlyReader.ReadPointCloudFromPly | cpp/open3d/t/io/file_format/FilePLY.cpp:157-322 | implements the corrected checks: an open failure, a header failure, no vertex element and a refused property are each reported; the read is aborted exactly when some id is delivered more often than the element has points; on success the cloud has the registered keys, element types and column counts, with `cols * size` values each, and (for distinct property names) each cursor's tensor column holds the values delivered to it, in order |
| PlyReader.ReadVertexElement | cpp/open3d/t/io/file_format/FilePLY.cpp:197-322 | the vertex element's properties are registered and then read: `Register`'s error, or an abort exactly when an id is delivered too often, or the cloud with the registered shapes and the delivered values |
| PlyWriter.TwoColumnPositionsAsWritten | cpp/open3d/t/io/file_format/FilePLY.cpp:371-391 | a one-point cloud with two-column positions passes the check as written, yet the write loop would read three values; the corrected check refuses it |
| PlyWriter.HasAttr | cpp/open3d/t/io/file_format/FilePLY.cpp:415-428 | `HasPointAttr`: the cloud has an attribute under the key with at least one row |
| PlyWriter.IsEmpty | cpp/open3d/t/io/file_format/FilePLY.cpp:360-363 | `IsEmpty()`: the cloud is not empty exactly when it has a positions attribute with at least one row |
| PlyWriter.NumPoints | cpp/open3d/t/io/file_format/FilePLY.cpp:367-368 | the number of points is positive and is the length of the positions attribute |
| PlyWriter.AdmittedAsWritten | cpp/open3d/t/io/file_format/FilePLY.cpp:371-391 | the per-attribute check as written: length only for positions, normals and colors, shape (num_points, 1) otherwise; every attribute the corrected check admits passes it |
| PlyWriter.AcceptedAsWritten | cpp/open3d/t/io/file_format/FilePLY.cpp:360-391 | the validation as written accepts the cloud; every cloud the corrected validation accepts is accepted by it |
| PlyWriter.FirstMismatch | cpp/open3d/t/io/file_format/FilePLY.cpp:371-391 | the first attribute in map order that lacks shape (num_points, group size); every attribute before it has that shape |
| PlyWriter.Validate | cpp/open3d/t/io/file_format/FilePLY.cpp:360-391 | implements the corrected check: an empty cloud is refused; otherwise the first attribute without shape (num_points, group size) is reported, or the number of points is returned |
| PlyWriter.FirstMismatchIs | cpp/open3d/t/io/file_format/FilePLY.cpp:371-391 | the loop's first refused attribute is `FirstMismatch` |
| PlyWriter.Extras | cpp/open3d/t/io/file_format/FilePLY.cpp:441-452 | the extra attributes are attributes of the cloud, none of them positions, normals or colors (see ExtrasComplete for the converse) |
| PlyWriter.ReservedOrder | cpp/open3d/t/io/file_format/FilePLY.cpp:406-439 | positions come first, followed only by attributes of the cloud (see ReservedOrderExact for which ones) |
| PlyWriter.WriteOrder | cpp/open3d/t/io/file_format/FilePLY.cpp:406-452 | the write order starts with positions and contains only attributes of the cloud (see WriteOrderPermutation for the converse) |
| PlyWriter.LookupFinds | cpp/open3d/t/io/file_format/FilePLY.cpp:406-439 | an attribute of the cloud is what looking up its key finds |
| PlyWriter.ExtrasComplete | cpp/open3d/t/io/file_format/FilePLY.cpp:441-452 | an attribute is an extra exactly when it is an attribute of the cloud not named positions, normals or colors |
| PlyWriter.ExtrasConcat | cpp/open3d/t/io/file_format/FilePLY.cpp:441-452 | the extras of two attribute lists are the extras of each, in order |
| PlyWriter.ReservedOrderExact | cpp/open3d/t/io/file_format/FilePLY.cpp:406-439 | an attribute is written as reserved exactly when it is positions, normals or colors of the cloud and present |
| PlyWriter.WriteOrderComplete | cpp/open3d/t/io/file_format/FilePLY.cpp:406-452 | for a validated cloud, an attribute is in the write order exactly when it is an attribute of the cloud |
| PlyWriter.WriteOrderPermutation | cpp/open3d/t/io/file_format/FilePLY.cpp:406-452 | for a validated cloud, the write order is a permutation of the attributes: each is written exactly once |
| PlyWriter.SameElementsPermutation | cpp/open3d/t/io/file_format/FilePLY.cpp:406-452 | two lists with distinct keys and the same members are permutations of each other |
| PlyWriter.AttributePtrs | cpp/open3d/t/io/file_format/FilePLY.cpp:406-452 | one `attribute_ptrs` entry per attribute of the write order, in that order |
| PlyWriter.PropertyNames | cpp/open3d/t/io/file_format/FilePLY.cpp:406-452 | an attribute declares as many properties as its group size |
| PlyWriter.PointValuesIndex | cpp/open3d/t/io/file_format/FilePLY.cpp:463-473 | within point i's record, column c of attribute j sits after the columns of the attributes before j and is `data[g*i + c]` |
| PlyWriter.EmittedLength | cpp/open3d/t/io/file_format/FilePLY.cpp:463-478 | n points write n times the sum of the group sizes |
| PlyWriter.EmittedIndex | cpp/open3d/t/io/file_format/FilePLY.cpp:463-478 | value c of attribute j for point i is written at `i*Width + Width(before j) + c` |
| PlyWriter.HeaderLength | cpp/open3d/t/io/file_format/FilePLY.cpp:406-452 | the header declares exactly one property per written column |
| PlyWriter.HeaderIndex | cpp/open3d/t/io/file_format/FilePLY.cpp:406-452 | property c of attribute j is declared at the same offset as its values in each record, with the PLY type of the attribute's dtype |
| PlyWriter.DeclaredLayout | cpp/open3d/t/io/file_format/FilePLY.cpp:406-439 | a written property is read back into the same tensor and column, unless an extra attribute is named like a component |
| PlyWriter.AdmittedFits | cpp/open3d/t/io/file_format/FilePLY.cpp:371-391 | once the corrected check passes, every attribute of the write order holds its group of values for every point |
| PlyWriter.Declare | cpp/open3d/t/io/file_format/FilePLY.cpp:406-452 | the declarations build the `attribute_ptrs` entries and the header of the write order |
| PlyWriter.DeclareReserved | cpp/open3d/t/io/file_format/FilePLY.cpp:406-439 | positions as x, y, z, then normals and colors when present |
| PlyWriter.DeclareExtras | cpp/open3d/t/io/file_format/FilePLY.cpp:441-452 | every other attribute, in map order, as one property named after its key |
| PlyWriter.ExtrasStep | cpp/open3d/t/io/file_format/FilePLY.cpp:442-451 | a reserved key is skipped; any other key adds one property and one `attribute_ptrs` entry |
| PlyWriter.Emit | cpp/open3d/t/io/file_format/FilePLY.cpp:463-478 | the nested loop writes the records of all points, one after the other |
| PlyWriter.EmitPoint | cpp/open3d/t/io/file_format/FilePLY.cpp:464-473 | the values of one point: each attribute's group, in order |
| PlyWriter.WritePointCloudToPly | cpp/open3d/t/io/file_format/FilePLY.cpp:357-483 | implements the corrected check: the method returns the value-level result of the checks in order, then the header and the values |
| PlyWriter.WriteResult | cpp/open3d/t/io/file_format/FilePLY.cpp:357-483 | the write succeeds exactly when the cloud is non-empty, every attribute passes the corrected check, and the file could be created and its header written; a success also passes the check as written and records the number of points; a mismatch names an attribute that fails the check |
| PlyWriter.WriteSucceeded | cpp/open3d/t/io/file_format/FilePLY.cpp:357-483 | a successful write had a non-empty cloud whose attributes all passed, and it returns the header and values of the write order |
| PlyWriter.WrittenHeader | cpp/open3d/t/io/file_format/FilePLY.cpp:406-458 | on success, column c of attribute j is declared with the attribute's property name and the PLY type of its dtype |
| PlyWriter.SucceededHeader | cpp/open3d/t/io/file_format/FilePLY.cpp:454-458 | on success the written header is the header of the write order |
| PlyWriter.WrittenValues | cpp/open3d/t/io/file_format/FilePLY.cpp:463-478 | on success there is one record of `|header|` values per point, and the value under column c of attribute j for point i is that tensor's `data[g*i + c]` |
| PlyWriter.RecordLayout | cpp/open3d/t/io/file_format/FilePLY.cpp:406-478 | for every point, header position and value position agree: each value is written under the property that declares it |
| ViewControlEditing.ModeAxis | cpp/open3d/visualization/visualizer/ViewControlWithEditing.cpp:40-64 | each orthogonal mode looks along one of the three coordinate axes |
| ViewControlEditing.OrthoAxes | cpp/open3d/visualization/visualizer/ViewControlWithEditing.cpp:40-64 | in every orthogonal mode, front is the signed unit vector of the mode's axis, up is a unit axis, and up is orthogonal to front |
| ViewControlEditing.OrientedView | cpp/open3d/visualization/visualizer/ViewControlWithEditing.cpp:37-39 | an orthogonal reset sets the minimum field of view and the default zoom, looks at the bounding-box centre, and changes nothing else but up and front |
| ViewControlEditing.OrientedAxes | cpp/open3d/visualization/visualizer/ViewControlWithEditing.cpp:36-68 | the camera an orthogonal reset projects looks along the mode's axis, with a unit up orthogonal to front |
| ViewControlEditing.OrthoRotateAssignsOnlyUp | cpp/open3d/visualization/visualizer/ViewControlWithEditing.cpp:94-107 | an orthogonal rotation assigns only up and keeps front; a drag near the window centre assigns nothing before the projection |
| ViewControlEditing.LockedIgnoresEverything | cpp/open3d/visualization/visualizer/ViewControlWithEditing.cpp:32-123 | a locked camera ignores Reset, ChangeFieldOfView, Scale, Rotate, Translate and SetEditingMode |
| ViewControlEditing.OperationsKeepLockAndBackup | cpp/open3d/visualization/visualizer/ViewControlWithEditing.cpp:32-120 | no camera operation changes the lock, the mode or the saved free view |
| ViewControlEditing.OrthoFieldOfViewLocked | cpp/open3d/visualization/visualizer/ViewControlWithEditing.cpp:72-79 | in an orthogonal mode the field of view does not change |
| ViewControlEditing.SetEditingModeRules | cpp/open3d/visualization/visualizer/ViewControlWithEditing.cpp:122-133 | the mode becomes the one asked for; leaving the free camera saves its view; returning to it restores the saved view; entering an orthogonal mode resets the camera to that mode |
| ViewControlEditing.OrthoSwitchesKeepBackup | cpp/open3d/visualization/visualizer/ViewControlWithEditing.cpp:122-133 | switching among orthogonal modes keeps the saved free view and ends in the last mode |
| ViewControlEditing.FreeViewRestored | cpp/open3d/visualization/visualizer/ViewControlWithEditing.cpp:122-133 | leaving the free camera, visiting orthogonal modes and returning restores the free view that was left |
| ViewControlEditing.StatusShowsLock | cpp/open3d/visualization/visualizer/ViewControlWithEditing.cpp:154 | the status ends with the lock suffix exactly when the camera is locked |
| ViewControlEditing.StatusNamesAxis | cpp/open3d/visualization/visualizer/ViewControlWithEditing.cpp:136-154 | with the same lock, two statuses are equal exactly when both modes are free or both look along the same axis |
| ViewControlEditing.AfterReset | cpp/open3d/visualization/visualizer/ViewControlWithEditing.cpp:32-70 | only the camera changes; a locked camera is kept; the free camera gets the base reset, and an orthogonal mode projects its oriented view |
| ViewControlEditing.AfterChangeFieldOfView | cpp/open3d/visualization/visualizer/ViewControlWithEditing.cpp:72-79 | only the camera changes, and only for an unlocked free camera |
| ViewControlEditing.AfterScale | cpp/open3d/visualization/visualizer/ViewControlWithEditing.cpp:81-88 | only the camera changes, and a locked camera is kept |
| ViewControlEditing.AfterRotate | cpp/open3d/visualization/visualizer/ViewControlWithEditing.cpp:90-108 | only the camera changes; a locked camera is kept; in an orthogonal mode the camera projected is the old one with only up turned |
| ViewControlEditing.AfterTranslate | cpp/open3d/visualization/visualizer/ViewControlWithEditing.cpp:110-120 | only the camera changes, and a locked camera is kept |
| ViewControlEditing.AfterSetEditingMode | cpp/open3d/visualization/visualizer/ViewControlWithEditing.cpp:122-133 | a locked camera is kept; otherwise the mode becomes the one asked for, the camera stays unlocked, and the saved view changes only when FreeMode is left |
| ViewControlEditing.StatusString | cpp/open3d/visualization/visualizer/ViewControlWithEditing.cpp:135-155 | a locked camera's status ends with the lock suffix; an unlocked one's is the mode's name alone |
| ViewControlEditing.EditingViewControl.Reset | cpp/open3d/visualization/visualizer/ViewControlWithEditing.cpp:32-70 | the new state is `AfterReset` of the old one |
| ViewControlEditing.EditingViewControl.ChangeFieldOfView | cpp/open3d/visualization/visualizer/ViewControlWithEditing.cpp:72-79 | the new state is `AfterChangeFieldOfView` of the old one |
| ViewControlEditing.EditingViewControl.Scale | cpp/open3d/visualization/visualizer/ViewControlWithEditing.cpp:81-88 | the new state is `AfterScale` of the old one |
| ViewControlEditing.EditingViewControl.Rotate | cpp/open3d/visualization/visualizer/ViewControlWithEditing.cpp:90-108 | the new state is `AfterRotate` of the old one |
| ViewControlEditing.EditingViewControl.Translate | cpp/open3d/visualization/visualizer/ViewControlWithEditing.cpp:110-120 | the new state is `AfterTranslate` of the old one |
| ViewControlEditing.EditingViewControl.SetEditingMode | cpp/open3d/visualization/visualizer/ViewControlWithEditing.cpp:122-133 | the new state is `AfterSetEditingMode` of the old one |
| ViewControlEditing.EditingViewControl.GetStatusString | cpp/open3d/visualization/visualizer/ViewControlWithEditing.cpp:135-155 | the status ends with ", lock camera for editing" exactly when the camera is locked |
| TensorboardPlugin.EventsOf | python/open3d/visualization/tensorboard_plugin/plugin.py:115-122 | the run's events are keyed by exactly the run's tags |
| TensorboardPlugin.Keep | python/open3d/visualization/tensorboard_plugin/plugin.py:298-306 | the filtered tags are exactly those in both lists, and there are no more of them than before; the order and repeats are stated by KeepConcat and KeepSingle |
| TensorboardPlugin.KeepConcat | python/open3d/visualization/tensorboard_plugin/plugin.py:298-306 | filtering a concatenation filters each part in turn, so the comprehension keeps the order and the repeats of the first list |
| TensorboardPlugin.KeepSingle | python/open3d/visualization/tensorboard_plugin/plugin.py:298-306 | a single tag is kept exactly when the run has it |
| TensorboardPlugin.Without | python/open3d/visualization/tensorboard_plugin/plugin.py:409-421 | exactly the names of the first list that are not in the second, no more of them; the order is stated by WithoutConcat and WithoutSingle |
| TensorboardPlugin.WithoutConcat | python/open3d/visualization/tensorboard_plugin/plugin.py:406-421 | filtering a concatenation filters each part in turn, so the filter keeps the order of the first list |
| TensorboardPlugin.WithoutSingle | python/open3d/visualization/tensorboard_plugin/plugin.py:406-421 | a single name is kept exactly when it is not in the second list |
| TensorboardPlugin.StepIndex | python/open3d/visualization/tensorboard_plugin/plugin.py:314-317 | each step maps to an event with that step, and no later event has it |
| TensorboardPlugin.StepIndexKeys | python/open3d/visualization/tensorboard_plugin/plugin.py:314-317 | the index holds exactly the events' steps |
| TensorboardPlugin.StepLimits | python/open3d/visualization/tensorboard_plugin/plugin.py:318 | the step limits are steps of the index, and every step lies between them |
| TensorboardPlugin.NatDigits | python/open3d/visualization/tensorboard_plugin/plugin.py:411 | a natural number renders as a non-empty string of decimal digits |
| TensorboardPlugin.NatDigitsValue | python/open3d/visualization/tensorboard_plugin/plugin.py:411 | reading the digits back gives the number, and only 0 renders with a leading zero |
| TensorboardPlugin.GeometryName | python/open3d/visualization/tensorboard_plugin/plugin.py:411 | the name begins with the run and a slash, followed by the tag |
| TensorboardPlugin.GeometryNames | python/open3d/visualization/tensorboard_plugin/plugin.py:410-412 | one name per tag, in tag order |
| TensorboardPlugin.GeometryNameInjective | python/open3d/visualization/tensorboard_plugin/plugin.py:411 | with run, batch index and step fixed, the name determines the tag |
| TensorboardPlugin.GeometryNamesDistinct | python/open3d/visualization/tensorboard_plugin/plugin.py:410-412 | distinct tags give distinct names |
| TensorboardPlugin.SceneDiff | python/open3d/visualization/tensorboard_plugin/plugin.py:406-421 | every wanted name is added or was already shown; nothing shown is added again; exactly the shown names no longer wanted are removed |
| TensorboardPlugin.Truncate | python/open3d/visualization/tensorboard_plugin/plugin.py:548-551 | `int(float(...))`: a truncation toward zero, at most one unit from the real and never further from zero |
| TensorboardPlugin.Clamp | python/open3d/visualization/tensorboard_plugin/plugin.py:548-551 | the result lies within the bounds; a value inside them is kept; one below or above becomes the bound |
| TensorboardPlugin.WindowSize | python/open3d/visualization/tensorboard_plugin/plugin.py:548-551 | a window is 640 to 3840 wide and 480 to 2400 high |
| TensorboardPlugin.WindowSizeGranted | python/open3d/visualization/tensorboard_plugin/plugin.py:548-551 | a size inside the limits is granted as asked; the default is 1024 by 768 |
| TensorboardPlugin.PluginWindows.constructor | python/open3d/visualization/tensorboard_plugin/plugin.py:489 | the plugin starts with no windows |
| TensorboardPlugin.PluginWindows.NewWindow | python/open3d/visualization/tensorboard_plugin/plugin.py:546-557 | the new window gets the clamped size and is registered under its id |
| TensorboardPlugin.PluginWindows.CloseWindow | python/open3d/visualization/tensorboard_plugin/plugin.py:567-581 | an unknown id is refused and changes nothing; a known one is removed and nothing else changes |
| TensorboardPlugin.FewerSteps | python/open3d/visualization/tensorboard_plugin/plugin.py:175-181 | an earlier step has fewer known steps at or before it, which bounds the recursion |
| TensorboardPlugin.MaxDepthBound | python/open3d/visualization/tensorboard_plugin/plugin.py:173-187 | the depth of a geometry's references is bounded when each reference's depth is |
| TensorboardPlugin.ReadGeometry | python/open3d/visualization/tensorboard_plugin/plugin.py:124-188 | an unknown step is an error; otherwise every reference read is to a known, strictly earlier step, and the chain of references is no longer than the number of known steps up to this one |
| TensorboardPlugin.ReadReferences | python/open3d/visualization/tensorboard_plugin/plugin.py:173-187 | references to the same or a later step are ignored; the others are read, each from an earlier known step (see ReadReferencesInOrder for which values) |
| TensorboardPlugin.ReadReferencesInOrder | python/open3d/visualization/tensorboard_plugin/plugin.py:173-187 | the loop succeeds exactly when every earlier reference can be read; then it returns one geometry per earlier reference, in order, each the one read for it; otherwise it fails with the error of the first reference that cannot be read |
| TensorboardPlugin.ReadReferencesOk | python/open3d/visualization/tensorboard_plugin/plugin.py:173-187 | a successful loop returns, in order, the geometry read for each earlier reference |
| TensorboardPlugin.ReadReferencesAllOk | python/open3d/visualization/tensorboard_plugin/plugin.py:173-187 | when every earlier reference can be read, the loop succeeds |
| TensorboardPlugin.ReadReferencesErr | python/open3d/visualization/tensorboard_plugin/plugin.py:173-187 | a failing loop fails with the error of the first earlier reference that cannot be read |
| TensorboardPlugin.NamesToShow | python/open3d/visualization/tensorboard_plugin/plugin.py:407-415 | the first loop builds the new names and adds those not shown yet |
| TensorboardPlugin.NamesToRemove | python/open3d/visualization/tensorboard_plugin/plugin.py:416-421 | the second loop removes the shown names no longer wanted |
| TensorboardPlugin.PluginWindow.constructor | python/open3d/visualization/tensorboard_plugin/plugin.py:208-226 | the initial selection, with nothing shown |
| TensorboardPlugin.PluginWindow.ValidateRun | python/open3d/visualization/tensorboard_plugin/plugin.py:281-290 | the selected run if known, else the current run if known, else the first run; with no runs at all it fails and nothing changes |
| TensorboardPlugin.PluginWindow.ValidateTags | python/open3d/visualization/tensorboard_plugin/plugin.py:292-318 | the known selected tags, else the known current tags, else the run's first tag; the step index and limits come from the first tag's events, and an empty event list fails after the index is emptied |
| TensorboardPlugin.PluginWindow.ValidateStep | python/open3d/visualization/tensorboard_plugin/plugin.py:320-337 | the selected step if indexed, else the current step if indexed, else the first step; indexed exactly when it succeeds; the event, wall time and batch size read are those of that step |
| TensorboardPlugin.PluginWindow.ValidateBatchIdx | python/open3d/visualization/tensorboard_plugin/plugin.py:339-349 | the selected index if within the batch, else the current one if it is, else 0 |
| TensorboardPlugin.PluginWindow.UpdateScene | python/open3d/visualization/tensorboard_plugin/plugin.py:406-423 | one geometry per tag is shown; the names added are those new, and the names removed are those no longer wanted |
| Rendering.TextureKeysDistinct | cpp/open3d/visualization/rendering/Material.cpp:104-143 | different texture maps have different keys |
| Rendering.Converted | cpp/open3d/visualization/rendering/Material.cpp:61-144 | the shader is the material's name, and an empty material changes nothing else; ConvertedScalar, ConvertedImage and ConvertedColours give each field |
| Rendering.ConvertedScalar | cpp/open3d/visualization/rendering/Material.cpp:67-101 | each scalar field of the record takes the material's property when the material has it and keeps its value otherwise |
| Rendering.ConvertedImage | cpp/open3d/visualization/rendering/Material.cpp:104-143 | each texture field of the record takes the material's map when the material has it and keeps its value otherwise |
| Rendering.ConvertedColours | cpp/open3d/visualization/rendering/Material.cpp:62-93 | the shader is the material's name; the base colour is copied whole; the absorption colour keeps the first three components |
| Rendering.ConvertedEmpty | cpp/open3d/visualization/rendering/Material.cpp:61-144 | a material with no properties and no maps only sets the shader |
| Rendering.ConvertedIdempotent | cpp/open3d/visualization/rendering/Material.cpp:61-144 | converting twice is converting once |
| Rendering.WithDefaults | cpp/open3d/visualization/rendering/Material.cpp:35-50 | the name is "defaultUnlit"; each default scalar takes its default value, every other scalar is kept, and no key is dropped; both colours become white and every other vector is kept; the texture maps are kept |
| Rendering.DefaultsKept | cpp/open3d/visualization/rendering/Material.cpp:35-50 | after the defaults, the shader is "defaultUnlit", every scalar property holds its value of `DefaultScalars`, both colours are set, every other vector is kept, no key is dropped, and the texture maps are kept |
| Rendering.DefaultsIdempotent | cpp/open3d/visualization/rendering/Material.cpp:35-50 | setting the defaults twice is setting them once |
| Rendering.DefaultRecord | cpp/open3d/visualization/rendering/Material.cpp:35-102 | a defaulted material converts to the default values whatever the record held before; only the texture fields depend on the record |
| Rendering.TextureShown | cpp/open3d/visualization/rendering/Material.cpp:52-59 | after setting one map, the record shows the new image in that map's field, and every other map converts as before |
| Rendering.Material.SetDefaultProperties | cpp/open3d/visualization/rendering/Material.cpp:35-50 | the new material is `WithDefaults` of the old one |
| Rendering.Material.SetTextureMap | cpp/open3d/visualization/rendering/Material.cpp:52-59 | the map is stored under its key and nothing else changes |
| Rendering.Material.ToMaterialRecord | cpp/open3d/visualization/rendering/Material.cpp:61-144 | the material is left alone and the record becomes `Converted` of the old record |

## Left out

- **Value types and I/O.**
  - rply itself is not modelled: file parsing, encodings and `ply_write`. A file is a `PlyFile` value, and `ply_read` is the sequence of (id, value) callback invocations it makes. The writer's output is the header and the value sequence.
  - Values are `real`. The `static_cast<T>` to the element type and the typed dispatch `DISPATCH_DTYPE_TO_TEMPLATE` are not modelled.
  - `Material` payloads are `real`, and images are values: the CPU copy of `SetTextureMap` and `ToLegacy` are plain copies.
  - The plugin's event files, protobuf and msgpack parsing, caches, locks, the asynchronous GUI calls and the HTTP layer are left out. The run-to-tags map and the tensor events are an `EventData` value; `reload_events` is left out.
- **Progress reporting.**
  - The progress reporters of the reader and writer are left out.
  - In `ReadAttributeCallback`, the progress update runs only when `stride_ == 0`. Registered strides are 1 or 3, so that branch is dead (a literal `assert false` in the model).
- **The base ViewControl.**
  - Its operations (`Reset`, `ChangeFieldOfView`, `Scale`, `Rotate`, `Translate`, `SetProjectionParameters`, `ConvertTo/FromViewParameters`, the bounding-box centre and the trigonometric turn of `up_`) are injected functions in `BaseView`. ViewControl.cpp is not part of this model, and doubles are `real`.
  - `FIELD_OF_VIEW_MIN` (5) and `ZOOM_DEFAULT` (0.7) are the values ViewControl.cpp gives them; that file is not part of this model.
  - The boolean result of `ConvertFromViewParameters` is ignored, as the source ignores it.
- **Material.h.** It is not part of this model. The property and map keys are written out as constants. Custom properties beyond the named accessors are kept in the maps but not converted, as in the source.
- **Writer details.** A dtype other than the five PLY types is declared as double, as `GetPlyType` does. Products of sizes are `Mul`, so the proofs stay linear.
- **Structure that differs from the source.**
  - The write loop is split into `Emit` and `EmitPoint`.
  - The two loops of `_update_scene` are the module-level methods `NamesToShow` and `NamesToRemove`.
  - `read_geometry` copies property payloads between geometries; that copy is left out. The model records which geometries were read and from which steps.
  - `_new_window`'s `int(float(...))` is truncation toward zero of a real. Strings that do not parse, NaN and infinities are left out.
- **Error paths and postconditions stated weaker.**
  - PlyWriter.Emit: the source's `int idx_offset` (FilePLY.cpp:466-468) is 32-bit and wraps once `group size * num_points` exceeds 2^31 - 1, that is beyond 715,827,882 points of a three-column attribute; the model's indices are unbounded.
  - PlyWriter.EmitPoint: the same 32-bit `idx_offset` wrap-around is not modelled.
  - PlyWriter.Validate: implements the corrected check, which also refuses what the source accepts: positions, normals or colors of shape (n, k) with k != 3 (colors (n, 4), say).
  - PlyWriter.WritePointCloudToPly: implements the corrected check of Validate, so it refuses the same inputs the source writes.
  - PlyReader.Step: implements the corrected iteration, which refuses what the source accepts: `float x` then `double y`; a one-column name repeated; "positions" then "x"; "x", "positions", "y". The as-written behaviour is `StepAsWritten`.
  - PlyReader.PlyReaderState.RegisterProperties: implements the corrected loop, so it refuses the inputs Step refuses.
  - PlyReader.ReadPointCloudFromPly: implements the corrected loop, so it refuses the inputs Step refuses. It also starts from an empty cloud, whereas the source adds to the attributes its argument already holds and never clears them.
  - PlyReader.ReadPointCloudFromPly: the values read (`Filled`) are stated only when the supported property names are distinct; a repeated component name makes two cursors write the same column. The same holds for ReadVertexElement and ReadRegistered.
  - PlyReader.PlyReaderState.RegisterProperties: freshness of the cursors and their arrays is stated only on success.
  - TensorboardPlugin.PluginWindow.ValidateRun: a `StopIteration`, `ValueError` or `KeyError` in the plugin is modelled as `ok == false` with the state the source leaves. The same holds for ValidateTags and ValidateStep.
  - TensorboardPlugin.PluginWindow.UpdateScene: reading the geometries, adding them to the window and redrawing are left out. The method states only the names added and removed. It also always commits the new name list, whereas in the source a `read_geometry` that raises (plugin.py:414) leaves the loop before `self.geometry_list` is assigned (plugin.py:424), so the old list stays.

## Findings

| source | as written | input that shows it | evidently intended | confidence | as-written member | corrected member |
|---|---|---|---|---|---|---|
| cpp/open3d/t/io/file_format/FilePLY.cpp:372-380 | positions, normals and colors are checked by length only, yet the write loop reads three values per point from them | a one-point cloud whose positions tensor has shape (1, 2) | every reserved attribute has shape (num_points, 3), so each point's three values exist | not executed | PlyWriter.TwoColumnPositionsAsWritten | PlyWriter.AdmittedFits |
| cpp/open3d/t/io/file_format/FilePLY.cpp:226-244 | the positions tensor is allocated with the first component's type; later components' callbacks write with their own type | vertex properties `float x` then `double y` | every component of a tensor has the tensor's element type, or the file is refused | not executed | PlyReader.MixedTypesAsWritten | PlyReader.RegisterSound |
| cpp/open3d/t/io/file_format/FilePLY.cpp:286-296 | a one-column property named "positions", "normals" or "colors" replaces the tensor that earlier component cursors point into, and later components write three columns into it | vertex properties `x`, `positions`, `y`; also `positions`, `x` (PlyReader.PositionsThenXAsWritten) | a property never replaces a tensor that a cursor is bound to, and no component key names an earlier one-column tensor, or the file is refused | not executed | PlyReader.ShadowedPositionsAsWritten | PlyReader.RegisterSound |
