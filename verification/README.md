# SketchPad drawing model in Dafny

This project models the core of SketchPad, a JavaFX sketching application. The core has these parts:

- **Paper sizes.** The A3–A6 enum converts millimetres to pixels at 96 dpi.
- **Brush.** Colour and size.
- **Drawing operations.** A dot or a stroke segment. Each one carries its own paint and draws itself onto a graphics context.
- **Operation log (`ProjectContent`).** Append-only until cleared. It is bound to a fixed paper size and is replayed by `render`.
- **Project.** An identity, a name, a paper size and its content.
- **Project registry (`ProjectManager`).**
- **Canvas (`CanvasArea`).** Runs the press/drag/release gesture state machine, which records operations and paints them at once. It also owns the brush, the clear command and the clamped zoom factor.
- **Project dialog.** Its result converter applies the rule that a blank name becomes "Untitled Project".

Everything is modelled as immutable datatypes with pure step functions. The one exception is `getProject`, a method with a loop.

Modelling decisions:

- **Graphics context.** JavaFX's `GraphicsContext` is the record `Graphics.Context`, holding the stroke paint, fill paint, line width and the list of primitives painted so far. It has no pixels. Each primitive records the paint in effect when it was emitted. So the save/set/emit/restore sequence in `draw` can be checked for what it paints and for what state it leaves behind.
- **Coordinates and arithmetic.** Coordinates, sizes and the zoom factor are `real`. The Java uses `double`, so every arithmetic statement here holds in exact arithmetic, for example that `resetZoom` lands on exactly 1.0.
- **Object identity.** `Project` does not override `equals`, so the registry compares projects by object identity. A project's identity is the field `ref`. Creating a project requires a `ref` not already in the registry, as `new` always yields a fresh object; the registry's command sequence allocates one with `FreshRef`. The registry's validity includes that no `ref` appears twice. The random UUID `id` is an opaque input.
- **Mouse-position mapping.** The map from a mouse position to canvas coordinates (`convertToCanvasPoint`) is a function parameter `toCanvas`.
- **Getters and constructors.** The getters `getColor`, `getSize`, `getPaperSize`, `getOperations`, `getName` and `getId` are datatype fields. So are the operation constructors. A `Stroke` holds exactly its six arguments and a `Dot` its four. Datatype values are immutable, so recorded operations can never change.

## Model

| member | source | states |
|---|---|---|
| PaperSizes.AllSizes | src/main/java/com/mykhailozinenko/sketchpad/PaperSize.java:63-65 | the four declared sizes (lines 11-14), each appearing at its declaration position, each strictly larger than the next in both dimensions (so A3, A4, A5, A6 in order) |
| PaperSizes.HalvingChain | src/main/java/com/mykhailozinenko/sketchpad/PaperSize.java:11-14 | each size's height equals the width of the next larger size |
| PaperSizes.Portrait | src/main/java/com/mykhailozinenko/sketchpad/PaperSize.java:11-14 | every size is taller than it is wide |
| PaperSizes.DisplayName | src/main/java/com/mykhailozinenko/sketchpad/PaperSize.java:11-14 | the display name (also what `toString` returns) is "A" followed by the size's digit |
| PaperSizes.DisplayNameInjective | src/main/java/com/mykhailozinenko/sketchpad/PaperSize.java:67-70 | distinct sizes print differently |
| PaperSizes.MmToPixels | src/main/java/com/mykhailozinenko/sketchpad/PaperSize.java:35-37 | positive lengths at a positive resolution give positive pixels; a zero length or resolution gives zero |
| PaperSizes.MmToPixelsMonotonic | src/main/java/com/mykhailozinenko/sketchpad/PaperSize.java:35-37 | the conversion is strictly increasing in the length |
| PaperSizes.WidthInPixels | src/main/java/com/mykhailozinenko/sketchpad/PaperSize.java:42-44 | every pixel width is positive |
| PaperSizes.HeightInPixels | src/main/java/com/mykhailozinenko/sketchpad/PaperSize.java:49-51 | every pixel height is positive |
| PaperSizes.PixelsPreserveOrder | src/main/java/com/mykhailozinenko/sketchpad/PaperSize.java:21-51 | a size larger in millimetres is larger in pixels in both dimensions |
| PaperSizes.A4Pixels | src/main/java/com/mykhailozinenko/sketchpad/PaperSize.java:35-51 | A4 is exactly 793.701216 by 1122.5202912 pixels at 96 dpi |
| Brushes.SetColor | src/main/java/com/mykhailozinenko/sketchpad/BrushSettings.java:18-20 | the colour becomes the argument and the size is unchanged |
| Brushes.SetSize | src/main/java/com/mykhailozinenko/sketchpad/BrushSettings.java:26-28 | the size becomes the argument and the colour is unchanged |
| Brushes.SettersReachAnyBrush | src/main/java/com/mykhailozinenko/sketchpad/BrushSettings.java:9-28 | the two setters together reach any brush, whatever the starting one |
| Brushes.SettersCommute | src/main/java/com/mykhailozinenko/sketchpad/BrushSettings.java:18-28 | the setters touch disjoint fields, so their order does not matter |
| DrawOperations.Draw | src/main/java/com/mykhailozinenko/sketchpad/DrawOperation.java:39-88 | drawing emits exactly the operation's own primitive (a line from start to end in its colour and width, or an oval at (x - size/2, y - size/2) of size by size in its colour) and leaves stroke, fill and line width as they were |
| DrawOperations.DrawIgnoresAmbientPaint | src/main/java/com/mykhailozinenko/sketchpad/DrawOperation.java:39-88 | what an operation paints does not depend on the context's prior paint state |
| DrawOperations.DotCentred | src/main/java/com/mykhailozinenko/sketchpad/DrawOperation.java:77-89 | a dot's oval is centred on the dot, its diameter is the dot's size, and its paint is the dot's colour |
| ProjectContents.New | src/main/java/com/mykhailozinenko/sketchpad/ProjectContent.java:23-26 | a new content has the given paper size and no operations |
| ProjectContents.AddOperation | src/main/java/com/mykhailozinenko/sketchpad/ProjectContent.java:31-33 | appends at the end: one longer, earlier entries unchanged, the new one last, paper size unchanged |
| ProjectContents.Clear | src/main/java/com/mykhailozinenko/sketchpad/ProjectContent.java:38-40 | the log becomes empty whatever its length, and the paper size is unchanged |
| ProjectContents.ReplayedAppend | src/main/java/com/mykhailozinenko/sketchpad/ProjectContent.java:53-55 | replaying a log with one more operation paints the old replay followed by that operation's primitive |
| ProjectContents.ReplayedPointwise | src/main/java/com/mykhailozinenko/sketchpad/ProjectContent.java:53-55 | the i-th primitive of a replay is what the i-th operation paints |
| ProjectContents.DrawAll | src/main/java/com/mykhailozinenko/sketchpad/ProjectContent.java:53-55 | drawing every operation in order paints exactly the replay and leaves the paint state as it was |
| ProjectContents.Render | src/main/java/com/mykhailozinenko/sketchpad/ProjectContent.java:45-56 | rendering paints a white rectangle over the whole canvas, then every operation once in insertion order; stroke and line width are kept and the fill is left white |
| ProjectContents.RenderIsDeterministic | src/main/java/com/mykhailozinenko/sketchpad/ProjectContent.java:45-56 | two renders of the same content paint the same primitives, whatever state the context was in |
| ProjectContents.RenderAfterClearIsBlank | src/main/java/com/mykhailozinenko/sketchpad/ProjectContent.java:38-56 | after a clear, a render paints only the blank white page |
| ProjectContents.PaperSizeFixed | src/main/java/com/mykhailozinenko/sketchpad/ProjectContent.java:18-63 | no sequence of appends and clears changes the paper size |
| ProjectContents.AppendOnlyBetweenClears | src/main/java/com/mykhailozinenko/sketchpad/ProjectContent.java:31-33 | without a clear, the log after any appends is the old log followed by the appended operations |
| Projects.NewDefault | src/main/java/com/mykhailozinenko/sketchpad/Project.java:25-32 | the default project is named "Untitled Project", is A4, and has an empty A4 content |
| Projects.NewNamed | src/main/java/com/mykhailozinenko/sketchpad/Project.java:37-42 | a named project has that name and size, and an empty content of that size |
| Projects.SetName | src/main/java/com/mykhailozinenko/sketchpad/Project.java:54-57 | only the name changes; identity, paper size and content are kept |
| Projects.SetPaperSize | src/main/java/com/mykhailozinenko/sketchpad/Project.java:68-71 | only the recorded size changes, so the project stays coherent exactly when the new size is the content's own |
| Projects.AddDrawOperation | src/main/java/com/mykhailozinenko/sketchpad/Project.java:99-102 | the operation is appended to the content log and nothing else changes |
| Projects.ClearContent | src/main/java/com/mykhailozinenko/sketchpad/Project.java:107-110 | the content log becomes empty and nothing else changes |
| Projects.ToStringShowsLatestName | src/main/java/com/mykhailozinenko/sketchpad/Project.java:119-122 | a project prints as its current name |
| Projects.ConstructorsAreCoherent | src/main/java/com/mykhailozinenko/sketchpad/Project.java:25-42 | both constructors give a project whose paper size equals its content's |
| Projects.PublicOperationsKeepCoherence | src/main/java/com/mykhailozinenko/sketchpad/Project.java:54-110 | no sequence of the public operations breaks coherence or changes identity or paper size |
| ProjectManagers.New | src/main/java/com/mykhailozinenko/sketchpad/ProjectManager.java:15-20 | a fresh registry holds exactly one A4 project named "My First Project", and it is current |
| ProjectManagers.CurrentProject | src/main/java/com/mykhailozinenko/sketchpad/ProjectManager.java:89-91 | the current project is a member of the list with the current identity |
| ProjectManagers.CreateProject | src/main/java/com/mykhailozinenko/sketchpad/ProjectManager.java:35-39 | for a fresh object, a default project is appended at the end and returned; the current project is unchanged and validity (including distinct objects) is kept |
| ProjectManagers.CreateNamedProject | src/main/java/com/mykhailozinenko/sketchpad/ProjectManager.java:44-48 | for a fresh object, a project with the given name and size is appended at the end and returned; the current project is unchanged and validity is kept |
| ProjectManagers.DeleteProject | src/main/java/com/mykhailozinenko/sketchpad/ProjectManager.java:53-67 | delete succeeds exactly when more than one project is left and the object is listed. On success its first occurrence is removed and, if it was current, the new first project becomes current. Otherwise nothing changes, so the list is never emptied |
| ProjectManagers.SetCurrentProject | src/main/java/com/mykhailozinenko/sketchpad/ProjectManager.java:96-100 | the current project changes only to a listed object; otherwise nothing changes |
| ProjectManagers.UpdateProject | src/main/java/com/mykhailozinenko/sketchpad/ProjectManager.java:72-75 | that object's name and recorded paper size are set and its content is kept; every other project is unchanged |
| ProjectManagers.UpdateCoherence | src/main/java/com/mykhailozinenko/sketchpad/ProjectManager.java:72-75 | from coherent projects, an update keeps all of them coherent exactly when the new size is the updated object's content size |
| ProjectManagers.GetProject | src/main/java/com/mykhailozinenko/sketchpad/ProjectManager.java:80-84 | returns the first project with that id, or nothing exactly when no project has it |
| ProjectManagers.OperationsKeepValid | src/main/java/com/mykhailozinenko/sketchpad/ProjectManager.java:15-100 | under any sequence of the registry's operations (creations allocating fresh objects) the list stays non-empty, holds no object twice, and the current project stays a member; without updates every project stays coherent |
| CanvasAreas.New | src/main/java/com/mykhailozinenko/sketchpad/CanvasArea.java:44-97 | a new canvas is sized to the paper, has the black 2px brush applied to the context, is not drawing, is at zoom 1.0, and shows a white page plus a replay of the project's log |
| CanvasAreas.HandleMousePressed | src/main/java/com/mykhailozinenko/sketchpad/CanvasArea.java:214-234 | a press starts drawing at the mapped point and appends exactly one dot there with the current brush colour and size; nothing else about the project, the brush, the zoom or the context's paint state changes, and the live canvas stays a replay of the log |
| CanvasAreas.HandleMouseDragged | src/main/java/com/mykhailozinenko/sketchpad/CanvasArea.java:236-261 | a drag while not drawing changes nothing. A drag while drawing appends exactly one stroke from the last point to the mapped point with the current brush, then moves the last point there; nothing else about the project, the brush, the zoom or the context's paint state changes |
| CanvasAreas.HandleMouseReleased | src/main/java/com/mykhailozinenko/sketchpad/CanvasArea.java:277-279 | a release stops drawing and records and paints nothing |
| CanvasAreas.SetBrushSettings | src/main/java/com/mykhailozinenko/sketchpad/CanvasArea.java:291-295 | the brush and the context's stroke state take the new values; the log and the painted primitives are untouched |
| CanvasAreas.Clear | src/main/java/com/mykhailozinenko/sketchpad/CanvasArea.java:281-289 | the log becomes empty and the canvas is erased, then filled white over its full size; only the log, the fill paint and the painted primitives change |
| CanvasAreas.InputOnlyAppends | src/main/java/com/mykhailozinenko/sketchpad/CanvasArea.java:214-295 | input (gestures and brush changes) never removes or alters a recorded operation and never changes the paper size; the incrementally painted canvas stays equal to a replay of the log |
| CanvasAreas.GestureExample | src/main/java/com/mykhailozinenko/sketchpad/CanvasArea.java:214-279 | press (10,20), drag to (15,20) and (15,25), then release records exactly [Dot(10,20), Stroke(10,20 to 15,20), Stroke(15,20 to 15,25)] in black at 2px |
| CanvasAreas.BrushSnapshotExample | src/main/java/com/mykhailozinenko/sketchpad/CanvasArea.java:223-250 | a brush change in the middle of a drag affects only the segments recorded after it |
| CanvasAreas.Clamp | src/main/java/com/mykhailozinenko/sketchpad/CanvasArea.java:34-37 | the result is within [0.25, 4.0]; values in range are kept; values outside it go to the nearer bound |
| CanvasAreas.Zoom | src/main/java/com/mykhailozinenko/sketchpad/CanvasArea.java:135-165 | the factor becomes the clamped sum and only the factor changes. A notification with the new factor is fired exactly when the factor changed |
| CanvasAreas.ZoomIn | src/main/java/com/mykhailozinenko/sketchpad/CanvasArea.java:183-186 | from a factor in range, zooming in never lowers the factor, and is silent exactly at 4.0 |
| CanvasAreas.ZoomOut | src/main/java/com/mykhailozinenko/sketchpad/CanvasArea.java:191-194 | from a factor in range, zooming out never raises the factor, and is silent exactly at 0.25 |
| CanvasAreas.ResetZoom | src/main/java/com/mykhailozinenko/sketchpad/CanvasArea.java:199-205 | the factor becomes exactly 1.0, silently exactly when it already was 1.0 |
| CanvasAreas.ZoomStaysInRange | src/main/java/com/mykhailozinenko/sketchpad/CanvasArea.java:139-143 | from a factor in range, any sequence of zoom requests keeps the factor and every notification in [0.25, 4.0] and changes nothing but the factor |
| CanvasAreas.ZoomInAtMaximumIsSilent | src/main/java/com/mykhailozinenko/sketchpad/CanvasArea.java:139-143 | at 4.0, any number of zoom-ins changes nothing and fires nothing |
| CanvasAreas.ZoomRoundTrip | src/main/java/com/mykhailozinenko/sketchpad/CanvasArea.java:139-143 | zooming by +d then by -d with no clamping restores the canvas |
| ProjectDialogs.TrimEmptyIffBlank | src/main/java/com/mykhailozinenko/sketchpad/ProjectDialog.java:136 | a name trims to the empty string exactly when every character is at or below U+0020 |
| ProjectDialogs.ChosenName | src/main/java/com/mykhailozinenko/sketchpad/ProjectDialog.java:136-142 | a blank name becomes "Untitled Project"; any other name is used verbatim, untrimmed |
| ProjectDialogs.ConvertResult | src/main/java/com/mykhailozinenko/sketchpad/ProjectDialog.java:131-147 | any button but Create/Save yields nothing. Create yields a new, empty project with the chosen name and the selected paper size. Save yields the same project with only its name replaced |
| ProjectDialogs.CreateWithDefaults | src/main/java/com/mykhailozinenko/sketchpad/ProjectDialog.java:88-138 | accepting the default selection creates an A4 project, named "Untitled Project" when the name is blank |
| ProjectDialogs.NameNotTrimmed | src/main/java/com/mykhailozinenko/sketchpad/ProjectDialog.java:136-142 | " My Sketch " is kept with its spaces, and a name of only spaces and tabs becomes the default |

## Left out

- Pixel rasterisation is not modelled. This covers round line caps, antialiasing and the pixels themselves: primitives are abstract commands. `ProjectContent.createSnapshot` depends on JavaFX image capture and is not modelled either.
- `convertToCanvasPoint` depends on scene-graph transforms. It is the function parameter `toCanvas`.
- The scroll-offset computation and the ScrollPane's horizontal/vertical values are not modelled. They depend on JavaFX scroll-range semantics. The same goes for the container resize and scale transform applied on zoom. For zoom, only the factor and the zoom-changed notification are modelled.
- IEEE `double` rounding is not modelled. This matters for the 0.1 zoom steps and the mm to px conversion. All results hold in exact arithmetic.
- UUID generation, the creation and last-modified timestamps, and date formatting in `Project` are not modelled. These are clock and random inputs. The id and the object identity are opaque inputs.
- The singleton `ProjectManager.getInstance` is not modelled. The registry is constructed explicitly. `printAllProjects` is console output and is left out. `getAllProjects` returns the mutable list, and callers outside the registry add projects to it; those external additions are not modelled.
- Aliasing of `Project` objects is not modelled. In the application the canvas and the registry share one mutable object; in the model they hold separate values.
- `setProject` in `CanvasArea` is not modelled: it resizes the canvas and container. The pannable toggling on press/release and the Ctrl-scroll wiring are not modelled either; the scroll wiring only chooses a delta of +0.1 or -0.1, and `Zoom` covers that for any delta.
- The dialog's widget layout is not modelled; only the result converter is.
- `SketchPadApplication`, `ProjectListView`, `ToolBar` and `ZoomControl` are not modelled. They are user-interface classes.
- Brush validation: the code does not reject a non-positive size or any colour, so the model does not either.
