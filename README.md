# Bounding-box interaction engine of the image labeling tool

This project models the interactive core of a PyQt image-annotation tool. A viewer
widget holds an ordered list of bounding boxes. Index 0 is the topmost box and is
hit-tested first. The user works in one of two modes:

- **Labeling:** a left press starts a new box and the drag draws it.
- **Correction:** a left press grabs a resize handle or the interior of an existing
  box, and the drag resizes or moves it.

A release ends the gesture and records the box's position and size as fractions of
the canvas. The main window's key handler switches between the modes (I and Escape)
and deletes the selected box (Delete). A context menu over a box relabels or deletes
it.

Layout:

- `geometry.dfy` (module `BoxGeometry`) holds the pure integer geometry of one box:
  - the eight handle zones, which are 10 pixels thick, and their classification in a fixed order;
  - the half-open interior test;
  - pointer clipping;
  - the rectangle drawn while dragging;
  - the resize arithmetic for each handle;
  - the move clamp.
- `box_list.dfy` (module `BoxList`) holds the two early-return scans over the list and
  removal by index. Each scan is a recursive specification function proved to return
  the first match, plus the loop that implements it.
- `viewer_spec.dfy` (module `ViewerSpec`) holds the viewer's state as a value and one
  function per event handler. Its lemmas cover:
  - what each gesture does;
  - the invariant every reachable state keeps;
  - end-to-end gestures such as press, drag and release.
- `viewer.dfy` (module `ViewerWidget`) holds the `Viewer` class. Its fields are the
  widget's state, and its handlers update them in place. Each handler is proved to
  produce the state that the matching `ViewerSpec` function describes.
- `labeling.dfy` (module `LabelingWindow`) holds the main window's key handler, which
  acts on a `Viewer`.

The model follows the code as written, including its rough edges:

- **No flip on resize.** Dragging an edge past the opposite one leaves a negative width
  or height (`ResizePastOppositeEdgeGivesNegativeWidth`).
- **No area threshold after a resize.** Only a newly drawn box is discarded when its
  area is under 30 pixels.
- **Move clamp off by one.** The move clamp caps the corner at `W - w - 1` instead of
  `W - w`, so the far edge stops one pixel short of the border. A drawn box that
  touches the right border is pushed one pixel left even by a drag that does not move
  (`StillMoveShiftsBorderBox`).
- **Python's list indexing.** The selection index -1 denotes the last box. An index
  outside the list raises IndexError. PyQt5 aborts the application on an exception
  raised in an event handler, so a raising handler ends a run (`Outcome.Raised`).
  - Delete pressed during a drag clears the selection but not the gesture, so the next
    move drags the last box (`DeleteDuringMoveRetargetsLastBox`).

Conventions:

- The rectangle drawn while dragging is Qt's `QRect(origin, pointer).normalized()`. Its
  corners are inclusive, and the corners of an axis are swapped only when the width
  would be negative, that is when `pointer < origin - 1`. On each axis, the box
  therefore spans from the smaller to the larger coordinate, both included. In the one
  case `pointer == origin - 1`, the span is empty at the origin.
- A press creates its box with a zero size. The source passes Qt an empty `QSize()`.
- Committed ratios are kept exactly, as (pixels, canvas pixels) pairs.

## Model

| member | source | states |
|---|---|---|
| `BoxGeometry.OnHandle` | main.py:60-90 | the eight pointOn* zone tests: a point on any handle's zone lies outside the box's 10-pixel inset core, and Other has no zone |
| `BoxGeometry.MouseInBox` | main.py:373-376 | the half-open interior test: only a box at least 1x1 holds a point, and every point it holds is on a handle or in the core, for every box size |
| `BoxGeometry.MouseOnEdge` | main.py:331-358 | the handle is the first of TopLeft, Top, TopRight, Right, RightBottom, Bottom, BottomLeft, Left whose zone holds the point; Other exactly when no zone does |
| `BoxGeometry.HandleZonesInsideBox` | main.py:60-90 | when w and h are at least the 10-pixel zone thickness, every point of every handle zone lies inside the box |
| `BoxGeometry.ThinBoxCornerZoneOutsideBox` | main.py:60-62 | for a box thinner than one zone, the TopLeft zone holds a point outside the box |
| `BoxGeometry.HandleZonesDisjoint` | main.py:60-90 | when w and h are at least two zones, a point in a handle's zone is classified as that handle, so the order does not matter |
| `BoxGeometry.HandleRingIsBorder` | main.py:60-90 | when w and h are at least two zones, a point is on some handle exactly when it is inside the box and outside the 10-pixel inset core |
| `BoxGeometry.NarrowBoxCornersOverlap` | main.py:332-340 | for a box narrower than two zones, a top-edge point lies in both the TopLeft and TopRight zones and the fixed order makes it TopLeft |
| `BoxGeometry.ClipCoordinateInWidget` | main.py:360-365 | the clipped point lies in [0, W-1] x [0, H-1] (for a non-empty canvas); a coordinate inside is kept; one outside goes to the nearest edge pixel |
| `BoxGeometry.NormalizedSpan` | main.py:186 | one axis of Qt's normalized rectangle: the extent is never negative; the span runs from the lesser to the greater corner, both included, except when pointer == origin - 1, where it is empty at the origin |
| `BoxGeometry.DragRect` | main.py:186 | the drawn rectangle has non-negative width and height and spans origin and pointer on each axis as above; when the pointer is one pixel before the origin on an axis, that axis is empty at the origin (x = origin, w = 0) |
| `BoxGeometry.GetResizeDimension` | main.py:287-319 | each edge on the handle's side goes to the clipped pointer; every other edge stays (TopLeft keeps x+w and y+h, Top keeps x, w and y+h, Right keeps x, y and h, and so on) |
| `BoxGeometry.ResizePastOppositeEdgeGivesNegativeWidth` | main.py:192-195 | resize applies no normalisation: the width (height) is negative exactly when the moved edge is dragged past the opposite one |
| `BoxGeometry.MovedPosition` | main.py:198-202 | the moved corner is never negative; the far edge stays at most at W-1 when w <= W-1 (likewise for y); the corner follows pointer minus grab offset exactly while that is allowed; a target left of (above) the canvas gives 0, a target past W-w-1 (H-h-1) gives max(0, W-w-1) (max(0, H-h-1)) |
| `BoxGeometry.StillMoveShiftsBorderBox` | main.py:199-201 | a box whose right edge is on the canvas border is pushed one pixel left by a move whose pointer has not moved, for every grab offset |
| `BoxList.TopmostHandle` | main.py:324-329 | returns the lowest index of a box with a handle under the point, and that handle; (-1, Other) exactly when no box has one |
| `BoxList.FindResizingBox` | main.py:324-329 | the early-return scan returns the same index and handle as TopmostHandle |
| `BoxList.TopmostInterior` | main.py:367-376 | returns the lowest index of a box whose half-open interior holds the point; -1 exactly when none does |
| `BoxList.FindCorrectionBox` | main.py:367-371 | the early-return scan returns the same index as TopmostInterior |
| `BoxList.RemoveAt` | main.py:284 | list.pop(i): one element shorter, elements before i in place, elements after i one index earlier, the multiset loses exactly s[i] |
| `ViewerSpec.Initialize` | main.py:112-124 | re-initialisation leaves an empty, idle viewer that keeps the invariant: labeling mode, no selection, label Ship, origin (0, 0), no resize handle; only the move offset survives |
| `ViewerSpec.MousePress` | main.py:150-178 | a press never changes the mode, the label or any existing box; it adds exactly one box on a left press in labeling mode; the selection becomes an index of the list or -1, or stays |
| `ViewerSpec.MouseMove` | main.py:180-203 | a move changes only the geometry of at most one box: the list length, every label and ratio and every other field are kept; a move that raises leaves the state as it was |
| `ViewerSpec.MouseRelease` | main.py:205-228 | a release keeps mode, selection, origin, offset and label, and never moves, resizes or relabels a box: the reported boxes are the old ones, or the old ones without box 0 after a drawing gesture |
| `ViewerSpec.RemoveBoundingBox` | main.py:276-285 | removal changes only the list and the selection and takes at most one box away (the multiset shrinks) |
| `ViewerSpec.ContextMenu` | main.py:239-260 | the menu changes only the list: it removes at most one box (the multiset of boxes only shrinks), and when it removes none only labels can differ |
| `ViewerSpec.KeyPress` | main.py:457-469 | a key changes only the mode, the list and the selection; it removes at most one box; a key other than Delete leaves list and selection alone |
| `ViewerSpec.ResolveIndex` | main.py:189 | a Python list index in [-n, n) denotes position i when i >= 0 and n + i when negative |
| `ViewerSpec.StepKeepsInv` | main.py:150-226 | every event keeps the invariant: selection >= -1; a resize has a handle; a drawing gesture only in labeling mode with no correction gesture; a correction gesture only in correction mode |
| `ViewerSpec.RunKeepsInv` | main.py:150-226 | any sequence of events from an invariant state ends in an invariant state |
| `ViewerSpec.ReachableStatesKeepInv` | main.py:96-110 | every state reachable from a fresh viewer keeps the invariant |
| `ViewerSpec.HandlersRaiseExactlyWhenTargetMissing` | main.py:184-226 | in every invariant state a move, and likewise a release, raises exactly when drawing with an empty list or correcting with a selection outside Python's [-n, n) |
| `ViewerSpec.PressInLabelingStartsDrawing` | main.py:150-162 | a left press in labeling mode inserts a zero-size box with the current label at the press point at index 0, shifts every box one index later unchanged, records the origin and starts drawing; nothing else changes |
| `ViewerSpec.OtherButtonsIgnored` | main.py:151 | a press of another button changes nothing |
| `ViewerSpec.PressInCorrectionSelects` | main.py:163-176 | a correction press keeps the boxes; any handle hit wins (resize, first box with a handle, that handle); else the first box containing the point is grabbed for a move with offset = point - corner; else the selection is -1 and the gesture fields are unchanged |
| `ViewerSpec.DrawingFollowsPointer` | main.py:184-187 | while drawing, box 0 is the normalised rectangle of origin and clipped pointer (w, h >= 0, empty at the origin on an axis where the pointer is one pixel before it, inside the canvas when the origin is), label and ratios kept, no other box or field changes |
| `ViewerSpec.ResizeMovesHandleEdges` | main.py:188-196 | while resizing, the selected box's edges on the handle's side go to the clipped pointer and the others stay; label, ratios, other boxes and fields unchanged |
| `ViewerSpec.MoveKeepsSizeOnCanvas` | main.py:198-202 | while moving, the selected box keeps w, h, label and ratios; x, y >= 0; x + w <= W-1 when w <= W-1; it follows pointer minus offset while allowed, goes to 0 when that is negative and to max(0, W-w-1) when it is past W-w-1 (likewise for y); nothing else changes |
| `ViewerSpec.IdleMoveChangesNothing` | main.py:180-188 | a move with no gesture active changes nothing |
| `ViewerSpec.ReleaseAfterCorrectionCommitsRatios` | main.py:216-226 | releasing a correction keeps the selected box's geometry and label and commits its position ratio (x/W, y/H); after a resize also its size ratio (w/W, h/H), after a move the size ratio stays; every other box is unchanged in full |
| `ViewerSpec.ReleaseEndsGesture` | main.py:205-226 | a completed release leaves no drawing and no correction gesture, clears the resize handle after a resize, keeps mode and selection, and after a correction leaves every box's geometry and label unchanged |
| `ViewerSpec.ReleaseAfterDrawingAppliesThreshold` | main.py:207-214 | after drawing, box 0 is removed exactly when w*h < 30; otherwise it is kept with its geometry and label and its position and size ratios are committed against the canvas |
| `ViewerSpec.ClickWithoutDragLeavesBoxes` | main.py:205-214 | a labeling press followed directly by a release leaves the box list as it was |
| `ViewerSpec.DrawGesture` | main.py:150-214 | press, one move and release add the rectangle spanned by press point and clipped pointer as the topmost box with committed ratios when its area reaches 30, and otherwise leave the boxes unchanged |
| `ViewerSpec.ModeKeysOnlyWhenIdle` | main.py:457-463 | I and Escape change the mode only with no drawing and no correction gesture, then always to correction and labeling; keys other than Delete change nothing else |
| `ViewerSpec.DeleteKeyRemovesSelection` | main.py:465-467 | Delete in correction mode removes the selected box when the selection is an index of the list and sets the selection to -1; in labeling mode it changes nothing |
| `ViewerSpec.RemoveBoundingBoxRemovesOne` | main.py:276-285 | an out-of-range index changes nothing; otherwise exactly that box goes and the rest keep their order; with no index the selection is cleared |
| `ViewerSpec.ContextMenuActsOnTopmostBox` | main.py:239-260 | the menu acts on the first box containing the point: Delete removes exactly it; a label entry changes only its label; dismissed or outside every box, nothing changes |
| `ViewerSpec.DeleteDuringMoveRetargetsLastBox` | main.py:276-279 | Delete during a move clears the selection but not the gesture; the next move then drags the last box, or raises when no box is left |
| `ViewerWidget.Viewer.constructor` | main.py:96-110 | a new viewer has no boxes, selection -1, labeling mode, no gesture, label Ship |
| `ViewerWidget.Viewer.Initialize` | main.py:112-124 | clears the boxes and resets every field to its initial value except the move offset |
| `ViewerWidget.Viewer.Boxes` | main.py:126-132 | reports x, y, width, height and label of every box, in list order |
| `ViewerWidget.Viewer.SetMode` | main.py:146-148 | the mode setter changes the mode only |
| `ViewerWidget.Viewer.SetLabel` | main.py:262-263 | changes the label for new boxes only |
| `ViewerWidget.Viewer.MousePressEvent` | main.py:150-178 | updates the fields in place to the state MousePress describes |
| `ViewerWidget.Viewer.MouseMoveEvent` | main.py:180-203 | updates the fields in place to the state MouseMove describes and reports whether it raised |
| `ViewerWidget.Viewer.MouseReleaseEvent` | main.py:205-228 | updates the fields in place to the state MouseRelease describes and reports whether it raised |
| `ViewerWidget.Viewer.RemoveBoundingBox` | main.py:276-285 | updates the fields in place to the state RemoveBoundingBox describes |
| `ViewerWidget.Viewer.ContextMenuEvent` | main.py:239-260 | updates the fields in place to the state ContextMenu describes |
| `LabelingWindow.KeyPressEvent` | main.py:457-469 | updates the viewer in place to the state KeyPress describes |

## Left out

- Qt widget plumbing is not modelled: palettes and colours, show/hide/deleteLater, layouts, the cursor override, and the construction and display of the context menu. The menu's result is an input of `ContextMenuEvent`.
- The window and status bar (`MainUI`), the mode notification label, and the `changeBoxNum` signal are not modelled. They only display state.
- The file dialogs, image loading and XML export (`__saveToXml`, utils.py) are not modelled. They are I/O and float scaling through lxml.
- `resizeEvent` is not modelled. It re-applies the ratios with float products converted to int by PyQt. The canvas size is therefore a constant of each `Viewer`.
- Hover detection during idle moves is not modelled (main.py:181-182). Its only effect is the cursor shape.
- Qt's bounding of a widget's size on `setGeometry` is not modelled. The geometry stored is the one computed, so a resize may store a negative width or height.
- Coordinates are unbounded integers. Qt's 32-bit overflow is not modelled, because canvas-sized values are far from it.
- Ratios are exact (pixels, canvas pixels) pairs. Python's float division, and its ZeroDivisionError on a zero-size canvas, are not modelled.
- The enum value `Mode.OTHER` is never assigned, so `Mode` has two values.
- Boxes are values inside the viewer's list, not widget objects. No box is shared outside the list, so updating list element k in place is the same as replacing it.
- Label choice from the combo box enters as a `Label` value. The string-to-enum conversion is not modelled.
