/** The viewer widget as an object whose event handlers update its fields in place.
    Each handler is proved to leave the fields in the state the corresponding function
    of ViewerSpec describes. */
module ViewerWidget {
  import opened BoxGeometry
  import opened BoxList
  import opened ViewerSpec

  class Viewer {
    /** The widget size in pixels. */
    const canvas: Canvas

    var boxes: seq<Box>
    var selectedIdx: int
    var origin: Point
    var translateOffset: Point
    var mode: Mode
    var makeBoundingBox: bool
    var correctionMode: CorrectionMode
    var resizeMode: ResizeMode
    /** The label given to newly drawn boxes. */
    var currentLabel: Label

    ghost function State(): ViewerState
      reads this
    {
      ViewerState(boxes, selectedIdx, origin, translateOffset, mode, makeBoundingBox,
                  correctionMode, resizeMode, currentLabel)
    }

    constructor (canvas: Canvas)
      ensures this.canvas == canvas
      ensures State() == Initial()
    {
      this.canvas := canvas;
      boxes := [];
      selectedIdx := -1;
      origin := Point(0, 0);
      translateOffset := Point(0, 0);
      mode := Labeling;
      makeBoundingBox := false;
      correctionMode := CorrectionMode.Other;
      resizeMode := ResizeMode.Other;
      currentLabel := Ship;
    }

    method Initialize()
      modifies this
      ensures State() == ViewerSpec.Initialize(old(State()))
    {
      boxes := [];
      selectedIdx := -1;
      origin := Point(0, 0);
      mode := Labeling;
      makeBoundingBox := false;
      correctionMode := CorrectionMode.Other;
      resizeMode := ResizeMode.Other;
      currentLabel := Ship;
    }

    /** The boxes as the viewer reports them: x, y, width, height and label, in list order. */
    method Boxes() returns (view: seq<BoxRecord>)
      ensures view == Records(boxes)
    {
      view := [];
      for i := 0 to |boxes|
        invariant |view| == i
        invariant forall j :: 0 <= j < i ==> view[j] == Record(boxes[j])
      {
        var b := boxes[i];
        view := view + [Record(b)];
      }
    }

    method SetMode(m: Mode)
      modifies this
      ensures State() == ViewerSpec.SetMode(old(State()), m)
    {
      mode := m;
    }

    method SetLabel(l: Label)
      modifies this
      ensures State() == ViewerSpec.SetLabel(old(State()), l)
    {
      currentLabel := l;
    }

    method MousePressEvent(button: MouseButton, p: Point)
      modifies this
      ensures State() == MousePress(old(State()), button, p)
    {
      if button == LeftButton {
        if mode == Labeling {
          origin := p;
          var box := NewBox(p, currentLabel);
          boxes := [box] + boxes;
          makeBoundingBox := true;
        } else {
          var idx, handle := FindResizingBox(boxes, p);
          if idx >= 0 {
            correctionMode := Resize;
            resizeMode := handle;
          } else {
            idx := FindCorrectionBox(boxes, p);
            if idx >= 0 {
              correctionMode := Move;
              translateOffset := Offset(p, boxes[idx]);
            }
          }
          selectedIdx := idx;
        }
      }
    }

    /** Returns true when the handler raised; the fields are then as it left them. */
    method MouseMoveEvent(p: Point) returns (raised: bool)
      modifies this
      ensures var o := MouseMove(old(State()), canvas, p);
        raised == o.Raised? && State() == o.next
    {
      raised := false;
      if makeBoundingBox {
        if |boxes| == 0 {
          return true;
        }
        var clip := ClipCoordinateInWidget(p, canvas);
        boxes := boxes[0 := WithRect(boxes[0], DragRect(origin, clip))];
      } else if correctionMode != CorrectionMode.Other {
        if !IndexInRange(selectedIdx, |boxes|) {
          return true;
        }
        var k := ResolveIndex(selectedIdx, |boxes|);
        var selected := boxes[k];
        if correctionMode == Resize {
          if resizeMode == ResizeMode.Other {
            return true;
          }
          var r := GetResizeDimension(selected, p, resizeMode, canvas);
          boxes := boxes[k := WithRect(selected, r)];
        } else {
          var next := MovedPosition(selected, p, translateOffset, canvas);
          boxes := boxes[k := MoveTo(selected, next)];
        }
      }
    }

    /** Returns true when the handler raised; the fields are then as it left them. */
    method MouseReleaseEvent() returns (raised: bool)
      modifies this
      ensures var o := MouseRelease(old(State()), canvas);
        raised == o.Raised? && State() == o.next
    {
      raised := false;
      if makeBoundingBox {
        if |boxes| == 0 {
          return true;
        }
        var b := boxes[0];
        if b.w * b.h < DrawingThreshold {
          RemoveBoundingBox(Some(0));
        } else {
          boxes := boxes[0 := CommitSize(CommitPosition(b, canvas), canvas)];
        }
        makeBoundingBox := false;
      }
      if correctionMode != CorrectionMode.Other {
        if !IndexInRange(selectedIdx, |boxes|) {
          return true;
        }
        var k := ResolveIndex(selectedIdx, |boxes|);
        var selected := boxes[k];
        if correctionMode == Resize {
          boxes := boxes[k := CommitPosition(CommitSize(selected, canvas), canvas)];
          resizeMode := ResizeMode.Other;
        } else {
          boxes := boxes[k := CommitPosition(selected, canvas)];
        }
        correctionMode := CorrectionMode.Other;
      }
    }

    /** Removes the box at idx, or, with no index, the selected box and clears the selection. */
    method RemoveBoundingBox(idx: Option<int>)
      modifies this
      ensures State() == ViewerSpec.RemoveBoundingBox(old(State()), idx)
    {
      var i: int;
      if idx.None? {
        i := selectedIdx;
        selectedIdx := -1;
      } else {
        i := idx.value;
      }
      if 0 <= i < |boxes| {
        boxes := boxes[..i] + boxes[i + 1..];
      }
    }

    /** A context-menu request at p, with the entry the user chose (None: dismissed). */
    method ContextMenuEvent(p: Point, action: Option<MenuAction>)
      modifies this
      ensures State() == ContextMenu(old(State()), p, action)
    {
      var idx := FindCorrectionBox(boxes, p);
      if idx >= 0 && action.Some? {
        match action.value
        case DeleteBox =>
          RemoveBoundingBox(Some(idx));
        case ChooseLabel(l) =>
          boxes := boxes[idx := boxes[idx].(boxLabel := l)];
      }
    }
  }
}
