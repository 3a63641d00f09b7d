/** The main window's key handling, which drives the viewer's mode and deletion. */
module LabelingWindow {
  import opened ViewerSpec
  import opened ViewerWidget

  /** I switches to correction and Escape to labeling, only while no gesture is
      active; Delete removes the selected box while in correction mode. */
  method KeyPressEvent(viewer: Viewer, key: Key)
    modifies viewer
    ensures viewer.State() == KeyPress(old(viewer.State()), key)
  {
    if !viewer.makeBoundingBox && viewer.correctionMode == CorrectionMode.Other {
      if key == KeyI {
        viewer.SetMode(Correction);
      } else if key == KeyEscape {
        viewer.SetMode(Labeling);
      }
    }
    if key == KeyDelete && viewer.mode == Correction {
      viewer.RemoveBoundingBox(None);
    }
  }
}
