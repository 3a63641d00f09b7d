/** The viewer's ordered box list: index 0 is the topmost box and is hit-tested first.
    The two early-return scans that resolve a pointer to a box, and removal by index. */
module BoxList {
  import opened BoxGeometry

  /** Some box of the list has a handle zone under p. */
  predicate AnyHandleHit(boxes: seq<Box>, p: Point) {
    exists j :: 0 <= j < |boxes| && MouseOnEdge(boxes[j], p) != ResizeMode.Other
  }

  /** The first box (lowest index) with a handle under p, and that handle;
      (-1, Other) when no box has one. */
  function TopmostHandle(boxes: seq<Box>, p: Point): (r: (int, ResizeMode))
    ensures r.0 == -1 ==> r.1 == ResizeMode.Other && !AnyHandleHit(boxes, p)
    ensures r.0 != -1 ==>
      && 0 <= r.0 < |boxes|
      && r.1 == MouseOnEdge(boxes[r.0], p) && r.1 != ResizeMode.Other
      && forall j :: 0 <= j < r.0 ==> MouseOnEdge(boxes[j], p) == ResizeMode.Other
  {
    if |boxes| == 0 then (-1, ResizeMode.Other)
    else
      var m := MouseOnEdge(boxes[0], p);
      if m != ResizeMode.Other then (0, m)
      else
        var r := TopmostHandle(boxes[1..], p);
        if r.0 == -1 then r else (r.0 + 1, r.1)
  }

  /** The first box (lowest index) whose interior holds p; -1 when none does. */
  function TopmostInterior(boxes: seq<Box>, p: Point): (r: int)
    ensures r == -1 ==> forall j :: 0 <= j < |boxes| ==> !MouseInBox(p, boxes[j])
    ensures r != -1 ==>
      && 0 <= r < |boxes| && MouseInBox(p, boxes[r])
      && forall j :: 0 <= j < r ==> !MouseInBox(p, boxes[j])
  {
    if |boxes| == 0 then -1
    else if MouseInBox(p, boxes[0]) then 0
    else
      var r := TopmostInterior(boxes[1..], p);
      if r == -1 then -1 else r + 1
  }

  /** Scans the boxes in order and returns at the first one with a handle under p. */
  method FindResizingBox(boxes: seq<Box>, p: Point) returns (idx: int, mode: ResizeMode)
    ensures (idx, mode) == TopmostHandle(boxes, p)
  {
    var i := 0;
    while i < |boxes|
      invariant 0 <= i <= |boxes|
      invariant forall j :: 0 <= j < i ==> MouseOnEdge(boxes[j], p) == ResizeMode.Other
    {
      var m := MouseOnEdge(boxes[i], p);
      if m != ResizeMode.Other {
        return i, m;
      }
      i := i + 1;
    }
    return -1, ResizeMode.Other;
  }

  /** Scans the boxes in order and returns at the first one whose interior holds p. */
  method FindCorrectionBox(boxes: seq<Box>, p: Point) returns (idx: int)
    ensures idx == TopmostInterior(boxes, p)
  {
    var i := 0;
    while i < |boxes|
      invariant 0 <= i <= |boxes|
      invariant forall j :: 0 <= j < i ==> !MouseInBox(p, boxes[j])
    {
      if MouseInBox(p, boxes[i]) {
        return i;
      }
      i := i + 1;
    }
    return -1;
  }

  /** The list without its element at i (list.pop(i)): one shorter, the elements
      before i in place, the elements after i one index earlier, nothing else lost. */
  function RemoveAt<T>(s: seq<T>, i: int): (r: seq<T>)
    requires 0 <= i < |s|
    ensures |r| == |s| - 1
    ensures forall j :: 0 <= j < i ==> r[j] == s[j]
    ensures forall j :: i <= j < |r| ==> r[j] == s[j + 1]
    ensures multiset(r) + multiset{s[i]} == multiset(s)
  {
    assert s == s[..i] + [s[i]] + s[i + 1..];
    s[..i] + s[i + 1..]
  }

  /** The records the viewer reports for its boxes, in list order. */
  function Records(boxes: seq<Box>): seq<BoxRecord> {
    seq(|boxes|, i requires 0 <= i < |boxes| => Record(boxes[i]))
  }
}
