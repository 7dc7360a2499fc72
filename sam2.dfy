/** The segmentation processor: the (placeholder) model loading, the
    segmentation entry point that always answers with the mock result, the
    mock result itself, and the conversion of a simplified contour into SVG
    path data. */
module Sam2 {
  import opened Wrappers
  import opened Text
  import opened Schemas

  /** A contour vertex in pixel coordinates. */
  datatype Point = Point(x: int, y: int)

  /** A vertex as the path writes it: x, a space, y. */
  function PointText(p: Point): (s: string)
    ensures 'L' !in s && 'M' !in s && 'Z' !in s
  {
    var x, y := IntToDecimal(p.x), IntToDecimal(p.y);
    assert forall k :: 0 <= k < |x| ==> x[k] != 'L' && x[k] != 'M' && x[k] != 'Z';
    assert forall k :: 0 <= k < |y| ==> y[k] != 'L' && y[k] != 'M' && y[k] != 'Z';
    x + " " + y
  }

  /** The drawing commands after the initial `M`: the first vertex moved to,
      then one line to each later vertex. */
  function Commands(pts: seq<Point>): string {
    if pts == [] then ""
    else if |pts| == 1 then " " + PointText(pts[0])
    else Commands(pts[..|pts| - 1]) + " L " + PointText(pts[|pts| - 1])
  }

  /** The path data for a simplified contour. */
  function SvgPath(pts: seq<Point>): string {
    "M" + Commands(pts) + " Z"
  }

  /** `mask_to_svg_path` after contour extraction: `simplified` is the
      largest contour after simplification, or none when the mask has no
      contour at all. */
  method MaskToSvgPath(simplified: Option<seq<Point>>) returns (path: string)
    ensures simplified.None? ==> path == ""
    ensures simplified.Some? ==> path == SvgPath(simplified.value)
  {
    if simplified.None? {
      return "";
    }
    path := AppendCommands("M", simplified.value);
    path := path + " Z";
  }

  /** `start` followed by the path's commands, appended vertex by vertex. */
  method AppendCommands(start: string, pts: seq<Point>) returns (path: string)
    ensures path == start + Commands(pts)
  {
    path := start;
    var i := 0;
    while i < |pts|
      invariant 0 <= i <= |pts|
      invariant path == start + Commands(pts[..i])
    {
      CommandsSnoc(pts, i);
      AppendAssociates(start, Commands(pts[..i]), Command(i, pts[i]));
      path := path + Command(i, pts[i]);
      i := i + 1;
    }
    assert pts[..i] == pts;
  }

  /** The command for the vertex at position i: a move's coordinates for the
      first, a line to it for each later one. */
  function Command(i: nat, p: Point): string {
    (if i == 0 then " " else " L ") + PointText(p)
  }

  lemma CommandsSnoc(pts: seq<Point>, i: nat)
    requires i < |pts|
    ensures Commands(pts[..i]) + Command(i, pts[i]) == Commands(pts[..i + 1])
  {
    assert pts[..i + 1][..i] == pts[..i];
    if i > 0 {
      AppendAssociates(Commands(pts[..i]), " L ", PointText(pts[i]));
    }
  }

  /** Each vertex after the first adds exactly one line command. */
  lemma {:induction false} CommandsCountLines(pts: seq<Point>)
    ensures |pts| >= 1 ==> Count(Commands(pts), 'L') == |pts| - 1
    ensures Count(Commands(pts), 'M') == 0 && Count(Commands(pts), 'Z') == 0
  {
    if pts == [] {
    } else if |pts| == 1 {
      var p := PointText(pts[0]);
      CountAfter("", " ", p, 'L');
      CountAfter("", " ", p, 'M');
      CountAfter("", " ", p, 'Z');
      assert "" + " " + p == Commands(pts);
    } else {
      var front := pts[..|pts| - 1];
      var p := PointText(pts[|pts| - 1]);
      CommandsCountLines(front);
      CountAfter(Commands(front), " L ", p, 'L');
      CountAfter(Commands(front), " L ", p, 'M');
      CountAfter(Commands(front), " L ", p, 'Z');
    }
  }

  /** Appending a separator and a vertex counts the separator's letters
      only. */
  lemma CountAfter(front: string, separator: string, p: string, c: char)
    requires c !in p
    ensures Count(front + separator + p, c) == Count(front, c) + Count(separator, c)
  {
    CountAppend(front + separator, p, c);
    CountAppend(front, separator, c);
    CountAbsent(p, c);
  }

  /** A contour of n vertices gives a path with one move, n - 1 lines and
      one close. */
  lemma SvgPathShape(pts: seq<Point>)
    requires |pts| >= 1
    ensures Count(SvgPath(pts), 'M') == 1
    ensures Count(SvgPath(pts), 'L') == |pts| - 1
    ensures Count(SvgPath(pts), 'Z') == 1
  {
    CommandsCountLines(pts);
    CountAppend("M" + Commands(pts), " Z", 'M');
    CountAppend("M" + Commands(pts), " Z", 'L');
    CountAppend("M" + Commands(pts), " Z", 'Z');
    CountAppend("M", Commands(pts), 'M');
    CountAppend("M", Commands(pts), 'L');
    CountAppend("M", Commands(pts), 'Z');
  }

  /** The Background mock segment's path. */
  function BackgroundPath(width: nat, height: nat): string {
    "M 0 0 L " + NatToDecimal(width) + " 0 L " + NatToDecimal(width) + " " + NatToDecimal(height) + " L 0 " + NatToDecimal(height) + " Z"
  }

  /** The path for four vertices. */
  lemma SvgPathOfFour(a: Point, b: Point, c: Point, d: Point)
    ensures SvgPath([a, b, c, d]) == "M" + (" " + PointText(a) + " L " + PointText(b) + " L " + PointText(c) + " L " + PointText(d)) + " Z"
  {
    var pts := [a, b, c, d];
    assert pts[..3] == [a, b, c] && [a, b, c][..2] == [a, b] && [a, b][..1] == [a];
    assert Commands([a]) == " " + PointText(a);
    assert Commands([a, b]) == " " + PointText(a) + " L " + PointText(b);
    assert Commands([a, b, c]) == " " + PointText(a) + " L " + PointText(b) + " L " + PointText(c);
  }

  /** The corner path's text, regrouped as the f-string writes it. */
  lemma CornerTextRegroups(w: string, h: string)
    ensures "M" + (" " + "0 0" + " L " + (w + " 0") + " L " + (w + " " + h) + " L " + ("0 " + h)) + " Z"
            == "M 0 0 L " + w + " 0 L " + w + " " + h + " L 0 " + h + " Z"
  {
  }

  /** The Background path is the path the converter writes for the image's
      four corners, clockwise from the origin. */
  lemma {:induction false} BackgroundIsCornerPath(width: nat, height: nat)
    ensures BackgroundPath(width, height) == SvgPath([Point(0, 0), Point(width, 0), Point(width, height), Point(0, height)])
  {
    var w, h := NatToDecimal(width), NatToDecimal(height);
    assert NatToDecimal(0) == "0";
    SvgPathOfFour(Point(0, 0), Point(width, 0), Point(width, height), Point(0, height));
    assert PointText(Point(0, 0)) == "0 0";
    assert PointText(Point(width, 0)) == w + " 0";
    assert PointText(Point(width, height)) == w + " " + h;
    assert PointText(Point(0, height)) == "0 " + h;
    CornerTextRegroups(w, h);
  }

  /** The Person mock segment's path; `floatRepr` renders a Python float. */
  function PersonPath(width: nat, height: nat, floatRepr: real -> string): string {
    var x1, x2 := floatRepr(width as real * 0.2), floatRepr(width as real * 0.4);
    var y1, y2 := floatRepr(height as real * 0.3), floatRepr(height as real * 0.8);
    "M " + x1 + " " + y1 + " L " + x2 + " " + y1 + " L " + x2 + " " + y2 + " L " + x1 + " " + y2 + " Z"
  }

  /** The Object mock segment's path: two quadratic curves. */
  function ObjectPath(width: nat, height: nat, floatRepr: real -> string): string {
    var x6, x7, x8 := floatRepr(width as real * 0.6), floatRepr(width as real * 0.7), floatRepr(width as real * 0.8);
    var y3, y4, y5 := floatRepr(height as real * 0.3), floatRepr(height as real * 0.4), floatRepr(height as real * 0.5);
    "M " + x6 + " " + y4 + " Q " + x7 + " " + y3 + ", " + x8 + " " + y4 + " Q " + x7 + " " + y5 + ", " + x6 + " " + y4 + " Z"
  }

  function Box(x: real, y: real, width: real, height: real): map<string, real> {
    map["x" := x, "y" := y, "width" := width, "height" := height]
  }

  /** `_mock_segmentation` for an image of the given size. */
  function MockSegmentation(width: nat, height: nat, floatRepr: real -> string): (segs: seq<Segment>)
    ensures |segs| == 3
    ensures segs[0].id == "segment-1" && segs[1].id == "segment-2" && segs[2].id == "segment-3"
    ensures forall i, j :: 0 <= i < j < |segs| ==> segs[i].id != segs[j].id
    ensures segs[0].name == "Person" && segs[1].name == "Background" && segs[2].name == "Object"
    ensures segs[0].color == "#ff6b6b" && segs[1].color == "#4ecdc4" && segs[2].color == "#45b7d1"
    ensures segs[1].path == BackgroundPath(width, height)
    ensures segs[1].bbox == Some(Box(0.0, 0.0, width as real, height as real))
    ensures forall i :: 0 <= i < 3 ==> segs[i].bbox.Some? && segs[i].confidence.Some?
  {
    var w, h := width as real, height as real;
    [ Segment("segment-1", "Person", PersonPath(width, height, floatRepr), "#ff6b6b", Some(Box(w * 0.2, h * 0.3, w * 0.2, h * 0.5)), Some(0.95)),
      Segment("segment-2", "Background", BackgroundPath(width, height), "#4ecdc4", Some(Box(0.0, 0.0, w, h)), Some(0.88)),
      Segment("segment-3", "Object", ObjectPath(width, height, floatRepr), "#45b7d1", Some(Box(w * 0.6, h * 0.3, w * 0.2, h * 0.2)), Some(0.82)) ]
  }

  /** Every mock box lies inside the image. */
  lemma MockBoxesInside(width: nat, height: nat, floatRepr: real -> string)
    ensures forall i :: 0 <= i < 3 ==>
              var b := MockSegmentation(width, height, floatRepr)[i].bbox.value;
              && "x" in b && "y" in b && "width" in b && "height" in b
              && 0.0 <= b["x"] && b["x"] + b["width"] <= width as real
              && 0.0 <= b["y"] && b["y"] + b["height"] <= height as real
  {
  }

  const UnavailableMessage: string := "SAM2 is not available. Please install it first."

  /** The processor object. Its predictor is only ever a placeholder. */
  class Sam2Processor {
    var predictorLoaded: bool

    /** The fields before `_load_model` runs. */
    constructor ()
      ensures !predictorLoaded
    {
      predictorLoaded := false;
    }

    /** `_load_model`: refuses when the SAM2 package is missing, and
      otherwise leaves the placeholder predictor unset. */
    method LoadModel(sam2Available: bool) returns (r: Result<(), string>)
      modifies this
      ensures !sam2Available ==> r == Failure(UnavailableMessage) && predictorLoaded == old(predictorLoaded)
      ensures sam2Available ==> r.Success? && !predictorLoaded
    {
      if !sam2Available {
        return Failure(UnavailableMessage);
      }
      predictorLoaded := false;
      return Success(());
    }

    /** `segment_image`. `imageSize` is the outcome of opening the image for
      its size, `decodes` whether the non-mock path's reading succeeds.
      Without a predictor the mock is returned directly; with one, both the
      normal path and the fallback after any failure return the mock too. */
    method SegmentImage(imageSize: Result<(nat, nat), string>, decodes: bool, floatRepr: real -> string)
      returns (r: Result<seq<Segment>, string>)
      ensures imageSize.Failure? ==> r == Failure(imageSize.error)
      ensures imageSize.Success? ==> r == Success(MockSegmentation(imageSize.value.0, imageSize.value.1, floatRepr))
    {
      if !predictorLoaded {
        r := Mock(imageSize, floatRepr);
        return;
      }
      r := Mock(imageSize, floatRepr);
      if !decodes || r.Failure? {
        r := Mock(imageSize, floatRepr);
      }
    }
  }

  /** Opening the image and building the mock; the failure to open
      propagates. */
  method Mock(imageSize: Result<(nat, nat), string>, floatRepr: real -> string) returns (r: Result<seq<Segment>, string>)
    ensures imageSize.Failure? ==> r == Failure(imageSize.error)
    ensures imageSize.Success? ==> r == Success(MockSegmentation(imageSize.value.0, imageSize.value.1, floatRepr))
  {
    if imageSize.Failure? {
      return Failure(imageSize.error);
    }
    return Success(MockSegmentation(imageSize.value.0, imageSize.value.1, floatRepr));
  }

  /** A processor that was created and loaded never has a predictor, so
      every segmentation is the mock. */
  method CreateAndSegment(sam2Available: bool, imageSize: Result<(nat, nat), string>, decodes: bool, floatRepr: real -> string)
    returns (r: Result<seq<Segment>, string>)
    ensures !sam2Available ==> r == Failure(UnavailableMessage)
    ensures sam2Available && imageSize.Success? ==> r == Success(MockSegmentation(imageSize.value.0, imageSize.value.1, floatRepr))
  {
    var p := new Sam2Processor();
    var loaded := p.LoadModel(sam2Available);
    if loaded.Failure? {
      return Failure(loaded.error);
    }
    r := p.SegmentImage(imageSize, decodes, floatRepr);
  }
}
