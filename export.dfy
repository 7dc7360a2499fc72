/** The export endpoint: the download name derived from the request, the
    lookup of the uploaded original, the SVG document assembled from the
    request's layers, and the mapping of failures to HTTP errors. */
module Export {
  import opened Wrappers
  import opened Text
  import opened Schemas
  import opened Http

  /** The extension each format's file gets. */
  function Extension(format: ExportFormat): (e: string)
    ensures e == "." + format.Value()
  {
    match format
    case Svg => ".svg"
    case Psd => ".psd"
  }

  /** The name the export is saved and downloaded under: the request's file
      name when it is non-empty, otherwise one built from the image id and
      format; the format's extension is appended in both cases. */
  function ExportFilename(r: ExportRequest): (name: string)
    ensures Truthy(r.filename) ==> name == r.filename.value + Extension(r.format)
    ensures !Truthy(r.filename) ==> name == "export_" + r.imageId + "_" + r.format.Value() + Extension(r.format)
    ensures |name| >= 4 && name[|name| - 4..] == "." + r.format.Value()
  {
    var stem := if Truthy(r.filename) then r.filename.value else "export_" + r.imageId + "_" + r.format.Value();
    stem + Extension(r.format)
  }

  /** The reassignments that derive the name: the fallback first, then the
      extension for the requested format. */
  method DeriveFilename(r: ExportRequest) returns (name: string)
    ensures name == ExportFilename(r)
  {
    name := if Truthy(r.filename) then r.filename.value else "export_" + r.imageId + "_" + r.format.Value();
    if r.format == Svg {
      name := name + ".svg";
    } else if r.format == Psd {
      name := name + ".psd";
    }
  }

  /** The opening of the document: the XML declaration, the `<svg>` element
      with the original's pixel size, and the style block. */
  function Header(width: nat, height: nat): string {
    HeaderStart + NatToDecimal(width) + "\" height=\"" + NatToDecimal(height) + HeaderEnd
  }

  /** The XML declaration and the opening of the `<svg>` element. */
  const HeaderStart: string := "<?xml version=\"1.0\" encoding=\"UTF-8\"?>\n<svg width=\""

  /** The namespace, then the style block giving every layer full opacity. */
  const HeaderEnd: string := "\" xmlns=\"http://www.w3.org/2000/svg\">\n    <defs>\n        <style>\n            .layer { opacity: 1; }\n        </style>\n    </defs>\n"

  /** The original image, referenced by file name, drawn at opacity 0.3. */
  function Background(fileName: string, width: nat, height: nat): string {
    "    <image href=\"" + fileName + "\" width=\"" + NatToDecimal(width) + "\" height=\"" + NatToDecimal(height) + "\" opacity=\"0.3\"/>\n"
  }

  const Closing: string := "</svg>"

  /** A layer the SVG draws: visible, of type "mask", with a `path` entry in
      its data. */
  predicate IsDrawn(l: Layer) {
    l.visible && l.kind == "mask" && l.data.Some? && "path" in l.data.value
  }

  /** The fill of a drawn path: the layer colour, or white when it has none
      or it is empty. */
  function Fill(l: Layer): (c: string)
    ensures Truthy(l.color) ==> c == l.color.value
    ensures !Truthy(l.color) ==> c == "#ffffff"
  {
    if Truthy(l.color) then l.color.value else "#ffffff"
  }

  /** The `<path>` element of a drawn layer. `floatRepr` is Python's
      rendering of a float, which this model does not spell out. */
  function PathElement(l: Layer, floatRepr: real -> string): string
    requires IsDrawn(l)
  {
    "    <path d=\"" + l.data.value["path"] + "\" fill=\"" + Fill(l) + "\" opacity=\"" + floatRepr(l.opacity)
    + "\" class=\"layer\" id=\"" + l.id + "\"/>\n"
  }

  /** What one layer adds to the document. */
  function LayerElement(l: Layer, floatRepr: real -> string): (s: string)
    ensures !IsDrawn(l) ==> s == ""
  {
    if IsDrawn(l) then PathElement(l, floatRepr) else ""
  }

  /** The elements of the layers, in order, one after another. */
  function Joined(ls: seq<Layer>, element: Layer -> string): string {
    if ls == [] then "" else Joined(ls[..|ls| - 1], element) + element(ls[|ls| - 1])
  }

  /** What the layers add, in order. */
  function Body(ls: seq<Layer>, floatRepr: real -> string): string {
    Joined(ls, l => LayerElement(l, floatRepr))
  }

  /** The whole exported document. */
  function SvgDocument(fileName: string, width: nat, height: nat, ls: seq<Layer>, floatRepr: real -> string): string {
    Header(width, height) + Background(fileName, width, height) + Body(ls, floatRepr) + Closing
  }

  /** The document opens with the header (the XML declaration and the
      `<svg>` element carrying the original's size), follows it with the
      background image before any layer, and closes with `</svg>`. */
  lemma DocumentFrame(fileName: string, width: nat, height: nat, ls: seq<Layer>, floatRepr: real -> string)
    ensures var doc, header, background := SvgDocument(fileName, width, height, ls, floatRepr), Header(width, height), Background(fileName, width, height);
            && |header| + |background| + |Closing| <= |doc|
            && doc[..|header|] == header
            && doc[|header|..|header| + |background|] == background
            && doc[|doc| - |Closing|..] == Closing
  {
    Slices(Header(width, height), Background(fileName, width, height), Body(ls, floatRepr), Closing);
  }

  /** Where the pieces of a four-part concatenation sit. */
  lemma Slices<T>(a: seq<T>, b: seq<T>, c: seq<T>, d: seq<T>)
    ensures var s := a + b + c + d;
            && |a| + |b| + |d| <= |s|
            && s[..|a|] == a && s[|a|..|a| + |b|] == b && s[|s| - |d|..] == d
  {
  }

  /** The layers that are drawn, in request order. */
  function DrawnLayers(ls: seq<Layer>): (r: seq<Layer>)
    ensures forall l :: l in r <==> l in ls && IsDrawn(l)
    ensures forall k :: 0 <= k < |r| ==> IsDrawn(r[k])
  {
    if ls == [] then []
    else DrawnLayers(ls[..|ls| - 1]) + (if IsDrawn(ls[|ls| - 1]) then [ls[|ls| - 1]] else [])
  }

  function Concat(ss: seq<string>): string {
    if ss == [] then "" else Concat(ss[..|ss| - 1]) + ss[|ss| - 1]
  }

  /** One path element per drawn layer. */
  function PathElements(ls: seq<Layer>, floatRepr: real -> string): (r: seq<string>)
    requires forall k :: 0 <= k < |ls| ==> IsDrawn(ls[k])
    ensures |r| == |ls| && forall k :: 0 <= k < |ls| ==> r[k] == PathElement(ls[k], floatRepr)
  {
    seq(|ls|, k requires 0 <= k < |ls| => PathElement(ls[k], floatRepr))
  }

  /** The body is exactly the path elements of the drawn layers, in the
      order of the request: hidden layers, non-mask layers and layers
      without a path contribute nothing. */
  lemma {:induction false} BodyIsDrawnPaths(ls: seq<Layer>, floatRepr: real -> string)
    ensures Body(ls, floatRepr) == Concat(PathElements(DrawnLayers(ls), floatRepr))
  {
    if ls != [] {
      var n := |ls| - 1;
      var front, last := ls[..n], ls[n];
      BodyIsDrawnPaths(front, floatRepr);
      BodySnoc(ls, n, floatRepr);
      assert ls[..n + 1] == ls;
      var d := DrawnLayers(front);
      if IsDrawn(last) {
        assert DrawnLayers(ls) == d + [last];
        PathElementsSnoc(d, last, floatRepr);
        ConcatSnoc(PathElements(d, floatRepr), PathElement(last, floatRepr));
      } else {
        assert DrawnLayers(ls) == d;
        assert LayerElement(last, floatRepr) == "";
        assert Body(ls, floatRepr) == Body(front, floatRepr);
      }
    }
  }

  lemma PathElementsSnoc(d: seq<Layer>, last: Layer, floatRepr: real -> string)
    requires forall k :: 0 <= k < |d| ==> IsDrawn(d[k])
    requires IsDrawn(last)
    ensures PathElements(d + [last], floatRepr) == PathElements(d, floatRepr) + [PathElement(last, floatRepr)]
  {
  }

  lemma ConcatSnoc(ss: seq<string>, s: string)
    ensures Concat(ss + [s]) == Concat(ss) + s
  {
    assert (ss + [s])[..|ss|] == ss;
  }

  /** The elements of a concatenated request are the two element strings
      concatenated. */
  lemma {:induction false} JoinedAppend(a: seq<Layer>, b: seq<Layer>, element: Layer -> string)
    ensures Joined(a + b, element) == Joined(a, element) + Joined(b, element)
  {
    if b == [] {
      assert a + b == a;
    } else {
      var n := |b| - 1;
      assert (a + b)[..|a + b| - 1] == a + b[..n];
      assert (a + b)[|a + b| - 1] == b[n];
      JoinedAppend(a, b[..n], element);
      AppendAssociates(Joined(a, element), Joined(b[..n], element), element(b[n]));
    }
  }

  /** A layer whose element is empty can be dropped from the sequence. */
  lemma JoinedSkips(a: seq<Layer>, l: Layer, b: seq<Layer>, element: Layer -> string)
    requires element(l) == ""
    ensures Joined(a + [l] + b, element) == Joined(a + b, element)
  {
    JoinedAppend(a + [l], b, element);
    JoinedAppend(a, b, element);
    assert (a + [l])[..|a|] == a;
    assert Joined(a + [l], element) == Joined(a, element);
  }

  /** A layer that is not drawn, wherever it sits in the request, leaves the
      document as it would be without it. */
  lemma UndrawnLayerIgnored(a: seq<Layer>, l: Layer, b: seq<Layer>, floatRepr: real -> string)
    requires !IsDrawn(l)
    ensures Body(a + [l] + b, floatRepr) == Body(a + b, floatRepr)
  {
    JoinedSkips(a, l, b, m => LayerElement(m, floatRepr));
  }

  /** One more layer: a drawn one adds its path element, any other adds
      nothing. */
  lemma BodySnoc(ls: seq<Layer>, i: nat, floatRepr: real -> string)
    requires i < |ls|
    ensures Body(ls[..i + 1], floatRepr) == Body(ls[..i], floatRepr) + LayerElement(ls[i], floatRepr)
    ensures IsDrawn(ls[i]) ==> Body(ls[..i + 1], floatRepr) == Body(ls[..i], floatRepr) + PathElement(ls[i], floatRepr)
    ensures !IsDrawn(ls[i]) ==> Body(ls[..i + 1], floatRepr) == Body(ls[..i], floatRepr)
  {
    assert ls[..i + 1][..i] == ls[..i];
  }

  /** The loop of `_export_svg`: each visible mask layer with a path adds
      its element to the document so far. */
  method AppendLayers(start: string, layers: seq<Layer>, floatRepr: real -> string) returns (svg: string)
    ensures svg == start + Body(layers, floatRepr)
  {
    svg := start;
    var i := 0;
    while i < |layers|
      invariant 0 <= i <= |layers|
      invariant svg == start + Body(layers[..i], floatRepr)
    {
      var layer := layers[i];
      BodySnoc(layers, i, floatRepr);
      if !layer.visible {
        i := i + 1;
        continue;
      }
      if layer.kind == "mask" && layer.data.Some? && "path" in layer.data.value {
        var element := PathElement(layer, floatRepr);
        AppendAssociates(start, Body(layers[..i], floatRepr), element);
        svg := svg + element;
      }
      i := i + 1;
    }
    assert layers[..i] == layers;
  }

  /** `_export_svg`: reads the original's size, accumulates the document
      element by element, writes it out, and wraps any failure in
      "SVG export failed: ". `size` is the outcome of importing the imaging
      and SVG libraries and opening the original; `writeError` is the
      message of a failure while writing the file, if there is one. */
  method ExportSvg(request: ExportRequest, fileName: string, size: Result<(nat, nat), string>,
                   writeError: Option<string>, floatRepr: real -> string)
    returns (r: Result<string, string>)
    ensures size.Failure? ==> r == Failure(WriterFailure(Svg) + size.error)
    ensures size.Success? && writeError.Some? ==> r == Failure(WriterFailure(Svg) + writeError.value)
    ensures size.Success? && writeError.None? ==>
              r == Success(SvgDocument(fileName, size.value.0, size.value.1, request.layers, floatRepr))
  {
    if size.Failure? {
      return Failure(WriterFailure(Svg) + size.error);
    }
    var (width, height) := size.value;
    var svg := Header(width, height);
    svg := svg + Background(fileName, width, height);
    svg := AppendLayers(svg, request.layers, floatRepr);
    svg := svg + Closing;
    if writeError.Some? {
      return Failure(WriterFailure(Svg) + writeError.value);
    }
    return Success(svg);
  }

  /** The prefix each format's writer puts on the message of a failure. */
  function WriterFailure(format: ExportFormat): string {
    match format
    case Svg => "SVG export failed: "
    case Psd => "PSD export failed: "
  }

  /** The endpoint's answer: the download name and, for SVG, the document.
      The PSD branch's image is not part of this model. */
  datatype Exported = Exported(filename: string, svg: Option<string>)

  /** `export_image`. `matches` are the uploaded files the glob on the image
      id finds, by name; `size` is the outcome of loading the libraries and
      opening the first one, `writeError` a failure of the writer after
      that (drawing, writing or saving), if there is one. */
  method ExportImage(request: ExportRequest, matches: seq<string>, size: Result<(nat, nat), string>,
                     writeError: Option<string>, floatRepr: real -> string)
    returns (r: Result<Exported, HttpError>)
    ensures matches == [] ==> r == Failure(HttpError(404, "Original image not found"))
    ensures matches != [] && size.Failure? ==>
              r == Failure(HttpError(500, "Export failed: " + (WriterFailure(request.format) + size.error)))
    ensures matches != [] && size.Success? && writeError.Some? ==>
              r == Failure(HttpError(500, "Export failed: " + (WriterFailure(request.format) + writeError.value)))
    ensures r.Success? <==> matches != [] && size.Success? && writeError.None?
    ensures r.Success? ==> r.value.filename == ExportFilename(request)
    ensures r.Success? && request.format == Svg ==>
              r.value.svg == Some(SvgDocument(matches[0], size.value.0, size.value.1, request.layers, floatRepr))
    ensures r.Success? && request.format == Psd ==> r.value.svg.None?
  {
    if matches == [] {
      return Failure(ToHttpError(HttpRaised(HttpError(404, "Original image not found")), "Export failed: "));
    }
    var written := WriteExport(request, matches[0], size, writeError, floatRepr);
    if written.Failure? {
      return Failure(ToHttpError(OtherRaised(written.error), "Export failed: "));
    }
    r := Success(written.value);
  }

  /** The body of the endpoint's `try` once the original is found: the
      derived name, then the format's writer; a writer's failure is the
      message the endpoint wraps. */
  method WriteExport(request: ExportRequest, original: string, size: Result<(nat, nat), string>,
                     writeError: Option<string>, floatRepr: real -> string)
    returns (r: Result<Exported, string>)
    ensures size.Failure? ==> r == Failure(WriterFailure(request.format) + size.error)
    ensures size.Success? && writeError.Some? ==> r == Failure(WriterFailure(request.format) + writeError.value)
    ensures r.Success? <==> size.Success? && writeError.None?
    ensures r.Success? ==> r.value.filename == ExportFilename(request)
    ensures r.Success? && request.format == Svg ==>
              r.value.svg == Some(SvgDocument(original, size.value.0, size.value.1, request.layers, floatRepr))
    ensures r.Success? && request.format == Psd ==> r.value.svg.None?
  {
    var name := DeriveFilename(request);
    if request.format == Svg {
      var doc := ExportSvg(request, original, size, writeError, floatRepr);
      if doc.Failure? {
        return Failure(doc.error);
      }
      return Success(Exported(name, Some(doc.value)));
    } else {
      if size.Failure? {
        return Failure(WriterFailure(Psd) + size.error);
      }
      if writeError.Some? {
        return Failure(WriterFailure(Psd) + writeError.value);
      }
      return Success(Exported(name, None));
    }
  }
}
