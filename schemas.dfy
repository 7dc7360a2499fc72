/** The back end's request and response records (pydantic models), with
    their defaults written out as constructor functions. */
module Schemas {
  import opened Wrappers

  /** The closed set of export formats; `Value` is the wire string. */
  datatype ExportFormat = Svg | Psd {
    function Value(): (s: string)
      ensures ParseExportFormat(s) == Some(this)
    {
      match this
      case Svg => "svg"
      case Psd => "psd"
    }
  }

  /** Validation of a wire string into an ExportFormat: exactly "svg" and
      "psd" are accepted. */
  function ParseExportFormat(s: string): (r: Option<ExportFormat>)
    ensures r.Some? <==> s == "svg" || s == "psd"
  {
    if s == "svg" then Some(Svg) else if s == "psd" then Some(Psd) else None
  }

  lemma {:induction false} ExportFormatIsClosed(s: string)
    requires ParseExportFormat(s).Some?
    ensures ParseExportFormat(s).value.Value() == s
  {
    if s == "svg" {
      assert ParseExportFormat(s) == Some(Svg);
    } else {
      assert ParseExportFormat(s) == Some(Psd);
    }
  }

  /** A machine-generated region: SVG path data plus display metadata. */
  datatype Segment = Segment(
    id: string,
    name: string,
    path: string,
    color: string,
    bbox: Option<map<string, real>>,
    confidence: Option<real>)

  /** A Segment built from its four required fields; bbox and confidence
      take their default, absent. */
  function NewSegment(id: string, name: string, path: string, color: string): (s: Segment)
    ensures s.id == id && s.name == name && s.path == path && s.color == color
    ensures s.bbox.None? && s.confidence.None?
  {
    Segment(id, name, path, color, None, None)
  }

  /** The back end's view of a layer. Its `type` is an unconstrained string,
      and `data` is a string-keyed dictionary whose values are kept in their
      rendered (string) form. */
  datatype Layer = Layer(
    id: string,
    name: string,
    kind: string,
    visible: bool,
    locked: bool,
    color: Option<string>,
    opacity: real,
    data: Option<map<string, string>>)

  /** A Layer built from its required fields, every other field at its
      default: visible, unlocked, no colour, opacity 1, no data. */
  function NewLayer(id: string, name: string, kind: string): (l: Layer)
    ensures l.id == id && l.name == name && l.kind == kind
    ensures l.visible && !l.locked && l.color.None? && l.opacity == 1.0 && l.data.None?
  {
    Layer(id, name, kind, true, false, None, 1.0, None)
  }

  datatype ExportRequest = ExportRequest(
    imageId: string,
    layers: seq<Layer>,
    format: ExportFormat,
    filename: Option<string>)

  /** An ExportRequest without a file name (the default). */
  function NewExportRequest(imageId: string, layers: seq<Layer>, format: ExportFormat): (r: ExportRequest)
    ensures r.imageId == imageId && r.layers == layers && r.format == format && r.filename.None?
  {
    ExportRequest(imageId, layers, format, None)
  }

  datatype UploadResponse = UploadResponse(
    imageId: string,
    url: string,
    filename: string,
    size: nat,
    dimensions: map<string, int>)

  datatype SegmentsResponse = SegmentsResponse(
    imageId: string,
    segments: seq<Segment>,
    processingTime: real)
}
