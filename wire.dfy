/** The export request as it crosses from the editor to the export
    endpoint: each editor record becomes the back end's Layer, with its kind
    spelled out, its payload as a string-keyed dictionary and no thumbnail. */
module Wire {
  import opened Wrappers
  import opened Text
  import ImageEditor
  import Schemas
  import Export
  import Scene

  /** The payload as a dictionary: the image's `src`, or the segment's
      string fields. */
  function DataToWire(d: ImageEditor.LayerData): (m: map<string, string>)
    ensures d.ImageSource? ==> m == map["src" := d.src] && "path" !in m
    ensures d.SegmentPayload? ==> "path" in m && m["path"] == d.segment.path
  {
    match d
    case ImageSource(src) => map["src" := src]
    case SegmentPayload(s) => map["id" := s.id, "name" := s.name, "path" := s.path, "color" := s.color]
  }

  /** One record in the back end's terms. */
  function ToWire(l: ImageEditor.Layer): (w: Schemas.Layer)
    ensures w.id == l.id && w.name == l.name && w.kind == l.kind.Name()
    ensures w.visible == l.visible && w.locked == l.locked && w.color == l.color && w.opacity == l.opacity
    ensures w.data == Some(DataToWire(l.data))
  {
    Schemas.Layer(l.id, l.name, l.kind.Name(), l.visible, l.locked, l.color, l.opacity, Some(DataToWire(l.data)))
  }

  function WireLayers(ls: seq<ImageEditor.Layer>): (ws: seq<Schemas.Layer>)
    ensures |ws| == |ls| && forall i :: 0 <= i < |ls| ==> ws[i] == ToWire(ls[i])
  {
    seq(|ls|, i requires 0 <= i < |ls| => ToWire(ls[i]))
  }

  /** The request the endpoint receives for an export the editor posted. */
  function ToRequest(body: ImageEditor.ExportBody): (r: Schemas.ExportRequest)
    ensures r.imageId == body.imageId && r.format == body.format && r.filename.None?
    ensures r.layers == WireLayers(body.layers)
  {
    Schemas.ExportRequest(body.imageId, WireLayers(body.layers), body.format, None)
  }

  /** A record is drawn in the exported SVG exactly when it is a visible
      mask carrying a segment; the base image's record never is. */
  lemma DrawnIffVisibleSegment(l: ImageEditor.Layer)
    ensures Export.IsDrawn(ToWire(l)) <==> l.visible && l.kind == ImageEditor.Mask && l.data.SegmentPayload?
  {
    assert ImageEditor.Kind.Image.Name() != "mask" && ImageEditor.Kind.Shape.Name() != "mask";
  }

  /** An imported segment, exported while its record is as the import left
      it, is drawn with the segment's path and colour. */
  lemma ImportedSegmentIsExported(s: Schemas.Segment)
    ensures var w := ToWire(Scene.SegmentLayer(s));
            && Export.IsDrawn(w)
            && w.data.value["path"] == s.path
            && (s.color != "" ==> Export.Fill(w) == s.color)
  {
  }
}
