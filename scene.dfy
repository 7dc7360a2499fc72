/** The canvas component: the scene objects it draws, its id-to-object index
    and active object, the base-image fit, the reconciliation pass that
    pushes layer fields onto mapped objects, the selection projection, the
    canvas selection events and the segment import. */
module Scene {
  import opened Wrappers
  import opened Text
  import opened ImageEditor
  import Schemas

  /** What a scene object draws. */
  datatype Source = Bitmap(url: string) | PathGeometry(d: string)

  /** The visual properties the reconciliation pass writes onto an object. */
  datatype Props = Props(visible: bool, opacity: real, selectable: bool, evented: bool, fill: Option<string>)

  /** Where an object sits: a uniform scale, then its left and top offsets. */
  datatype Placement = Placement(scale: real, left: real, top: real)

  /** The decoded size of an image. */
  datatype ImageSize = ImageSize(width: real, height: real)

  /** A fabric object, carrying the layer id and kind it was tagged with. */
  class SceneObject {
    const layerId: Option<string>
    const layerType: Option<Kind>
    const source: Source
    var visible: bool
    var opacity: real
    var selectable: bool
    var evented: bool
    var fill: Option<string>
    var placement: Placement

    function State(): Props
      reads this
    {
      Props(visible, opacity, selectable, evented, fill)
    }

    /** The loaded image, scaled and placed, tagged as the base layer, and
        neither selectable nor evented. */
    constructor BaseImage(url: string, at: Placement)
      ensures layerId == Some(BaseLayerId) && layerType == Some(Image) && source == Bitmap(url)
      ensures placement == at
      ensures State() == Props(true, 1.0, false, false, None)
    {
      layerId, layerType, source := Some(BaseLayerId), Some(Image), Bitmap(url);
      visible, opacity, selectable, evented, fill := true, 1.0, false, false, None;
      placement := at;
    }

    /** One record's fields written onto this object; its placement is
        left as it is. */
    method Apply(l: Layer)
      modifies this
      ensures State() == Sync(old(State()), l) && placement == old(placement)
    {
      visible := l.visible;
      selectable := !l.locked;
      evented := !l.locked;
      opacity := l.opacity;
      if Truthy(l.color) && l.kind == Mask {
        fill := l.color;
      }
    }

    /** The path object for one imported segment: at the origin, filled with
        the segment's colour at opacity 0.7, tagged with the segment id and
        kind mask. */
    constructor SegmentPath(s: Schemas.Segment)
      ensures Materializes(this, s)
    {
      layerId, layerType, source := Some(s.id), Some(Mask), PathGeometry(s.path);
      visible, opacity, selectable, evented, fill := true, 0.7, true, true, Some(s.color);
      placement := Placement(1.0, 0.0, 0.0);
    }
  }

  /** `o` is the object the import creates for segment `s`. */
  ghost predicate Materializes(o: SceneObject, s: Schemas.Segment)
    reads o
  {
    && o.layerId == Some(s.id) && o.layerType == Some(Mask) && o.source == PathGeometry(s.path)
    && o.State() == Props(true, 0.7, true, true, Some(s.color))
    && o.placement == Placement(1.0, 0.0, 0.0)
  }

  /** JavaScript's `x || d` on a dimension: zero falls back to the default. */
  function OrDefault(x: real, d: real): real {
    if x == 0.0 then d else x
  }

  function Min(a: real, b: real): (m: real)
    ensures m <= a && m <= b && (m == a || m == b)
  {
    if a <= b then a else b
  }

  /** The base image's placement: the largest uniform scale that keeps it
      within 80% of the canvas on both axes, then centred. */
  function FitImage(canvasWidth: real, canvasHeight: real, size: ImageSize): (p: Placement)
    requires canvasWidth >= 0.0 && canvasHeight >= 0.0 && size.width >= 0.0 && size.height >= 0.0
    ensures var cw, ch := OrDefault(canvasWidth, 800.0), OrDefault(canvasHeight, 600.0);
            var w, h := OrDefault(size.width, 1.0), OrDefault(size.height, 1.0);
            && p.scale > 0.0
            && w * p.scale <= 0.8 * cw && h * p.scale <= 0.8 * ch
            && (w * p.scale == 0.8 * cw || h * p.scale == 0.8 * ch)
            && 2.0 * p.left + w * p.scale == cw && 2.0 * p.top + h * p.scale == ch
            && 0.0 < p.left && p.left + w * p.scale < cw
            && 0.0 < p.top && p.top + h * p.scale < ch
  {
    var cw, ch := OrDefault(canvasWidth, 800.0), OrDefault(canvasHeight, 600.0);
    var w, h := OrDefault(size.width, 1.0), OrDefault(size.height, 1.0);
    var sx, sy := cw * 0.8 / w, ch * 0.8 / h;
    var scale := Min(sx, sy);
    ScaledWithin(w, cw, sx, scale);
    ScaledWithin(h, ch, sy, scale);
    Placement(scale, (cw - w * scale) / 2.0, (ch - h * scale) / 2.0)
  }

  /** Scaling an extent by anything up to `0.8 * c / w` keeps it within 80%
      of `c`, and scaling by exactly that reaches 80%. */
  lemma ScaledWithin(w: real, c: real, limit: real, scale: real)
    requires w > 0.0 && c > 0.0 && limit == c * 0.8 / w && 0.0 < scale <= limit
    ensures w * scale <= 0.8 * c
    ensures scale == limit ==> w * scale == 0.8 * c
  {
    assert w * limit == 0.8 * c;
  }

  /** One layer's fields pushed onto its object's properties. */
  function Sync(p: Props, l: Layer): Props {
    Props(l.visible, l.opacity, !l.locked, !l.locked,
          if Truthy(l.color) && l.kind == Mask then l.color else p.fill)
  }

  /** An object's properties after one reconciliation pass over `ls`, given
      that it is mapped under `id` and had properties `p` before. */
  function Reconciled(p: Props, ls: seq<Layer>, id: string): Props {
    if ls == [] then p
    else
      var q := Reconciled(p, ls[..|ls| - 1], id);
      if ls[|ls| - 1].id == id then Sync(q, ls[|ls| - 1]) else q
  }

  /** The last record with the given id. */
  function LastWith(ls: seq<Layer>, id: string): (r: Option<Layer>)
    ensures r.None? <==> !HasId(ls, id)
    ensures r.Some? ==> r.value in ls && r.value.id == id
  {
    if ls == [] then None
    else if ls[|ls| - 1].id == id then Some(ls[|ls| - 1])
    else
      var r := LastWith(ls[..|ls| - 1], id);
      assert forall i :: 0 <= i < |ls| - 1 ==> ls[..|ls| - 1][i] == ls[i];
      r
  }

  /** The colour of the last mask record with the given id and a colour. */
  function LastFill(ls: seq<Layer>, id: string): (r: Option<string>)
    ensures !HasId(ls, id) ==> r.None?
  {
    if ls == [] then None
    else
      var l := ls[|ls| - 1];
      if l.id == id && Truthy(l.color) && l.kind == Mask then l.color
      else
        assert forall i :: 0 <= i < |ls| - 1 ==> ls[..|ls| - 1][i] == ls[i];
        LastFill(ls[..|ls| - 1], id)
  }

  /** Reconciliation in closed form: an object with no record keeps its
      properties; otherwise it shows the last record's visibility, opacity
      and (un)lock state, and the last mask colour set for it, if any. */
  lemma {:induction false} ReconciledForm(p: Props, ls: seq<Layer>, id: string)
    ensures Reconciled(p, ls, id) ==
              match LastWith(ls, id)
              case None => p
              case Some(l) => Props(l.visible, l.opacity, !l.locked, !l.locked,
                                    if LastFill(ls, id).Some? then LastFill(ls, id) else p.fill)
  {
    if ls != [] {
      var front, last := ls[..|ls| - 1], ls[|ls| - 1];
      ReconciledForm(p, front, id);
      var q := Reconciled(p, front, id);
      assert q.fill == if LastFill(front, id).Some? then LastFill(front, id) else p.fill;
      if last.id == id {
        assert LastWith(ls, id) == Some(last);
      } else {
        assert LastWith(ls, id) == LastWith(front, id);
        assert LastFill(ls, id) == LastFill(front, id);
      }
    }
  }

  /** Running the pass a second time over the same list changes nothing. */
  lemma ReconcileIdempotent(p: Props, ls: seq<Layer>, id: string)
    ensures Reconciled(Reconciled(p, ls, id), ls, id) == Reconciled(p, ls, id)
  {
    ReconciledForm(p, ls, id);
    ReconciledForm(Reconciled(p, ls, id), ls, id);
  }

  lemma {:induction false} LastWithUnique(ls: seq<Layer>, l: Layer)
    requires UniqueIds(ls) && l in ls
    ensures LastWith(ls, l.id) == Some(l)
  {
    var n := |ls| - 1;
    if ls[n] != l {
      assert ls[n].id != l.id by {
        var i :| 0 <= i < |ls| && ls[i] == l;
        assert i < n;
      }
      assert l in ls[..n] by {
        var i :| 0 <= i < |ls| && ls[i] == l;
        assert ls[..n][i] == l;
      }
      LastWithUnique(ls[..n], l);
    }
  }

  /** Locked means non-selectable: on a list without repeated ids, after the
      pass each mapped record's object shows exactly that record's
      visibility and opacity, is selectable and evented exactly when the
      record is unlocked, and takes its colour as fill when it is a mask. */
  lemma ReconcileMirrorsLayer(p: Props, ls: seq<Layer>, l: Layer)
    requires UniqueIds(ls) && l in ls
    ensures var q := Reconciled(p, ls, l.id);
            && q.visible == l.visible && q.opacity == l.opacity
            && q.selectable == !l.locked && q.evented == !l.locked
            && (Truthy(l.color) && l.kind == Mask ==> q.fill == l.color)
  {
    ReconciledForm(p, ls, l.id);
    LastWithUnique(ls, l);
    if Truthy(l.color) && l.kind == Mask {
      LastFillUnique(ls, l);
    }
  }

  lemma {:induction false} LastFillUnique(ls: seq<Layer>, l: Layer)
    requires UniqueIds(ls) && l in ls && Truthy(l.color) && l.kind == Mask
    ensures LastFill(ls, l.id) == l.color
  {
    var n := |ls| - 1;
    if ls[n] != l {
      var i :| 0 <= i < |ls| && ls[i] == l;
      assert i < n;
      assert ls[n].id != l.id;
      assert ls[..n][i] == l;
      LastFillUnique(ls[..n], l);
    }
  }

  /** Deleting a record leaves its object mapped and drawn, and the next
      pass, finding no record under that id, leaves the object's
      properties as they were. */
  lemma DeletedLayerObjectKept(p: Props, ls: seq<Layer>, id: string)
    ensures Reconciled(p, Without(ls, id), id) == p
  {
    var r := Without(ls, id);
    assert !HasId(r, id) by {
      forall i | 0 <= i < |r| ensures r[i].id != id {
        assert r[i] in r;
      }
    }
    ReconciledForm(p, r, id);
  }

  /** The base record is created unlocked, so the first reconcile once the
      base object is mapped makes the base image selectable and evented,
      although the image was placed as neither. */
  lemma BaseImageBecomesSelectable(p: Props, url: string)
    ensures Reconciled(p, [BaseLayer(url)], BaseLayerId).selectable
    ensures Reconciled(p, [BaseLayer(url)], BaseLayerId).evented
  {
    assert [BaseLayer(url)][..0] == [];
  }

  /** A canvas selection event, with the objects it reports as selected. */
  datatype SelectionEvent = Created(selected: seq<SceneObject>) | Updated(selected: seq<SceneObject>) | Cleared

  /** What the canvas handlers pass to `onLayerSelect`: None when they do not
      call it, Some(v) when they call it with v. */
  function Reported(e: SelectionEvent): (r: Option<Option<string>>)
    ensures e.Cleared? ==> r == Some(None)
    ensures !e.Cleared? && |e.selected| > 0 && Truthy(e.selected[0].layerId) ==> r == Some(e.selected[0].layerId)
    ensures !e.Cleared? && (|e.selected| == 0 || !Truthy(e.selected[0].layerId)) ==> r.None?
  {
    match e
    case Cleared => Some(None)
    case _ => if |e.selected| > 0 && Truthy(e.selected[0].layerId) then Some(e.selected[0].layerId) else None
  }

  /** The next import step: segments processed before the failure point. */
  function ImportedCount(n: nat, failAt: Option<nat>): (k: nat)
    ensures k <= n
    ensures failAt.None? || failAt.value >= n ==> k == n
    ensures failAt.Some? && failAt.value < n ==> k == failAt.value
  {
    if failAt.Some? && failAt.value < n then failAt.value else n
  }

  /** The record the import creates for a segment. */
  function SegmentLayer(s: Schemas.Segment): (l: Layer)
    ensures l.id == s.id && l.name == s.name && l.kind == Mask && l.visible && !l.locked
    ensures l.color == Some(s.color) && l.opacity == 0.7 && l.data == SegmentPayload(s)
  {
    Layer(s.id, s.name, Mask, true, false, Some(s.color), 0.7, SegmentPayload(s), None)
  }

  /** The layer list after the import has passed each of `segs` to the
      update callback, in order. */
  function ImportLayers(ls: seq<Layer>, segs: seq<Schemas.Segment>): seq<Layer> {
    if segs == [] then ls
    else
      var s := segs[|segs| - 1];
      Upsert(ImportLayers(ls, segs[..|segs| - 1]), s.id, FullPatch(SegmentLayer(s)))
  }

  predicate DistinctSegmentIds(segs: seq<Schemas.Segment>) {
    forall i, j :: 0 <= i < j < |segs| ==> segs[i].id != segs[j].id
  }

  /** The records for a sequence of segments, in the same order. */
  function SegmentLayers(segs: seq<Schemas.Segment>): (r: seq<Layer>)
    ensures |r| == |segs| && forall i :: 0 <= i < |segs| ==> r[i] == SegmentLayer(segs[i])
  {
    if segs == [] then [] else SegmentLayers(segs[..|segs| - 1]) + [SegmentLayer(segs[|segs| - 1])]
  }

  /** The ids of a sequence of segments. */
  function SegmentIds(segs: seq<Schemas.Segment>): (r: set<string>)
    ensures forall id :: id in r <==> exists j :: 0 <= j < |segs| && segs[j].id == id
  {
    if segs == [] then {}
    else
      var front := segs[..|segs| - 1];
      assert forall j :: 0 <= j < |front| ==> front[j] == segs[j];
      SegmentIds(front) + {segs[|segs| - 1].id}
  }

  /** Every object of `objs` is the one the import creates for the segment
      at the same position. */
  ghost predicate AllMaterialize(objs: seq<SceneObject>, segs: seq<Schemas.Segment>)
    reads set o | o in objs
  {
    |objs| == |segs| && forall j | 0 <= j < |segs| :: Materializes(objs[j], segs[j])
  }

  /** The index after the objects `objs` have been mapped under the ids of
      `segs`, in order. */
  function Overlay(m: map<string, SceneObject>, segs: seq<Schemas.Segment>, objs: seq<SceneObject>): map<string, SceneObject>
    requires |segs| == |objs|
  {
    if segs == [] then m
    else
      var n := |segs| - 1;
      Overlay(m, segs[..n], objs[..n])[segs[n].id := objs[n]]
  }

  /** The overlaid index gains exactly the imported ids, keeps every other
      entry, and maps each imported id to one of the new objects. */
  lemma {:induction false} OverlayFacts(m: map<string, SceneObject>, segs: seq<Schemas.Segment>, objs: seq<SceneObject>)
    requires |segs| == |objs|
    ensures Overlay(m, segs, objs).Keys == m.Keys + SegmentIds(segs)
    ensures forall id | id in m && id !in SegmentIds(segs) :: Overlay(m, segs, objs)[id] == m[id]
    ensures forall id | id in SegmentIds(segs) :: Overlay(m, segs, objs)[id] in objs
  {
    if segs != [] {
      var n := |segs| - 1;
      SegmentIdsSnoc(segs, n);
      assert segs[..n + 1] == segs;
      OverlayFacts(m, segs[..n], objs[..n]);
      assert forall o | o in objs[..n] :: o in objs;
    }
  }

  lemma AllMaterializeSnoc(objs: seq<SceneObject>, segs: seq<Schemas.Segment>, i: nat, o: SceneObject)
    requires i < |segs| && AllMaterialize(objs, segs[..i]) && Materializes(o, segs[i])
    ensures AllMaterialize(objs + [o], segs[..i + 1])
  {
    assert segs[..i + 1][..i] == segs[..i];
    forall j | 0 <= j < i + 1 ensures Materializes((objs + [o])[j], segs[..i + 1][j]) {
      if j < i {
        assert (objs + [o])[j] == objs[j] && segs[..i + 1][j] == segs[..i][j];
      }
    }
  }

  lemma OverlaySnoc(m: map<string, SceneObject>, segs: seq<Schemas.Segment>, objs: seq<SceneObject>, i: nat, o: SceneObject)
    requires |objs| == i < |segs|
    ensures Overlay(m, segs[..i + 1], objs + [o]) == Overlay(m, segs[..i], objs)[segs[i].id := o]
  {
    assert segs[..i + 1][..i] == segs[..i];
    assert (objs + [o])[..i] == objs;
  }

  lemma ImportLayersSnoc(ls: seq<Layer>, segs: seq<Schemas.Segment>, i: nat)
    requires i < |segs|
    ensures ImportLayers(ls, segs[..i + 1]) == Upsert(ImportLayers(ls, segs[..i]), segs[i].id, FullPatch(SegmentLayer(segs[i])))
  {
    assert segs[..i + 1][..i] == segs[..i];
  }

  lemma SegmentIdsSnoc(segs: seq<Schemas.Segment>, i: nat)
    requires i < |segs|
    ensures SegmentIds(segs[..i + 1]) == SegmentIds(segs[..i]) + {segs[i].id}
  {
    assert segs[..i + 1][..i] == segs[..i];
  }

  /** N segments with fresh, distinct ids become N new records at the end of
      the list, in the order they were returned. */
  lemma {:induction false} ImportAppends(ls: seq<Layer>, segs: seq<Schemas.Segment>)
    requires DistinctSegmentIds(segs)
    requires forall i :: 0 <= i < |segs| ==> !HasId(ls, segs[i].id)
    ensures ImportLayers(ls, segs) == ls + SegmentLayers(segs)
  {
    if segs != [] {
      var n := |segs| - 1;
      var front := segs[..n];
      assert forall i :: 0 <= i < |front| ==> front[i] == segs[i];
      ImportAppends(ls, front);
      var prev := ImportLayers(ls, front);
      assert prev == ls + SegmentLayers(front);
      assert !HasId(prev, segs[n].id) by {
        forall k | 0 <= k < |prev| ensures prev[k].id != segs[n].id {
          if k >= |ls| {
            assert prev[k] == SegmentLayer(front[k - |ls|]);
          }
        }
      }
      UpsertAppends(prev, SegmentLayer(segs[n]));
    }
  }

  /** How a segment import ends. */
  datatype ImportOutcome = CanvasMissing | ImageMissing | ImportFailed | ImportDone

  /** The segments an import materializes: none without a canvas, without an
      image id or after a failed request; otherwise those before the first
      failing one. */
  function ImportedSegments(mounted: bool, currentImageId: Option<string>,
                            response: Result<seq<Schemas.Segment>, string>, failAt: Option<nat>): (segs: seq<Schemas.Segment>)
    ensures !mounted || !Truthy(currentImageId) || response.Failure? ==> segs == []
    ensures mounted && Truthy(currentImageId) && response.Success? ==>
              segs == response.value[..ImportedCount(|response.value|, failAt)]
  {
    if !mounted || !Truthy(currentImageId) || response.Failure? then []
    else response.value[..ImportedCount(|response.value|, failAt)]
  }

  function ImportOutcomeOf(mounted: bool, currentImageId: Option<string>,
                           response: Result<seq<Schemas.Segment>, string>, failAt: Option<nat>): ImportOutcome
  {
    if !mounted then CanvasMissing
    else if !Truthy(currentImageId) then ImageMissing
    else if response.Failure? then ImportFailed
    else if ImportedCount(|response.value|, failAt) < |response.value| then ImportFailed
    else ImportDone
  }

  /** The canvas component's mutable state: the fabric canvas (once
      mounted), the id-to-object index, the objects drawn in paint order, and
      the active object. */
  class SceneAdapter {
    var mounted: bool
    var width: real
    var height: real
    var index: map<string, SceneObject>
    var painted: seq<SceneObject>
    var active: SceneObject?

    /** Each mapped object is drawn and tagged with the id it is mapped
        under, so no two ids share an object. */
    ghost predicate Valid()
      reads this
    {
      && width >= 0.0 && height >= 0.0
      && (forall id | id in index :: index[id].layerId == Some(id) && index[id] in painted)
    }

    constructor ()
      ensures Valid() && !mounted
      ensures index == map[] && painted == [] && active == null
    {
      mounted, width, height := false, 0.0, 0.0;
      index, painted, active := map[], [], null;
    }

    /** Creating the 800 by 600 fabric canvas. */
    method Mount()
      requires Valid()
      modifies this`mounted, this`width, this`height
      ensures Valid() && mounted && width == 800.0 && height == 600.0
    {
      mounted, width, height := true, 800.0, 600.0;
    }

    /** Loading the base image: when the canvas exists, the URL is non-empty
        and the image decodes, one fitted, non-selectable, non-evented image
        object tagged `image-base` is drawn and mapped under that id. */
    method LoadBaseImage(imageUrl: string, decoded: Option<ImageSize>)
      requires Valid()
      requires decoded.Some? ==> decoded.value.width >= 0.0 && decoded.value.height >= 0.0
      modifies this`index, this`painted
      ensures Valid()
      ensures !(mounted && imageUrl != "" && decoded.Some?) ==> index == old(index) && painted == old(painted)
      ensures mounted && imageUrl != "" && decoded.Some? ==>
                && |painted| == |old(painted)| + 1 && painted[..|old(painted)|] == old(painted)
                && var o := painted[|painted| - 1];
                && fresh(o) && index == old(index)[BaseLayerId := o]
                && o.source == Bitmap(imageUrl) && o.placement == FitImage(width, height, decoded.value)
                && o.layerId == Some(BaseLayerId) && o.layerType == Some(Image)
                && !o.selectable && !o.evented
    {
      if !mounted || imageUrl == "" || decoded.None? {
        return;
      }
      var at := FitImage(width, height, decoded.value);
      var img := new SceneObject.BaseImage(imageUrl, at);
      painted := painted + [img];
      index := index[BaseLayerId := img];
    }

    /** The reconciliation pass: every mapped object takes the fields of the
        records mapped under its id; no other object is touched and the index
        neither gains nor loses entries. */
    method Reconcile(layers: seq<Layer>)
      requires Valid()
      modifies index.Values
      ensures Valid()
      ensures !mounted ==> forall id | id in index :: index[id].State() == old(index[id].State())
      ensures mounted ==> forall id | id in index :: index[id].State() == Reconciled(old(index[id].State()), layers, id)
      ensures forall id | id in index :: index[id].placement == old(index[id].placement)
    {
      if !mounted {
        return;
      }
      var i := 0;
      while i < |layers|
        invariant 0 <= i <= |layers|
        invariant forall id | id in index :: index[id].State() == Reconciled(old(index[id].State()), layers[..i], id)
        invariant forall id | id in index :: index[id].placement == old(index[id].placement)
      {
        var layer := layers[i];
        label before:
        if layer.id in index {
          index[layer.id].Apply(layer);
        }
        forall id | id in index
          ensures index[id].State() == Reconciled(old(index[id].State()), layers[..i + 1], id)
          ensures index[id].placement == old(index[id].placement)
        {
          assert layers[..i + 1][..i] == layers[..i];
          assert old@before(index[id].State()) == Reconciled(old(index[id].State()), layers[..i], id);
          if id != layer.id && layer.id in index {
            assert index[id].layerId != index[layer.id].layerId;
          }
        }
        i := i + 1;
      }
      assert layers[..i] == layers;
    }

    /** Projecting the canonical selection onto the canvas. */
    method ProjectSelection(selection: Option<string>)
      requires Valid()
      modifies this`active
      ensures !mounted ==> active == old(active)
      ensures mounted && !Truthy(selection) ==> active == null
      ensures mounted && Truthy(selection) && selection.value in index && index[selection.value].selectable ==>
                active == index[selection.value]
      ensures mounted && Truthy(selection) && !(selection.value in index && index[selection.value].selectable) ==>
                active == old(active)
    {
      if !mounted {
        return;
      }
      if !Truthy(selection) {
        active := null;
        return;
      }
      if selection.value in index && index[selection.value].selectable {
        active := index[selection.value];
      }
    }

    /** The selection handlers: the reported id, or none on a clear, goes
        to the editor's selection; an untagged object reports nothing. */
    method HandleSelectionEvent(e: SelectionEvent, editor: Editor)
      modifies editor`selectedLayerId
      ensures Reported(e).Some? ==> editor.selectedLayerId == Reported(e).value
      ensures Reported(e).None? ==> editor.selectedLayerId == old(editor.selectedLayerId)
    {
      var r := Reported(e);
      if r.Some? {
        editor.SelectLayer(r.value);
      }
    }

    /** One step of the import: draw and map the segment's path object, then
        pass its record to the editor's update callback. */
    method AddSegment(editor: Editor, s: Schemas.Segment) returns (obj: SceneObject)
      requires Valid() && editor.Valid()
      modifies this`index, this`painted, editor`layers
      ensures Valid() && editor.Valid()
      ensures painted == old(painted) + [obj]
      ensures fresh(obj) && Materializes(obj, s)
      ensures index == old(index)[s.id := obj]
      ensures editor.layers == Upsert(old(editor.layers), s.id, FullPatch(SegmentLayer(s)))
    {
      obj := new SceneObject.SegmentPath(s);
      painted := painted + [obj];
      index := index[s.id := obj];
      editor.UpdateLayer(s.id, FullPatch(SegmentLayer(s)));
    }

    /** Steps of the import for each of `segs`, in order; `added` are the
        objects drawn. */
    method AddSegments(editor: Editor, segs: seq<Schemas.Segment>) returns (ghost added: seq<SceneObject>)
      requires Valid() && editor.Valid()
      modifies this`index, this`painted, editor`layers
      ensures Valid() && editor.Valid()
      ensures painted == old(painted) + added
      ensures AllMaterialize(added, segs)
      ensures index == Overlay(old(index), segs, added)
      ensures editor.layers == ImportLayers(old(editor.layers), segs)
    {
      added := [];
      var i := 0;
      while i < |segs|
        invariant 0 <= i <= |segs|
        invariant Valid() && editor.Valid()
        invariant painted == old(painted) + added
        invariant AllMaterialize(added, segs[..i])
        invariant index == Overlay(old(index), segs[..i], added)
        invariant editor.layers == ImportLayers(old(editor.layers), segs[..i])
      {
        var obj := AddSegment(editor, segs[i]);
        AllMaterializeSnoc(added, segs, i, obj);
        OverlaySnoc(old(index), segs, added, i, obj);
        ImportLayersSnoc(old(editor.layers), segs, i);
        AppendAssociates(old(painted), added, [obj]);
        added := added + [obj];
        i := i + 1;
      }
      assert segs[..i] == segs;
    }

    /** The segment import: for each segment in order, one path object is
        drawn and mapped under the segment id and one mask record is passed
        to the editor's update; the first failure abandons the rest. */
    method ImportSegments(editor: Editor, currentImageId: Option<string>,
                          response: Result<seq<Schemas.Segment>, string>, failAt: Option<nat>)
      returns (outcome: ImportOutcome, ghost added: seq<SceneObject>)
      requires Valid() && editor.Valid()
      modifies this`index, this`painted, editor`layers
      ensures Valid() && editor.Valid()
      ensures outcome == ImportOutcomeOf(mounted, currentImageId, response, failAt)
      ensures var segs := ImportedSegments(mounted, currentImageId, response, failAt);
              && painted == old(painted) + added
              && AllMaterialize(added, segs)
              && index == Overlay(old(index), segs, added)
              && editor.layers == ImportLayers(old(editor.layers), segs)
    {
      added := [];
      if !mounted {
        return CanvasMissing, added;
      }
      if !Truthy(currentImageId) {
        return ImageMissing, added;
      }
      if response.Failure? {
        return ImportFailed, added;
      }
      var n := ImportedCount(|response.value|, failAt);
      added := AddSegments(editor, response.value[..n]);
      outcome := if n < |response.value| then ImportFailed else ImportDone;
    }
  }

  /** The object a list click activates reports that same id back when the
      canvas announces it as selected: the two surfaces agree. */
  lemma ActiveObjectReportsItsLayer(a: SceneAdapter, id: string)
    requires a.Valid() && id in a.index && id != ""
    ensures Reported(Created([a.index[id]])) == Some(Some(id))
  {
  }
}
