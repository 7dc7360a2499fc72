/** The editor's layer store: the Layer record, the partial updates the
    panels emit, the pure list operations behind each state setter, the
    Editor object holding the three state cells, and the export handler. */
module ImageEditor {
  import opened Wrappers
  import opened Text
  import Schemas

  /** The reserved id of the record (and scene object) for the loaded image. */
  const BaseLayerId: string := "image-base"

  datatype Kind = Image | Mask | Shape {
    /** The wire spelling of the kind. */
    function Name(): string {
      match this
      case Image => "image"
      case Mask => "mask"
      case Shape => "shape"
    }
  }

  /** The record's payload: the loaded image's URL for the base record, the
      segment descriptor for an imported mask. The store never looks inside. */
  datatype LayerData = ImageSource(src: string) | SegmentPayload(segment: Schemas.Segment)

  datatype Layer = Layer(
    id: string,
    name: string,
    kind: Kind,
    visible: bool,
    locked: bool,
    color: Option<string>,
    opacity: real,
    data: LayerData,
    thumbnail: Option<string>)

  /** A `Partial<Layer>` without its id (the id travels beside it): every
      field that is present overrides the record's field. */
  datatype Patch = Patch(
    name: Option<string>,
    kind: Option<Kind>,
    visible: Option<bool>,
    locked: Option<bool>,
    color: Option<string>,
    opacity: Option<real>,
    data: Option<LayerData>,
    thumbnail: Option<string>)

  const NoChange: Patch := Patch(None, None, None, None, None, None, None, None)

  /** `{...l, ...p}`. */
  function Merge(l: Layer, p: Patch): (r: Layer)
    ensures r.id == l.id
    ensures p == NoChange ==> r == l
    ensures p.visible.Some? ==> r.visible == p.visible.value
    ensures p.visible.None? ==> r.visible == l.visible
    ensures p.locked.Some? ==> r.locked == p.locked.value
    ensures p.locked.None? ==> r.locked == l.locked
    ensures p.name.Some? ==> r.name == p.name.value
    ensures p.name.None? ==> r.name == l.name
    ensures p.kind.Some? ==> r.kind == p.kind.value
    ensures p.kind.None? ==> r.kind == l.kind
    ensures p.opacity.Some? ==> r.opacity == p.opacity.value
    ensures p.opacity.None? ==> r.opacity == l.opacity
    ensures p.data.Some? ==> r.data == p.data.value
    ensures p.data.None? ==> r.data == l.data
    ensures p.color.Some? ==> r.color == p.color
    ensures p.color.None? ==> r.color == l.color
    ensures p.thumbnail.Some? ==> r.thumbnail == p.thumbnail
    ensures p.thumbnail.None? ==> r.thumbnail == l.thumbnail
  {
    Layer(
      l.id,
      p.name.GetOr(l.name),
      p.kind.GetOr(l.kind),
      p.visible.GetOr(l.visible),
      p.locked.GetOr(l.locked),
      if p.color.Some? then p.color else l.color,
      p.opacity.GetOr(l.opacity),
      p.data.GetOr(l.data),
      if p.thumbnail.Some? then p.thumbnail else l.thumbnail)
  }

  /** A patch that carries every required field of a Layer. */
  predicate Complete(p: Patch) {
    p.name.Some? && p.kind.Some? && p.visible.Some? && p.locked.Some? && p.opacity.Some? && p.data.Some?
  }

  /** The record a complete patch describes, under the given id. */
  function FromPatch(id: string, p: Patch): (l: Layer)
    requires Complete(p)
    ensures l.id == id
    ensures Merge(l, p) == l
  {
    Layer(id, p.name.value, p.kind.value, p.visible.value, p.locked.value, p.color, p.opacity.value, p.data.value, p.thumbnail)
  }

  /** A whole record passed as an update (`onLayerUpdate(l.id, l)`). */
  function FullPatch(l: Layer): (p: Patch)
    ensures Complete(p) && FromPatch(l.id, p) == l
  {
    Patch(Some(l.name), Some(l.kind), Some(l.visible), Some(l.locked), l.color, Some(l.opacity), Some(l.data), l.thumbnail)
  }

  predicate HasId(ls: seq<Layer>, id: string) {
    exists i :: 0 <= i < |ls| && ls[i].id == id
  }

  predicate UniqueIds(ls: seq<Layer>) {
    forall i, j :: 0 <= i < j < |ls| ==> ls[i].id != ls[j].id
  }

  function Ids(ls: seq<Layer>): (r: seq<string>)
    ensures |r| == |ls| && forall i :: 0 <= i < |ls| ==> r[i] == ls[i].id
    ensures UniqueIds(ls) <==> forall i, j :: 0 <= i < j < |r| ==> r[i] != r[j]
  {
    seq(|ls|, i requires 0 <= i < |ls| => ls[i].id)
  }

  /** The position of the first record with the given id (`findIndex`). */
  function FindIndex(ls: seq<Layer>, id: string): (r: Option<nat>)
    ensures r.None? <==> !HasId(ls, id)
    ensures r.Some? ==> r.value < |ls| && ls[r.value].id == id
    ensures r.Some? ==> forall j :: 0 <= j < r.value ==> ls[j].id != id
  {
    if ls == [] then None
    else if ls[0].id == id then Some(0)
    else match FindIndex(ls[1..], id)
      case None =>
        assert forall i :: 1 <= i < |ls| ==> ls[i] == ls[1..][i - 1];
        None
      case Some(k) => Some(k + 1)
  }

  /** `ls.find(l => l.id === id)`: the first record with that id. */
  function Find(ls: seq<Layer>, id: string): (r: Option<Layer>)
    ensures r.None? <==> !HasId(ls, id)
    ensures r.Some? ==> exists i :: 0 <= i < |ls| && ls[i] == r.value && r.value.id == id &&
                                    forall j :: 0 <= j < i ==> ls[j].id != id
  {
    match FindIndex(ls, id)
    case None => None
    case Some(k) => Some(ls[k])
  }

  /** The record the properties panel shows: the first record whose id is
      the selection, absent when nothing is selected or nothing matches. */
  function SelectedLayer(ls: seq<Layer>, selection: Option<string>): (r: Option<Layer>)
    ensures r.None? <==> selection.None? || !HasId(ls, selection.value)
    ensures r.Some? ==> Some(r.value.id) == selection && r.value in ls
    ensures r.Some? ==> forall j :: 0 <= j < |ls| && ls[j] != r.value ==> ls[j].id == r.value.id ==>
                          exists i :: 0 <= i < j && ls[i] == r.value
  {
    if selection.None? then None else Find(ls, selection.value)
  }

  /** `ls.filter(l => l.id !== id)`. */
  function Without(ls: seq<Layer>, id: string): (r: seq<Layer>)
    ensures forall l :: l in r <==> l in ls && l.id != id
    ensures |r| <= |ls|
  {
    if ls == [] then []
    else (if ls[0].id == id then [] else [ls[0]]) + Without(ls[1..], id)
  }

  lemma {:induction false} WithoutDistributes(a: seq<Layer>, b: seq<Layer>, id: string)
    ensures Without(a + b, id) == Without(a, id) + Without(b, id)
  {
    if a == [] {
      assert a + b == b;
    } else {
      var ab := a + b;
      var head := if a[0].id == id then [] else [a[0]];
      assert ab[0] == a[0] && ab[1..] == a[1..] + b;
      WithoutDistributes(a[1..], b, id);
      assert Without(ab, id) == head + (Without(a[1..], id) + Without(b, id));
      AppendAssociates(head, Without(a[1..], id), Without(b, id));
    }
  }

  lemma {:induction false} WithoutAbsent(ls: seq<Layer>, id: string)
    requires !HasId(ls, id)
    ensures Without(ls, id) == ls
  {
    if ls != [] {
      assert !HasId(ls[1..], id) by {
        forall i | 0 <= i < |ls[1..]| ensures ls[1..][i].id != id {
          assert ls[1..][i] == ls[i + 1];
        }
      }
      WithoutAbsent(ls[1..], id);
      assert [ls[0]] + ls[1..] == ls;
    }
  }

  lemma {:induction false} WithoutKeepsUnique(ls: seq<Layer>, id: string)
    requires UniqueIds(ls)
    ensures UniqueIds(Without(ls, id))
  {
    if ls != [] {
      assert UniqueIds(ls[1..]) by {
        forall i, j | 0 <= i < j < |ls[1..]| ensures ls[1..][i].id != ls[1..][j].id {
          assert ls[1..][i] == ls[i + 1] && ls[1..][j] == ls[j + 1];
        }
      }
      WithoutKeepsUnique(ls[1..], id);
      var rest := Without(ls[1..], id);
      if ls[0].id != id {
        forall j | 0 <= j < |rest| ensures rest[j].id != ls[0].id {
          assert rest[j] in ls[1..];
          var k :| 0 <= k < |ls[1..]| && ls[1..][k] == rest[j];
          assert ls[k + 1] == rest[j];
        }
        UniqueCons(ls[0], rest);
      } else {
        assert Without(ls, id) == rest;
      }
    }
  }

  /** A record whose id is not among those of a list without repeated ids
      can go in front of it. */
  lemma UniqueCons(l: Layer, rest: seq<Layer>)
    requires UniqueIds(rest)
    requires forall j :: 0 <= j < |rest| ==> rest[j].id != l.id
    ensures UniqueIds([l] + rest)
  {
    var r := [l] + rest;
    forall i, j | 0 <= i < j < |r| ensures r[i].id != r[j].id {
      assert r[j] == rest[j - 1];
      if i > 0 {
        assert r[i] == rest[i - 1];
      }
    }
  }

  /** The store update behind `updateLayer(id, patch)`. The source calls
      this function without defining it; the model fixes one reading of its
      callers: merge the patch into every record with that id when there is
      one, append the described record when there is none and the patch is
      a whole record, and change nothing otherwise. */
  function Upsert(ls: seq<Layer>, id: string, p: Patch): (r: seq<Layer>)
  {
    if HasId(ls, id) then seq(|ls|, i requires 0 <= i < |ls| => if ls[i].id == id then Merge(ls[i], p) else ls[i])
    else if Complete(p) then ls + [FromPatch(id, p)]
    else ls
  }

  /** An update never reorders, removes or renames records; it adds the
      given id at the end exactly when the id is new and the patch is a
      whole record. */
  lemma UpsertIds(ls: seq<Layer>, id: string, p: Patch)
    ensures HasId(ls, id) || !Complete(p) ==> Ids(Upsert(ls, id, p)) == Ids(ls)
    ensures !HasId(ls, id) && Complete(p) ==> Ids(Upsert(ls, id, p)) == Ids(ls) + [id]
  {
    var r := Upsert(ls, id, p);
    if !HasId(ls, id) && Complete(p) {
      assert Ids(r) == Ids(ls) + [id];
    }
  }

  lemma {:induction false} UpsertKeepsUnique(ls: seq<Layer>, id: string, p: Patch)
    requires UniqueIds(ls)
    ensures UniqueIds(Upsert(ls, id, p))
  {
    UpsertIds(ls, id, p);
    var r := Upsert(ls, id, p);
    forall i, j | 0 <= i < j < |r| ensures r[i].id != r[j].id {
      assert Ids(r)[i] == r[i].id && Ids(r)[j] == r[j].id;
      if j == |ls| {
        assert !HasId(ls, id);
        assert Ids(r)[i] == ls[i].id;
      } else {
        assert Ids(r)[i] == Ids(ls)[i] && Ids(r)[j] == Ids(ls)[j];
      }
    }
  }

  /** After an update, the record with that id is the old one with the patch
      applied, or the record the patch describes when it was appended. */
  lemma UpsertFind(ls: seq<Layer>, id: string, p: Patch)
    ensures HasId(ls, id) ==> Find(Upsert(ls, id, p), id) == Some(Merge(Find(ls, id).value, p))
    ensures !HasId(ls, id) && Complete(p) ==> Find(Upsert(ls, id, p), id) == Some(FromPatch(id, p))
    ensures !HasId(ls, id) && !Complete(p) ==> Find(Upsert(ls, id, p), id).None?
  {
    var r := Upsert(ls, id, p);
    if HasId(ls, id) {
      var k := FindIndex(ls, id).value;
      assert r[k] == Merge(ls[k], p);
      assert HasId(r, id);
      assert forall j :: 0 <= j < k ==> r[j].id == ls[j].id;
    } else if Complete(p) {
      assert r[|ls|].id == id;
      assert forall j :: 0 <= j < |ls| ==> r[j] == ls[j];
    }
  }

  /** A whole record under a new id is appended at the end. */
  lemma UpsertAppends(ls: seq<Layer>, l: Layer)
    requires !HasId(ls, l.id)
    ensures Upsert(ls, l.id, FullPatch(l)) == ls + [l]
  {
  }

  /** What the panels ask the editor to do: the three callbacks
      `onLayerSelect`, `onLayerUpdate` and `onLayerDelete`. */
  datatype Command = SelectCmd(selection: Option<string>) | UpdateCmd(id: string, patch: Patch) | DeleteCmd(id: string)

  /** The selection after deleting `id`: cleared when `id` was selected. */
  function SelectionAfterDelete(selection: Option<string>, id: string): (r: Option<string>)
    ensures selection == Some(id) ==> r.None?
    ensures selection != Some(id) ==> r == selection
  {
    if selection == Some(id) then None else selection
  }

  /** The state cells after one command (the effect of the callbacks wired at
      lines 115-119, 130-131 and 144 of the component). */
  function Step(ls: seq<Layer>, selection: Option<string>, c: Command): (seq<Layer>, Option<string>)
  {
    match c
    case SelectCmd(s) => (ls, s)
    case UpdateCmd(id, p) => (Upsert(ls, id, p), selection)
    case DeleteCmd(id) => (Without(ls, id), SelectionAfterDelete(selection, id))
  }

  /** No command can make two records share an id. */
  lemma StepKeepsUnique(ls: seq<Layer>, selection: Option<string>, c: Command)
    requires UniqueIds(ls)
    ensures UniqueIds(Step(ls, selection, c).0)
  {
    match c
    case SelectCmd(_) =>
    case UpdateCmd(id, p) => UpsertKeepsUnique(ls, id, p);
    case DeleteCmd(id) => WithoutKeepsUnique(ls, id);
  }

  /** The record seeded for a freshly loaded image. */
  function BaseLayer(url: string): (l: Layer)
    ensures l.id == BaseLayerId && l.kind == Image && l.visible && !l.locked
    ensures l.opacity == 1.0 && l.data == ImageSource(url) && l.color.None?
  {
    Layer(BaseLayerId, "Background Image", Image, true, false, None, 1.0, ImageSource(url), None)
  }

  /** The properties panel's `onLayerUpdate(updates)`: applied to the
      selected record's id, and dropped when nothing is selected. */
  function PropertiesUpdate(selected: Option<Layer>, updates: Patch): (c: Option<Command>)
    ensures c.Some? <==> selected.Some?
    ensures c.Some? ==> c.value == UpdateCmd(selected.value.id, updates)
  {
    if selected.Some? then Some(UpdateCmd(selected.value.id, updates)) else None
  }

  /** The editor component's three state cells. */
  class Editor {
    var layers: seq<Layer>
    var selectedLayerId: Option<string>
    var uploadedImage: Option<string>

    ghost predicate Valid()
      reads this
    {
      UniqueIds(layers)
    }

    constructor ()
      ensures Valid()
      ensures layers == [] && selectedLayerId.None? && uploadedImage.None?
    {
      layers := [];
      selectedLayerId := None;
      uploadedImage := None;
    }

    /** A new image replaces the whole list by its base record and selects it. */
    method HandleImageUpload(imageUrl: string)
      modifies this
      ensures Valid()
      ensures uploadedImage == Some(imageUrl)
      ensures layers == [BaseLayer(imageUrl)]
      ensures selectedLayerId == Some(BaseLayerId)
    {
      uploadedImage := Some(imageUrl);
      layers := [BaseLayer(imageUrl)];
      selectedLayerId := Some(BaseLayerId);
    }

    method SelectLayer(selection: Option<string>)
      modifies this`selectedLayerId
      ensures selectedLayerId == selection
    {
      selectedLayerId := selection;
    }

    method UpdateLayer(id: string, p: Patch)
      requires Valid()
      modifies this`layers
      ensures Valid()
      ensures layers == Upsert(old(layers), id, p)
    {
      UpsertKeepsUnique(layers, id, p);
      layers := Upsert(layers, id, p);
    }

    method DeleteLayer(id: string)
      requires Valid()
      modifies this`layers, this`selectedLayerId
      ensures Valid()
      ensures layers == Without(old(layers), id)
      ensures selectedLayerId == SelectionAfterDelete(old(selectedLayerId), id)
    {
      WithoutKeepsUnique(layers, id);
      layers := Without(layers, id);
      if selectedLayerId == Some(id) {
        selectedLayerId := None;
      }
    }

    /** Undo is wired to an empty handler. */
    method Undo()
      ensures unchanged(this)
    {
    }

    /** Redo is wired to an empty handler. */
    method Redo()
      ensures unchanged(this)
    {
    }

    /** "New upload" forgets the image only; layers and selection stay. */
    method NewUpload()
      modifies this`uploadedImage
      ensures uploadedImage.None?
    {
      uploadedImage := None;
    }

    /** Runs one panel callback against the state cells. */
    method Dispatch(c: Command)
      requires Valid()
      modifies this`layers, this`selectedLayerId
      ensures Valid()
      ensures (layers, selectedLayerId) == Step(old(layers), old(selectedLayerId), c)
    {
      match c
      case SelectCmd(s) => SelectLayer(s);
      case UpdateCmd(id, p) => UpdateLayer(id, p);
      case DeleteCmd(id) => DeleteLayer(id);
    }
  }

  /** The request body the export handler posts. */
  datatype ExportBody = ExportBody(imageId: string, layers: seq<Layer>, format: Schemas.ExportFormat)

  /** What the export handler does: alert before any request, download the
      response under a fixed name, or alert after a failed request. */
  datatype ExportEffect =
    | NoImageAlert
    | Downloaded(request: ExportBody, filename: string)
    | FailedAlert(request: ExportBody)

  /** `handleExport(format)`. `currentImageId` is the global the upload
      area sets; `responseOk` stands for the request, its status and the
      blob read all succeeding. */
  function HandleExport(currentImageId: Option<string>, layers: seq<Layer>, format: Schemas.ExportFormat, responseOk: bool): (e: ExportEffect)
    ensures e.NoImageAlert? <==> !Truthy(currentImageId)
    ensures !e.NoImageAlert? ==> e.request == ExportBody(currentImageId.value, layers, format)
    ensures e.Downloaded? <==> Truthy(currentImageId) && responseOk
    ensures e.Downloaded? ==> e.filename == "export." + format.Value()
  {
    if !Truthy(currentImageId) then NoImageAlert
    else
      var body := ExportBody(currentImageId.value, layers, format);
      if responseOk then Downloaded(body, "export." + format.Value()) else FailedAlert(body)
  }
}
