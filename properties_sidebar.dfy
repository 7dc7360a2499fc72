/** The properties panel: the controls shown for the selected record and
    the partial update each user edit emits through the editor's
    `onLayerUpdate`, which applies it to the selected record's id. */
module PropertiesSidebar {
  import opened Wrappers
  import opened Text
  import opened ImageEditor

  /** The four transform inputs. */
  datatype TransformField = X | Y | Width | Height

  /** One user action on the panel. */
  datatype Edit =
    | NameEdit(name: string)
    | OpacitySlide(position: real)
    | ColorPick(color: string)
    | ColorText(text: string)
    | VisibleClick
    | LockedClick
    | TransformInput(field: TransformField, text: string)

  /** The colour controls are shown for every kind but images. */
  predicate ColorControlsShown(l: Layer) {
    l.kind != Image
  }

  /** The colour both colour controls display: the record's colour, or
      white when it has none or it is empty. */
  function DisplayedColor(l: Layer): (c: string)
    ensures Truthy(l.color) ==> c == l.color.value
    ensures !Truthy(l.color) ==> c == "#ffffff"
    ensures c != ""
  {
    if Truthy(l.color) then l.color.value else "#ffffff"
  }

  /** The slider position the panel shows for an opacity. */
  function SliderPosition(opacity: real): (v: real)
    ensures 0.0 <= opacity <= 1.0 ==> 0.0 <= v <= 100.0
  {
    opacity * 100.0
  }

  /** The opacity a slider position stands for. */
  function SliderOpacity(position: real): (o: real)
    ensures 0.0 <= position <= 100.0 ==> 0.0 <= o <= 1.0
    ensures SliderPosition(o) == position
  {
    position / 100.0
  }

  /** The partial update an edit of the shown record emits: none when no
      record is selected (only the placeholder is shown), none for a
      colour edit of an image (its colour controls are not shown), and none
      for the transform inputs, which have no change handler. */
  function EditPatch(selected: Option<Layer>, e: Edit): (p: Option<Patch>)
    ensures selected.None? ==> p.None?
    ensures e.TransformInput? ==> p.None?
    ensures (e.ColorPick? || e.ColorText?) && selected.Some? ==> (p.Some? <==> ColorControlsShown(selected.value))
    ensures p.Some? && e.NameEdit? ==> p.value == NoChange.(name := Some(e.name))
    ensures p.Some? && e.OpacitySlide? ==> p.value == NoChange.(opacity := Some(SliderOpacity(e.position)))
    ensures p.Some? && e.ColorPick? ==> p.value == NoChange.(color := Some(e.color))
    ensures p.Some? && e.ColorText? ==> p.value == NoChange.(color := Some(e.text))
    ensures p.Some? && e.VisibleClick? ==> p.value == NoChange.(visible := Some(!selected.value.visible))
    ensures p.Some? && e.LockedClick? ==> p.value == NoChange.(locked := Some(!selected.value.locked))
    ensures selected.Some? && !e.TransformInput? && !(e.ColorPick? || e.ColorText?) ==> p.Some?
  {
    match selected
    case None => None
    case Some(l) =>
      match e
      case NameEdit(name) => Some(NoChange.(name := Some(name)))
      case OpacitySlide(position) => Some(NoChange.(opacity := Some(SliderOpacity(position))))
      case ColorPick(color) => if ColorControlsShown(l) then Some(NoChange.(color := Some(color))) else None
      case ColorText(text) => if ColorControlsShown(l) then Some(NoChange.(color := Some(text))) else None
      case VisibleClick => Some(NoChange.(visible := Some(!l.visible)))
      case LockedClick => Some(NoChange.(locked := Some(!l.locked)))
      case TransformInput(_, _) => None
  }

  /** The command an edit ends in: the emitted update, aimed at the selected
      record's id. */
  function EditCommand(selected: Option<Layer>, e: Edit): (c: Option<Command>)
    ensures c.Some? <==> EditPatch(selected, e).Some?
    ensures c.Some? ==> c.value == UpdateCmd(selected.value.id, EditPatch(selected, e).value)
  {
    match EditPatch(selected, e)
    case None => None
    case Some(p) => PropertiesUpdate(selected, p)
  }

  /** The record as the panel shows it after the edit has been applied to it. */
  function Edited(l: Layer, e: Edit): (r: Layer)
    ensures r.id == l.id
  {
    match EditPatch(Some(l), e)
    case None => l
    case Some(p) => Merge(l, p)
  }

  /** The slider then shows the position that was dragged to, the name
      field the typed name, and the colour controls the colour chosen. */
  lemma EditShows(l: Layer, e: Edit)
    ensures e.NameEdit? ==> Edited(l, e).name == e.name
    ensures e.OpacitySlide? ==> SliderPosition(Edited(l, e).opacity) == e.position
    ensures e.ColorPick? && ColorControlsShown(l) && e.color != "" ==> DisplayedColor(Edited(l, e)) == e.color
    ensures e.ColorText? && ColorControlsShown(l) ==> DisplayedColor(Edited(l, e)) == if e.text == "" then "#ffffff" else e.text
  {
  }

  /** The Visible and Locked buttons flip exactly their flag; pressing one
      twice gives back the record. */
  lemma {:induction false} ClicksFlip(l: Layer)
    ensures Edited(l, VisibleClick) == l.(visible := !l.visible)
    ensures Edited(l, LockedClick) == l.(locked := !l.locked)
    ensures Edited(Edited(l, VisibleClick), VisibleClick) == l
    ensures Edited(Edited(l, LockedClick), LockedClick) == l
  {
    var v := Edited(l, VisibleClick);
    assert v == l.(visible := !l.visible);
    assert Edited(v, VisibleClick) == v.(visible := !v.visible);
    var k := Edited(l, LockedClick);
    assert k == l.(locked := !l.locked);
    assert Edited(k, LockedClick) == k.(locked := !k.locked);
  }

  /** An edit that emits nothing leaves the shown record as it was; in
      particular the transform inputs never change a record. */
  lemma TransformInputInert(l: Layer, f: TransformField, text: string)
    ensures Edited(l, TransformInput(f, text)) == l
    ensures EditCommand(Some(l), TransformInput(f, text)).None?
  {
  }

  /** Edits through the editor: the record with the selected id takes the
      edit, records with other ids are untouched, and the selection stays. */
  lemma {:induction false} EditApplies(ls: seq<Layer>, selection: Option<string>, e: Edit)
    requires UniqueIds(ls)
    requires EditCommand(SelectedLayer(ls, selection), e).Some?
    ensures var (ls', sel') := Step(ls, selection, EditCommand(SelectedLayer(ls, selection), e).value);
            && sel' == selection && |ls'| == |ls|
            && forall i :: 0 <= i < |ls| ==>
                 ls'[i] == if Some(ls[i].id) == selection then Edited(ls[i], e) else ls[i]
  {
    var l := SelectedLayer(ls, selection).value;
    var p := EditPatch(Some(l), e).value;
    var ls' := Upsert(ls, l.id, p);
    assert HasId(ls, l.id);
    forall i | 0 <= i < |ls| && ls[i].id == l.id
      ensures ls'[i] == Edited(ls[i], e)
    {
      var k :| 0 <= k < |ls| && ls[k] == l;
      assert i == k;
    }
  }
}
