/** The layers panel: one row per record with its icon, the row click, the
    visibility and lock buttons, and the Duplicate and Delete actions shown
    while something is selected. Each control becomes a command for the
    editor's callbacks. */
module LayersSidebar {
  import opened Wrappers
  import opened Text
  import opened ImageEditor

  /** The icons a row can show. */
  datatype Icon = ImageIcon | SquareIcon | LayersIcon

  /** `getLayerIcon`: images get the image icon, masks and shapes the
      square. The fallback icon belongs to kinds the record type does not
      admit, so no record reaches it. */
  function LayerIcon(k: Kind): (i: Icon)
    ensures i == ImageIcon <==> k == Image
    ensures i == SquareIcon <==> k == Mask || k == Shape
    ensures i != LayersIcon
  {
    match k
    case Image => ImageIcon
    case Mask => SquareIcon
    case Shape => SquareIcon
  }

  /** The suffix a duplicate's id gets for the clock reading `now`
      (milliseconds, rendered in decimal by the template string). */
  function CopySuffix(now: nat): (s: string)
    ensures |s| > 6 && s[..6] == "-copy-"
    ensures AllDigits(s[6..]) && DecimalValue(s[6..]) == now
  {
    var digits := NatToDecimal(now);
    DecimalRoundTrip(now);
    assert ("-copy-" + digits)[6..] == digits;
    "-copy-" + digits
  }

  /** Different clock readings give different suffixes. */
  lemma CopySuffixInjective(a: nat, b: nat)
    requires CopySuffix(a) == CopySuffix(b)
    ensures a == b
  {
  }

  /** Duplicates of one record made at different clock readings get
      different ids; only the same millisecond can make them collide. */
  lemma DuplicateIdsDiffer(l: Layer, a: nat, b: nat)
    requires a != b
    ensures DuplicateOf(l, a).id != DuplicateOf(l, b).id
  {
  }

  /** `handleDuplicateLayer`'s record: every field copied, the id extended by
      the copy suffix and the name by " Copy". */
  function DuplicateOf(l: Layer, now: nat): (d: Layer)
    ensures |d.id| > |l.id| && d.id[..|l.id|] == l.id && d.id[|l.id|..] == CopySuffix(now)
    ensures d.id != l.id
    ensures d.name == l.name + " Copy"
    ensures d == l.(id := d.id, name := d.name)
  {
    l.(id := l.id + CopySuffix(now), name := l.name + " Copy")
  }

  /** The Duplicate button: only while the selection is non-empty, and only
      when a record with the selected id exists; the copy of the first such
      record is passed whole to the update callback under its own new id. */
  function DuplicateAction(ls: seq<Layer>, selection: Option<string>, now: nat): (c: Option<Command>)
    ensures c.Some? <==> Truthy(selection) && HasId(ls, selection.value)
    ensures c.Some? ==> var d := DuplicateOf(Find(ls, selection.value).value, now);
                        c.value == UpdateCmd(d.id, FullPatch(d))
  {
    if !Truthy(selection) then None
    else match Find(ls, selection.value)
      case None => None
      case Some(l) =>
        var d := DuplicateOf(l, now);
        Some(UpdateCmd(d.id, FullPatch(d)))
  }

  /** The Delete button: present only while the selection is non-empty, and
      aimed at the selected id. */
  function DeleteAction(selection: Option<string>): (c: Option<Command>)
    ensures c.Some? <==> Truthy(selection)
    ensures c.Some? ==> c.value == DeleteCmd(selection.value)
  {
    if Truthy(selection) then Some(DeleteCmd(selection.value)) else None
  }

  /** The eye button of a row. */
  function VisibilityToggle(l: Layer): (c: Command)
    ensures c.UpdateCmd? && c.id == l.id
    ensures c.patch == NoChange.(visible := Some(!l.visible))
  {
    UpdateCmd(l.id, NoChange.(visible := Some(!l.visible)))
  }

  /** The lock button of a row. */
  function LockToggle(l: Layer): (c: Command)
    ensures c.UpdateCmd? && c.id == l.id
    ensures c.patch == NoChange.(locked := Some(!l.locked))
  {
    UpdateCmd(l.id, NoChange.(locked := Some(!l.locked)))
  }

  /** Clicking a row. */
  function RowClick(l: Layer): (c: Command)
    ensures c == SelectCmd(Some(l.id))
  {
    SelectCmd(Some(l.id))
  }

  /** A row is highlighted when its id is the selected one. */
  predicate IsHighlighted(selection: Option<string>, l: Layer) {
    selection == Some(l.id)
  }

  /** After a row click exactly the rows carrying the clicked id are
      highlighted, and the list is untouched. */
  lemma RowClickHighlights(ls: seq<Layer>, selection: Option<string>, l: Layer)
    ensures Step(ls, selection, RowClick(l)).0 == ls
    ensures forall m :: IsHighlighted(Step(ls, selection, RowClick(l)).1, m) <==> m.id == l.id
  {
  }

  /** A record with `visible` flipped and every other field as before. */
  function Flipped(l: Layer): (r: Layer)
    ensures r.visible == !l.visible && r == l.(visible := r.visible)
  {
    l.(visible := !l.visible)
  }

  /** The eye button flips the row's record and leaves every other record
      and the selection alone. */
  lemma {:induction false} VisibilityToggleFlips(ls: seq<Layer>, selection: Option<string>, l: Layer)
    requires UniqueIds(ls) && l in ls
    ensures var (ls', sel') := Step(ls, selection, VisibilityToggle(l));
            && sel' == selection && |ls'| == |ls|
            && forall i :: 0 <= i < |ls| ==> ls'[i] == if ls[i] == l then Flipped(l) else ls[i]
  {
    var ls' := Step(ls, selection, VisibilityToggle(l)).0;
    assert HasId(ls, l.id);
    forall i | 0 <= i < |ls|
      ensures ls'[i] == if ls[i] == l then Flipped(l) else ls[i]
    {
      var k :| 0 <= k < |ls| && ls[k] == l;
      if ls[i].id == l.id {
        assert i == k;
      }
    }
  }

  /** Flipping twice restores the list. */
  lemma {:induction false} VisibilityToggleTwice(ls: seq<Layer>, selection: Option<string>, l: Layer)
    requires UniqueIds(ls) && l in ls
    ensures var (ls', sel') := Step(ls, selection, VisibilityToggle(l));
            Step(ls', sel', VisibilityToggle(Flipped(l))) == (ls, selection)
  {
    var (ls', sel') := Step(ls, selection, VisibilityToggle(l));
    VisibilityToggleFlips(ls, selection, l);
    StepKeepsUnique(ls, selection, VisibilityToggle(l));
    var k :| 0 <= k < |ls| && ls[k] == l;
    assert ls'[k] == Flipped(l);
    VisibilityToggleFlips(ls', sel', Flipped(l));
    FlipBack(ls, ls', Step(ls', sel', VisibilityToggle(Flipped(l))).0, k);
  }

  /** Two pointwise flips of the record at position k cancel out. */
  lemma FlipBack(ls: seq<Layer>, ls': seq<Layer>, ls'': seq<Layer>, k: nat)
    requires UniqueIds(ls) && k < |ls| && |ls'| == |ls| && |ls''| == |ls|
    requires forall i :: 0 <= i < |ls| ==> ls'[i] == if ls[i] == ls[k] then Flipped(ls[k]) else ls[i]
    requires forall i :: 0 <= i < |ls'| ==> ls''[i] == if ls'[i] == Flipped(ls[k]) then Flipped(Flipped(ls[k])) else ls'[i]
    ensures ls'' == ls
  {
    forall i | 0 <= i < |ls|
      ensures ls''[i] == ls[i]
    {
      if i != k {
        assert ls[i].id != ls[k].id;
        assert ls'[i] == ls[i] != Flipped(ls[k]);
      }
    }
  }

  /** The lock button flips the lock of every record with the row's id and
      leaves every other record alone. */
  lemma LockToggleFlips(ls: seq<Layer>, selection: Option<string>, l: Layer)
    requires l in ls
    ensures var (ls', sel') := Step(ls, selection, LockToggle(l));
            && sel' == selection && |ls'| == |ls|
            && forall i :: 0 <= i < |ls| ==>
                 ls'[i] == if ls[i].id == l.id then ls[i].(locked := !l.locked) else ls[i]
  {
    assert HasId(ls, l.id);
  }

  /** When the copy's id is new, Duplicate appends exactly the copy at the
      end and keeps the selection on the original. */
  lemma DuplicateAppends(ls: seq<Layer>, selection: Option<string>, now: nat)
    requires Truthy(selection) && HasId(ls, selection.value)
    requires !HasId(ls, DuplicateOf(Find(ls, selection.value).value, now).id)
    ensures var c := DuplicateAction(ls, selection, now).value;
            Step(ls, selection, c) == (ls + [DuplicateOf(Find(ls, selection.value).value, now)], selection)
  {
    UpsertAppends(ls, DuplicateOf(Find(ls, selection.value).value, now));
  }

  /** The copy's id is fresh only up to the clock: a second Duplicate of the
      same record in the same millisecond finds the first copy's id taken,
      and the update merges into that copy instead of adding a record. */
  lemma DuplicateSameMillisecond(l: Layer, now: nat)
    ensures var ls := [l, DuplicateOf(l, now)];
            var c := DuplicateAction(ls, Some(l.id), now);
            l.id != "" ==> c.Some? && Step(ls, Some(l.id), c.value).0 == ls
  {
    var d := DuplicateOf(l, now);
    var ls := [l, d];
    if l.id != "" {
      assert ls[0].id == l.id && ls[1].id == d.id;
      assert Find(ls, l.id) == Some(l);
      var r := Upsert(ls, d.id, FullPatch(d));
      assert r[1] == Merge(d, FullPatch(d)) == d;
    }
  }

  /** Delete removes the selected record and clears the selection. */
  lemma DeleteActionClears(ls: seq<Layer>, selection: Option<string>)
    requires Truthy(selection)
    ensures var (ls', sel') := Step(ls, selection, DeleteAction(selection).value);
            sel'.None? && !HasId(ls', selection.value)
            && forall m :: m in ls' <==> m in ls && m.id != selection.value
  {
  }
}
