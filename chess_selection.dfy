/**
 * The click handler of study/chess.js. It keeps one piece of state, the selected
 * mesh, and answers each click with a new selection and the animations it starts:
 * raising and spinning a newly selected piece, lowering the previous one, or
 * sliding the selected piece to the clicked point of the board and dropping it.
 *
 * The ray cast is an input (the hits, nearest first); the animations are an
 * output, recorded by their target values. `Settle` gives the meaning of those
 * targets: the positions the animated pieces reach once the animations end.
 */
module ChessSelection {
  import opened Wrappers
  import opened Geometry
  import opened ChessBoard

  /** The height a selected piece is lifted to. */
  const RaisedHeight: real := 4.0

  /** The name of the board model; a hit whose parent has this name is a board hit. */
  const BoardName: string := "Board"

  /** A scene object as the ray cast reports it: its identity, its name and its parent's name. */
  datatype Object3D = Object3D(id: nat, name: string, parentName: string)

  /** One ray-cast hit: the object and the point where the ray meets it. */
  datatype Intersection = Intersection(obj: Object3D, point: Vec3)

  predicate IsBoardPart(o: Object3D) {
    o.parentName == BoardName
  }

  /** What a click hit, judged from the nearest hit only. */
  datatype Pick = Nothing | PieceHit(piece: Object3D) | BoardHit(point: Vec3)

  /**
   * Only the nearest hit counts; it is a board hit when its object's parent is the
   * board, and a piece hit otherwise.
   */
  function Classify(found: seq<Intersection>): (pick: Pick)
    ensures pick == Nothing <==> found == []
    ensures pick.PieceHit? <==> found != [] && !IsBoardPart(found[0].obj)
    ensures pick.PieceHit? ==> pick.piece == found[0].obj
    ensures pick.BoardHit? ==> pick.point == found[0].point
  {
    if |found| > 0 then
      var clicked := found[0].obj;
      if clicked.parentName != BoardName then PieceHit(clicked) else BoardHit(found[0].point)
    else
      Nothing
  }

  /** The two rotation targets, a full turn one way or the other about y. */
  datatype Turn = PlusTwoPi | MinusTwoPi

  /** One tween: the target value it drives one property of one object to. */
  datatype Tween =
    | PositionY(target: Object3D, y: real)
    | PositionXZ(target: Object3D, x: real, z: real)
    | RotationY(target: Object3D, turn: Turn)

  /** A tween started on its own, or a timeline whose tweens run one after another. */
  datatype Animation = Single(tween: Tween) | Timeline(steps: seq<Tween>)

  /** The selection after a click and the animations the click starts, in the order started. */
  datatype Outcome = Outcome(selection: Option<Object3D>, animations: seq<Animation>)

  function Raise(p: Object3D): seq<Animation> {
    [Single(PositionY(p, RaisedHeight)), Single(RotationY(p, PlusTwoPi))]
  }

  function Lower(p: Object3D): seq<Animation> {
    [Single(PositionY(p, RestHeight)), Single(RotationY(p, MinusTwoPi))]
  }

  function MoveTo(p: Object3D, point: Vec3): seq<Animation> {
    [Timeline([PositionXZ(p, point.x, point.z), PositionY(p, RestHeight)]), Single(RotationY(p, MinusTwoPi))]
  }

  /**
   * One click. Picking a piece other than the selected one selects it and raises
   * it; picking the selected piece deselects it; either way a previously selected
   * piece is lowered. Picking the board moves the selected piece there and drops
   * it, then deselects; with nothing selected it does nothing. Picking nothing
   * deselects without animating anything.
   */
  function Step(sel: Option<Object3D>, pick: Pick): (r: Outcome)
    ensures r.selection.Some? ==> pick == PieceHit(r.selection.value) && sel != r.selection
    ensures pick.PieceHit? ==> (r.selection.None? <==> sel == Some(pick.piece))
    ensures pick.PieceHit? && sel != Some(pick.piece) ==> Single(PositionY(pick.piece, RaisedHeight)) in r.animations
    ensures pick.PieceHit? && sel == Some(pick.piece) ==> Single(PositionY(pick.piece, RaisedHeight)) !in r.animations
    ensures pick.PieceHit? && sel.Some? ==>
      |r.animations| >= 2 && r.animations[|r.animations| - 2..] == Lower(sel.value)
    ensures pick.PieceHit? && sel.None? ==> r.animations == Raise(pick.piece)
    ensures pick.BoardHit? ==> r.selection.None?
    ensures pick.BoardHit? && sel.Some? ==>
      |r.animations| > 0 && r.animations[0] == Timeline([PositionXZ(sel.value, pick.point.x, pick.point.z), PositionY(sel.value, RestHeight)])
    ensures !pick.PieceHit? && (pick.Nothing? || sel.None?) ==> r == Outcome(None, [])
  {
    match pick
    case PieceHit(o) =>
      var selection := if sel != Some(o) then Some(o) else None;
      var raise := if sel != Some(o) then Raise(o) else [];
      var lower := if sel.Some? then Lower(sel.value) else [];
      Outcome(selection, raise + lower)
    case BoardHit(point) =>
      if sel.Some? then Outcome(None, MoveTo(sel.value, point)) else Outcome(None, [])
    case Nothing =>
      Outcome(None, [])
  }

  /** A click given by its ray-cast hits. The selection is never a part of the board. */
  function Click(sel: Option<Object3D>, found: seq<Intersection>): (r: Outcome)
    ensures r.selection.Some? ==> found != [] && r.selection.value == found[0].obj && !IsBoardPart(r.selection.value)
  {
    Step(sel, Classify(found))
  }

  /** Where each tracked object stands. */
  type Poses = map<Object3D, Vec3>

  /** The pose a tween leaves behind once it has run; rotations do not move anything. */
  function ApplyTween(poses: Poses, t: Tween): (r: Poses)
    ensures r.Keys == poses.Keys
    ensures forall q | q in poses && q != t.target :: r[q] == poses[q]
  {
    match t
    case PositionY(o, y) => if o in poses then poses[o := poses[o].(y := y)] else poses
    case PositionXZ(o, x, z) => if o in poses then poses[o := poses[o].(x := x, z := z)] else poses
    case RotationY(_, _) => poses
  }

  /** The tweens of a timeline, run in order. */
  function ApplyTweens(poses: Poses, ts: seq<Tween>): (r: Poses)
    ensures r.Keys == poses.Keys
    ensures forall q | q in poses && (forall i | 0 <= i < |ts| :: ts[i].target != q) :: r[q] == poses[q]
  {
    if ts == [] then poses else ApplyTweens(ApplyTween(poses, ts[0]), ts[1..])
  }

  /** The poses once one animation has finished. */
  function Finish(poses: Poses, a: Animation): (r: Poses)
    ensures r.Keys == poses.Keys
  {
    match a
    case Single(t) => ApplyTween(poses, t)
    case Timeline(ts) => ApplyTweens(poses, ts)
  }

  /** The poses once every animation of a click has finished. */
  function Settle(poses: Poses, anims: seq<Animation>): (r: Poses)
    ensures r.Keys == poses.Keys
  {
    if anims == [] then poses else Settle(Finish(poses, anims[0]), anims[1..])
  }

  /** Settling two batches of animations is settling the first, then the second. */
  lemma {:induction false} SettleAppend(poses: Poses, xs: seq<Animation>, ys: seq<Animation>)
    ensures Settle(poses, xs + ys) == Settle(Settle(poses, xs), ys)
  {
    if xs != [] {
      assert (xs + ys)[0] == xs[0];
      assert (xs + ys)[1..] == xs[1..] + ys;
      SettleAppend(Finish(poses, xs[0]), xs[1..], ys);
    } else {
      assert xs + ys == ys;
    }
  }

  lemma SettlePair(poses: Poses, a: Animation, b: Animation)
    ensures Settle(poses, [a, b]) == Finish(Finish(poses, a), b)
  {
    var p1 := Finish(poses, a);
    assert [a, b][1..] == [b];
    assert Settle(poses, [a, b]) == Settle(p1, [b]);
    assert [b][1..] == [];
    assert Settle(p1, [b]) == Settle(Finish(p1, b), []);
  }

  /** A raised piece ends at the raised height, elsewhere unchanged. */
  lemma SettleRaise(poses: Poses, p: Object3D)
    requires p in poses
    ensures Settle(poses, Raise(p)) == poses[p := poses[p].(y := RaisedHeight)]
  {
    SettlePair(poses, Raise(p)[0], Raise(p)[1]);
  }

  /** A lowered piece ends at rest height, elsewhere unchanged. */
  lemma SettleLower(poses: Poses, p: Object3D)
    requires p in poses
    ensures Settle(poses, Lower(p)) == poses[p := poses[p].(y := RestHeight)]
  {
    SettlePair(poses, Lower(p)[0], Lower(p)[1]);
  }

  /** A piece moved to a point of the board ends on that point at rest height. */
  lemma SettleMoveTo(poses: Poses, p: Object3D, point: Vec3)
    requires p in poses
    ensures Settle(poses, MoveTo(p, point)) == poses[p := Vec3(point.x, RestHeight, point.z)]
  {
    var ts := [PositionXZ(p, point.x, point.z), PositionY(p, RestHeight)];
    SettlePair(poses, Timeline(ts), Single(RotationY(p, MinusTwoPi)));
    var p1 := ApplyTween(poses, ts[0]);
    assert ts[1..] == [ts[1]];
    assert ApplyTweens(poses, ts) == ApplyTweens(p1, [ts[1]]);
    assert [ts[1]][1..] == [];
    assert ApplyTweens(p1, [ts[1]]) == ApplyTween(p1, ts[1]);
  }

  /** All objects a pick can select are tracked. */
  predicate Tracked(poses: Poses, pick: Pick) {
    pick.PieceHit? ==> pick.piece in poses
  }

  /**
   * What a click does to the pieces once its animations end. A picked piece ends
   * raised if it became the selection and at rest height if it was deselected; a
   * previously selected piece ends at rest height; after a board pick the selected
   * piece stands on the picked point at rest height; no other object moves, and
   * nothing moves within the board plane except on a board pick.
   */
  lemma StepSettles(poses: Poses, sel: Option<Object3D>, pick: Pick)
    requires Tracked(poses, pick)
    requires sel.Some? ==> sel.value in poses
    ensures var after := Settle(poses, Step(sel, pick).animations);
      && after.Keys == poses.Keys
      && (pick.PieceHit? ==>
            after[pick.piece] == poses[pick.piece].(y := if Step(sel, pick).selection == Some(pick.piece) then RaisedHeight else RestHeight))
      && (pick.PieceHit? && sel.Some? ==>
            after[sel.value] == poses[sel.value].(y := RestHeight) || sel.value == pick.piece)
      && (pick.BoardHit? && sel.Some? ==>
            after[sel.value] == Vec3(pick.point.x, RestHeight, pick.point.z))
      && (forall q | q in poses && (pick.PieceHit? ==> q != pick.piece) && (sel.Some? ==> q != sel.value) ::
            after[q] == poses[q])
  {
    match pick
    case PieceHit(o) =>
      if sel == Some(o) {
        SettleLower(poses, o);
      } else if sel.Some? {
        SettleAppend(poses, Raise(o), Lower(sel.value));
        SettleRaise(poses, o);
        SettleLower(Settle(poses, Raise(o)), sel.value);
      } else {
        SettleRaise(poses, o);
      }
    case BoardHit(point) =>
      if sel.Some? {
        SettleMoveTo(poses, sel.value, point);
      }
    case Nothing =>
  }

  /** The state a sequence of clicks works on: the selection and where the pieces stand. */
  datatype ClickState = ClickState(selection: Option<Object3D>, poses: Poses)

  /** Clicks handled one after another, each click's animations finishing before the next. */
  function Run(b: ClickState, clicks: seq<seq<Intersection>>): ClickState
    decreases |clicks|
  {
    if clicks == [] then b
    else
      var r := Click(b.selection, clicks[0]);
      Run(ClickState(r.selection, Settle(b.poses, r.animations)), clicks[1..])
  }

  /** The selection, if any, is a tracked non-board object standing at the raised height. */
  predicate Consistent(b: ClickState) {
    b.selection.Some? ==>
      && !IsBoardPart(b.selection.value)
      && b.selection.value in b.poses
      && b.poses[b.selection.value].y == RaisedHeight
  }

  /** Every object the clicks could select is tracked. */
  predicate ClicksTracked(poses: Poses, clicks: seq<seq<Intersection>>) {
    forall i | 0 <= i < |clicks| :: Tracked(poses, Classify(clicks[i]))
  }

  /** One click keeps the selection consistent. */
  lemma ClickKeepsConsistent(b: ClickState, found: seq<Intersection>)
    requires Consistent(b) && Tracked(b.poses, Classify(found))
    ensures var r := Click(b.selection, found); Consistent(ClickState(r.selection, Settle(b.poses, r.animations)))
  {
    StepSettles(b.poses, b.selection, Classify(found));
  }

  /**
   * However many clicks are handled, the selection stays consistent: it is never
   * part of the board, and the selected piece is the one standing raised.
   */
  lemma {:induction false} RunKeepsConsistent(b: ClickState, clicks: seq<seq<Intersection>>)
    requires Consistent(b) && ClicksTracked(b.poses, clicks)
    ensures Consistent(Run(b, clicks))
    ensures Run(b, clicks).poses.Keys == b.poses.Keys
    decreases |clicks|
  {
    if clicks != [] {
      var r := Click(b.selection, clicks[0]);
      var next := ClickState(r.selection, Settle(b.poses, r.animations));
      ClickKeepsConsistent(b, clicks[0]);
      assert ClicksTracked(next.poses, clicks[1..]) by {
        forall i | 0 <= i < |clicks[1..]| ensures Tracked(next.poses, Classify(clicks[1..][i])) {
          assert clicks[1..][i] == clicks[i + 1];
        }
      }
      RunKeepsConsistent(next, clicks[1..]);
    }
  }

  /**
   * The handler as the script holds it: the selected mesh and, as the handler's
   * output, every animation it has started so far.
   */
  class ClickHandler {
    var selected: Option<Object3D>
    var started: seq<Animation>

    /** The selection is never a part of the board. */
    predicate Valid()
      reads this
    {
      selected.Some? ==> !IsBoardPart(selected.value)
    }

    /** `_setupEvents`: nothing is selected yet. */
    constructor ()
      ensures Valid() && selected == None && started == []
    {
      selected := None;
      started := [];
    }

    /** The "click" listener, given the ray-cast hits of the click, nearest first. */
    method OnClick(found: seq<Intersection>)
      requires Valid()
      modifies this
      ensures Valid()
      ensures selected == Click(old(selected), found).selection
      ensures started == old(started) + Click(old(selected), found).animations
    {
      if |found| > 0 {
        var clickedObj := found[0].obj;
        if clickedObj.parentName != BoardName {
          ghost var pick := PieceHit(clickedObj);
          assert Classify(found) == pick;
          var oldSelectedMesh := selected;
          selected := Some(clickedObj);
          if oldSelectedMesh != selected {
            started := started + Raise(clickedObj);
          } else {
            selected := None;
          }
          if oldSelectedMesh.Some? {
            started := started + Lower(oldSelectedMesh.value);
          }
          ghost var raise := if oldSelectedMesh != Some(clickedObj) then Raise(clickedObj) else [];
          ghost var lower := if oldSelectedMesh.Some? then Lower(oldSelectedMesh.value) else [];
          assert started == old(started) + raise + lower;
          assert old(started) + raise + lower == old(started) + (raise + lower);
        } else {
          ghost var pick := BoardHit(found[0].point);
          assert Classify(found) == pick;
          if selected.Some? {
            started := started + MoveTo(selected.value, found[0].point);
            selected := None;
          }
        }
      } else {
        selected := None;
      }
    }
  }
}
