/**
 * The car viewer of study/16-animation.js: how each loaded car model is scaled
 * and placed, which object a double click frames, and where framing puts the
 * orbit target.
 */
module CarViewer {
  import opened Wrappers
  import opened Geometry

  /** The name every placed car model is given. */
  const CarName: string := "car"

  /** The name of the display stand the viewer falls back to. */
  const BoxName: string := "box"

  /** The view angles, in degrees, for framing a car and for framing the stand. */
  const CarViewAngle: real := 70.0
  const StageViewAngle: real := 45.0

  /** The extent of a box along z, the length of a car model. */
  function Depth(b: Box3): real {
    b.max.z - b.min.z
  }

  /** A uniform scale followed by a translation, as `scale.set` and `position.set` give an object. */
  datatype Transform = Transform(scale: real, position: Vec3)

  /** Where a point of the model ends up under a transform. */
  function Apply(t: Transform, p: Vec3): Vec3 {
    Vec3(t.scale * p.x + t.position.x, t.scale * p.y + t.position.y, t.scale * p.z + t.position.z)
  }

  /** The bounding box of a model after a transform with positive scale. */
  function Transformed(b: Box3, t: Transform): Box3 {
    Box3(Apply(t, b.min), Apply(t, b.max))
  }

  /** The scale that makes a model exactly one unit long. */
  function UniformScale(b: Box3): (s: real)
    requires Depth(b) > 0.0
    ensures s > 0.0 && s * Depth(b) == 1.0
  {
    1.0 / Depth(b)
  }

  /**
   * The x offset of model `index` among `count` models: the models are spread
   * evenly from -0.5 for the first to 0.5 for the last.
   */
  function XOffset(index: int, count: int): (tx: real)
    requires count >= 2 && 0 <= index < count
    ensures -0.5 <= tx <= 0.5
    ensures tx == -0.5 <==> index == 0
    ensures tx == 0.5 <==> index == count - 1
  {
    var n := (count - 1) as real;
    assert index as real <= n;
    assert index as real / n <= 1.0 by {
      assert (index as real / n) * n == index as real;
    }
    assert index == count - 1 <==> index as real / n == 1.0;
    index as real / n - 0.5
  }

  /** Later models sit further right. */
  lemma XOffsetIncreasing(i: int, j: int, count: int)
    requires count >= 2 && 0 <= i < j < count
    ensures XOffset(i, count) < XOffset(j, count)
  {
    var n := (count - 1) as real;
    assert (j as real / n - i as real / n) * n == j as real - i as real;
  }

  /** Neighbouring models are 1 / (count - 1) apart. */
  lemma XOffsetSpacing(i: int, count: int)
    requires count >= 2 && 0 <= i && i + 1 < count
    ensures XOffset(i + 1, count) - XOffset(i, count) == 1.0 / (count - 1) as real
  {
  }

  /**
   * The transform a loaded model gets: scaled to unit length, moved to its x
   * offset, and lifted so that its lowest point stands on y = 0.
   */
  function Placement(index: int, count: int, b: Box3): (t: Transform)
    requires count >= 2 && 0 <= index < count && Depth(b) > 0.0
    ensures t.scale > 0.0
    ensures Depth(Transformed(b, t)) == 1.0
    ensures Transformed(b, t).min.y == 0.0
    ensures t.position.x == XOffset(index, count) && t.position.z == 0.0
  {
    var scale := UniformScale(b);
    var tx := XOffset(index, count);
    var t := Transform(scale, Vec3(tx, -b.min.y * scale, 0.0));
    assert Depth(Transformed(b, t)) == scale * Depth(b);
    t
  }

  /** A placed model keeps its proportions and stays a well-formed box. */
  lemma PlacementKeepsShape(index: int, count: int, b: Box3)
    requires count >= 2 && 0 <= index < count && Depth(b) > 0.0 && WellFormed(b)
    ensures var t := Placement(index, count, b);
      && WellFormed(Transformed(b, t))
      && Transformed(b, t).max.x - Transformed(b, t).min.x == (b.max.x - b.min.x) / Depth(b)
      && Transformed(b, t).max.y - Transformed(b, t).min.y == (b.max.y - b.min.y) / Depth(b)
  {
    var t := Placement(index, count, b);
    var s := t.scale;
    assert s * b.max.x - s * b.min.x == s * (b.max.x - b.min.x);
    assert s * b.max.y - s * b.min.y == s * (b.max.y - b.min.y);
    assert s * (b.max.x - b.min.x) >= 0.0;
    assert s * (b.max.y - b.min.y) >= 0.0;
  }

  /** An object of the scene, in traversal order, with its world bounding box. */
  datatype SceneObject = SceneObject(id: nat, name: string, bounds: Box3)

  /** The objects named "car", in traversal order. */
  function Cars(objects: seq<SceneObject>): (cars: seq<SceneObject>)
    ensures |cars| <= |objects|
    ensures forall c | c in cars :: c in objects && c.name == CarName
    ensures forall o | o in objects && o.name == CarName :: o in cars
  {
    if objects == [] then []
    else
      var last := objects[|objects| - 1];
      Cars(objects[..|objects| - 1]) + (if last.name == CarName then [last] else [])
  }

  /**
   * Collecting is done in traversal order: the cars of two consecutive stretches
   * of the scene are the cars of the first followed by the cars of the second.
   * With `Cars`' own contract, which settles a single object, this fixes the
   * order and the number of times each car appears.
   */
  lemma {:induction false} CarsAppend(a: seq<SceneObject>, b: seq<SceneObject>)
    ensures Cars(a + b) == Cars(a) + Cars(b)
    decreases |b|
  {
    if b == [] {
      assert a + b == a;
    } else {
      var init := b[..|b| - 1];
      assert (a + b)[..|a + b| - 1] == a + init;
      assert (a + b)[|a + b| - 1] == b[|b| - 1];
      CarsAppend(a, init);
    }
  }

  /**
   * The car at position `i` of the collected cars, when it is the first one the ray
   * meets, is the first object of the scene that is a car met by the ray.
   */
  lemma {:induction false} FirstMetCar(objects: seq<SceneObject>, intersects: SceneObject -> bool, i: int)
    requires 0 <= i < |Cars(objects)|
    requires forall j | 0 <= j < i :: !intersects(Cars(objects)[j])
    requires intersects(Cars(objects)[i])
    ensures exists k | 0 <= k < |objects| ::
      objects[k] == Cars(objects)[i] && FirstCarMet(objects, intersects, k)
    decreases |objects|
  {
    var tail := objects[1..];
    if objects[0].name == CarName {
      CarsConsCar(objects);
      if i == 0 {
        assert objects[0] == Cars(objects)[0] && FirstCarMet(objects, intersects, 0);
      } else {
        FirstMetCarAfterCar(objects, intersects, i);
        FirstMetCar(tail, intersects, i - 1);
        var k :| 0 <= k < |tail| && tail[k] == Cars(tail)[i - 1] && FirstCarMet(tail, intersects, k);
        FirstCarMetCons(objects, intersects, k);
      }
    } else {
      CarsConsOther(objects);
      FirstMetCar(tail, intersects, i);
      var k :| 0 <= k < |tail| && tail[k] == Cars(tail)[i] && FirstCarMet(tail, intersects, k);
      FirstCarMetCons(objects, intersects, k);
    }
  }

  /**
   * When the scene starts with a car and the first car the ray meets comes later,
   * that car is the first one the ray meets among the remaining objects, one place
   * earlier, and the ray misses the first object.
   */
  lemma FirstMetCarAfterCar(objects: seq<SceneObject>, intersects: SceneObject -> bool, i: int)
    requires objects != [] && objects[0].name == CarName
    requires 0 < i < |Cars(objects)|
    requires forall j | 0 <= j < i :: !intersects(Cars(objects)[j])
    requires intersects(Cars(objects)[i])
    ensures i - 1 < |Cars(objects[1..])|
    ensures forall j | 0 <= j < i - 1 :: !intersects(Cars(objects[1..])[j])
    ensures Cars(objects[1..])[i - 1] == Cars(objects)[i]
    ensures !intersects(objects[0])
  {
    var cars, rest := Cars(objects), Cars(objects[1..]);
    CarsConsCar(objects);
    assert cars[0] == objects[0];
    assert rest == cars[1..];
  }

  /** No object before index `k` is a car the ray meets. */
  predicate FirstCarMet(objects: seq<SceneObject>, intersects: SceneObject -> bool, k: int)
    requires 0 <= k <= |objects|
  {
    forall j | 0 <= j < k :: !(objects[j].name == CarName && intersects(objects[j]))
  }

  /** Collecting from the front, when the first object is a car. */
  lemma CarsConsCar(objects: seq<SceneObject>)
    requires objects != [] && objects[0].name == CarName
    ensures Cars(objects) == [objects[0]] + Cars(objects[1..])
  {
    assert objects == [objects[0]] + objects[1..];
    CarsAppend([objects[0]], objects[1..]);
    assert Cars([objects[0]]) == Cars([]) + [objects[0]];
  }

  /** Collecting from the front, when the first object is not a car. */
  lemma CarsConsOther(objects: seq<SceneObject>)
    requires objects != [] && objects[0].name != CarName
    ensures Cars(objects) == Cars(objects[1..])
  {
    assert objects == [objects[0]] + objects[1..];
    CarsAppend([objects[0]], objects[1..]);
    assert Cars([objects[0]]) == Cars([]);
  }

  /** Prefixing an object that is not a car the ray meets shifts the index by one. */
  lemma FirstCarMetCons(objects: seq<SceneObject>, intersects: SceneObject -> bool, k: int)
    requires objects != [] && 0 <= k < |objects| - 1
    requires FirstCarMet(objects[1..], intersects, k)
    requires !(objects[0].name == CarName && intersects(objects[0]))
    ensures FirstCarMet(objects, intersects, k + 1) && objects[k + 1] == objects[1..][k]
  {
    forall j | 0 < j < k + 1 ensures objects[j] == objects[1..][j - 1] {}
  }

  /** `getObjectByName`: the first object in traversal order with the given name, if any. */
  function ObjectByName(objects: seq<SceneObject>, name: string): (r: Option<SceneObject>)
    ensures r.Some? ==> exists k | 0 <= k < |objects| ::
      objects[k] == r.value && r.value.name == name && forall j | 0 <= j < k :: objects[j].name != name
    ensures r.None? ==> forall j | 0 <= j < |objects| :: objects[j].name != name
  {
    if objects == [] then None
    else if objects[0].name == name then Some(objects[0])
    else
      var r := ObjectByName(objects[1..], name);
      if r.Some? then
        ghost var k :| 0 <= k < |objects[1..]| && objects[1..][k] == r.value && r.value.name == name
          && forall j | 0 <= j < k :: objects[1..][j].name != name;
        assert objects[k + 1] == r.value;
        assert forall j | 0 <= j < k + 1 :: objects[j].name != name by {
          forall j | 0 <= j < k + 1 ensures objects[j].name != name {
            if j > 0 { assert objects[j] == objects[1..][j - 1]; }
          }
        }
        r
      else
        assert forall j | 0 <= j < |objects| :: objects[j].name != name by {
          forall j | 0 <= j < |objects| ensures objects[j].name != name {
            if j > 0 { assert objects[j] == objects[1..][j - 1]; }
          }
        }
        r
  }

  /** What a double click frames, and at which view angle. */
  datatype Frame = Frame(target: SceneObject, viewAngle: real)

  /**
   * The outcome of a double click, given which objects the ray meets. The cars are
   * tested in traversal order and testing stops at the first car the ray meets,
   * which is framed at the car view angle. If the ray meets no car, every car has
   * been tested and the stand is framed at the stage view angle; without a stand
   * there is nothing to frame.
   */
  ghost predicate Dispatched(objects: seq<SceneObject>, intersects: SceneObject -> bool, frame: Option<Frame>, examined: nat) {
    var cars := Cars(objects);
    && examined <= |cars|
    && (forall j | 0 <= j < examined - 1 :: !intersects(cars[j]))
    && if exists k | 0 <= k < |cars| :: intersects(cars[k]) then
         && 0 < examined
         && intersects(cars[examined - 1])
         && frame == Some(Frame(cars[examined - 1], CarViewAngle))
       else
         && examined == |cars|
         && frame == (match ObjectByName(objects, BoxName)
                      case Some(box) => Some(Frame(box, StageViewAngle))
                      case None => None)
  }

  /**
   * The first half of `_onDblClick`: collect the cars while traversing the scene,
   * then test them in order against the ray, stopping at the first hit. Returns the
   * frame request and how many cars were tested.
   */
  method PickFrameTarget(objects: seq<SceneObject>, intersects: SceneObject -> bool)
    returns (frame: Option<Frame>, examined: nat)
    ensures Dispatched(objects, intersects, frame, examined)
  {
    var cars: seq<SceneObject> := [];
    for i := 0 to |objects|
      invariant cars == Cars(objects[..i])
    {
      assert objects[..i + 1][..i] == objects[..i];
      if objects[i].name == CarName {
        cars := cars + [objects[i]];
      }
    }
    assert objects[..|objects|] == objects;

    var i := 0;
    while i < |cars|
      invariant 0 <= i <= |cars|
      invariant forall j | 0 <= j < i :: !intersects(cars[j])
    {
      var car := cars[i];
      if intersects(car) {
        return Some(Frame(car, CarViewAngle)), i + 1;
      }
      i := i + 1;
    }
    var box := ObjectByName(objects, BoxName);
    examined := i;
    frame := match box
      case Some(b) => Some(Frame(b, StageViewAngle))
      case None => None;
  }

  /** Only a car can be framed at the car view angle, and only the stand at the other. */
  lemma DispatchedFramesCarOrBox(objects: seq<SceneObject>, intersects: SceneObject -> bool, frame: Option<Frame>, examined: nat)
    requires Dispatched(objects, intersects, frame, examined)
    ensures frame.Some? ==>
      || (frame.value.viewAngle == CarViewAngle && frame.value.target.name == CarName
          && frame.value.target in objects && intersects(frame.value.target))
      || (frame.value.viewAngle == StageViewAngle && frame.value.target.name == BoxName
          && frame.value.target in objects)
  {
    var cars := Cars(objects);
    if exists k | 0 <= k < |cars| :: intersects(cars[k]) {
      assert cars[examined - 1] in cars;
    }
  }

  /**
   * A double click frames the first object in traversal order that is a car the ray
   * meets; it falls back to the stand only when the ray meets no object named "car".
   */
  lemma DispatchedFramesFirstCar(objects: seq<SceneObject>, intersects: SceneObject -> bool, frame: Option<Frame>, examined: nat)
    requires Dispatched(objects, intersects, frame, examined)
    ensures frame.Some? && frame.value.viewAngle == CarViewAngle ==>
      exists k | 0 <= k < |objects| ::
        && objects[k] == frame.value.target
        && objects[k].name == CarName && intersects(objects[k])
        && FirstCarMet(objects, intersects, k)
    ensures (exists k | 0 <= k < |objects| :: objects[k].name == CarName && intersects(objects[k])) <==>
      frame.Some? && frame.value.viewAngle == CarViewAngle
  {
    var cars := Cars(objects);
    if exists k | 0 <= k < |cars| :: intersects(cars[k]) {
      FirstMetCar(objects, intersects, examined - 1);
      assert cars[examined - 1] in cars;
    } else {
      forall k | 0 <= k < |objects| && objects[k].name == CarName
        ensures !intersects(objects[k])
      {
        assert objects[k] in cars;
      }
    }
  }

  /** The outcome of a double click is determined by the scene and the ray. */
  lemma DispatchedUnique(objects: seq<SceneObject>, intersects: SceneObject -> bool,
                         f1: Option<Frame>, e1: nat, f2: Option<Frame>, e2: nat)
    requires Dispatched(objects, intersects, f1, e1)
    requires Dispatched(objects, intersects, f2, e2)
    ensures f1 == f2 && e1 == e2
  {
  }

  /**
   * The viewer's camera as far as framing goes. The camera's field of view is
   * fixed; its position and the orbit controls' target are what framing changes.
   */
  class Viewer {
    const fov: real
    var cameraPosition: Vec3
    var controlsTarget: Vec3

    constructor (fov: real, cameraPosition: Vec3, controlsTarget: Vec3)
      ensures this.fov == fov && this.cameraPosition == cameraPosition && this.controlsTarget == controlsTarget
    {
      this.fov := fov;
      this.cameraPosition := cameraPosition;
      this.controlsTarget := controlsTarget;
    }

    /**
     * `_zoomFit`: both the orbit target and the point the camera moves relative to
     * are the centre of the framed object's bounding box. `approach` stands for the
     * camera offset from that centre, which the script computes from the view
     * angle, the field of view and the box's diagonal.
     */
    method ZoomFit(bounds: Box3, viewAngle: real, approach: (real, real, Box3) -> Vec3)
      modifies this
      ensures controlsTarget == Center(bounds)
      ensures cameraPosition == Add(Center(bounds), approach(viewAngle, fov, bounds))
    {
      var centerBox := Center(bounds);
      var offset := approach(viewAngle, fov, bounds);
      cameraPosition := Add(offset, centerBox);
      controlsTarget := centerBox;
    }

    /**
     * `_onDblClick`: frame whatever the double click picks. When there is no car
     * under the ray and no stand, nothing changes.
     */
    method OnDblClick(objects: seq<SceneObject>, intersects: SceneObject -> bool,
                      approach: (real, real, Box3) -> Vec3)
      returns (frame: Option<Frame>, examined: nat)
      modifies this
      ensures Dispatched(objects, intersects, frame, examined)
      ensures frame.Some? ==>
        && controlsTarget == Center(frame.value.target.bounds)
        && cameraPosition == Add(Center(frame.value.target.bounds),
                                 approach(frame.value.viewAngle, fov, frame.value.target.bounds))
      ensures frame.None? ==> cameraPosition == old(cameraPosition) && controlsTarget == old(controlsTarget)
    {
      frame, examined := PickFrameTarget(objects, intersects);
      if frame.Some? {
        ZoomFit(frame.value.target.bounds, frame.value.viewAngle, approach);
      }
    }
  }
}
