/** The scene's object collection, as the build script drives it: objects are
    added one at a time, a DIFFERENCE modifier is applied to a target in place,
    and objects are removed. A ghost log records every operation in order. */
module SceneGraph {
  import opened Solids

  class Scene {
    /** The objects in the scene, in creation order. */
    var objects: seq<Solid>
    /** Every operation applied to the scene so far. */
    ghost var log: seq<Op>

    /** A freshly cleared scene. */
    constructor ()
      ensures objects == [] && log == []
    {
      objects := [];
      log := [];
    }

    /** Adds a primitive; it becomes the last object. Returns its position. */
    method Add(s: Solid) returns (i: nat)
      modifies this
      ensures objects == old(objects) + [s]
      ensures i == |old(objects)| && objects[i] == s
      ensures log == old(log) + [Added(s)]
    {
      i := |objects|;
      objects := objects + [s];
      log := log + [Added(s)];
    }

    /** Applies a DIFFERENCE of the object at `c` from the object at `t`,
        replacing the target in place. The cutter stays in the scene. */
    method Difference(t: nat, c: nat)
      requires t < |objects| && c < |objects|
      requires CutRule(objects[t], objects[c])
      modifies this
      ensures objects == old(objects)[t := Bored(old(objects)[t], old(objects)[c])]
      ensures log == old(log) + [Cut(old(objects)[t], old(objects)[c])]
    {
      log := log + [Cut(objects[t], objects[c])];
      objects := objects[t := Bored(objects[t], objects[c])];
    }

    /** Deletes the object at `i`; the others keep their order. */
    method Remove(i: nat)
      requires i < |objects|
      modifies this
      ensures objects == old(objects)[..i] + old(objects)[i + 1..]
      ensures log == old(log) + [Removed(old(objects)[i])]
    {
      log := log + [Removed(objects[i])];
      objects := objects[..i] + objects[i + 1..];
    }

    /** Adds a part, then a cutter, applies the difference and deletes the
        cutter: the idiom every hollow part of the build is made with. The
        scene gains just the bored part. */
    method AddHollow(target: Solid, cutter: Solid)
      requires CutRule(target, cutter)
      modifies this
      ensures objects == old(objects) + [Bored(target, cutter)]
      ensures log == old(log) + StepOps(Hollow(target, cutter))
    {
      var t := Add(target);
      var c := Add(cutter);
      Difference(t, c);
      assert objects == old(objects) + [Bored(target, cutter), cutter];
      Remove(c);
    }
  }
}
