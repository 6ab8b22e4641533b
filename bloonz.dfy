/**
 * The balloon-shooting game's bookkeeping: the module-level parallel
 * arrays of balls, static boxes and balloons, the bounded ball queue, the
 * collision and timeout removals, and the per-frame pose copies.
 * `scene` and `world` are the render objects added to the scene and the
 * bodies added to the physics world.
 */
module BloonZ {

  import opened Wrappers
  import opened JsBuiltins
  import opened Scene

  /** At most this many balls are alive; the oldest goes first. */
  const MaxBalls := 15

  /** Where a balloon's model sits relative to its body. */
  const ModelOffset := Vec3(0.1, -0.61, -1.01)

  /**
   * The click handler's queue step: when the queue is full (length 15 or
   * more) the oldest entry is shifted out, then x is pushed.
   */
  function CappedPush<T>(queue: seq<T>, x: T): (r: seq<T>)
    ensures r != [] && r[|r| - 1] == x
    ensures |queue| <= MaxBalls ==> |r| <= MaxBalls
    ensures |queue| < MaxBalls ==> |r| == |queue| + 1
    ensures |queue| >= MaxBalls ==> |r| == |queue|
    ensures |r| - 1 <= |queue| && r[..|r| - 1] == queue[|queue| - (|r| - 1)..]
  {
    (if |queue| >= MaxBalls then Shift(queue) else queue) + [x]
  }

  /** A ball created by a click: its body and its mesh. */
  datatype Shot = Shot(body: Body, mesh: Object3D)

  class Game {
    var controlsEnabled: bool
    var balls: seq<Body>
    var ballMeshes: seq<Object3D>
    var boxes: seq<Body>
    var boxMeshes: seq<Object3D>
    var enemyBodies: seq<Body>
    var enemyModels: seq<Object3D>
    var enemyMeshes: seq<Object3D>
    var scene: set<Object3D>
    var world: set<Body>

    /** The parallel arrays have equal lengths and the ball queue respects its cap. */
    ghost predicate Valid()
      reads this
    {
      && |balls| == |ballMeshes| <= MaxBalls
      && |boxes| == |boxMeshes|
      && |enemyBodies| == |enemyModels| == |enemyMeshes|
      && RenderablesDistinct()
    }

    /** No render object is listed twice across the arrays the frame loop writes to. */
    ghost predicate RenderablesDistinct()
      reads this
    {
      && Distinct(ballMeshes) && Distinct(boxMeshes) && Distinct(enemyModels) && Distinct(enemyMeshes)
      && Elems(ballMeshes) !! Elems(boxMeshes)
      && Elems(ballMeshes) !! Elems(enemyModels)
      && Elems(ballMeshes) !! Elems(enemyMeshes)
      && Elems(boxMeshes) !! Elems(enemyModels)
      && Elems(boxMeshes) !! Elems(enemyMeshes)
      && Elems(enemyModels) !! Elems(enemyMeshes)
    }

    /** Every render object the frame loop writes to. */
    ghost function Renderables(): set<Object3D>
      reads this
    {
      Elems(ballMeshes) + Elems(boxMeshes) + Elems(enemyModels) + Elems(enemyMeshes)
    }

    /**
     * The array part of `initCannon`: the camera's body and mesh are the
     * first box, the one wall created by `createWall` the second; pointer
     * lock starts released.
     */
    constructor ()
      ensures Valid()
      ensures !controlsEnabled
      ensures balls == [] && ballMeshes == []
      ensures enemyBodies == [] && enemyModels == [] && enemyMeshes == []
      ensures |boxes| == 2
      ensures boxes[0].position == Vec3(0.0, 1.25, 0.0)
      ensures boxes[1].position == Vec3(0.0, 2.5, -10.0)
      ensures world == Elems(boxes) && scene == Elems(boxMeshes)
    {
      controlsEnabled := false;
      balls, ballMeshes := [], [];
      enemyBodies, enemyModels, enemyMeshes := [], [], [];
      var cameraBody := new Body();
      cameraBody.position := Vec3(0.0, 2.5 / 2.0, 0.0);
      var cameraMesh := new Object3D();
      world := {cameraBody};
      scene := {cameraMesh};
      boxes, boxMeshes := [cameraBody], [cameraMesh];
      new;
      var _ := CreateWall(Vec3(0.0, 2.5, -10.0));
    }

    /** `createWall`: a static body at `position` and its mesh, appended to the box arrays. */
    method CreateWall(position: Vec3) returns (body: Body)
      requires Valid()
      modifies this
      ensures Valid()
      ensures fresh(body) && body.position == position
      ensures |boxMeshes| == |old(boxMeshes)| + 1 && fresh(boxMeshes[|boxMeshes| - 1])
      ensures boxes == old(boxes) + [body] && boxMeshes == old(boxMeshes) + [boxMeshes[|boxMeshes| - 1]]
      ensures world == old(world) + {body} && scene == old(scene) + {boxMeshes[|boxMeshes| - 1]}
      ensures balls == old(balls) && ballMeshes == old(ballMeshes)
      ensures enemyBodies == old(enemyBodies) && enemyModels == old(enemyModels) && enemyMeshes == old(enemyMeshes)
      ensures controlsEnabled == old(controlsEnabled)
    {
      var mesh := new Object3D();
      body := new Body();
      body.position := position;
      world := world + {body};
      scene := scene + {mesh};
      PushFresh(boxMeshes, mesh);
      boxes := boxes + [body];
      boxMeshes := boxMeshes + [mesh];
    }

    /**
     * `createBalloon`: a sphere mesh joins `enemyMeshes` and the scene, a
     * body at the origin joins the world and `enemyBodies`.
     */
    method CreateBalloon() returns (body: Body)
      requires RenderablesDistinct()
      modifies this
      ensures RenderablesDistinct()
      ensures fresh(body) && body.position == Origin
      ensures enemyBodies == old(enemyBodies) + [body]
      ensures |enemyMeshes| == |old(enemyMeshes)| + 1 && enemyMeshes[..|old(enemyMeshes)|] == old(enemyMeshes)
      ensures fresh(enemyMeshes[|enemyMeshes| - 1])
      ensures scene == old(scene) + {enemyMeshes[|enemyMeshes| - 1]} && world == old(world) + {body}
      ensures enemyModels == old(enemyModels)
      ensures balls == old(balls) && ballMeshes == old(ballMeshes)
      ensures boxes == old(boxes) && boxMeshes == old(boxMeshes)
      ensures controlsEnabled == old(controlsEnabled)
    {
      body := new Body();
      var mesh := new Object3D();
      PushFresh(enemyMeshes, mesh);
      enemyMeshes := enemyMeshes + [mesh];
      scene := scene + {mesh};
      world := world + {body};
      enemyBodies := enemyBodies + [body];
    }

    /**
     * One GLTF loader callback: the loaded model joins the scene, then
     * `createBalloon` adds a mesh and a body, then the model is appended.
     * The spawn position uses the loop index and the random roll
     * `Math.ceil(Math.random() * 5)`.
     */
    method LoadBalloon(loadIndex: int, roll: int) returns (body: Body)
      requires Valid()
      modifies this
      ensures Valid()
      ensures fresh(body)
      ensures body.position == Vec3(1.0 + (loadIndex * roll) as real, 1.0, 1.0 + (loadIndex * roll) as real)
      ensures enemyBodies == old(enemyBodies) + [body]
      ensures |enemyModels| == |old(enemyModels)| + 1 && enemyModels[..|old(enemyModels)|] == old(enemyModels)
      ensures |enemyMeshes| == |old(enemyMeshes)| + 1 && enemyMeshes[..|old(enemyMeshes)|] == old(enemyMeshes)
      ensures fresh(enemyModels[|enemyModels| - 1]) && fresh(enemyMeshes[|enemyMeshes| - 1])
      ensures scene == old(scene) + {enemyModels[|enemyModels| - 1], enemyMeshes[|enemyMeshes| - 1]}
      ensures world == old(world) + {body}
      ensures balls == old(balls) && ballMeshes == old(ballMeshes)
      ensures boxes == old(boxes) && boxMeshes == old(boxMeshes)
      ensures controlsEnabled == old(controlsEnabled)
    {
      var model := new Object3D();
      scene := scene + {model};
      body := CreateBalloon();
      PushFresh(enemyModels, model);
      enemyModels := enemyModels + [model];
      body.position := Vec3(1.0 + (loadIndex * roll) as real, 1.0, 1.0 + (loadIndex * roll) as real);
    }

    /** The pointer-lock 'lock' listener. */
    method Lock()
      modifies this
      ensures controlsEnabled
      ensures balls == old(balls) && ballMeshes == old(ballMeshes) && boxes == old(boxes) && boxMeshes == old(boxMeshes)
      ensures enemyBodies == old(enemyBodies) && enemyModels == old(enemyModels) && enemyMeshes == old(enemyMeshes)
      ensures scene == old(scene) && world == old(world)
    {
      controlsEnabled := true;
    }

    /** The pointer-lock 'unlock' listener. */
    method Unlock()
      modifies this
      ensures !controlsEnabled
      ensures balls == old(balls) && ballMeshes == old(ballMeshes) && boxes == old(boxes) && boxMeshes == old(boxMeshes)
      ensures enemyBodies == old(enemyBodies) && enemyModels == old(enemyModels) && enemyMeshes == old(enemyMeshes)
      ensures scene == old(scene) && world == old(world)
    {
      controlsEnabled := false;
    }

    /** `removeObject(mesh, body)`. */
    method RemoveObject(mesh: Object3D, body: Body)
      modifies this`scene, this`world
      ensures scene == old(scene) - {mesh} && world == old(world) - {body}
    {
      scene := scene - {mesh};
      world := world - {body};
    }

    /**
     * The click handler. Ignored while the pointer is not locked; otherwise
     * the oldest ball is removed when 15 are alive, and a new ball body and
     * mesh, both placed at `spawn`, are appended to the queue.
     */
    method Click(spawn: Vec3) returns (shot: Option<Shot>)
      requires Valid()
      modifies this
      ensures Valid()
      ensures !old(controlsEnabled) ==> shot.None? && unchanged(this)
      ensures old(controlsEnabled) ==> shot.Some?
      ensures shot.Some? ==> fresh(shot.value.body) && fresh(shot.value.mesh)
      ensures shot.Some? ==> shot.value.body.position == spawn && shot.value.mesh.position == spawn
      ensures shot.Some? ==> balls == CappedPush(old(balls), shot.value.body)
      ensures shot.Some? ==> ballMeshes == CappedPush(old(ballMeshes), shot.value.mesh)
      ensures shot.Some? && |old(balls)| >= MaxBalls ==>
        && scene == old(scene) - {old(ballMeshes)[0]} + {shot.value.mesh}
        && world == old(world) - {old(balls)[0]} + {shot.value.body}
      ensures shot.Some? && |old(balls)| < MaxBalls ==>
        scene == old(scene) + {shot.value.mesh} && world == old(world) + {shot.value.body}
      ensures boxes == old(boxes) && boxMeshes == old(boxMeshes) && controlsEnabled == old(controlsEnabled)
      ensures enemyBodies == old(enemyBodies) && enemyModels == old(enemyModels) && enemyMeshes == old(enemyMeshes)
    {
      if !controlsEnabled {
        return None;
      }
      if |balls| >= MaxBalls {
        DropOldestBall();
      }
      var s := PushBall(spawn);
      shot := Some(s);
    }

    /** The rest of the click handler: a new ball body and mesh at `spawn`, pushed onto the queue. */
    method PushBall(spawn: Vec3) returns (shot: Shot)
      requires Valid() && |balls| < MaxBalls
      modifies this
      ensures Valid()
      ensures fresh(shot.body) && fresh(shot.mesh)
      ensures shot.body.position == spawn && shot.mesh.position == spawn
      ensures balls == old(balls) + [shot.body] && ballMeshes == old(ballMeshes) + [shot.mesh]
      ensures scene == old(scene) + {shot.mesh} && world == old(world) + {shot.body}
      ensures boxes == old(boxes) && boxMeshes == old(boxMeshes) && controlsEnabled == old(controlsEnabled)
      ensures enemyBodies == old(enemyBodies) && enemyModels == old(enemyModels) && enemyMeshes == old(enemyMeshes)
    {
      var ballBody := new Body();
      var ballMesh := new Object3D();
      scene := scene + {ballMesh};
      world := world + {ballBody};
      PushFresh(ballMeshes, ballMesh);
      balls := balls + [ballBody];
      ballMeshes := ballMeshes + [ballMesh];
      ballBody.position := spawn;
      ballMesh.position := ballBody.position;
      shot := Shot(ballBody, ballMesh);
    }

    /**
     * `removeObject(ballMeshes.shift(), balls.shift())`: run by the click
     * handler when the queue is full and by the timeout every click
     * schedules. The front ball pair goes, whichever ball scheduled the
     * timeout; on empty arrays nothing changes (the library call on
     * `undefined` throws and the timeout's catch swallows it).
     */
    method DropOldestBall()
      requires Valid()
      modifies this
      ensures Valid()
      ensures balls == Shift(old(balls)) && ballMeshes == Shift(old(ballMeshes))
      ensures old(balls) != [] ==>
        scene == old(scene) - {old(ballMeshes)[0]} && world == old(world) - {old(balls)[0]}
      ensures old(balls) == [] ==> scene == old(scene) && world == old(world)
      ensures boxes == old(boxes) && boxMeshes == old(boxMeshes) && controlsEnabled == old(controlsEnabled)
      ensures enemyBodies == old(enemyBodies) && enemyModels == old(enemyModels) && enemyMeshes == old(enemyMeshes)
    {
      var meshes, bodies := ballMeshes, balls;
      ShiftShrinks(ballMeshes);
      ballMeshes, balls := Shift(ballMeshes), Shift(balls);
      if meshes != [] {
        RemoveObject(meshes[0], bodies[0]);
      }
    }

    /**
     * The 'collide' listener of `ball`. Only a balloon body counts: its
     * index is spliced out of the three balloon arrays, and the ball's
     * index out of the two ball arrays. When the ball is no longer in
     * `balls`, `indexOf` gives -1 and the last ball pair is spliced out
     * instead. The spliced meshes leave the scene; the spliced bodies are
     * passed to `scene.remove` too, so they stay in the physics world.
     */
    method Collide(ball: Body, other: Body)
      requires Valid()
      modifies this
      ensures Valid()
      ensures other !in old(enemyBodies) ==> unchanged(this)
      ensures other in old(enemyBodies) ==>
        var k := IndexOf(old(enemyBodies), other);
        && enemyBodies == Splice1(old(enemyBodies), k)
        && enemyModels == Splice1(old(enemyModels), k)
        && enemyMeshes == Splice1(old(enemyMeshes), k)
      ensures other in old(enemyBodies) ==>
        var i := IndexOf(old(balls), ball);
        && balls == Splice1(old(balls), i)
        && ballMeshes == Splice1(old(ballMeshes), i)
      ensures other in old(enemyBodies) ==>
        var k, i := IndexOf(old(enemyBodies), other), IndexOf(old(balls), ball);
        scene == old(scene) - Elems(SpliceRemoved(old(enemyModels), k)) - Elems(SpliceRemoved(old(enemyMeshes), k))
                            - Elems(SpliceRemoved(old(ballMeshes), i))
      ensures world == old(world)
      ensures boxes == old(boxes) && boxMeshes == old(boxMeshes) && controlsEnabled == old(controlsEnabled)
    {
      if other in enemyBodies {
        var index := IndexOf(enemyBodies, other);
        Splice1Shrinks(enemyModels, index);
        Splice1Shrinks(enemyMeshes, index);
        scene := scene - Elems(SpliceRemoved(enemyModels, index));
        enemyModels := Splice1(enemyModels, index);
        scene := scene - Elems(SpliceRemoved(enemyMeshes, index));
        enemyMeshes := Splice1(enemyMeshes, index);
        enemyBodies := Splice1(enemyBodies, index);

        var i := IndexOf(balls, ball);
        Splice1Shrinks(ballMeshes, i);
        scene := scene - Elems(SpliceRemoved(ballMeshes, i));
        ballMeshes := Splice1(ballMeshes, i);
        balls := Splice1(balls, i);
      }
    }

    /** The first loop of `animate`: each ball mesh takes its body's pose. */
    method SyncBalls()
      requires Valid()
      modifies Elems(ballMeshes)
      ensures forall i :: 0 <= i < |balls| ==>
        ballMeshes[i].position == balls[i].position && ballMeshes[i].quaternion == balls[i].quaternion
    {
      CopyPoses(ballMeshes, balls);
    }

    /** The second loop of `animate`: each box mesh takes its body's pose. */
    method SyncBoxes()
      requires Valid()
      modifies Elems(boxMeshes)
      ensures forall i :: 0 <= i < |boxes| ==>
        boxMeshes[i].position == boxes[i].position && boxMeshes[i].quaternion == boxes[i].quaternion
    {
      CopyPoses(boxMeshes, boxes);
    }

    /**
     * The third loop of `animate`: each balloon mesh takes its body's pose,
     * each balloon model the same pose moved by the model offset.
     */
    method SyncEnemies()
      requires Valid()
      modifies Elems(enemyModels), Elems(enemyMeshes)
      ensures forall i :: 0 <= i < |enemyBodies| ==>
        && enemyMeshes[i].position == enemyBodies[i].position
        && enemyMeshes[i].quaternion == enemyBodies[i].quaternion
        && enemyModels[i].position == Add(enemyBodies[i].position, ModelOffset)
        && enemyModels[i].quaternion == enemyBodies[i].quaternion
    {
      var i := 0;
      while i < |enemyBodies|
        invariant 0 <= i <= |enemyBodies|
        invariant forall j :: 0 <= j < i ==>
          && enemyMeshes[j].position == enemyBodies[j].position
          && enemyMeshes[j].quaternion == enemyBodies[j].quaternion
          && enemyModels[j].position == Add(enemyBodies[j].position, ModelOffset)
          && enemyModels[j].quaternion == enemyBodies[j].quaternion
      {
        var body := enemyBodies[i];
        enemyModels[i].position := body.position;
        enemyModels[i].quaternion := body.quaternion;
        enemyMeshes[i].position := body.position;
        enemyMeshes[i].quaternion := body.quaternion;
        enemyModels[i].position := Add(enemyModels[i].position, ModelOffset);
        i := i + 1;
      }
    }

    /**
     * The pose-copy part of one `animate` frame: while the pointer is
     * locked the three loops run in order, and since they write disjoint
     * objects each one's result survives the next; otherwise no render
     * object changes.
     */
    method Animate()
      requires Valid()
      modifies Renderables()
      ensures !controlsEnabled ==> unchanged(Renderables())
      ensures controlsEnabled ==> forall i :: 0 <= i < |balls| ==>
        ballMeshes[i].position == balls[i].position && ballMeshes[i].quaternion == balls[i].quaternion
      ensures controlsEnabled ==> forall i :: 0 <= i < |boxes| ==>
        boxMeshes[i].position == boxes[i].position && boxMeshes[i].quaternion == boxes[i].quaternion
      ensures controlsEnabled ==> forall i :: 0 <= i < |enemyBodies| ==>
        && enemyMeshes[i].position == enemyBodies[i].position
        && enemyMeshes[i].quaternion == enemyBodies[i].quaternion
        && enemyModels[i].position == Add(enemyBodies[i].position, ModelOffset)
        && enemyModels[i].quaternion == enemyBodies[i].quaternion
    {
      if controlsEnabled {
        SyncBalls();
        SyncBoxes();
        SyncEnemies();
      }
    }
  }
}
