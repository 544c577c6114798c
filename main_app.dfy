/**
 * The input handling of the WebGL app (main.js): colour picking decodes the
 * id of the drawable under the cursor from one framebuffer pixel, left drags
 * move the picked drawable along x, other buttons drag the camera, and the
 * wheel zooms it. The GPU readback is an oracle function from picking
 * coordinates to the RGBA bytes there.
 */
module App {
  import opened Vectors
  import AppCamera

  /** One RGBA pixel as gl.readPixels writes it into a Uint8Array. */
  datatype Pixel = Pixel(r: bv8, g: bv8, b: bv8, a: bv8)

  /** (p0 << 16) | (p1 << 8) | p2 on 32-bit integers: the bytes occupy disjoint bit ranges, so the or is a sum. */
  function DecodeBytes(p0: bv8, p1: bv8, p2: bv8): (id: int)
    ensures id == p0 as int * 65536 + p1 as int * 256 + p2 as int
    ensures 0 <= id < 0x100_0000
  {
    (((p0 as bv32) << 16) | ((p1 as bv32) << 8) | (p2 as bv32)) as int
  }

  /** The id a picking pixel encodes; alpha is ignored. */
  function DecodeId(p: Pixel): int
  {
    DecodeBytes(p.r, p.g, p.b)
  }

  /** Base-256 digits are unique. */
  lemma DigitsUnique(a0: int, a1: int, a2: int, b0: int, b1: int, b2: int)
    requires 0 <= a0 < 256 && 0 <= a1 < 256 && 0 <= a2 < 256
    requires 0 <= b0 < 256 && 0 <= b1 < 256 && 0 <= b2 < 256
    requires a0 * 65536 + a1 * 256 + a2 == b0 * 65536 + b1 * 256 + b2
    ensures a0 == b0 && a1 == b1 && a2 == b2
  {
  }

  /** Different colours decode to different ids. */
  lemma DecodeInjective(p: Pixel, q: Pixel)
    requires DecodeId(p) == DecodeId(q)
    ensures p.r == q.r && p.g == q.g && p.b == q.b
  {
    var a0, a1, a2 := p.r as int, p.g as int, p.b as int;
    var b0, b1, b2 := q.r as int, q.g as int, q.b as int;
    assert a0 * 65536 + a1 * 256 + a2 == b0 * 65536 + b1 * 256 + b2 by {
      assert DecodeBytes(p.r, p.g, p.b) == a0 * 65536 + a1 * 256 + a2;
      assert DecodeBytes(q.r, q.g, q.b) == b0 * 65536 + b1 * 256 + b2;
    }
    DigitsUnique(a0, a1, a2, b0, b1, b2);
    assert p.r == q.r && p.g == q.g && p.b == q.b by {
      assert p.r == a0 as bv8 && q.r == b0 as bv8;
      assert p.g == a1 as bv8 && q.g == b1 as bv8;
      assert p.b == a2 as bv8 && q.b == b2 as bv8;
    }
  }

  /** The canvas's bounding client rectangle. */
  datatype Rect = Rect(left: real, top: real, right: real, bottom: real)

  /** Picking coordinates: x from the left edge, y up from the bottom edge as the framebuffer counts rows. */
  function PickX(clientX: real, rect: Rect): real { clientX - rect.left }
  function PickY(clientY: real, rect: Rect): real { rect.bottom - clientY }

  /**
   * The y coordinate is flipped: the bottom edge of the canvas is row 0, the
   * top edge is row `height`, and moving the cursor down lowers the row.
   */
  lemma PickingFlipsY(rect: Rect, c1: real, c2: real)
    ensures PickY(rect.bottom, rect) == 0.0 && PickY(rect.top, rect) == rect.bottom - rect.top
    ensures c1 < c2 <==> PickY(c2, rect) < PickY(c1, rect)
    ensures rect.top <= c1 <= rect.bottom ==> 0.0 <= PickY(c1, rect) <= rect.bottom - rect.top
    ensures PickX(rect.left, rect) == 0.0 && (c1 < c2 <==> PickX(c1, rect) < PickX(c2, rect))
  {
  }

  /** A drawable as the app sees it: its pick id and its transform's translation. */
  class Drawable {
    const pickId: int
    var translation: Vec3

    constructor (id: int, t: Vec3)
      ensures pickId == id && translation == t
    {
      pickId := id;
      translation := t;
    }
  }

  /** drawables.find(d => d.id() === id), with null for undefined. */
  function FindDrawable(ds: seq<Drawable>, id: int): (r: Drawable?)
    ensures r == null <==> forall k :: 0 <= k < |ds| ==> ds[k].pickId != id
    ensures r != null ==> exists k :: 0 <= k < |ds| && ds[k] == r && r.pickId == id
                                      && forall j :: 0 <= j < k ==> ds[j].pickId != id
  {
    if |ds| == 0 then null
    else if ds[0].pickId == id then ds[0]
    else
      var r := FindDrawable(ds[1..], id);
      assert r != null ==> exists k :: 0 <= k < |ds| && ds[k] == r && r.pickId == id
                                       && forall j :: 0 <= j < k ==> ds[j].pickId != id by {
        if r != null {
          var k :| 0 <= k < |ds[1..]| && ds[1..][k] == r && r.pickId == id
                   && forall j :: 0 <= j < k ==> ds[1..][j].pickId != id;
          assert ds[k + 1] == r;
          assert forall j :: 0 <= j < k + 1 ==> ds[j].pickId != id by {
            forall j | 0 <= j < k + 1 ensures ds[j].pickId != id {
              if j > 0 { assert ds[j] == ds[1..][j - 1]; }
            }
          }
        }
      }
      assert r == null ==> forall k :: 0 <= k < |ds| ==> ds[k].pickId != id by {
        if r == null {
          forall k | 0 <= k < |ds| ensures ds[k].pickId != id {
            if k > 0 { assert ds[k] == ds[1..][k - 1]; }
          }
        }
      }
      r
  }

  class WebGLApp {
    const camera: AppCamera.Camera
    const drawables: seq<Drawable>
    var selectedObject: Drawable?
    var isDraggingObject: bool
    var lastMouseX: real
    var lastMouseY: real

    ghost predicate Valid()
      reads this, camera
    {
      && (selectedObject != null ==> selectedObject in drawables)
      && camera.Valid()
    }

    /** The state once initialize has run: the constructor's input fields, with the camera and scene given. */
    constructor (cam: AppCamera.Camera, ds: seq<Drawable>)
      requires cam.Valid()
      ensures Valid()
      ensures camera == cam && drawables == ds
      ensures selectedObject == null && !isDraggingObject && lastMouseX == 0.0 && lastMouseY == 0.0
    {
      camera := cam;
      drawables := ds;
      selectedObject := null;
      isDraggingObject := false;
      lastMouseX := 0.0;
      lastMouseY := 0.0;
    }

    /** readPixel: the RGBA bytes of the picking framebuffer at the given coordinates. */
    method HandlePicking(clientX: real, clientY: real, rect: Rect, readPixel: (real, real) -> Pixel)
      requires Valid()
      modifies this
      ensures Valid()
      ensures selectedObject == FindDrawable(drawables, DecodeId(readPixel(PickX(clientX, rect), PickY(clientY, rect))))
      ensures isDraggingObject == old(isDraggingObject) && lastMouseX == old(lastMouseX) && lastMouseY == old(lastMouseY)
    {
      var x := clientX - rect.left;
      var y := rect.bottom - clientY;
      var pixel := readPixel(x, y);
      var id := DecodeId(pixel);
      selectedObject := FindDrawable(drawables, id);
    }

    method HandleMouseDown(button: int, clientX: real, clientY: real, rect: Rect, readPixel: (real, real) -> Pixel)
      requires Valid()
      modifies this, camera
      ensures Valid()
      ensures camera.yaw == old(camera.yaw) && camera.pitch == old(camera.pitch) && camera.distance == old(camera.distance)
      ensures button == 0 ==>
                && selectedObject == FindDrawable(drawables, DecodeId(readPixel(PickX(clientX, rect), PickY(clientY, rect))))
                && camera.isDragging == old(camera.isDragging)
                && (selectedObject != null ==> isDraggingObject && lastMouseX == clientX && lastMouseY == clientY)
                && (selectedObject == null ==>
                      isDraggingObject == old(isDraggingObject) && lastMouseX == old(lastMouseX) && lastMouseY == old(lastMouseY))
      ensures button != 0 ==>
                && camera.isDragging
                && selectedObject == old(selectedObject) && isDraggingObject == old(isDraggingObject)
                && lastMouseX == old(lastMouseX) && lastMouseY == old(lastMouseY)
    {
      if button == 0 {
        HandlePicking(clientX, clientY, rect, readPixel);
        if selectedObject != null {
          isDraggingObject := true;
          lastMouseX := clientX;
          lastMouseY := clientY;
        }
      } else {
        camera.isDragging := true;
      }
    }

    method HandleMouseUp()
      requires Valid()
      modifies this, camera
      ensures Valid()
      ensures !camera.isDragging && !isDraggingObject && selectedObject == null
      ensures camera.yaw == old(camera.yaw) && camera.pitch == old(camera.pitch) && camera.distance == old(camera.distance)
      ensures lastMouseX == old(lastMouseX) && lastMouseY == old(lastMouseY)
    {
      camera.isDragging := false;
      isDraggingObject := false;
      selectedObject := null;
    }

    /** translation[0] += dx; dy is unused. */
    method MoveSelectedObject(dx: real, dy: real)
      requires selectedObject != null
      modifies selectedObject
      ensures selectedObject.translation == old(selectedObject.translation).Add(Vec3(dx, 0.0, 0.0))
    {
      var t := selectedObject.translation;
      selectedObject.translation := Vec3(t.x + dx, t.y, t.z);
    }

    /** Camera drags take priority over object drags. */
    method HandleMouseMove(clientX: real, clientY: real, movementX: real, movementY: real)
      requires Valid()
      modifies this, camera, drawables
      ensures Valid()
      ensures selectedObject == old(selectedObject) && isDraggingObject == old(isDraggingObject)
      ensures camera.isDragging == old(camera.isDragging) && camera.distance == old(camera.distance)
      ensures old(camera.isDragging) ==>
                && camera.yaw == AppCamera.TurnedYaw(old(camera.yaw), movementX, camera.sensitivity)
                && camera.pitch == AppCamera.Clamp(-AppCamera.PITCH_LIMIT, AppCamera.PITCH_LIMIT, old(camera.pitch) + movementY * camera.sensitivity)
                && lastMouseX == old(lastMouseX) && lastMouseY == old(lastMouseY)
                && forall d :: d in drawables ==> unchanged(d)
      ensures !old(camera.isDragging) && isDraggingObject && selectedObject != null ==>
                && camera.yaw == old(camera.yaw) && camera.pitch == old(camera.pitch)
                && selectedObject.translation == old(selectedObject.translation).Add(Vec3(clientX - old(lastMouseX), 0.0, 0.0))
                && lastMouseX == clientX && lastMouseY == clientY
                && forall d :: d in drawables && d != selectedObject ==> unchanged(d)
      ensures !old(camera.isDragging) && !(isDraggingObject && selectedObject != null) ==>
                && camera.yaw == old(camera.yaw) && camera.pitch == old(camera.pitch)
                && lastMouseX == old(lastMouseX) && lastMouseY == old(lastMouseY)
                && forall d :: d in drawables ==> unchanged(d)
    {
      if camera.isDragging {
        camera.UpdateMouse(movementX, movementY);
      } else if isDraggingObject && selectedObject != null {
        var dx := clientX - lastMouseX;
        var dy := clientY - lastMouseY;
        MoveSelectedObject(dx, dy);
        lastMouseX := clientX;
        lastMouseY := clientY;
      }
    }

    method HandleMouseWheel(deltaY: real)
      requires Valid()
      modifies camera
      ensures Valid()
      ensures camera.distance == AppCamera.Clamp(camera.minDistance, camera.maxDistance, old(camera.distance) + deltaY * camera.zoomSpeed)
      ensures camera.yaw == old(camera.yaw) && camera.pitch == old(camera.pitch) && camera.isDragging == old(camera.isDragging)
    {
      camera.HandleMouseWheel(deltaY);
    }
  }

  /**
   * One left-button drag: a successful pick at clientX x0, then mouse moves
   * at clientX xs[0], xs[1], ...; the picked drawable's translation.x grows
   * by exactly last - x0, because the per-move deltas telescope.
   */
  method DragTelescopes(app: WebGLApp, x0: real, y0: real, rect: Rect, readPixel: (real, real) -> Pixel,
                        xs: seq<real>, ys: seq<real>, mx: seq<real>, my: seq<real>)
    returns (picked: Drawable?)
    requires app.Valid() && !app.camera.isDragging
    requires |xs| == |ys| == |mx| == |my| > 0
    modifies app, app.camera, app.drawables
    ensures picked == FindDrawable(app.drawables, DecodeId(readPixel(PickX(x0, rect), PickY(y0, rect))))
    ensures picked != null ==>
              picked.translation == old(picked.translation).Add(Vec3(xs[|xs| - 1] - x0, 0.0, 0.0))
  {
    app.HandleMouseDown(0, x0, y0, rect, readPixel);
    picked := app.selectedObject;
    if picked == null {
      return;
    }
    ghost var t0 := picked.translation;
    for i := 0 to |xs|
      invariant app.Valid() && !app.camera.isDragging
      invariant app.selectedObject == picked && app.isDraggingObject
      invariant app.lastMouseX == (if i == 0 then x0 else xs[i - 1])
      invariant picked.translation == t0.Add(Vec3(app.lastMouseX - x0, 0.0, 0.0))
    {
      app.HandleMouseMove(xs[i], ys[i], mx[i], my[i]);
    }
  }
}
