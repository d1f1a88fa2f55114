/**
 * CameraNode.java, the camera half: the viewing frustum's aspect ratio,
 * vertical field of view and near and far distances, with the viewport
 * size derived from them. `Math.tan` is the parameter `tan`. The node half
 * of a camera (position, orientation, links) is in Nodes.
 */
module Cameras {
  import opened JavaMath

  datatype Camera = Camera(aspect: real, yFov: real, near: real, far: real) {

    /** `getNearDistance()`: the stored near distance. */
    function NearDistance(): real {
      near
    }

    /** `getFarDistance()`: the stored far distance. */
    function FarDistance(): real {
      far
    }

    /**
     * `getViewportHeight()`: `|tan(yFov / 2) * near * 2|`, the height of the
     * near plane's window. It is never negative, and zero exactly when the
     * half-angle tangent or the near distance is.
     */
    function ViewportHeight(tan: real -> real): (h: real)
      ensures h >= 0.0
      ensures h == 0.0 <==> tan(yFov / 2.0) == 0.0 || near == 0.0
    {
      Abs(tan(yFov / 2.0) * near * 2.0)
    }

    /** `getViewportWidth()`: `|height * aspect|`, never negative. */
    function ViewportWidth(tan: real -> real): (w: real)
      ensures w >= 0.0
    {
      Abs(ViewportHeight(tan) * aspect)
    }

    /** `seesBoundingBox(bounds)`: culling is not implemented; every box counts as visible. */
    function SeesBoundingBox<B>(bounds: B): (r: bool)
      ensures r
    {
      true
    }
  }

  /** The window keeps the aspect ratio: its width is its height times `|aspect|`. */
  lemma ViewportKeepsAspect(c: Camera, tan: real -> real)
    ensures c.ViewportWidth(tan) == c.ViewportHeight(tan) * Abs(c.aspect)
  {
    var h := c.ViewportHeight(tan);
    if c.aspect < 0.0 {
      assert h * c.aspect == -(h * -c.aspect);
      assert h * -c.aspect >= 0.0;
    } else {
      assert h * c.aspect >= 0.0;
    }
  }
}
