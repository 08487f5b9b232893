/**
 * Orthographic camera arithmetic. The camera is a value; updating its frustum returns a new
 * camera. The drawing-buffer height in pixels is a parameter.
 */
module Camera {
  import opened Configuration

  datatype OrthoCamera = OrthoCamera(left: real, right: real, top: real, bottom: real, zoom: real)

  datatype Frustum = Frustum(top: real, bottom: real, left: real, right: real)

  datatype Size = Size(width: real, height: real)

  /** A frustum centred on the origin, `viewHeight` tall and `viewHeight * aspect` wide. */
  function ComputeOrthoFrustum(viewHeight: real, aspect: real): (f: Frustum)
    ensures f.top - f.bottom == viewHeight
    ensures f.right - f.left == viewHeight * aspect
    ensures f.bottom == -f.top && f.left == -f.right
  {
    var halfH := viewHeight / 2.0;
    var halfW := (viewHeight * aspect) / 2.0;
    Frustum(top := halfH, bottom := -halfH, left := -halfW, right := halfW)
  }

  /** The camera with its four frustum planes replaced; the zoom is kept. */
  function ApplyOrthoFrustum(cam: OrthoCamera, f: Frustum): (c: OrthoCamera)
    ensures c.top == f.top && c.bottom == f.bottom && c.left == f.left && c.right == f.right
    ensures c.zoom == cam.zoom
  {
    cam.(top := f.top, bottom := f.bottom, left := f.left, right := f.right)
  }

  /** Refit the frustum to a `width` by `height` canvas. */
  function UpdateOrthoCamera(cam: OrthoCamera, cfg: Config, width: real, height: real): (c: OrthoCamera)
    requires height != 0.0
    ensures c.zoom == cam.zoom
    ensures c.top - c.bottom == cfg.viewHeight
    ensures c.right - c.left == cfg.viewHeight * (width / height)
    ensures c.bottom == -c.top && c.left == -c.right
  {
    var aspect := width / height;
    ApplyOrthoFrustum(cam, ComputeOrthoFrustum(cfg.viewHeight, aspect))
  }

  /** The world-space size the camera shows, taking zoom into account. */
  function GetVisibleSize(cam: OrthoCamera): (s: Size)
    requires cam.zoom != 0.0
    ensures s.width * cam.zoom == cam.right - cam.left
    ensures s.height * cam.zoom == cam.top - cam.bottom
  {
    Size((cam.right - cam.left) / cam.zoom, (cam.top - cam.bottom) / cam.zoom)
  }

  /** World units covered by one pixel of a drawing buffer `pxH` pixels tall. */
  function WorldUnitsPerPixelOrtho(cam: OrthoCamera, pxH: real): (wpp: real)
    requires cam.zoom != 0.0 && pxH != 0.0
    ensures wpp * pxH == GetVisibleSize(cam).height
  {
    var visibleH := (cam.top - cam.bottom) / cam.zoom;
    visibleH / pxH
  }

  /** At zoom 1 a freshly fitted camera shows `viewHeight` vertically and the canvas's aspect ratio of it horizontally. */
  lemma VisibleSizeAfterUpdate(cam: OrthoCamera, cfg: Config, width: real, height: real)
    requires height != 0.0 && cam.zoom == 1.0
    ensures GetVisibleSize(UpdateOrthoCamera(cam, cfg, width, height))
         == Size(cfg.viewHeight * width / height, cfg.viewHeight)
  {
    var c := UpdateOrthoCamera(cam, cfg, width, height);
    assert cfg.viewHeight * (width / height) == cfg.viewHeight * width / height;
    assert GetVisibleSize(c).width == c.right - c.left;
  }
}
