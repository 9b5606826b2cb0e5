/** The `SceneControls` hook: a single auto-rotate flag. */
module SceneControls {

  class SceneControls {
    var autoRotate: bool

    constructor ()
      ensures !autoRotate
    {
      autoRotate := false;
    }

    method HandleToggleAutoRotate()
      modifies this
      ensures autoRotate == !old(autoRotate)
    {
      autoRotate := !autoRotate;
    }
  }

  /** Toggling twice restores the original value. */
  method ToggleTwice(controls: SceneControls)
    modifies controls
    ensures controls.autoRotate == old(controls.autoRotate)
  {
    controls.HandleToggleAutoRotate();
    controls.HandleToggleAutoRotate();
  }
}
