/** The `useVisualizerControls` hook: the auto-rotate flag and the render
    parameters. `handleControlChange` is the object spread
    `{...prev, [controlName]: value}`, which accepts any key and any number, so
    the parameters are modelled as a map from field name to value. */
module VisualizerControls {

  datatype Color = Color(r: real, g: real, b: real)

  const White: Color := Color(1.0, 1.0, 1.0)

  /** A field of the controls object: a number, or the `THREE.Color` tint. */
  datatype Value = Num(n: real) | Tint(c: Color)

  type Controls = map<string, Value>

  const NumericFields: set<string> :=
    {"nearClipping", "farClipping", "pointSize", "zOffset", "opacity", "hueShift"}

  /** The record `useState` starts from. */
  const DefaultControls: Controls := map[
    "nearClipping" := Num(850.0),
    "farClipping" := Num(4000.0),
    "pointSize" := Num(2.0),
    "zOffset" := Num(1000.0),
    "opacity" := Num(0.2),
    "hueShift" := Num(0.0),
    "colorTint" := Tint(White)]

  /** The shape of the `VisualizerControls` interface: six numbers and a tint. */
  ghost predicate WellShaped(c: Controls)
  {
    && c.Keys == NumericFields + {"colorTint"}
    && (forall f :: f in NumericFields ==> c[f].Num?)
    && c["colorTint"].Tint?
  }

  lemma DefaultControlsWellShaped()
    ensures WellShaped(DefaultControls)
  {
  }

  /** `setControls(prev => ({...prev, [name]: value}))`: the raw value is stored,
      without clamping or range check, and no other field changes. */
  function WithControl(prev: Controls, name: string, value: real): (r: Controls)
    ensures name in r && r[name] == Num(value)
    ensures forall k :: k in prev && k != name ==> k in r && r[k] == prev[k]
    ensures r.Keys == prev.Keys + {name}
  {
    prev[name := Num(value)]
  }

  /** Writing a numeric field keeps the record well shaped. */
  lemma WithControlKeepsShape(prev: Controls, name: string, value: real)
    requires WellShaped(prev) && name in NumericFields
    ensures WellShaped(WithControl(prev, name, value))
  {
  }

  /** Writing a number under `colorTint` is accepted and breaks the shape. */
  lemma TintOverwrittenByNumber(prev: Controls, value: real)
    ensures !WellShaped(WithControl(prev, "colorTint", value))
  {
  }

  lemma LastWriteWins(c: Controls, name: string, v1: real, v2: real)
    ensures WithControl(WithControl(c, name, v1), name, v2) == WithControl(c, name, v2)
  {
  }

  lemma SameWriteIdempotent(c: Controls, name: string, v: real)
    ensures WithControl(WithControl(c, name, v), name, v) == WithControl(c, name, v)
  {
  }

  lemma DistinctWritesCommute(c: Controls, n1: string, v1: real, n2: string, v2: real)
    requires n1 != n2
    ensures WithControl(WithControl(c, n1, v1), n2, v2) == WithControl(WithControl(c, n2, v2), n1, v1)
  {
  }

  /** Near and far are stored independently: an inverted pair is accepted. */
  lemma InvertedClippingAccepted(c: Controls, near: real, far: real)
    requires near >= far
    ensures var r := WithControl(WithControl(c, "nearClipping", near), "farClipping", far);
      r["nearClipping"] == Num(near) && r["farClipping"] == Num(far)
  {
  }

  class ControlsHook {
    var autoRotate: bool
    var controls: Controls

    constructor ()
      ensures !autoRotate && controls == DefaultControls
    {
      autoRotate := false;
      controls := DefaultControls;
    }

    method HandleToggleAutoRotate()
      modifies this
      ensures autoRotate == !old(autoRotate) && controls == old(controls)
    {
      autoRotate := !autoRotate;
    }

    method HandleControlChange(controlName: string, value: real)
      modifies this
      ensures controls == WithControl(old(controls), controlName, value)
      ensures autoRotate == old(autoRotate)
    {
      controls := WithControl(controls, controlName, value);
    }

    method HandleControlsUpdate(newControls: Controls)
      modifies this
      ensures controls == newControls && autoRotate == old(autoRotate)
    {
      controls := newControls;
    }
  }

  /** Toggling auto-rotate twice restores the flag and leaves the controls alone. */
  method ToggleAutoRotateTwice(hook: ControlsHook)
    modifies hook
    ensures hook.autoRotate == old(hook.autoRotate) && hook.controls == old(hook.controls)
  {
    hook.HandleToggleAutoRotate();
    hook.HandleToggleAutoRotate();
  }
}
