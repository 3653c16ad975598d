/** The map page: a three-flag record saying which marker layers the map
    draws, flipped one flag at a time by the filter buttons. */
module MapPage {
  import opened MapComponent

  datatype Layer = DustbinLayer | WasteReportLayer | CleanupDriveLayer

  /** Whether the given layer is drawn. */
  function Shown(v: Layers, layer: Layer): bool
  {
    match layer
    case DustbinLayer => v.dustbins
    case WasteReportLayer => v.wasteReports
    case CleanupDriveLayer => v.cleanupDrives
  }

  /** The record with the named flag negated. */
  function Toggle(v: Layers, layer: Layer): Layers
  {
    match layer
    case DustbinLayer => v.(dustbins := !v.dustbins)
    case WasteReportLayer => v.(wasteReports := !v.wasteReports)
    case CleanupDriveLayer => v.(cleanupDrives := !v.cleanupDrives)
  }

  /** The named flag flips and the other two keep their values. */
  lemma ToggleFlipsOnlyNamed(v: Layers, layer: Layer, other: Layer)
    ensures Shown(Toggle(v, layer), layer) == !Shown(v, layer)
    ensures other != layer ==> Shown(Toggle(v, layer), other) == Shown(v, other)
  {
  }

  /** Toggling the same layer twice restores the record. */
  lemma ToggleTwice(v: Layers, layer: Layer)
    ensures Toggle(Toggle(v, layer), layer) == v
  {
  }

  /** Toggles of two layers commute. */
  lemma ToggleCommutes(v: Layers, a: Layer, b: Layer)
    ensures Toggle(Toggle(v, a), b) == Toggle(Toggle(v, b), a)
  {
  }

  class MapPageState {
    var showLayers: Layers

    /** All three layers start visible. */
    constructor ()
      ensures showLayers == AllLayers
      ensures forall layer :: Shown(showLayers, layer)
    {
      showLayers := Layers(true, true, true);
    }

    method ToggleLayer(layer: Layer)
      modifies this
      ensures showLayers == Toggle(old(showLayers), layer)
      ensures Shown(showLayers, layer) == !Shown(old(showLayers), layer)
      ensures forall other :: other != layer ==> Shown(showLayers, other) == Shown(old(showLayers), other)
    {
      var prev := showLayers;
      match layer {
        case DustbinLayer => showLayers := prev.(dustbins := !prev.dustbins);
        case WasteReportLayer => showLayers := prev.(wasteReports := !prev.wasteReports);
        case CleanupDriveLayer => showLayers := prev.(cleanupDrives := !prev.cleanupDrives);
      }
    }
  }
}
