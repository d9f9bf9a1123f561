/** The payload of the tracker's Changed notification (D12Canvas/ZoomPanChangedEventArgs.cs). */
module ZoomPanEvents {

  /** The scale and the two pan coordinates at the moment a notification is raised.
      A datatype value never changes after it is built, as the three get-only
      properties of the source never do; the constructor validates nothing, so a
      scale outside [0.6, 6.0] or a positive pan is stored as readily as any
      other; and there is no field for the container or canvas dimensions. */
  datatype ZoomPanChangedEventArgs = ZoomPanChangedEventArgs(scale: real, panX: real, panY: real)

  /** Whatever values are passed in, the accessors give them back unchanged. */
  lemma ConstructorStoresValuesAsGiven(scale: real, panX: real, panY: real)
    ensures var e := ZoomPanChangedEventArgs(scale, panX, panY);
      e.scale == scale && e.panX == panX && e.panY == panY
  {
  }

  /** The payload holds nothing beyond its three values: two payloads that agree
      on scale and pan are the same payload. */
  lemma PayloadIsItsThreeValues(a: ZoomPanChangedEventArgs, b: ZoomPanChangedEventArgs)
    ensures a == b <==> (a.scale == b.scale && a.panX == b.panX && a.panY == b.panY)
  {
  }
}
