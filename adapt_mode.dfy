/** The switches and reports of the `adaptor` revision of the adaptors. */
module AdaptationModes {

  /** What `set_mode` asks for. */
  datatype AdaptationMode = Enabled | Disabled

  /** What `mode` and `get_adapt` report. */
  datatype AdaptationStatus = Enabled | Disabled | Mixed

  function StatusOf(enabled: bool): AdaptationStatus {
    if enabled then AdaptationStatus.Enabled else AdaptationStatus.Disabled
  }
}
