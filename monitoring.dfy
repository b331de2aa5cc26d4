/** The tool-list change monitor (`McpPrimitiveMonitor<McpServerTool>`). Its own reset and
    polling logic is not part of this model: it is reduced to the number of change
    notifications it has received. */
module Monitoring {

  class PrimitiveMonitor {
    /** How many times `NotifyChanged` has been called on this monitor. */
    var changes: nat

    constructor ()
      ensures changes == 0
    {
      changes := 0;
    }

    method NotifyChanged()
      modifies this
      ensures changes == old(changes) + 1
    {
      changes := changes + 1;
    }
  }
}
