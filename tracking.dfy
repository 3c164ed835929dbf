/**
  The progress sinks the front ends write to: `IProcessTrackerService.TrackProcess`
  and the console's `WriteError`, recorded in call order.
*/
module Tracking {
  import opened Selection

  datatype Notice = Tracked(message: string) | ErrorWritten(message: string)

  class ProgressSink {
    var notices: seq<Notice>

    constructor ()
      ensures notices == []
    {
      notices := [];
    }

    /** `TrackProcess(message)`. */
    method TrackProcess(message: string)
      modifies this
      ensures notices == old(notices) + [Tracked(message)]
    {
      notices := notices + [Tracked(message)];
    }

    /** `WriteError(message)`. */
    method WriteError(message: string)
      modifies this
      ensures notices == old(notices) + [ErrorWritten(message)]
    {
      notices := notices + [ErrorWritten(message)];
    }
  }

  function IsErrorNotice(n: Notice): bool {
    n.ErrorWritten?
  }

  /** How many error reports a run of notices holds. */
  function ErrorCount(ns: seq<Notice>): nat {
    Count(ns, IsErrorNotice)
  }
}
