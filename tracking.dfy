/** The usage-tracking side of the policy oracle: every delivered `track` call records one event. */
module Tracking {

  /** One `track` call: the event name and the company and user ids of its context. */
  datatype TrackEvent = TrackEvent(event: string, companyId: string, userId: string)

  class UsageLog {
    /** The events recorded so far, in call order. */
    var events: seq<TrackEvent>

    constructor ()
      ensures events == []
    {
      events := [];
    }

    /** One `track` call. `delivered` is whether the remote call succeeds; a failed call
        records nothing and is reported to the caller, which sees it as a thrown error. */
    method Track(e: TrackEvent, delivered: bool) returns (ok: bool)
      modifies this
      ensures ok == delivered
      ensures events == if delivered then old(events) + [e] else old(events)
    {
      ok := delivered;
      if delivered {
        events := events + [e];
      }
    }
  }
}
