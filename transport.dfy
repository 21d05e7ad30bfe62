/**
 * The python-can bus as the light platform sees it: a sink for outgoing
 * frames. The driver, its socket and its notifier thread are not modelled;
 * whether the driver takes a frame within the send timeout is decided by the
 * environment and passed in.
 */
module Transport {
  import opened Frames

  class CanBus {
    /** Every frame the driver has accepted, oldest first. */
    var sent: seq<Frame>

    constructor ()
      ensures sent == []
    {
      sent := [];
    }

    /**
     * `bus.send(msg, timeout=.1)`: when the driver accepts the frame it is
     * appended to the log; otherwise python-can raises (`ok` is false) and
     * nothing is sent.
     */
    method Send(f: Frame, accepted: bool) returns (ok: bool)
      modifies this
      ensures ok == accepted
      ensures sent == old(sent) + (if accepted then [f] else [])
    {
      ok := accepted;
      if accepted {
        sent := sent + [f];
      }
    }
  }
}
