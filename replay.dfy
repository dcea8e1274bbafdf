/** The re-readable response stream of one job: an append-only frame log
    that every attached reader receives from its first frame. */
module ReplayBuffer {
  import opened Protocol

  class ReplayBuffer {
    /** Every frame written so far, in write order. */
    var log: seq<Frame>
    /** Whether `end()` has been called. */
    var closed: bool

    constructor ()
      ensures log == [] && !closed
    {
      log := [];
      closed := false;
    }

    /** `write(frame)`: append; a stream that has ended takes no writes. */
    method Write(f: Frame)
      requires !closed
      modifies this
      ensures log == old(log) + [f] && !closed
    {
      log := log + [f];
    }

    /** `end()`: readers see end-of-stream after the last frame. */
    method End()
      modifies this
      ensures log == old(log) && closed
    {
      closed := true;
    }

    /** `rewind()`: a reader that starts at the first frame. It receives the
        whole log so far, and whether the stream has ended. In this model
        every `process` and `prefetch` finishes before any reader connects,
        so the log it receives is the final one. */
    method Rewind() returns (frames: seq<Frame>, ended: bool)
      ensures frames == log && ended == closed
    {
      frames, ended := log, closed;
    }
  }
}
