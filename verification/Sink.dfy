/** The producer's view of the output channel: it accepts text until it is closed from outside. */
module Sink {

  datatype EmitResult = Continue | Disconnected | Stopped | Cancelled | Finished

  /** What one call may do: all of the text is taken, or the channel was closed after a prefix of it. */
  ghost predicate Accepts<T>(before: seq<T>, text: seq<T>, after: seq<T>, result: EmitResult)
  {
    && before <= after <= before + text
    && (result == Continue ==> after == before + text)
  }

  class OutputSink {
    /** Everything accepted so far. */
    var text: string

    constructor ()
      ensures text == ""
    {
      text := "";
    }

    /** The channel may be cancelled, stopped, finished or disconnected by others at any moment. */
    method Emit(t: string) returns (r: EmitResult)
      modifies this
      ensures Accepts(old(text), t, text, r)
    {
      r := *;
      var k: nat := |t|;
      if r != Continue {
        k :| 0 <= k <= |t|;
      }
      text := text + t[..k];
    }

    method Flush() returns (r: EmitResult)
    {
      r := *;
    }
  }
}
