/**
 The decision logic of `transcribe_audio_file`'s wait loop. The HTTP requests, the sleep
 between polls and the logging are left out: `poll(n)` is the reply to the n-th status
 request (counting from 0).
 */
module Polling {
  import opened Wrappers
  import opened Transcript

  const Completed: string := "completed"
  const Failed: string := "error"

  /** `completed` and `error` end the wait; `queued`, `processing` and anything else do not. */
  predicate IsTerminal(status: string) {
    status == Completed || status == Failed
  }

  /** The number of polls `max_retries` allows. */
  function Budget(maxRetries: int): nat {
    if maxRetries > 0 then maxRetries else 0
  }

  /** Poll `k` is the first terminal reply. */
  predicate FirstTerminalAt(poll: nat -> Response, k: nat) {
    IsTerminal(poll(k).status) && forall j :: 0 <= j < k ==> !IsTerminal(poll(j).status)
  }

  /**
   The wait loop: poll at most `maxRetries` times, return the first terminal reply if it is
   `completed`, None if it is `error`, and None once the budget is spent. `polls` counts the
   status requests made.
   */
  method WaitForTranscript(maxRetries: int, poll: nat -> Response) returns (r: Option<Response>, polls: nat)
    ensures polls <= Budget(maxRetries)
    ensures maxRetries <= 0 ==> polls == 0 && r == None
    ensures forall j :: 0 <= j < polls - 1 ==> !IsTerminal(poll(j).status)
    ensures polls < Budget(maxRetries) ==> 0 < polls && IsTerminal(poll(polls - 1).status)
    ensures r.Some? <==> 0 < polls && poll(polls - 1).status == Completed
    ensures r.Some? ==> r.value == poll(polls - 1)
    ensures r.Some? <==> exists k :: 0 <= k < maxRetries && FirstTerminalAt(poll, k) && poll(k).status == Completed
  {
    var maxTries := maxRetries;
    polls := 0;
    while maxTries > 0
      invariant polls <= Budget(maxRetries)
      invariant maxTries == maxRetries - polls
      invariant forall j :: 0 <= j < polls ==> !IsTerminal(poll(j).status)
      decreases maxTries
    {
      maxTries := maxTries - 1;
      var reply := poll(polls);
      polls := polls + 1;
      if IsTerminal(reply.status) {
        assert FirstTerminalAt(poll, polls - 1);
        if reply.status == Completed {
          return Some(reply), polls;
        } else {
          return None, polls;
        }
      }
    }
    return None, polls;
  }
}
