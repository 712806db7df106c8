/**
 * The events the background producer sends to the foreground loop: a periodic
 * tick or a key press. The channel itself is not modelled; each loop iteration
 * receives an `Option<Event>`, `None` standing for a failed receive.
 */
module Events {
  import opened Wrappers

  /** A key press; only character keys are dispatched, every other key is `OtherKey`. */
  datatype Key = Char(c: char) | OtherKey

  datatype Event = Input(key: Key) | Tick

  /** How a run of the foreground loop over a finite list of events ends. */
  datatype LoopEnd = Stopped | Panic(message: string) | OutOfEvents

  /** The received event is the key press `c`. */
  predicate IsKey(recv: Option<Event>, c: char)
  {
    recv == Some(Input(Char(c)))
  }

  /** No event of `events` is the quit key. */
  predicate QuitFree(events: seq<Option<Event>>)
  {
    forall i :: 0 <= i < |events| ==> !IsKey(events[i], 'q')
  }

  /** A prefix without the quit key stays so when the next event is not `q`. */
  lemma QuitFreeExtend(events: seq<Option<Event>>, k: nat)
    requires k < |events| && QuitFree(events[..k]) && !IsKey(events[k], 'q')
    ensures QuitFree(events[..k + 1])
  {
    assert events[..k + 1] == events[..k] + [events[k]];
  }
}
