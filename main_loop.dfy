/**
 * The main loop of Wiggly Letters as the source writes it: the handler's
 * variables are fields that the event dispatch and the end of each frame
 * reassign in place. Each method is proved against the value-level
 * specification in KeyEvents.
 */
module MainLoop {
  import opened KeyEvents

  class Letters {
    /** pygame.key.name: the human-readable name of a key code. */
    const name: int -> string

    var keys: map<int, bool>
    var lastKey: int
    var key: string
    var t: real
    var done: bool
    /** How many times `display.fill(BLACK)` has run. */
    var clears: nat

    /** The fields as a KeyEvents.State value. */
    function Snapshot(): State
      reads this
    {
      State(keys, lastKey, key, t, done, clears)
    }

    /** The initial assignments before `while not done`. */
    constructor (name: int -> string)
      ensures this.name == name && Snapshot() == Init
    {
      this.name := name;
      key, keys, lastKey, t, done, clears := "", map[], 0, 1.0, false, 0;
    }

    /** One pass of the body of `for event in pygame.event.get()`. */
    method HandleEvent(e: Event)
      modifies this
      ensures Snapshot() == Step(old(Snapshot()), e, name)
    {
      match e
      case Quit =>
        done := true;
      case Other =>
      case KeyDown(k) =>
        if k == Escape {
          done := true;
        } else {
          if k !in keys {
            keys := keys[k := true];
          }
          clears := clears + 1;
          if k != Space {
            if k == lastKey {
              keys := keys[k := !keys[k]];
              t := 1.0;
            } else {
              t := 1.0;
            }
            key := if keys[k] then Upper(name(k)) else Lower(name(k));
            lastKey := k;
          }
        }
    }

    /** The `for event in pygame.event.get()` loop over one batch of events. */
    method HandleBatch(events: seq<Event>)
      modifies this
      ensures Snapshot() == Batch(old(Snapshot()), events, name)
    {
      for i := 0 to |events|
        invariant Snapshot() == Batch(old(Snapshot()), events[..i], name)
      {
        assert events[..i + 1][..i] == events[..i];
        HandleEvent(events[i]);
      }
      assert events[..|events|] == events;
    }

    /**
     * The `while not done` loop, fed one batch of events per frame from
     * `batches`; returns the number of frames run. Rendering is left out; the
     * end of each frame lowers `t` by 0.1.
     */
    method Run(batches: seq<seq<Event>>) returns (frames: nat)
      modifies this
      ensures (Snapshot(), frames) == Loop(old(Snapshot()), batches, name)
    {
      frames := 0;
      while !done && frames < |batches|
        invariant frames <= |batches|
        invariant Loop(old(Snapshot()), batches, name) ==
          (Loop(Snapshot(), batches[frames..], name).0, frames + Loop(Snapshot(), batches[frames..], name).1)
        decreases |batches| - frames
      {
        ghost var before := Snapshot();
        assert batches[frames..][0] == batches[frames];
        assert batches[frames..][1..] == batches[frames + 1..];
        HandleBatch(batches[frames]);
        t := t - TimeStep;
        assert Snapshot() == Frame(Batch(before, batches[frames], name));
        frames := frames + 1;
      }
    }
  }
}
