/**
 * The keyboard-event state machine of Wiggly Letters, as values.
 *
 * The program keeps, for its whole lifetime, a table from key code to an
 * "upper" flag, the previous key code, the string on screen, a decaying time
 * parameter `t` that drives the ripple shader, and a `done` flag that ends the
 * main loop. `Step` is what one pygame event does to that state, `Batch` what
 * one `pygame.event.get()` batch does, `Frame` the end-of-frame `t -= 0.1`, and
 * `Loop` the `while not done` loop over a finite sequence of batches.
 */
module KeyEvents {

  /** pygame's K_ESCAPE key code. */
  const Escape: int := 27
  /** The space bar's key code, tested literally in the source. */
  const Space: int := 32
  /** The amount `t` is lowered by at the end of every frame. */
  const TimeStep: real := 0.1

  /** The events the handler distinguishes; every other pygame event is `Other`. */
  datatype Event = Quit | KeyDown(key: int) | Other

  /** An event that sets `done`: a window close or the escape key. */
  predicate Stops(e: Event) {
    e.Quit? || (e.KeyDown? && e.key == Escape)
  }

  /** An event after which the whole displayed state is redrawn: a key-down other than escape and space. */
  predicate IsTyped(e: Event) {
    e.KeyDown? && e.key != Escape && e.key != Space
  }

  /**
   * The handler's variables. `keys` maps each key code pressed so far to its
   * upper-case flag; `clears` counts the `display.fill(BLACK)` calls.
   */
  datatype State = State(keys: map<int, bool>, lastKey: int, key: string, t: real, done: bool, clears: nat)

  /** The values the source assigns before entering the main loop. */
  const Init: State := State(map[], 0, "", 1.0, false, 0)

  // ASCII case mapping, standing in for Python's str.upper and str.lower.

  function UpperChar(c: char): char {
    if 'a' <= c <= 'z' then (c as int - 'a' as int + 'A' as int) as char else c
  }

  function LowerChar(c: char): char {
    if 'A' <= c <= 'Z' then (c as int - 'A' as int + 'a' as int) as char else c
  }

  function Upper(s: string): string {
    seq(|s|, i requires 0 <= i < |s| => UpperChar(s[i]))
  }

  function Lower(s: string): string {
    seq(|s|, i requires 0 <= i < |s| => LowerChar(s[i]))
  }

  /** The string shown for key `k` with case flag `upper`; `name` is pygame.key.name. */
  function Render(name: int -> string, k: int, upper: bool): string {
    if upper then Upper(name(k)) else Lower(name(k))
  }

  /** The entries of `m` other than `k` are those of `m'`, with the same flags. */
  predicate AgreeExcept(m: map<int, bool>, m': map<int, bool>, k: int) {
    (forall j :: j in m && j != k ==> j in m' && m'[j] == m[j]) &&
    (forall j :: j in m' && j != k ==> j in m)
  }

  /** What one event does to the handler's state. */
  function Step(s: State, e: Event, name: int -> string): State
  {
    match e
    case Quit => s.(done := true)
    case Other => s
    case KeyDown(k) =>
      if k == Escape then s.(done := true)
      else
        var keys := if k in s.keys then s.keys else s.keys[k := true];
        var cleared := s.(keys := keys, clears := s.clears + 1);
        if k == Space then cleared
        else
          var upper := if k == s.lastKey then !keys[k] else keys[k];
          cleared.(keys := keys[k := upper], lastKey := k, t := 1.0, key := Render(name, k, upper))
  }

  /** The key codes that have a key-down (other than escape) in `es`. */
  function Pressed(es: seq<Event>): set<int> {
    set e | e in es && e.KeyDown? && e.key != Escape :: e.key
  }

  /** One `for event in pygame.event.get()` pass: the events of `es`, in order. */
  function Batch(s: State, es: seq<Event>, name: int -> string): State
    decreases |es|
  {
    if es == [] then s else Step(Batch(s, es[..|es| - 1], name), es[|es| - 1], name)
  }

  /** The end of a frame: `t -= 0.1`, with no lower bound. */
  function Frame(s: State): (r: State)
    ensures r.t < s.t
    ensures r.(t := s.t) == s
  {
    s.(t := s.t - TimeStep)
  }

  /**
   * The `while not done` loop run over the batches the event queue delivers,
   * one batch per frame. It returns the final state and the number of frames
   * run; it stops when `done` is set or when the batches run out.
   */
  function Loop(s: State, batches: seq<seq<Event>>, name: int -> string): (r: (State, nat))
    decreases |batches|
    ensures r.1 <= |batches|
    ensures s.done ==> r == (s, 0)
    ensures r.1 == |batches| || r.0.done
    ensures !s.done && batches != [] ==> r.1 >= 1
  {
    if s.done || batches == [] then (s, 0)
    else
      var r := Loop(Frame(Batch(s, batches[0], name)), batches[1..], name);
      (r.0, r.1 + 1)
  }
}
