/**
 * Properties of the keyboard-event state machine: what each kind of event
 * does, case parity under repeated presses, the invariant tying the displayed
 * string to the table, and the behaviour of the frame loop.
 */
module KeyProperties {
  import opened KeyEvents

  /**
   * What one event may change: the table only grows, and only at the pressed
   * key; done is set by a close or escape and never cleared; every key-down
   * but escape clears the display once; only a typed key moves last_key, t
   * and the displayed string, which then shows the key's name in the case of
   * its new flag.
   */
  lemma StepEffect(s: State, e: Event, name: int -> string)
    ensures var r := Step(s, e, name);
      s.keys.Keys <= r.keys.Keys &&
      (e.KeyDown? ==> AgreeExcept(s.keys, r.keys, e.key)) &&
      (!e.KeyDown? ==> r.keys == s.keys) &&
      (e.KeyDown? && e.key != Escape ==> e.key in r.keys) &&
      (Escape in r.keys ==> Escape in s.keys) &&
      r.done == (s.done || Stops(e)) &&
      r.clears == s.clears + (if e.KeyDown? && e.key != Escape then 1 else 0) &&
      (!IsTyped(e) ==> r.lastKey == s.lastKey && r.key == s.key && r.t == s.t) &&
      (IsTyped(e) ==> r.lastKey == e.key && r.t == 1.0 && r.key == Render(name, e.key, r.keys[e.key]))
  {
  }

  /** The first key-down of a code other than escape creates its entry, upper unless it repeats last_key. */
  lemma FirstPress(s: State, k: int, name: int -> string)
    requires k != Escape && k !in s.keys
    ensures k in Step(s, KeyDown(k), name).keys
    ensures Step(s, KeyDown(k), name).keys[k] == (k == Space || k != s.lastKey)
  {
  }

  /** A typed key that already has an entry flips it exactly when it repeats last_key. */
  lemma RepeatToggles(s: State, k: int, name: int -> string)
    requires k != Escape && k != Space && k in s.keys
    ensures Step(s, KeyDown(k), name).keys == s.keys[k := if k == s.lastKey then !s.keys[k] else s.keys[k]]
  {
  }

  /** Space creates its entry and clears the display, and leaves every other part of the state alone. */
  lemma SpaceLeavesNoTrace(s: State, name: int -> string)
    ensures Step(s, KeyDown(Space), name) ==
      s.(keys := if Space in s.keys then s.keys else s.keys[Space := true], clears := s.clears + 1)
  {
  }

  /** A window close or the escape key sets done and changes nothing else. */
  lemma StopOnlySetsDone(s: State, e: Event, name: int -> string)
    requires Stops(e)
    ensures Step(s, e, name) == s.(done := true)
  {
  }

  /** The handler does not look at done: a stopped state handles every event as a running one would. */
  lemma StepIgnoresDone(s: State, e: Event, name: int -> string)
    ensures Step(s.(done := true), e, name) == Step(s, e, name).(done := true)
  {
  }

  /** A space pressed between two key-downs changes nothing but its own entry and one more clear: A, space, A still toggles. */
  lemma SpaceBetween(s: State, k: int, name: int -> string)
    requires IsTyped(KeyDown(k))
    ensures var direct := Step(s, KeyDown(k), name);
      Step(Step(s, KeyDown(Space), name), KeyDown(k), name) ==
      direct.(keys := if Space in direct.keys then direct.keys else direct.keys[Space := true], clears := direct.clears + 1)
  {
    var sp := Step(s, KeyDown(Space), name);
    var direct := Step(s, KeyDown(k), name);
    var via := Step(sp, KeyDown(k), name);
    var expected := if Space in direct.keys then direct.keys else direct.keys[Space := true];
    assert via.keys == expected by {
      assert via.keys.Keys == expected.Keys;
      forall j | j in via.keys ensures via.keys[j] == expected[j] {
        if j != k && j != Space {
          assert via.keys[j] == s.keys[j];
        }
      }
    }
  }

  /** A batch with one more event is that event handled after the batch. */
  lemma BatchSnoc(s: State, es: seq<Event>, e: Event, name: int -> string)
    ensures Batch(s, es + [e], name) == Step(Batch(s, es, name), e, name)
  {
    assert (es + [e])[..|es|] == es;
  }

  /** A batch only adds entries, and only for the keys pressed in it (escape excepted). */
  lemma {:induction false} BatchGrowsTable(s: State, es: seq<Event>, name: int -> string)
    ensures s.keys.Keys <= Batch(s, es, name).keys.Keys <= s.keys.Keys + Pressed(es)
    decreases |es|
  {
    if es != [] {
      var init := es[..|es| - 1];
      BatchGrowsTable(s, init, name);
      assert es == init + [es[|es| - 1]];
      assert Pressed(init) <= Pressed(es);
    }
  }

  /** A batch leaves the flag of every key it does not press unchanged. */
  lemma {:induction false} BatchKeepsUnpressed(s: State, es: seq<Event>, j: int, name: int -> string)
    requires j in s.keys && KeyDown(j) !in es
    ensures j in Batch(s, es, name).keys && Batch(s, es, name).keys[j] == s.keys[j]
    decreases |es|
  {
    if es != [] {
      var init := es[..|es| - 1];
      assert es == init + [es[|es| - 1]];
      BatchKeepsUnpressed(s, init, j, name);
    }
  }

  /** A batch ends with done set exactly when it started so or holds a close or escape. */
  lemma {:induction false} BatchDone(s: State, es: seq<Event>, name: int -> string)
    ensures Batch(s, es, name).done <==> s.done || exists i :: 0 <= i < |es| && Stops(es[i])
    decreases |es|
  {
    if es != [] {
      var init := es[..|es| - 1];
      BatchDone(s, init, name);
      assert forall i :: 0 <= i < |init| ==> init[i] == es[i];
    }
  }

  /** `n` consecutive presses of one key. */
  function Presses(k: int, n: nat): seq<Event> {
    seq(n, _ => KeyDown(k))
  }

  /** The state after `n` presses of `k`, one after the other. */
  function PressedTimes(s: State, k: int, n: nat, name: int -> string): State {
    if n == 0 then s else Step(PressedTimes(s, k, n - 1, name), KeyDown(k), name)
  }

  /** Pressing `k` n times is handling a batch of n key-downs of `k`. */
  lemma {:induction false} PressedTimesIsBatch(s: State, k: int, n: nat, name: int -> string)
    ensures PressedTimes(s, k, n, name) == Batch(s, Presses(k, n), name)
  {
    if n > 0 {
      PressedTimesIsBatch(s, k, n - 1, name);
      assert Presses(k, n) == Presses(k, n - 1) + [KeyDown(k)];
      BatchSnoc(s, Presses(k, n - 1), KeyDown(k), name);
    } else {
      assert Presses(k, 0) == [];
    }
  }

  /**
   * Case parity: pressing a typed key `n >= 1` times in a row, starting from a
   * different last key, leaves its flag at its previous value (true for a new
   * key) when `n` is odd and at the opposite value when `n` is even, and shows
   * the key's name in that case.
   */
  lemma {:induction false} CaseParity(s: State, k: int, n: nat, name: int -> string)
    requires IsTyped(KeyDown(k)) && s.lastKey != k && n >= 1
    ensures var r := PressedTimes(s, k, n, name);
      var before := if k in s.keys then s.keys[k] else true;
      k in r.keys && r.keys[k] == (before == (n % 2 == 1)) &&
      r.lastKey == k && r.t == 1.0 && r.key == Render(name, k, r.keys[k])
  {
    var p := PressedTimes(s, k, n - 1, name);
    if n > 1 {
      CaseParity(s, k, n - 1, name);
    }
    PressFlag(p, k, name);
  }

  /** The flag a typed key has after its key-down, and what that key-down shows. */
  lemma PressFlag(p: State, k: int, name: int -> string)
    requires IsTyped(KeyDown(k))
    ensures var r := Step(p, KeyDown(k), name);
      k in r.keys &&
      r.keys[k] == (if k in p.keys then (k == p.lastKey) != p.keys[k] else k != p.lastKey) &&
      r.lastKey == k && r.t == 1.0 && r.key == Render(name, k, r.keys[k])
  {
  }

  /** A new key pressed n times is upper case exactly when n is odd. */
  lemma NewKeyParity(s: State, k: int, n: nat, name: int -> string)
    requires IsTyped(KeyDown(k)) && s.lastKey != k && k !in s.keys && n >= 1
    ensures var r := Batch(s, Presses(k, n), name);
      k in r.keys && (r.keys[k] <==> n % 2 == 1) &&
      r.key == (if n % 2 == 1 then Upper(name(k)) else Lower(name(k)))
  {
    CaseParity(s, k, n, name);
    PressedTimesIsBatch(s, k, n, name);
  }

  /**
   * The state the handler keeps: last_key is never escape or space, escape
   * never has an entry, and once last_key has an entry the displayed string is
   * its name in the case of its flag.
   */
  predicate Consistent(s: State, name: int -> string) {
    s.lastKey != Escape && s.lastKey != Space && Escape !in s.keys &&
    (s.lastKey in s.keys ==> s.key == Render(name, s.lastKey, s.keys[s.lastKey]))
  }

  lemma InitConsistent(name: int -> string)
    ensures Consistent(Init, name)
  {
  }

  lemma StepConsistent(s: State, e: Event, name: int -> string)
    requires Consistent(s, name)
    ensures Consistent(Step(s, e, name), name)
  {
  }

  /** Every batch of events keeps the handler's state consistent. */
  lemma {:induction false} BatchConsistent(s: State, es: seq<Event>, name: int -> string)
    requires Consistent(s, name)
    ensures Consistent(Batch(s, es, name), name)
    decreases |es|
  {
    if es != [] {
      BatchConsistent(s, es[..|es| - 1], name);
      StepConsistent(Batch(s, es[..|es| - 1], name), es[|es| - 1], name);
    }
  }

  /** Handling a batch after done is set is handling it as before, with done still set. */
  lemma {:induction false} BatchIgnoresDone(s: State, es: seq<Event>, name: int -> string)
    ensures Batch(s.(done := true), es, name) == Batch(s, es, name).(done := true)
    decreases |es|
  {
    if es != [] {
      BatchIgnoresDone(s, es[..|es| - 1], name);
      StepIgnoresDone(Batch(s, es[..|es| - 1], name), es[|es| - 1], name);
    }
  }

  /** A batch of events that are neither key-downs nor window closes (mouse motion, key releases, ...). */
  predicate Quiet(es: seq<Event>) {
    forall i :: 0 <= i < |es| ==> es[i].Other?
  }

  /** Events that are neither key-downs nor window closes change nothing. */
  lemma {:induction false} OtherEventsChangeNothing(s: State, es: seq<Event>, name: int -> string)
    requires Quiet(es)
    ensures Batch(s, es, name) == s
    decreases |es|
  {
    if es != [] {
      OtherEventsChangeNothing(s, es[..|es| - 1], name);
    }
  }

  /**
   * Frames whose batches hold only events that are neither key-downs nor
   * closes run to the end of the batches, change nothing, and lower `t` by
   * 0.1 each.
   */
  lemma {:induction false} QuietFrames(s: State, batches: seq<seq<Event>>, name: int -> string)
    requires !s.done
    requires forall b :: b in batches ==> Quiet(b)
    ensures Loop(s, batches, name) == (s.(t := s.t - TimeStep * |batches| as real), |batches|)
    decreases |batches|
  {
    if batches != [] {
      OtherEventsChangeNothing(s, batches[0], name);
      var s' := Frame(s);
      assert forall b :: b in batches[1..] ==> b in batches;
      QuietFrames(s', batches[1..], name);
    }
  }

  /** After a batch, `t` is 1.0 if the batch typed a key, and unchanged otherwise. */
  lemma {:induction false} BatchTime(s: State, es: seq<Event>, name: int -> string)
    ensures Batch(s, es, name).t == if (exists i :: 0 <= i < |es| && IsTyped(es[i])) then 1.0 else s.t
    decreases |es|
  {
    if es != [] {
      var init := es[..|es| - 1];
      BatchTime(s, init, name);
      StepEffect(Batch(s, init, name), es[|es| - 1], name);
      assert forall i :: 0 <= i < |init| ==> init[i] == es[i];
    }
  }

  /** A batch that types no key and holds no close or escape: space presses, releases, mouse motion, ... */
  predicate Idle(es: seq<Event>) {
    forall i :: 0 <= i < |es| ==> !IsTyped(es[i]) && !Stops(es[i])
  }

  /**
   * Between resets `t` drops by 0.1 a frame without bound: frames whose
   * batches type no key and hold no close run to the end of the batches and
   * lower `t` by 0.1 each, space presses included.
   */
  lemma {:induction false} IdleFrames(s: State, batches: seq<seq<Event>>, name: int -> string)
    requires !s.done
    requires forall b :: b in batches ==> Idle(b)
    ensures Loop(s, batches, name).1 == |batches|
    ensures Loop(s, batches, name).0.t == s.t - TimeStep * |batches| as real
    decreases |batches|
  {
    if batches != [] {
      var b0 := batches[0];
      assert b0 in batches;
      BatchTime(s, b0, name);
      BatchDone(s, b0, name);
      assert !exists i :: 0 <= i < |b0| && IsTyped(b0[i]);
      assert !exists i :: 0 <= i < |b0| && Stops(b0[i]);
      var s' := Frame(Batch(s, b0, name));
      assert !s'.done && s'.t == s.t - TimeStep;
      assert forall b :: b in batches[1..] ==> b in batches;
      IdleFrames(s', batches[1..], name);
    }
  }

  /**
   * A batch holding a close or escape is the loop's last: the loop ends after
   * that frame, having handled every event of the batch, also those after the
   * stopping one.
   */
  lemma LastBatch(s: State, batches: seq<seq<Event>>, i: nat, name: int -> string)
    requires !s.done && |batches| > 0 && i < |batches[0]| && Stops(batches[0][i])
    ensures Loop(s, batches, name) == (Frame(Batch(s, batches[0], name)), 1)
  {
    BatchDone(s, batches[0], name);
  }

  /** A frame whose batch types a key anywhere in it renders `t == 1.0` and ends with `t == 0.9`. */
  lemma TypedFrameResets(s: State, es: seq<Event>, i: nat, name: int -> string)
    requires i < |es| && IsTyped(es[i])
    ensures Batch(s, es, name).t == 1.0 && Frame(Batch(s, es, name)).t == 0.9
  {
    BatchTime(s, es, name);
  }

  /** Because last_key starts at 0, the very first press of key code 0 toggles its new entry to lower case. */
  lemma FirstPressOfCodeZero(name: int -> string)
    ensures var r := Step(Init, KeyDown(0), name);
      0 in r.keys && !r.keys[0] && r.key == Lower(name(0))
  {
  }

  /**
   * The sequence A, A, B, A (codes 97, 97, 98, 97): the second A lowers A's
   * case, B starts upper, and the last A, following B, keeps A lower.
   */
  lemma ScenarioAABA(name: int -> string)
    ensures var a, b := KeyDown(97), KeyDown(98);
      var r := Step(Step(Step(Step(Init, a, name), a, name), b, name), a, name);
      r.keys == map[97 := false, 98 := true] && r.key == Lower(name(97)) && r.lastKey == 97 && r.clears == 4
  {
    var a, b := KeyDown(97), KeyDown(98);
    var r1 := Step(Init, a, name);
    assert r1 == State(map[97 := true], 97, Upper(name(97)), 1.0, false, 1);
    var r2 := Step(r1, a, name);
    assert r2 == State(map[97 := false], 97, Lower(name(97)), 1.0, false, 2);
    var r3 := Step(r2, b, name);
    assert r3 == State(map[97 := false, 98 := true], 98, Upper(name(98)), 1.0, false, 3);
  }

  /** The sequence A, space, A: space does not break the repeat, so A ends lower case. */
  lemma ScenarioSpaceBetween(name: int -> string)
    ensures var a, sp := KeyDown(97), KeyDown(Space);
      var r := Step(Step(Step(Init, a, name), sp, name), a, name);
      r.keys == map[97 := false, Space := true] && r.key == Lower(name(97)) && r.clears == 3
  {
    var a, sp := KeyDown(97), KeyDown(Space);
    var r1 := Step(Init, a, name);
    assert r1 == State(map[97 := true], 97, Upper(name(97)), 1.0, false, 1);
    var r2 := Step(r1, sp, name);
    assert r2 == State(map[97 := true, Space := true], 97, Upper(name(97)), 1.0, false, 2);
  }
}
