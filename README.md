# Wiggly Letters: the keyboard-event state machine

Wiggly Letters shows the last key typed in large type, warped by a ripple
shader. The program's only logic outside pygame and moderngl is the event
handler inside its main loop. That handler keeps five things. `keys` is a
table from key code to an "upper" flag. `last_key` is the previous key code.
`key` is the string on screen. `t` is the time parameter fed to the shader.
`done` ends the loop. Every key-down other than escape also clears the
off-screen surface (`display.fill(BLACK)`).

The project has three modules:

- `KeyEvents` (`key_events.dfy`) states the handler as values; the state is the datatype `State`.
  - `Step` is one event.
  - `Batch` is one `pygame.event.get()` batch, handled event by event.
  - `Frame` is the end-of-frame `t -= 0.1`.
  - `Loop` is the `while not done` loop over a finite sequence of batches.
- `KeyProperties` (`key_properties.dfy`) proves what these do. It covers the
  effect of each kind of event, case parity under repeated presses, the
  invariant tying the displayed string to the table, and how the loop ends.
- `MainLoop` (`main_loop.dfy`) is the source's imperative form. Class
  `Letters` has the handler's variables as fields. `HandleEvent`,
  `HandleBatch` and `Run` reassign those fields the way the source does, and
  each is proved equal to `Step`, `Batch` or `Loop`.

Modelling choices:

- Key codes are `int`. Escape is pygame's `K_ESCAPE` (27). Space is 32, the
  literal the source tests.
- Events are `Quit`, `KeyDown(k)` or `Other`. `Other` covers every event the
  loop ignores, such as mouse motion and key releases.
- `pygame.key.name` is a parameter `name: int -> string`, fixed when the
  `Letters` object is built. Nothing is assumed about it.
- `str.upper` and `str.lower` are modelled as ASCII case mapping.
- `t` is an exact `real`. It is reset to 1.0 and lowered by 0.1 per frame.
- Each dict entry in the source is `{"key": k, "upper": b}`. Its "key" field
  only repeats the map key, so the table is modelled as `map<int, bool>`.
- The display clear is counted in `clears`.

Behaviour of the code worth noting:

- `last_key` starts at 0. So the first press of key code 0 flips its new
  entry to lower case at once (`FirstPressOfCodeZero`). That is why
  `FirstPress` states the new flag as `k == Space || k != last_key`.
- A space press creates its table entry and clears the display before it is
  skipped. It changes nothing else, so A, space, A still lowers A
  (`SpaceBetween`, `ScenarioSpaceBetween`).
- For A, A, B, A the code shows lower-case A at the end. Pressing a different
  key never flips a flag (`ScenarioAABA`).
- `done` is only tested at the top of the outer loop. Events after a close or
  escape in the same batch are still handled (`StepIgnoresDone`,
  `BatchIgnoresDone`), and the frame still ends with `t -= 0.1` (`LastBatch`).

## Model

| member | source | states |
|---|---|---|
| KeyEvents.Step | wigglyletters.py:112-141 | The event dispatch for one event. It has no contract of its own; `StepEffect`, `PressFlag` and `StepConsistent` state what it does. |
| KeyEvents.Batch | wigglyletters.py:112 | The `for event in pygame.event.get()` loop: the events of one batch handled in order. It has no contract of its own; `BatchGrowsTable`, `BatchKeepsUnpressed`, `BatchDone`, `BatchTime` and `BatchConsistent` state what it does. |
| KeyEvents.Render | wigglyletters.py:134-137 | The shown string: the key name upper-cased when the flag is set, lower-cased otherwise (ASCII case mapping). It has no contract of its own; `PressFlag` and `StepConsistent` tie it to the flag. |
| KeyProperties.StepEffect | wigglyletters.py:112-141 | One event only ever adds to the table, and only at the pressed key; every other entry keeps its flag. `done` becomes "was done, or a close or escape". Every key-down except escape clears the display once. Only a typed key (not escape, not space) sets `last_key` to it, resets `t` to 1.0 and shows its name in the case of its new flag; every other event leaves all three alone. Escape never enters the table. |
| KeyEvents.Frame | wigglyletters.py:159 | The end of a frame lowers `t` and changes nothing else. |
| KeyEvents.Loop | wigglyletters.py:110-159 | The loop runs at most one frame per batch. It ends early only with `done` set. A loop that starts done runs no frame, and one that starts running runs at least one frame when given a batch. |
| KeyProperties.FirstPress | wigglyletters.py:119-130 | The first key-down of a code other than escape creates its entry. The flag is true, except that a code equal to `last_key` is flipped to false at once (space is never flipped). |
| KeyProperties.RepeatToggles | wigglyletters.py:129-133 | A typed key that has an entry flips its flag when it equals `last_key`, and otherwise leaves it. The rest of the table is unchanged. |
| KeyProperties.SpaceLeavesNoTrace | wigglyletters.py:119-127 | Space adds its own entry (upper) if missing and clears the display. `key`, `t`, `last_key`, `done` and all other flags stay as they were. |
| KeyProperties.StopOnlySetsDone | wigglyletters.py:113-117 | A close or escape sets `done` and nothing else: no entry, no clear, no change to `key`, `t` or `last_key`. |
| KeyProperties.StepIgnoresDone | wigglyletters.py:112-141 | The handler does not test `done`, so an event after a close is handled exactly as before it. |
| KeyProperties.SpaceBetween | wigglyletters.py:119-133 | A space between two key-downs leaves the second key-down's effect as it would be without the space. The only differences are space's own entry and one more clear. |
| KeyProperties.BatchGrowsTable | wigglyletters.py:112-120 | A batch never removes an entry. The only entries it adds are for keys pressed in it (escape excepted). |
| KeyProperties.BatchKeepsUnpressed | wigglyletters.py:112-130 | A batch leaves the flag of every key it does not press unchanged. |
| KeyProperties.BatchDone | wigglyletters.py:112-117 | After a batch, `done` holds exactly when it held before or the batch contains a close or an escape. |
| KeyProperties.PressFlag | wigglyletters.py:119-137 | After a typed key's key-down, its flag is: the old flag flipped if the key equals `last_key`, the old flag otherwise; for a key with no entry, true unless it equals `last_key`. The key-down sets `last_key` to the key, `t` to 1.0 and `key` to the name in the case of that flag. |
| KeyProperties.PressedTimesIsBatch | wigglyletters.py:112-141 | Pressing a key n times one after the other is the same as handling one batch of n key-downs of that key. |
| KeyProperties.CaseParity | wigglyletters.py:119-137 | Press a typed key n ≥ 1 times in a row, starting from a different `last_key`. Its flag then equals its earlier value (true if it had no entry) when n is odd, and the opposite when n is even. `last_key` is that key, `t` is 1.0, and `key` is the name in that case. |
| KeyProperties.NewKeyParity | wigglyletters.py:119-137 | A key with no entry, pressed n ≥ 1 times in a row after a different key, is upper case exactly when n is odd. `key` is then the upper-case name for odd n and the lower-case name for even n. |
| KeyProperties.InitConsistent | wigglyletters.py:104-109 | The initial values satisfy the handler invariant `Consistent`. |
| KeyProperties.StepConsistent | wigglyletters.py:112-141 | Each event keeps `Consistent`. `last_key` is never escape or space, and escape never has an entry. Once `last_key` has an entry, `key` is its name in the case of its flag. |
| KeyProperties.BatchConsistent | wigglyletters.py:112-141 | Every batch of events keeps `Consistent`. |
| KeyProperties.BatchIgnoresDone | wigglyletters.py:110-141 | Handling a batch after `done` is set gives the same state as handling it before, with `done` still set. |
| KeyProperties.OtherEventsChangeNothing | wigglyletters.py:112-115 | Events that are neither close nor key-down leave the whole state unchanged. |
| KeyProperties.BatchTime | wigglyletters.py:112-133 | After a batch, `t` is 1.0 exactly when some event of the batch is a typed key-down (not escape, not space); otherwise `t` is unchanged. |
| KeyProperties.QuietFrames | wigglyletters.py:110-159 | Give the loop n batches with no key-down and no close. It runs all n frames, leaves every other part of the state unchanged and lowers `t` by exactly 0.1·n. |
| KeyProperties.IdleFrames | wigglyletters.py:110-159 | Give the loop n batches in which no event types a key or stops the loop (space presses, releases and mouse motion allowed). It runs all n frames and ends with `t` lowered by exactly 0.1·n, with no lower bound. |
| KeyProperties.LastBatch | wigglyletters.py:110-159 | A batch with a close or escape at any position is the last one. The loop stops after that frame. Every event of the batch is handled, and the frame's `t -= 0.1` still happens. |
| KeyProperties.TypedFrameResets | wigglyletters.py:129-159 | When a typed key-down appears anywhere in a batch (for instance before its key release), the frame is drawn with `t` = 1.0 and ends with `t` = 0.9. |
| KeyProperties.FirstPressOfCodeZero | wigglyletters.py:104-137 | Since `last_key` starts at 0, the first press of key code 0 creates its entry and flips it at once, showing the lower-case name. |
| KeyProperties.ScenarioAABA | wigglyletters.py:119-141 | After A, A, B, A, the table is {A: lower, B: upper} and the lower-case name of A is shown. The display was cleared four times. |
| KeyProperties.ScenarioSpaceBetween | wigglyletters.py:119-141 | After A, space, A, the table is {A: lower, space: upper} and the lower-case name of A is shown. The display was cleared three times. |
| MainLoop.Letters.constructor | wigglyletters.py:104-109 | The fields start at `key = ""`, an empty table, `last_key = 0`, `t = 1.0`, `done = False` and no clears. |
| MainLoop.Letters.HandleEvent | wigglyletters.py:112-141 | Updating the fields in place for one event gives exactly `Step` of the old fields. |
| MainLoop.Letters.HandleBatch | wigglyletters.py:112-141 | The `for event in ...` loop gives exactly `Batch` of the old fields. |
| MainLoop.Letters.Run | wigglyletters.py:110-159 | The `while not done` loop gives exactly `Loop` of the old fields. It returns the number of frames run. |

## Left out

- Window, display, cursor and mouse setup, and the per-frame mouse sampling (wigglyletters.py:82-91, 111). These are pygame I/O.
- Font rendering, blitting and texture upload (144-149). These are foreign library calls. The model keeps only the count of display clears.
- The moderngl context, buffers, vertex array, uniforms, draw call, `display.flip`, and the vertex and fragment shader source (35-79, 93-102, 150-157). This is GPU code over floating point.
- The IEEE double rounding of `t`. `t` is an exact real, so after n idle frames it is exactly 1.0 - 0.1·n.
- How `pygame.key.name` works inside. It is an arbitrary function given as a parameter.
- Python's full Unicode `str.upper` and `str.lower`. They are replaced by ASCII case mapping.
- `print`, the `clock.tick(60)` frame pacing, `frame_num`, and the release, quit and exit at the end (139, 160-167). These are side effects with no state the handler reads.
- The event queue. pygame delivers an open-ended stream of batches. The model takes a finite sequence and stops when it runs out.
