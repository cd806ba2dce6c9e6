# Network-test and tanks-menu event loops

This project models the per-event state machines of two small Flipper Zero
applications, `network-test` and `tanks-menu`, and proves properties of them in Dafny.

- **network-test** lets a device take the role of radio server or client. Up chooses
  the server role and generates a 10-character string. Down chooses the client role.
  Ok, in the server role, writes the server string to the sub-GHz radio. A periodic tick
  polls the radio and stores an incoming message as the client string. Back ends the loop.
- **tanks-menu** shows a two-entry menu (single player / co-op). Up and Down swap the
  entries, Ok starts the game and Back ends the loop.

Each loop iteration runs while the state mutex is held, so one iteration is one atomic
step. Each application has two modules:

- a pure module (`NetworkTest`, `TanksMenu`). It holds the state record as a datatype,
  the step function `Next`, the run over a finite script of iterations `Run`, and the
  render decision `Render`. A frame is the sequence of canvas calls the callback makes.
  The lemmas about these functions are in the same module.
- a class module (`NetworkTestApp`, `TanksMenuApp`). Its class keeps the record's fields
  and updates them in place. Its `Step` method is one iteration and its `Loop` method is
  the `for(processing)` loop. The ensures clause of each method ties the new fields to
  the pure functions.

The shared modules are `Input` (keys, event phases, a queue receive that can time out),
`Canvas` (draw calls as values) and `CString` (bytes, NUL-terminated strings, `strlen`).

The radio worker is an input, `Radio(available, read)`, plus an output: the bytes
passed to its write, returned by the step. The values `rand()` returns in one iteration
are a supplied sequence, `RandDraws`.

Three points about the code:
- A tick polls the radio in every role: the code has no role check (`TickReceives`
  holds for any state).
- The role is kept as the source's three flags. `Inv` states the combinations they
  can reach.
- The missing `break` after Up/Down in tanks-menu falls into Right/Left. The Up/Down
  case is modelled as the toggle alone, since the Right/Left case it falls into only
  breaks. `FallthroughHarmless` states the resulting effect of Up, Down, Right and Left
  on a step.

## Model

| member | source | states |
|---|---|---|
| CString.UpToNul | applications/network-test/network-test.c:185 | the C string read from a buffer is a prefix of it, holds no NUL, and ends at a NUL byte or at the end of the buffer |
| CString.UpToNulUnique | applications/network-test/network-test.c:185 | those three properties determine the C string: any prefix that is NUL-free and followed by a NUL or the buffer end is it |
| CString.UpToNulPadded | applications/network-test/network-test.c:183-185 | zero bytes written after the data do not change the C string read back |
| CString.StrLen | applications/network-test/network-test.c:172 | `strlen` returns the index of the first NUL byte, or the length when there is none, and the prefix it measures is the C string |
| NetworkTest.ServerString | applications/network-test/network-test.c:139-147 | a generated server string has exactly 10 bytes, each between 40 and 65 |
| NetworkTest.Buffer | applications/network-test/network-test.c:183-184 | after the memset and the read, the 64-byte buffer starts with the bytes read and every later byte is 0 |
| NetworkTest.Init | applications/network-test/network-test.c:86-89 | the freshly allocated record has every flag false, so no role is chosen, and it satisfies the invariant |
| NetworkTest.PressKey | applications/network-test/network-test.c:131-178 | the key switch: only Back clears the loop flag; only Ok with isServerSet and isServer writes to the radio; no key touches the client fields; once a role is chosen no key changes the record |
| NetworkTest.Poll | applications/network-test/network-test.c:180-187 | the tick branch: only the client string and its flag can change; with data available the flag is set and the string is NUL-free and at most 64 bytes; with none the record is unchanged |
| NetworkTest.Next | applications/network-test/network-test.c:128-191 | one iteration: the loop flag clears if and only if Back is pressed; the radio is written if and only if Ok is pressed with isServerSet and isServer; once a role is chosen it, the server string and its flag stay |
| NetworkTest.Run | applications/network-test/network-test.c:122-196 | the loop over a script reports a stop if and only if the script holds a Back press, and makes no more radio writes than the script has iterations |
| NetworkTest.Render | applications/network-test/network-test.c:35-67 | the frame is empty when the mutex is not acquired; otherwise it starts with the border and has one or three draw calls |
| NetworkTest.UpChoosesServer | applications/network-test/network-test.c:132-149 | Up with no role chosen sets isServerSet, isServer and isServerStringSet; the server string is 10 bytes, each `rand() % 26 + 40`, in 40..65; the client fields are kept |
| NetworkTest.DownChoosesClient | applications/network-test/network-test.c:152-159 | Down with no role chosen sets isServerSet true and isServer false and changes nothing else |
| NetworkTest.RoleLatched | applications/network-test/network-test.c:132-159 | once a role is chosen, Up and Down leave every field unchanged |
| NetworkTest.RunStopsAtBack | applications/network-test/network-test.c:122-196 | the loop ends at the first Back press: the run over the whole script equals the run over the script cut just after it, so later iterations change no field and write nothing |
| NetworkTest.RunKeepsRole | applications/network-test/network-test.c:122-196 | over any sequence of iterations a chosen role, the server string and its flag never change |
| NetworkTest.NextPreservesInv | applications/network-test/network-test.c:128-191 | every iteration keeps isServer ⇒ isServerSet, isServer ⇔ isServerStringSet, a 10-byte server string when set, and NUL-free strings |
| NetworkTest.RunPreservesInv | applications/network-test/network-test.c:122-196 | every run from a consistent record, Init included, ends consistent |
| NetworkTest.OkSendsServerString | applications/network-test/network-test.c:164-174 | for a consistent record (every reachable one, by RunPreservesInv), the radio is written to if and only if an Ok press is handled with isServerSet and isServer; the payload is exactly the server string, 10 bytes long; Ok changes no field |
| NetworkTest.BackStops | applications/network-test/network-test.c:175-177 | Back clears the loop flag, changes no field and writes nothing |
| NetworkTest.QuietInputs | applications/network-test/network-test.c:128-191 | Right, Left, Back, every non-press key event and a queue timeout leave every field unchanged and write nothing |
| NetworkTest.TickReceives | applications/network-test/network-test.c:180-187 | a tick with data available sets the client string to the bytes read up to their first NUL and sets isClientStringSet, whatever the role (that the buffer holds zeros past the read is stated by NetworkTestApp.App.Step) |
| NetworkTest.TickIdle | applications/network-test/network-test.c:180-188 | a tick with nothing available changes nothing |
| NetworkTest.RenderServer | applications/network-test/network-test.c:44-53 | "Server" is drawn if and only if isServer and isServerStringSet hold, and then so is the server string |
| NetworkTest.RenderClient | applications/network-test/network-test.c:55-64 | "Client" is drawn if and only if isServer is false and isClientStringSet holds, whether or not a role was chosen, and then so is the client string |
| NetworkTest.RenderOneRole | applications/network-test/network-test.c:42-64 | a frame never shows both role labels |
| NetworkTestApp.GenerateServerString | applications/network-test/network-test.c:139-147 | filling `arr[0..10]` in a loop, terminating it and taking its C string yields ServerString of the drawn values |
| NetworkTestApp.ZeroBuffer | applications/network-test/network-test.c:183 | after the memset every byte of the buffer is 0 |
| NetworkTestApp.ReadInto | applications/network-test/network-test.c:184 | the read stores its bytes at the start of the buffer and leaves the rest of the buffer as it was |
| NetworkTestApp.App.constructor | applications/network-test/network-test.c:85-112 | the allocated record equals Init, and the 64-byte incoming buffer is all zeros |
| NetworkTestApp.App.Step | applications/network-test/network-test.c:122-196 | the in-place update of the record, the loop flag and the radio write are those of Next; a tick with data leaves the buffer equal to Buffer of the read, and any other iteration leaves it untouched |
| NetworkTestApp.App.Loop | applications/network-test/network-test.c:122-196 | the loop's final record, its radio writes and whether Back stopped it are those of Run |
| TanksMenu.Init | applications/tanks-menu/tanks-menu.c:78 | the menu starts on SingleMode |
| TanksMenu.Toggle | applications/tanks-menu/tanks-menu.c:108-112 | the if-chain maps SingleMode to CoopMode, CoopMode to SingleMode and GameStarting to itself, and is a bijection |
| TanksMenu.OkCase | applications/tanks-menu/tanks-menu.c:116-120 | the Ok case always leaves GameStarting |
| TanksMenu.PressKey | applications/tanks-menu/tanks-menu.c:105-124 | the key switch: only Back clears the loop flag; Right, Left and Back keep the state; no key leaves GameStarting |
| TanksMenu.Next | applications/tanks-menu/tanks-menu.c:101-129 | one iteration: the loop flag clears if and only if Back is pressed; GameStarting is never left; only Up, Down and Ok presses change the state, so non-press events and timeouts do not |
| TanksMenu.Run | applications/tanks-menu/tanks-menu.c:96-133 | the loop over a script reports a stop if and only if the script holds a Back press |
| TanksMenu.Render | applications/tanks-menu/tanks-menu.c:25-63 | the frame is empty when the mutex is not acquired; otherwise it starts with the border and the splash screen |
| TanksMenu.UpDownSwaps | applications/tanks-menu/tanks-menu.c:106-112 | Up or Down moves SingleMode to CoopMode and back, so two presses restore the entry |
| TanksMenu.FallthroughHarmless | applications/tanks-menu/tanks-menu.c:106-115 | in every state an Up or Down press swaps SingleMode and CoopMode and keeps GameStarting; Right and Left presses change nothing |
| TanksMenu.OkStarts | applications/tanks-menu/tanks-menu.c:116-120 | Ok from any state yields GameStarting |
| TanksMenu.RunStopsAtBack | applications/tanks-menu/tanks-menu.c:96-133 | the loop ends at the first Back press: the run over the whole script equals the run over the script cut just after it, so later events do not change the state |
| TanksMenu.RunStaysStarting | applications/tanks-menu/tanks-menu.c:96-133 | every run from GameStarting ends in GameStarting |
| TanksMenu.RunStartsOnOk | applications/tanks-menu/tanks-menu.c:96-133 | from a menu entry, a run reaches GameStarting if and only if an Ok press is handled before any Back press |
| TanksMenu.RenderLabels | applications/tanks-menu/tanks-menu.c:35-52 | the "Single" and "Co-op" labels are drawn if and only if the state is not GameStarting |
| TanksMenu.RenderCursor | applications/tanks-menu/tanks-menu.c:56-60 | the cursor icon is drawn at y=3 for SingleMode, at y=23 for CoopMode, and not at all for GameStarting |
| TanksMenuApp.Interface.constructor | applications/tanks-menu/tanks-menu.c:77-78 | the allocated interface starts on Init, SingleMode |
| TanksMenuApp.Interface.ToggleEntry | applications/tanks-menu/tanks-menu.c:108-112 | the in-place Up/Down body gives Toggle of the old state |
| TanksMenuApp.Interface.Step | applications/tanks-menu/tanks-menu.c:97-132 | the in-place update of `state` and the loop flag are those of Next |
| TanksMenuApp.Interface.Loop | applications/tanks-menu/tanks-menu.c:96-133 | the loop's final state and whether Back stopped it are those of Run |

## Left out

- Locking and scheduling: the mutex, the event queue, the periodic timer, `osDelay` and the interleaving of the input, timer and render callbacks are concurrency. One loop iteration is modelled as one atomic step, and a failed render lock as `None`.
- The loop runs over a finite script of received events. The device's loop runs until Back.
- GUI plumbing: view port allocation, `view_port_update`, the record registry and charge suppression are host calls with no effect on the state. Canvas primitives are modelled only as the calls made.
- Radio worker internals: allocation, the start at 433.92 MHz, stop and free belong to an asynchronous foreign worker. The model keeps only what a poll reports and what a write is given.
- Randomness: `srand(DWT->CYCCNT)` seeds from a hardware counter. The values `rand()` returns are a parameter.
- Lifecycle: the init-failure return of 255 and the shutdown and free ordering are resource handling, not state-machine behaviour.
- NetworkTest.Poll: a read that fills all 64 bytes with no NUL leaves `incomingMessage` unterminated, and `string_set` then reads past the buffer (undefined in C). The model keeps the 64 bytes read.
- NetworkTest.Init: `serverString` and `clientString` are never initialised in the source. The model starts them empty. They are only drawn or sent after being set.
- The unused `isPixel` field and the commented-out `outgoingMessage` and `yesMessage` are not modelled.
- The input service's event fields other than key and phase (such as the sequence number) are not modelled.
