# Ctrl + Alt + R transcription hotkey: a Dafny model

`whisper.py` is a small Windows utility. It listens to the keyboard. When
left Ctrl and left Alt are held and `r` is pressed, it starts the
whisper-faster speech-to-text engine on a fixed audio file in a background
thread. Releasing Esc stops the listener. This project models the
program's two pieces of state and proves what they guarantee:

- the **chord tracker**: the set of held modifiers (`current_keys`) and the
  key-down and key-up callbacks that update it (module `Hotkeys`). Module
  `Listener` adds how the keyboard listener feeds those callbacks a sequence
  of events and stops once the key-up callback returns False;
- the **re-entrancy guard** around a transcription run: the `transcribing`
  flag, and the argument vector handed to the engine (module
  `Transcription`).

`Wrappers` holds the `Option` type. Module-level variables become fields of
one object each (`ChordTracker.pressed`, `Transcriber.transcribing`). The
engine call is replaced by an `Outcome` parameter. `Transcriber.engineCalls`
is a ghost log of the engine invocations: each entry holds the argument vector and the
flag's value during the call.

## Model

| member | source | states |
|---|---|---|
| `Hotkeys.PressStep` | whisper.py:50-61 | a key-down fires exactly when the key is the character `r` and both left Ctrl and left Alt are held; pressing a modifier adds it and nothing else changes the set; special keys without a character do nothing |
| `Hotkeys.ReleaseStep` | whisper.py:63-68 | a key-up removes the key if it is held and leaves the set unchanged otherwise; the listener is told to stop exactly when the key is Esc |
| `Hotkeys.ModifierPressIdempotent` | whisper.py:52-55 | pressing a modifier again while it is held leaves the set unchanged, and a modifier press never fires |
| `Hotkeys.ChordTracker.constructor` | whisper.py:13 | the tracker starts with no keys held |
| `Hotkeys.ChordTracker.OnPress` | whisper.py:50-61 | keeps the invariant that only left Ctrl and left Alt are ever held; states the new set and whether a transcription was requested |
| `Hotkeys.ChordTracker.OnRelease` | whisper.py:63-68 | keeps the same invariant; the new set is the old one minus the key; returns "stop listening" exactly for Esc |
| `Listener.Listen` | whisper.py:50-68 | the positions of the key-downs that requested a transcription are strictly increasing and lie inside the event sequence |
| `Listener.ListenKeepsTracked` | whisper.py:50-65 | after any sequence of events, the held set contains only left Ctrl and left Alt |
| `Listener.ListenStopsAtEsc` | whisper.py:66-68 | the listener has stopped if and only if a release of Esc was among the events |
| `Listener.ListenIgnoresAfterStop` | whisper.py:66-68 | once the listener has stopped, further events change neither the held set nor the requests |
| `Listener.ListenFiresAt` | whisper.py:56-59 | the event at position i requests a transcription if and only if it is a press of `r`, the listener was still running, and both modifiers were held just before it |
| `Listener.HeldChordFiresEveryTime` | whisper.py:56-59 | there is no edge detection: with the chord held, n presses of `r` request n transcriptions and leave the set unchanged |
| `Listener.NoCtrlNoFire` | whisper.py:56-65 | without left Ctrl held and without a later press of it, nothing is ever requested |
| `Transcription.BuildCommand` | whisper.py:30-38 | the argument vector has length 6: engine path, audio path, `--model`, model path, `--output`, output path, in that order |
| `Transcription.BuildCommandReadsBack` | whisper.py:30-38 | an option parser reading the vector gets back exactly the model path for `--model` and the output path for `--output`, provided no earlier path is spelled like one of those flags |
| `Transcription.EngineCommandReadsBack` | whisper.py:26-38 | the command built from the hard-coded paths carries the engine path, the audio path, and the model and output paths as the values of their flags |
| `Transcription.Transcriber.constructor` | whisper.py:14 | no run is in flight at start and the engine has not been called |
| `Transcription.ReportOfByOutcome` | whisper.py:39-48 | run through the `except` clauses in their written order, each engine outcome gets its own report: success is completed, CalledProcessError reaches its own clause, any other Exception the general one, and only a BaseException outside Exception propagates after `finally`; none of them is the guard's early return |
| `Transcription.DispatchPropagatesIffUncaught` | whisper.py:43-48 | an exception propagates out of the `try` exactly when none of its `except` clauses catches it |
| `Transcription.DispatchFirstMatch` | whisper.py:43-46 | the first clause that catches the exception handles it, whatever the later clauses would do |
| `Transcription.SwappedClausesShadowProcessError` | whisper.py:43-46 | the clause order matters: because CalledProcessError is an Exception, putting `except Exception` first would hand it to the general handler |
| `Transcription.Transcriber.BeginRun` | whisper.py:18-22 | admits the request exactly when the flag was clear; either way the flag is set afterwards and the engine has not been called |
| `Transcription.Transcriber.EndRun` | whisper.py:39-48 | entered with the flag set, calls the engine exactly once with the fixed command while the flag is still set, then clears the flag whatever the outcome |
| `Transcription.Transcriber.RunTranscription` | whisper.py:16-48 | with the flag already set, returns at once without calling the engine and the flag stays set; otherwise calls the engine exactly once with the fixed command while the flag is set, and clears the flag whether the engine succeeded, raised CalledProcessError, raised another Exception, or raised a BaseException that no handler catches |
| `Transcription.OverlappingRequests` | whisper.py:16-48 | a second request that arrives while the first is inside the engine call is refused without reaching the engine; the engine runs once, the flag ends clear, and a later request is admitted again |

## Left out

- restart.py is not part of this model. It replaces the process with a new interpreter (`os.execv`); its only logic is picking a default script and slicing the argument list.
- `main` and the pynput `keyboard.Listener` set-up are OS keyboard hooking and I/O. `Listener.Listen` models only the protocol the callbacks rely on: events arrive in order and delivery stops when the key-up callback returns False.
- The hook decides which `char` a physical key reports while modifiers are held. The model takes the reported key as given.
- `subprocess.run` is an external process. It is represented only by its `Outcome`: success, CalledProcessError, another Exception, or an exception outside Exception. Its stdout and stderr are not modelled.
- `threading.Thread(...).start()` is not modelled. `OnPress` returns `fired` where the source starts a thread that calls `run_transcription`.
- Transcription.Transcriber.RunTranscription: the guard's check and set run as one indivisible step (`BeginRun`). The unsynchronised check-then-set race on `transcribing` between threads is not modelled. A request that arrives while another run is in flight is modelled as a whole call made between `BeginRun` and `EndRun`, as in `OverlappingRequests`.
- All `print` output is left out. `Report` records only which branch would have printed. The model assumes that no `print` raises. The print right after the flag is set (whisper.py:23) stands before the `try`, so if it raised, the flag would stay set and every later request would be refused.
- The hard-coded Windows paths are kept as opaque string constants.
