# Captura: recording control, frame capture and keymap, in Dafny

This project models the control logic at the heart of Captura, a Windows screen
and audio recorder, and proves properties of it. Graphics, audio, threading and
file I/O are calls into the platform; they become inputs of the model. One
Dafny module covers each part of the program:

- **Recording** (`recorder.dfy`) is the SharpAvi-based `Recorder`. It models
  how the constructor chooses the audio input and sizes its buffers, and the
  Pause/Resume/Dispose flags. It models the frame-pacing rule of the video
  loop, how the audio callback routes blocks, and the handshake between the
  two auto-reset events `videoFrameWritten` and `audioBlockWritten`. The two
  threads are atomic steps over one recorder state; the environment picks
  the interleaving. A `Recorder` class holds the same fields, and each of its
  methods moves the state exactly as the corresponding step function says.
- **DesktopDuplication** (`duplicator.dfy`) is the Desktop Duplication
  capture:
  - how the constructor and Capture turn HRESULT failures into errors;
  - the staging texture, created once and always unmapped afterwards;
  - the strided copy of the mapped texture into the frame's bitmap, a loop
    over an `array<bv8>`;
  - ReleaseFrame and Dispose.
- **Keymaps** (`keymap.dfy`) is the key-map file of the keystroke overlay.
  It parses `keys[^]=value` lines and keeps two tables: normal and caps-lock.
  Lookup takes the first match and falls back to the normal table; the
  modifier names have defaults. **FrameworkText** (`strings.dfy`) gives the
  .NET string operations this parser relies on. **WinFormsKeys** (`keys.dfy`)
  holds the `Keys` enumeration: its member names and 32-bit values.
- **WindowCapture** (`windowprovider.dfy`) is the window image provider. It
  covers:
  - the desktop bounds;
  - the output size, fixed at construction;
  - the strip of the bitmap that is cleared before stretching;
  - which failures give the repeat frame and which cancel the recording.
- **MainView** (`mainviewmodel.dfy`) is the recording state machine of the
  main view-model. It models the record, pause and power-suspend handlers,
  the guards of StartRecording and the recorder it installs, the duration
  timer, command availability and AfterRecording.
- **HotKeys** (`hotkeys.dfy`) is the hotkey table: the services, the
  defaults, Populate, RegisterAll, Reset, dispatch by id, and the
  not-registered report.
- **RecentList** (`recent.dfy`) is the list of recent items: insert at the
  top, removal on request, clear.
- **OverlayPlacement** (`resizewindow.dfy`) is the overlay editor. An
  overlay's alignment and offsets become a frame margin, and a moved frame
  writes its position back.

`Wrappers` (`wrappers.dfy`) holds `Option` and `Result`. An exception the
source throws is a `Result` error, or an outcome constructor of a result
datatype.

Three places where the model follows the code rather than a narrower reading
of it:

- **Buffer overlap.** The video loop fills the shared frame buffer *before*
  it awaits the asynchronous write of the previous frame (Recorder.cs:199-208).
  So a capture can overwrite a buffer that is still being written. The model
  keeps that order. `Recording.CaptureOverlapsPendingWrite` exhibits a run
  that does it. `Recording.AwaitBeforeSubmit` proves the discipline that does
  hold: each write is awaited before `videoFrameWritten` is set, before the
  next submission, and on exit.
- **Key-map split.** The line split is `Split('=', 2, RemoveEmptyEntries)`.
  It skips leading `=` characters and the run of `=` after the key, and the
  value keeps any later `=`. So `a==b` binds `a` to `b`, and `a=b=c` binds
  `a` to `b=c`. `FrameworkText.SplitTwo` computes exactly this.
- **Pause handshake.** Alternation of audio blocks and frames is proved for
  every interleaving without a resume. A resume resets the handshake, which
  lets two audio blocks follow each other (`Recording.ResumeCanBreakAlternation`).

## Model

| member | source | states |
|---|---|---|
| FrameworkText.Trim | src/Captura.MouseKeyHook/Keymap.cs:68 | the trimmed string is no longer than the string, and it neither starts nor ends with white space |
| FrameworkText.TrimCuts | src/Captura.MouseKeyHook/Keymap.cs:68 | the trim is an infix of the string, and every character cut off on either side is white space |
| FrameworkText.TrimOfTrimmed | src/Captura.MouseKeyHook/Keymap.cs:72 | a string with no white space at either end is its own trim |
| FrameworkText.TrimIdempotent | src/Captura.MouseKeyHook/Keymap.cs:68 | trimming twice gives the same as trimming once |
| FrameworkText.BlankIffTrimEmpty | src/Captura.MouseKeyHook/Keymap.cs:53 | a line is null-or-white-space exactly when its trim is empty |
| FrameworkText.SplitAll | src/Captura.MouseKeyHook/Keymap.cs:69 | the comma split of an enumeration string has at least one piece, and no piece holds the separator |
| FrameworkText.JoinSplitAll | src/Captura.MouseKeyHook/Keymap.cs:69 | joining the pieces with the separator gives back the string: the split loses nothing |
| FrameworkText.SplitAllFree | src/Captura.MouseKeyHook/Keymap.cs:69 | a string without the separator is its own single piece |
| FrameworkText.NonEmpty | src/Captura.MouseKeyHook/Keymap.cs:67 | keeps every non-empty piece and only pieces of the input, none of them empty |
| FrameworkText.SplitNonEmpty | src/Captura.MouseKeyHook/Keymap.cs:67 | the '+' split with RemoveEmptyEntries: every piece is non-empty and free of '+', the pieces are exactly the non-empty pieces of the plain split, and a non-empty string without '+' comes back whole |
| FrameworkText.SplitTwo | src/Captura.MouseKeyHook/Keymap.cs:56-57 | the two-piece '=' split: at most two pieces, none empty, a string without '=' whole; with two pieces the key holds no '=' and the value does not start with one |
| FrameworkText.SplitTwoShape | src/Captura.MouseKeyHook/Keymap.cs:56-57 | a line that splits in two is leading '='s, the key, at least one '=', and the value, in that order |
| FrameworkText.SplitTwoOfPair | src/Captura.MouseKeyHook/Keymap.cs:56-57 | a key without '=', a run of '=' and a value not starting with '=' split back into exactly the key and the value |
| FrameworkText.AsciiUpper | src/Captura.MouseKeyHook/Keymap.cs:69 | the case folding of ignoreCase: lower-case ASCII letters move up by 32, every other character is unchanged |
| Keymaps.MemberFrom | src/Captura.MouseKeyHook/Keymap.cs:69 | a found value belongs to a member, from index i on, whose name equals the name ignoring case; None means no such member |
| Keymaps.MemberValueSpec | src/Captura.MouseKeyHook/Keymap.cs:69 | a name has a value exactly when some member has that name ignoring case, and the value is that member's |
| Keymaps.IntLiteral | src/Captura.MouseKeyHook/Keymap.cs:69 | a string is a number exactly when it is an optional sign followed by at least one decimal digit; its value is the digits' decimal value, negated after a minus sign |
| Keymaps.IntLiteralOfDecimal | src/Captura.MouseKeyHook/Keymap.cs:69 | round trip: the decimal text of a number, bare or after '+' or '-', reads back as that number or its negation |
| Keymaps.LookupNames | src/Captura.MouseKeyHook/Keymap.cs:69 | each comma-separated piece is trimmed and looked up on its own, in order |
| Keymaps.Aggregate | src/Captura.MouseKeyHook/Keymap.cs:70 | the or of the parsed names is defined exactly when the list is non-empty and every name parsed |
| Keymaps.OrOfCovers | src/Captura.MouseKeyHook/Keymap.cs:70 | the or of key values has every bit of each value |
| Keymaps.OrOfLeast | src/Captura.MouseKeyHook/Keymap.cs:70 | every mask that holds each value holds their or: no other bit gets in |
| Keymaps.AggregateIsOr | src/Captura.MouseKeyHook/Keymap.cs:70 | when every name parsed, the aggregate is the bitwise or of all their values |
| Keymaps.ParseEnum | src/Captura.MouseKeyHook/Keymap.cs:69 | a blank name is an error |
| Keymaps.ParseEnumOfInteger | src/Captura.MouseKeyHook/Keymap.cs:69 | an integer literal parses exactly when it fits in 32 bits, to its two's complement pattern |
| Keymaps.ParseEnumOfNameList | src/Captura.MouseKeyHook/Keymap.cs:69 | any other text parses exactly when every trimmed comma-separated piece names a member, to the or of those members' values |
| Keymaps.ParseEnumOfName | src/Captura.MouseKeyHook/Keymap.cs:69 | a member name alone, in any case, parses to that member's value |
| Keymaps.ParseNames | src/Captura.MouseKeyHook/Keymap.cs:67-69 | each '+'-separated name is trimmed and parsed on its own |
| Keymaps.CombineNamesSpec | src/Captura.MouseKeyHook/Keymap.cs:67-70 | a key combination parses exactly when it has at least one name and every name parses; its value is the or of the names' values |
| Keymaps.StripCaps | src/Captura.MouseKeyHook/Keymap.cs:62-65 | the caps-lock flag is set exactly when the key part ends in '^', and the key part is the rest followed by the stripped marker |
| Keymaps.ParseLine | src/Captura.MouseKeyHook/Keymap.cs:52-81 | a line is skipped as a comment exactly when it is blank or starts with "//"; a line that does not split in two is dropped; a line is an entry exactly when it splits in two and its '+'-names combine; an entry's keys are the or of its names, its value is the trimmed value, and it is caps-locked exactly when the key part ends in '^' |
| Keymaps.ParseBindingParts | src/Captura.MouseKeyHook/Keymap.cs:62-81 | the key and value of a split line never make a comment; they make an entry exactly when the names without the marker combine, with those names' or as keys, the trimmed value and the marker's flag; otherwise the line is dropped |
| Keymaps.ParseBinding | src/Captura.MouseKeyHook/Keymap.cs:53-76 | round trip: a binding written for a member name, with or without the marker, and a trimmed value parses back to that member, that value and that table |
| Keymaps.BindingSplits | src/Captura.MouseKeyHook/Keymap.cs:53-60 | a written binding is no comment and splits into its key part and its value |
| Keymaps.ParseCombination | src/Captura.MouseKeyHook/Keymap.cs:53-76 | round trip: member names joined with '+' (as in Control+Shift=x), with or without the marker, parse back to the or of the members' values, that value and that table |
| Keymaps.KeyPartParses | src/Captura.MouseKeyHook/Keymap.cs:62-72 | the key part of a binding of one member name parses to that member for every value |
| Keymaps.MarkerAloneIsMalformed | src/Captura.MouseKeyHook/Keymap.cs:62-81 | a caps-lock marker with no key name ("^=x") leaves no names, so the line is dropped |
| Keymaps.ParseAll | src/Captura.MouseKeyHook/Keymap.cs:48-82 | every line is parsed on its own: a dropped line does not affect the others |
| Keymaps.ParseAllAppend | src/Captura.MouseKeyHook/Keymap.cs:48-82 | parsing two files one after the other is parsing each and appending |
| Keymaps.PickAppend | src/Captura.MouseKeyHook/Keymap.cs:74-76 | the table of two runs of parsed lines is the two tables appended |
| Keymaps.EntriesAppend | src/Captura.MouseKeyHook/Keymap.cs:72-76 | entries keep their file order: the table of two files is the two tables appended |
| Keymaps.PickMembership | src/Captura.MouseKeyHook/Keymap.cs:74-76 | an item is in a table exactly when some parsed line is an entry of it with that table's flag |
| Keymaps.EntriesMembership | src/Captura.MouseKeyHook/Keymap.cs:72-76 | an item is in the caps-lock (normal) table exactly when some line of the file parses to it with (without) the marker |
| Keymaps.FindFirst | src/Captura.MouseKeyHook/Keymap.cs:105-111 | List.Find finds a value exactly when some item has the key; the value is that of the first such item |
| Keymaps.NameOr | src/Captura.MouseKeyHook/Keymap.cs:25-27 | a modifier's name is the value of its first binding, or the default when it has none |
| Keymaps.Tables | src/Captura.MouseKeyHook/Keymap.cs:45-76 | the loop over the parsed lines builds exactly the normal and the caps-lock tables, in file order |
| Keymaps.Keymap.constructor | src/Captura.MouseKeyHook/Keymap.cs:114-118 | before any file is parsed the names are "Control", "Shift" and "Alt" and the tables are null |
| Keymaps.Keymap.Find | src/Captura.MouseKeyHook/Keymap.cs:101-112 | a caps-lock lookup returns the first caps-lock match, falling back to the first normal match; a plain lookup consults only the normal table; it throws exactly when a table it has to consult is null |
| Keymaps.Keymap.Init | src/Captura.MouseKeyHook/Keymap.cs:20-28 | installs both tables; each modifier is named by its first normal binding or by its own name |
| Keymaps.Keymap.Parse | src/Captura.MouseKeyHook/Keymap.cs:43-85 | the tables become the entries of the lines, in file order and split by the marker, and the modifier names follow from the normal table |
| Keymaps.Keymap.Load | src/Captura.MouseKeyHook/Keymap.cs:87-99 | an unreadable file leaves tables and names unchanged; a readable one installs its two tables and the three modifier names it defines |
| HotKeys.FromOrdinal | src/Captura.Core/Models/Hotkeys/HotKeyManager.cs:25 | the enumeration member with a given value has that value |
| HotKeys.AllServices | src/Captura.Core/Models/Hotkeys/HotKeyManager.cs:23-27 | one service per value from None up to but excluding ServiceCount, in order, and every other service |
| HotKeys.OrdinalInjective | src/Captura.Core/Models/Hotkeys/HotKeyManager.cs:25 | different services have different values |
| HotKeys.Defaults | src/Captura.Core/Models/Hotkeys/HotKeyManager.cs:97-106 | seven bindings for seven different services: the first five are active, the last two are not |
| HotKeys.DefaultBindingsDistinct | src/Captura.Core/Models/Hotkeys/HotKeyManager.cs:97-106 | no two defaults share a key and modifiers |
| HotKeys.Created | src/Captura.Core/Models/Hotkeys/HotKeyManager.cs:69-71 | one hotkey per model, in order, with that model's registration |
| HotKeys.Unregistered | src/Captura.Core/Models/Hotkeys/HotKeyManager.cs:73-74 | the list of hotkeys that failed to register is no longer than the list of hotkeys |
| HotKeys.UnregisteredMembers | src/Captura.Core/Models/Hotkeys/HotKeyManager.cs:73-74 | a hotkey is listed exactly when it is active and did not register |
| HotKeys.UnregisteredAppend | src/Captura.Core/Models/Hotkeys/HotKeyManager.cs:69-77 | the failures of two runs of hotkeys are the failures of each, appended |
| HotKeys.WithId | src/Captura.Core/Models/Hotkeys/HotKeyManager.cs:110 | keeps exactly the hotkeys that carry the id |
| HotKeys.Dispatch | src/Captura.Core/Models/Hotkeys/HotKeyManager.cs:108-114 | no hotkey with the id raises nothing; a raised service belongs to a hotkey with the id; SingleOrDefault throws exactly when two or more carry it |
| HotKeys.DistinctIdsNeverThrow | src/Captura.Core/Models/Hotkeys/HotKeyManager.cs:110 | with distinct ids at most one hotkey matches, so dispatch never throws |
| HotKeys.NoneWithId | src/Captura.Core/Models/Hotkeys/HotKeyManager.cs:110 | when no hotkey carries the id none is selected |
| HotKeys.NotRegisteredMessage | src/Captura.Core/Models/Hotkeys/HotKeyManager.cs:82-95 | the message is shown exactly when the list is non-empty, and it names every listed hotkey |
| HotKeys.MessageNamesFailures | src/Captura.Core/Models/Hotkeys/HotKeyManager.cs:82-95 | a hotkey line is in the message exactly when its hotkey failed to register, with that hotkey's service |
| HotKeys.HotKeyManager.constructor | src/Captura.Core/Models/Hotkeys/HotKeyManager.cs:15-34 | both the table and the list of failures start empty |
| HotKeys.HotKeyManager.Populate | src/Captura.Core/Models/Hotkeys/HotKeyManager.cs:65-78 | every model's hotkey is appended in order, and exactly the active unregistered ones are appended to the failures |
| HotKeys.HotKeyManager.RegisterAll | src/Captura.Core/Models/Hotkeys/HotKeyManager.cs:38-54 | populates from the stored models, or from the defaults when they cannot be read; models that deserialise to null make Populate throw NullReferenceException, with nothing changed |
| HotKeys.HotKeyManager.Dispose | src/Captura.Core/Models/Hotkeys/HotKeyManager.cs:118-137 | every hotkey is unregistered, and the saved models are the hotkeys' models in order |
| HotKeys.HotKeyManager.Reset | src/Captura.Core/Models/Hotkeys/HotKeyManager.cs:56-63 | the table becomes exactly the default hotkeys; the failures list is not cleared and only grows |
| HotKeys.HotKeyManager.ProcessHotkey | src/Captura.Core/Models/Hotkeys/HotKeyManager.cs:108-114 | the raised service (or the exception) is the dispatch of the id over the table |
| HotKeys.HotKeyManager.ShowNotRegisteredOnStartup | src/Captura.Core/Models/Hotkeys/HotKeyManager.cs:82-95 | the message shown lists the failures, and nothing is shown when there are none |
| HotKeys.ResetGivesDefaults | src/Captura.Core/Models/Hotkeys/HotKeyManager.cs:56-63 | after a reset the table holds the seven default models, in order |
| RecentList.RemoveFirst | src/Captura.Core/ViewModels/RecentViewModel.cs:66 | Collection.Remove drops one occurrence when the item is present and changes nothing otherwise |
| RecentList.RemoveFirstKeepsOrder | src/Captura.Core/ViewModels/RecentViewModel.cs:66 | removing an item leaves the items before and after it in their order |
| RecentList.RemoveFirstSplits | src/Captura.Core/ViewModels/RecentViewModel.cs:66 | the occurrence removed is the first, and the rest is the list without it |
| RecentList.AddThenRemove | src/Captura.Core/ViewModels/RecentViewModel.cs:61-66 | adding an item and removing it gives back the list |
| RecentList.RemoveAbsent | src/Captura.Core/ViewModels/RecentViewModel.cs:66 | removing an absent item changes nothing |
| RecentList.RemoveTimes | src/Captura.Core/ViewModels/RecentViewModel.cs:66 | running the subscribed handlers never lengthens the list |
| RecentList.SingleRemoveRequest | src/Captura.Core/ViewModels/RecentViewModel.cs:61-66 | an item added once and asked to be removed leaves the others as they were, in order |
| RecentList.RecentViewModel.constructor | src/Captura.Core/ViewModels/RecentViewModel.cs:27-36 | the list starts empty, and the commented-out load adds nothing |
| RecentList.RecentViewModel.Items | src/Captura.Core/ViewModels/RecentViewModel.cs:69 | the items shown are the list itself, element by element |
| RecentList.RecentViewModel.Add | src/Captura.Core/ViewModels/RecentViewModel.cs:61-67 | the item goes on top of the unchanged list, and one more removal handler is subscribed for it |
| RecentList.RecentViewModel.RemoveRequested | src/Captura.Core/ViewModels/RecentViewModel.cs:66 | each subscribed handler removes one occurrence |
| RecentList.RecentViewModel.Clear | src/Captura.Core/ViewModels/RecentViewModel.cs:71-74 | the list is empty afterwards |
| Recording.CeilDiv | Recorder.cs:66 | Math.Ceiling of a quotient: the least r with r * d >= n |
| Recording.BufferMilliseconds | Recorder.cs:65-66 | the microphone buffer holds one frame: the least whole number of milliseconds with ms * fps >= 1000 |
| Recording.AudioSetupAsWritten | Recorder.cs:49-88 | as written: -1 means no audio, and the microphone is used only when video is captured |
| Recording.AudioOnlyMicrophoneFallsBackToLoopback | Recorder.cs:55-66 | an audio-only recording from microphone 0 ends in loopback capture, because the missing writer throws |
| Recording.AudioSetup | Recorder.cs:49-88 | -1 means no audio; the microphone is used exactly when the id parses, is not -1, the frame rate is positive and no stream creation fails; its buffers are 3 of ceil(1000/fps) ms; every other case falls back to loopback |
| Recording.AudioSetupAgreesWithVideo | Recorder.cs:49-88 | whenever video is captured the corrected setup is the written one |
| Recording.ConfigOf | Recorder.cs:37-88 | the audio input is the as-written setup; the video and loopback choices and the frame interval are the parameters'; an audio stream is created exactly when video is captured and there is an audio source |
| Recording.CorrectedConfigOf | Recorder.cs:37-88 | the same configuration with the corrected audio setup |
| Recording.CorrectionOnlyWithoutVideo | Recorder.cs:49-88 | with video the two configurations are equal; where they differ, the recording is audio-only, the written one records loopback and the corrected one the microphone |
| Recording.AudioOnlyMicrophoneRecordsLoopback | Recorder.cs:55-88 | as written, an audio-only recording of microphone 0 starts the silence player and records the loopback device, with no AVI audio stream |
| Recording.FrameWait | Recorder.cs:217-218 | the wait is never negative; it is 0 or reaches exactly timestamp + interval |
| Recording.StartTimes | Recorder.cs:197-221 | one start time per cycle plus the first one |
| Recording.StartsAreSpaced | Recorder.cs:197-221 | no catch-up: each cycle starts one interval after the previous one, or when that cycle's work is done if it overran |
| Recording.ConstantRateWhenNotOverloaded | Recorder.cs:197-221 | when no cycle overruns, cycle k starts exactly k intervals after the first |
| Recording.Init | Recorder.cs:33-114 | after construction, with the as-written configuration: with video and an audio source videoFrameWritten is set and audioBlockWritten reset; the silence player plays exactly for loopback; audio records exactly with a source |
| Recording.PauseStep | Recorder.cs:151-163 | a paused recorder is unchanged; otherwise pausing suspends the video, stops the audio, pauses the player, sets IsPaused and changes nothing else |
| Recording.ResetHandshake | Recorder.cs:108-109 | the handshake restarts with videoFrameWritten set and audioBlockWritten reset; stop is untouched |
| Recording.ResumeAudio | Recorder.cs:169-183 | the player plays again if there is one, audio restarts when there is a source, the recorder is no longer paused, and nothing else changes |
| Recording.ResumeVideo | Recorder.cs:171-179 | the video thread is resumed and, with an audio source, the handshake is reset; nothing else changes |
| Recording.ResumeStep | Recorder.cs:165-185 | a running recorder is unchanged; otherwise resuming restarts the video and the audio and, with both, resets the handshake |
| Recording.StopVideoThread | Recorder.cs:127-146 | stop is signalled unless its event is closed, the thread is gone and the stop event closed; nothing else changes |
| Recording.ReleaseResources | Recorder.cs:120-148 | the player is dropped, the audio source stopped and detached, the writer closed; nothing else changes |
| Recording.ShutdownStep | Recorder.cs:120-148 | after the part of Dispose that follows the resume: player gone, audio stopped and detached, writer closed, nothing written; with video, stop signalled unless already closed, the thread gone and the stop event closed; without video the signals and the thread are untouched (DisposeStep states the whole of Dispose) |
| Recording.DisposeStep | Recorder.cs:116-149 | after Dispose: not paused, player gone, audio stopped and detached, writer closed; with video, stop signalled unless already closed, the thread gone and the stop event closed |
| Recording.DisposeIdempotent | Recorder.cs:116-149 | a second Dispose changes nothing |
| Recording.VideoFault | Recorder.cs:226-230 | a failing capture or write on a running video loop disposes on the video thread: the loop ends, the player is dropped and stop is signalled unless its event is closed, then the abort cuts Dispose short, so the audio, its handler and the writer stay as they were; no write is logged |
| Recording.DisposeAfterFault | Recorder.cs:116-149 | a later Dispose after a fault ends in the same state as a Dispose without the fault |
| Recording.ExitLoop | Recorder.cs:224 | leaving the loop awaits the last write |
| Recording.WriteFrame | Recorder.cs:215 | one frame is appended to the writer's log and its write is pending; nothing else changes |
| Recording.ScheduleNext | Recorder.cs:217-220 | the wait is never negative, the first frame is over and the loop is back at its test; nothing else changes |
| Recording.Submit | Recorder.cs:215-220 | one frame is written, the write is pending, the first frame is over and the wait is never negative |
| Recording.FillBuffer | Recorder.cs:199-201 | the timestamp is taken and the buffer refilled, overlapping a pending write exactly when one is pending; nothing else changes |
| Recording.AwaitWrite | Recorder.cs:206-207 | no write is pending any more and videoFrameWritten is set; nothing else changes |
| Recording.Capture | Recorder.cs:199-208 | capturing writes nothing and brings the loop to the rendezvous |
| Recording.VideoStep | Recorder.cs:197-221 | one pass of the loop to its next blocking point: it idles exactly when the thread is suspended or not in the loop; a frame is written exactly when one is submitted, and only at the rendezvous, after an audio block when the rendezvous is required; it exits only on stop; blocking changes nothing (VideoRendezvous, AwaitBeforeSubmit and StepKeepsLockstep state the rest) |
| Recording.AudioStep | Recorder.cs:304-321 | one call of AudioDataAvailable: nothing is delivered exactly when the handler is detached or audio is stopped; a wave block, or a block, is written on the written routes; a dropped or blocked block changes nothing, and a drop needs stop and no videoFrameWritten; after a rendezvous the two signals are exchanged (AudioRouting states the routing for every state) |
| Recording.AudioRoute | Recorder.cs:306-320 | blocks go to the wave writer exactly without video, are written at once exactly with video and loopback, and go through the rendezvous otherwise |
| Recording.AudioRouting | Recorder.cs:304-321 | without video each block goes to the wave writer; with loopback it is written at once; otherwise it is written, and audioBlockWritten set, exactly when videoFrameWritten was set, and nothing changes when it was not |
| Recording.VideoRendezvous | Recorder.cs:210-212 | the video loop waits for audio only with an audio stream and no loopback; when stop wins it leaves without writing a frame |
| Recording.InitLockstep | Recorder.cs:106-110 | with video and a rendezvous audio stream the constructed recorder satisfies the handshake invariant |
| Recording.StepKeepsLockstep | Recorder.cs:197-221 | every video step, audio block, pause and dispose keeps the writer's log alternating and the handshake invariant |
| Recording.RunKeepsLockstep | Recorder.cs:197-221 | any run of those events keeps the invariant |
| Recording.AlternationFromStart | Recorder.cs:204-216 | without a resume, the writer sees block, frame, block, frame, ..., starting with an audio block |
| Recording.ResumeCanBreakAlternation | Recorder.cs:173-181 | a pause and resume after the first block lets a second block through before any frame |
| Recording.StepKeepsPaced | Recorder.cs:199-224 | no pending write at the rendezvous, and none before the first frame, in every mode |
| Recording.AwaitBeforeSubmit | Recorder.cs:204-224 | except on the first frame the previous write is awaited before videoFrameWritten is set; a frame is submitted only with no write pending; the loop leaves with none pending |
| Recording.CaptureOverlapsPendingWrite | Recorder.cs:199-208 | the second capture refills the buffer while the first frame's write is still pending |
| Recording.Recorder.constructor | Recorder.cs:33-114 | the new recorder's state is the initial state of its parameters |
| Recording.Recorder.Pause | Recorder.cs:151-163 | the pause step on the recorder's fields |
| Recording.Recorder.Resume | Recorder.cs:165-185 | the resume step on the recorder's fields |
| Recording.Recorder.ResumeAudioSide | Recorder.cs:169-183 | the audio side of resuming on the recorder's fields |
| Recording.Recorder.ResumeVideoSide | Recorder.cs:171-179 | the video side of resuming on the recorder's fields |
| Recording.Recorder.Dispose | Recorder.cs:116-149 | resume if paused, then the shutdown: the dispose step |
| Recording.Recorder.Shutdown | Recorder.cs:120-148 | the part of Dispose after the resume, on the recorder's fields |
| Recording.Recorder.StopThread | Recorder.cs:127-146 | the video thread's part of Dispose on the recorder's fields |
| Recording.Recorder.Release | Recorder.cs:120-148 | the player, audio and writer part of Dispose on the recorder's fields |
| Recording.Recorder.RecordScreenStep | Recorder.cs:197-221 | runs the video loop to its next blocking point, as the video step says |
| Recording.Recorder.RecordScreenFails | Recorder.cs:226-230 | the fault step on the recorder's fields |
| Recording.Recorder.LeaveLoop | Recorder.cs:224 | the exit of the loop |
| Recording.Recorder.CaptureFrame | Recorder.cs:199-208 | the capture step on the recorder's fields |
| Recording.Recorder.Fill | Recorder.cs:199-201 | the timestamp and the screenshot on the recorder's fields |
| Recording.Recorder.AwaitPrevious | Recorder.cs:206-207 | the await of the previous write on the recorder's fields |
| Recording.Recorder.SubmitFrame | Recorder.cs:215-220 | the submission step on the recorder's fields |
| Recording.Recorder.StartWrite | Recorder.cs:215 | the start of the frame's write on the recorder's fields |
| Recording.Recorder.ComputeSleep | Recorder.cs:217-220 | the sleep until the next frame on the recorder's fields |
| Recording.Recorder.AudioDataAvailable | Recorder.cs:304-321 | delivers one block, as the audio step says |
| DesktopDuplication.Open | src/DesktopDuplication/DesktopDuplicator.cs:34-90 | construction succeeds exactly when every step does; a missing adapter or output has its own message; NotCurrentlyAvailable becomes the maximum-applications error and Unsupported becomes NotSupported, exactly; any other code propagates |
| DesktopDuplication.ClassifyAcquire | src/DesktopDuplication/DesktopDuplicator.cs:99-110 | a timeout, and only a timeout, gives the repeat frame; every other failure code raises "Failed to acquire next frame."; a success proceeds |
| DesktopDuplication.TimeoutIsNotAnError | src/DesktopDuplication/DesktopDuplicator.cs:103-110 | the timeout is itself a failure code, caught by the first filter |
| DesktopDuplication.ReleaseOutcome | src/DesktopDuplication/DesktopDuplicator.cs:166-179 | ReleaseFrame throws exactly on a failure code |
| DesktopDuplication.ToFrame | src/DesktopDuplication/DesktopDuplicator.cs:158 | the cursor is drawn at its desktop position minus the origin of the capture rectangle |
| DesktopDuplication.RowFits | src/DesktopDuplication/DesktopDuplicator.cs:143-148 | every row of a copy that fits lies in both the texture and the bitmap |
| DesktopDuplication.Copied | src/DesktopDuplication/DesktopDuplicator.cs:143-148 | the bitmap keeps its size |
| DesktopDuplication.CopiedAt | src/DesktopDuplication/DesktopDuplicator.cs:143-148 | byte i of row y, with y below the rows copied, is the texture's byte at y * pitch + i |
| DesktopDuplication.CopiedRow | src/DesktopDuplication/DesktopDuplicator.cs:143-148 | for each row y below the height and i below width * 4, the bitmap at y * stride + i holds the texture at y * pitch + i |
| DesktopDuplication.CopiedElsewhere | src/DesktopDuplication/DesktopDuplicator.cs:143-148 | a bitmap byte outside every copied row is unchanged |
| DesktopDuplication.CopyMemory | src/DesktopDuplication/DesktopDuplicator.cs:145-147 | n bytes of the source are written at the destination offset and nothing else changes |
| DesktopDuplication.CopyRows | src/DesktopDuplication/DesktopDuplicator.cs:143-148 | the bitmap afterwards is the row copy of the texture |
| DesktopDuplication.DesktopDuplicator.constructor | src/DesktopDuplication/DesktopDuplicator.cs:34-37 | the rectangle and the cursor choice are kept; there is no texture yet and nothing is mapped |
| DesktopDuplication.DesktopDuplicator.EnsureTexture | src/DesktopDuplication/DesktopDuplicator.cs:94-95 | a texture exists afterwards and one is created only when there was none |
| DesktopDuplication.DesktopDuplicator.Capture | src/DesktopDuplication/DesktopDuplicator.cs:92-134 | the texture is created on the first capture only; the texture is never left mapped and the Timeout is kept; repeat exactly on a timeout; acquire and release failures are raised; the frame is ready exactly when every step succeeds; a ready frame's bitmap is the row copy, and any other outcome leaves the bitmap unchanged |
| DesktopDuplication.DesktopDuplicator.ProcessFrame | src/DesktopDuplication/DesktopDuplicator.cs:136-164 | a locked bitmap receives the row copy, and a null lock copies nothing; the cursor is drawn exactly when it is included and visible |
| DesktopDuplication.DesktopDuplicator.Dispose | src/DesktopDuplication/DesktopDuplicator.cs:181-190 | Dispose never throws; the steps completed are those before the first one that throws, a missing texture being skipped, and the duplicator's other state is unchanged |
| DesktopDuplication.RequiredDisposals | src/DesktopDuplication/DesktopDuplicator.cs:185-187 | the duplication and the device are always attempted, and the texture only when it exists |
| DesktopDuplication.FirstFailure | src/DesktopDuplication/DesktopDuplicator.cs:183-189 | the number of steps that complete before the first one that throws |
| DesktopDuplication.FirstFailureIs | src/DesktopDuplication/DesktopDuplicator.cs:183-189 | that number is the only one for which all earlier steps succeed and the next one throws |
| WindowCapture.RefreshDesktopSize | src/Screna/ImageProviders/WindowProvider.cs:25-43 | the desktop has origin (0, 0); its width and height bound every screen's right and bottom edge, are never negative, and are 0 or reached by some screen |
| WindowCapture.ClearedStrip | src/Screna/ImageProviders/WindowProvider.cs:105-122 | a strip is cleared exactly when a size differs: the right strip when the widths differ, otherwise the bottom strip |
| WindowCapture.StripCompletesImage | src/Screna/ImageProviders/WindowProvider.cs:105-126 | when the stretch fills one direction, every pixel is either drawn or cleared, and never both |
| WindowCapture.BottomLeftUncleared | src/Screna/ImageProviders/WindowProvider.cs:105-122 | when both sizes differ, the pixel below the image at the left edge is neither drawn nor cleared |
| WindowCapture.WindowProvider.constructor | src/Screna/ImageProviders/WindowProvider.cs:68-75 | the output size is the window's size at construction and never changes |
| WindowCapture.WindowProvider.Create | src/Screna/ImageProviders/WindowProvider.cs:68-75 | a missing window is an ArgumentNullException; otherwise the provider takes the window's size |
| WindowCapture.WindowProvider.Capture | src/Screna/ImageProviders/WindowProvider.cs:129-147 | a dead window cancels; any other failure gives the repeat frame; otherwise the frame clears the chosen strip and draws the cursor exactly when it is included |
| WindowCapture.WindowProvider.OnCapture | src/Screna/ImageProviders/WindowProvider.cs:87-122 | a dead window fails; otherwise the strip to clear is the chosen one |
| OverlayPlacement.Place | src/Captura/ResizeWindow2.xaml.cs:30-70 | Start, Center and End map to Left, Center and Right (Top, Center, Bottom); Start and Center put the offset on the left (top) side and End on the right (bottom); the sides not assigned stay 0 |
| OverlayPlacement.PlaceRecordsOffsets | src/Captura/ResizeWindow2.xaml.cs:32-68 | the margin on the aligned side gives back the offsets, and at most one of two opposite sides is non-zero |
| OverlayPlacement.PlaceInjective | src/Captura/ResizeWindow2.xaml.cs:32-68 | different alignments or offsets give different placements |
| OverlayPlacement.Truncate | src/Captura/ResizeWindow2.xaml.cs:79-80 | the (int) cast rounds toward zero |
| OverlayPlacement.TruncateWhole | src/Captura/ResizeWindow2.xaml.cs:79-80 | a whole number survives the cast |
| OverlayPlacement.LayerFrame.Update | src/Captura/ResizeWindow2.xaml.cs:30-70 | the frame's alignments and margin are the placement of the settings |
| OverlayPlacement.PositionUpdated | src/Captura/ResizeWindow2.xaml.cs:77-81 | the truncated position is stored; size and alignment are untouched |
| OverlayPlacement.WebcamPositionUpdated | src/Captura/ResizeWindow2.xaml.cs:105-109 | the webcam overlay also stores the truncated size |
| MainView.Initial | src/Captura.Core/ViewModels/MainViewModel.cs:205-214 | the view-model starts not recording and satisfies its invariant |
| MainView.PauseToggle | src/Captura.Core/ViewModels/MainViewModel.cs:99-123 | a missing recorder throws; Paused goes to Recording with the recorder started; any other state goes to Paused with the recorder stopped |
| MainView.PauseTwiceRestores | src/Captura.Core/ViewModels/MainViewModel.cs:99-123 | toggling pause twice returns to the recording state, recorder, stopwatch and timer it started from |
| MainView.PowerModeChanged | src/Captura.Core/ViewModels/MainViewModel.cs:91-97 | only a suspend while recording pauses; anything else changes nothing |
| MainView.SuspendNeverResumes | src/Captura.Core/ViewModels/MainViewModel.cs:91-97 | a power event never resumes a paused recording or touches an idle one |
| MainView.StartGuard | src/Captura.Core/ViewModels/MainViewModel.cs:448-512 | StartRecording returns early exactly when FFmpeg is needed and missing, variable GIF meets Desktop Duplication, GIF audio is declined, the delay exceeds the duration, or the image provider fails |
| MainView.NewRecorder | src/Captura.Core/ViewModels/MainViewModel.cs:541-550 | a variable-rate GIF with a video source installs its own recorder, and the generic one is never built over it; an existing recorder is kept; otherwise a video or audio recorder, or none |
| MainView.Start | src/Captura.Core/ViewModels/MainViewModel.cs:448-572 | a refusal changes nothing but the source switch after unsupported duplication; otherwise recording with the time reset, and with a recorder the stopwatch and timer running and the recorder started unless delayed |
| MainView.AfterRecording | src/Captura.Core/ViewModels/MainViewModel.cs:583-596 | the state becomes NotRecording, the recorder is cleared, and timer and stopwatch stop |
| MainView.RecordCommand | src/Captura.Core/ViewModels/MainViewModel.cs:63-68 | record starts when not recording and stops otherwise |
| MainView.RecordWhileRecordingStops | src/Captura.Core/ViewModels/MainViewModel.cs:645-656 | pressing record while recording or paused always ends the recording and drops the recorder |
| MainView.RecordFromIdle | src/Captura.Core/ViewModels/MainViewModel.cs:448-572 | from idle, record enters Recording exactly when no guard refuses, and starts exactly when a recorder can be built |
| MainView.VfrGifTakesOver | src/Captura.Core/ViewModels/MainViewModel.cs:609-614 | with a variable GIF writer and a video source, the variable-rate GIF recorder is the one started |
| MainView.TimerElapsed | src/Captura.Core/ViewModels/MainViewModel.cs:330-341 | the shown time is the stopwatch's whole seconds; a stop is requested exactly when a duration is set and reached |
| MainView.CheckAvailability | src/Captura.Core/ViewModels/MainViewModel.cs:343-352 | record is enabled exactly when audio or video is available, screenshot exactly when video is; nothing else changes |
| MainView.ScreenShotImpliesRecord | src/Captura.Core/ViewModels/MainViewModel.cs:343-352 | whenever a screenshot can be taken a recording can be started |
| MainView.HandlersKeepValid | src/Captura.Core/ViewModels/MainViewModel.cs:91-123 | every handler keeps the invariant that ties the recording state to the recorder, the stopwatch and the timer |
| MainView.MainViewModel.constructor | src/Captura.Core/ViewModels/MainViewModel.cs:205-214 | the fields hold the initial view |
| MainView.MainViewModel.OnPauseExecute | src/Captura.Core/ViewModels/MainViewModel.cs:99-123 | the fields move as the pause toggle says, and stay unchanged when it throws |
| MainView.MainViewModel.PowerModeChangedHandler | src/Captura.Core/ViewModels/MainViewModel.cs:91-97 | the power handler on the fields |
| MainView.MainViewModel.AfterRecordingStep | src/Captura.Core/ViewModels/MainViewModel.cs:583-596 | AfterRecording on the fields |
| MainView.MainViewModel.StartRecording | src/Captura.Core/ViewModels/MainViewModel.cs:448-572 | the fields and the outcome are those of Start |
| MainView.MainViewModel.Record | src/Captura.Core/ViewModels/MainViewModel.cs:63-68 | the record command on the fields |
| MainView.MainViewModel.TimerOnElapsed | src/Captura.Core/ViewModels/MainViewModel.cs:330-341 | the timer handler on the fields |
| MainView.MainViewModel.CheckFunctionalityAvailability | src/Captura.Core/ViewModels/MainViewModel.cs:343-352 | the availability update on the fields |

## Left out

- DesktopDuplication.DesktopDuplicator.Dispose: the source keeps no disposed flag, so a Capture after Dispose runs as before; what the disposed SharpDX objects would then throw is not part of this model.
- Threads: the real threads of the recorder are left out, and so are their
  blocking waits and Thread.Abort/Suspend/Resume. Each stretch of code
  between two blocking points is one atomic step, and the interleaving is
  an input.
- Recording.DisposeStep: Dispose is one atomic step. A race between setting
  stop and aborting the thread is not modelled.
- Platform calls are inputs or left out. This covers GDI, Direct3D/DXGI,
  NAudio and SharpAvi: screen copies, stretching, texture copies, the
  silence player's audio, frame encoding, and the screenshot helpers of
  Recorder.cs:233-302.
- Pixel contents: the texture's bytes and row pitch and the bitmap's stride
  are inputs. Only the row copy into the bitmap is modelled, as a
  sequential loop, since the rows of the Parallel.For are disjoint.
- Floating point: the window scaling ratio and the resize size are left out;
  the resize size is an input. The frame interval is a whole number of
  ticks, and the writer's frame rate a whole number. Opacity and NaN sizes
  in the overlay editor are left out. Frame positions are reals, truncated
  as the cast does.
- Recording.BufferMilliseconds: the writer's decimal frame rate is taken as
  a positive whole number, so a fractional rate is not modelled.
- MouseCursor.Draw, Rectangle.Even() and the Hotkey class's registration
  with the operating system are not part of this model. They are
  represented by their inputs: the cursor position, the evened rectangle, and the id
  with its registration result.
- Persistence is reduced to whether the data could be read: the key-map
  file read, the hotkeys JSON, the recent-items file (its code is commented
  out), settings and output paths. File naming, message boxes, tray
  notifications and the clipboard are left out.
- MainView.StartGuard: the user's answers and the image provider's failure
  are inputs. The FFmpeg log reset, the region lock, minimising the window
  and the ErrorOccured subscription are left out.
- MainView.Start: the start delay is modelled only as whether the recorder
  is started at once. The delayed Task that starts it later is outside the
  model.
- MainView.RecordCommand: the stop path is AfterRecording. The asynchronous
  dispose of the old recorder and the recent-item bookkeeping of
  StopRecording are left out.
- Keymaps: Enum.Parse takes the enumeration's members as a parameter
  (`members`). The Keymap object uses the table of WinFormsKeys.Members,
  which is assumed to list the Keys members in declaration order.
- FrameworkText.AsciiUpper: case folding covers ASCII letters only. The
  culture-invariant folding of other letters is not modelled.
- Keymaps.IntLiteral: the signs are the invariant `+` and `-`; a culture's
  own sign symbols are not modelled.
- FrameworkText.StartsWith: the comment test of Keymap.cs:53 calls the
  culture-sensitive `string.StartsWith(string)`; the model compares
  characters one by one. Culture rules that treat other characters as
  equal to `//` (ignorable characters, for instance) are not modelled.
- FrameworkText.Trim: its infix property is stated by the lemma TrimCuts
  rather than in its own contract.
- HotKeys: the numeric values of ServiceName are assumed to follow the order
  None, Recording, Pause, ScreenShot, ActiveScreenShot, DesktopScreenShot,
  ToggleMouseClicks, ToggleKeystrokes, ServiceCount. The enumeration's
  source is not part of this model.
- HotKeys.HotKeyManager.Dispose: the lazily evaluated Select is modelled as
  eager. Every hotkey is unregistered even when serialising fails.
- RecentList: removal handlers are counted per item. An item is its
  identity, and reference equality is not modelled beyond that.
- Other files are not part of this model: ScreenShot.cs,
  FFmpegVideoConverter.cs, WindowSourceProvider.cs and DummyKeyRecord.cs.
  They are external processes, OS enumeration and GDI plumbing.

## Findings

| source | as written | input that shows it | evidently intended | confidence | as-written member | corrected member |
|---|---|---|---|---|---|---|
| Recorder.cs:55-68 | the microphone's buffer size reads `writer.FramesPerSecond`, but the AVI writer exists only when video is captured; in an audio-only recording this throws a NullReferenceException, which the catch turns into loopback capture | CaptureVideo false, AudioSourceId "0", 30 fps: the recording uses loopback instead of microphone 0 | an audio-only recording uses the requested microphone, with buffers of one frame's duration from the requested frame rate | medium, not executed | Recording.AudioSetupAsWritten (Recording.AudioOnlyMicrophoneFallsBackToLoopback) | Recording.AudioSetup (Recording.CorrectedConfigOf) |
