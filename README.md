# Live-video annotation core of the safety-navigation app

The app (a single Streamlit page, `app.py`) classifies live camera frames with a
pretrained image model, shows the current label, announces label changes by
speech, and can record the frames it classified into a looped GIF. This project
models the deterministic decision logic inside that page:

- **Labels** (`labels.dfy`): `load_labels`, which strips every line of the label
  file and keeps, in order, the lines that are not blank once stripped; a missing
  file gives no table at all. `str.strip()` is modelled over the characters for
  which Python's `str.isspace()` holds.
- **Naming** (`naming.dfy`): resolving a predicted class index to a name: the
  table's entry when the table is present, non-empty and long enough, else
  `class_<index>` with the index in canonical decimal.
- **Debounce** (`debounce.dfy`): one iteration of the live poller loop as a state
  machine (display, last announced label, announcements made), the loop over a
  sequence of polled values, and a reference definition of "the changes of
  consecutive label" that the loop is proved to announce.
- **LiveVideo** (`live_video.dfy`): the shared slot and frame list as a class
  `Session` whose methods are the frame callback (`OnFrame`), one poller
  iteration (`PollOnce`), a whole stream (`RunSession`, a loop over the
  sequence of atomic locked steps) and the GIF export gate (`ExportFrames`),
  each proved against the pure step functions `Ingest`, `PollShared` and
  `Replay`, about which the lemmas are stated.

The frame callback and the poller run on different threads and meet only inside
`with lock:` blocks. Each locked block is one atomic step here, and a stream is
the sequence of those steps in the order the lock admitted them. The model and
its preprocessing are one opaque function from an image to a class index, absent
when the model failed to load. Frames and images are opaque values, and the
resize applied before GIF encoding is a function parameter.

Behaviour of app.py worth noting:

- The last announced label is kept in `st.session_state["_last_live"]`. That
  storage outlives one stream, so a new stream starts with the previous stream's
  last announced label, not with none. `Session.constructor` takes that
  carried-over value as a parameter. `PollAnnouncesIffChanged` shows the effect:
  a new stream whose first label equals it does not announce that label.
- Export does not clear the frame list.
- Classification runs outside the lock. It is a pure function here, so folding
  it into the locked step changes nothing observable.
- The poller releases the lock right after reading the slot (app.py:89-90).
  Lines 91-96 then act on the local `name_v` and touch only the poller's own
  state (the display, `_last_live` and the announcements). Folding them into the
  same step as the read therefore changes nothing observable.
- The "Save GIF" button (app.py:99) is true only in the page run its click
  starts, and that run re-creates the shared frame list empty (app.py:66). So
  the encoder at app.py:102 only ever sees frames recorded during the click's
  own run, never the list of the run that showed the button.

## Model

| member | source | states |
|---|---|---|
| `Labels.LeadingSpaces` | app.py:23 | the count is within the string, every character it covers is white space, and the next one is not |
| `Labels.TrailingSpaces` | app.py:23 | the same at the back of the string |
| `Labels.Strip` | app.py:23 | the result is a slice of the line that neither starts nor ends with white space, and everything cut off before and after it is white space |
| `Labels.IsSpace` | app.py:23 | no contract of its own: the characters `str.strip()` removes, those for which Python's `str.isspace()` holds; `LeadingSpaces`, `TrailingSpaces` and `Strip` state what is cut with them |
| `Labels.StripEmptyIffBlank` | app.py:23 | a line strips to the empty string exactly when it consists of white space only |
| `Labels.StripIdempotent` | app.py:23 | stripping a stripped line changes nothing |
| `Labels.ParseLabels` | app.py:23 | there are at most as many labels as lines, and no label is empty or has leading or trailing white space |
| `Labels.ParseOneLine` | app.py:23 | one line gives its stripped text, or nothing when that is empty |
| `Labels.ParseLabelsAppend` | app.py:23 | order is kept: the labels of two concatenated line sequences are the labels of the first followed by those of the second |
| `Labels.ParseLabelsMembers` | app.py:23 | a string is a label exactly when it is non-empty and is the stripped text of some line |
| `Labels.LoadLabels` | app.py:19-24 | a missing file gives no table (not an empty one); a present file gives a table of non-empty labels no longer than the file |
| `Naming.DecimalDigits` | app.py:73 | the index is written in canonical decimal: digits only, at least one, no leading zero except for 0 itself |
| `Naming.DecimalRoundTrip` | app.py:73 | reading the decimal form back gives the index |
| `Naming.DecimalCanonical` | app.py:73 | every canonical decimal string is the decimal form of the number it denotes, so the rendering is the unique canonical one |
| `Naming.DecimalInjective` | app.py:73 | different indices have different decimal forms |
| `Naming.SyntheticName` | app.py:73 | `f"class_{idx}"`: the name is `class_` followed by canonical decimal digits that read back as the index |
| `Naming.HasTable` | app.py:73 | no contract of its own: Python's truthiness test `if labels`, a table that is present and non-empty; `ResolveName` and `NoTableFallsBack` state its effect |
| `Naming.ResolveName` | app.py:73 | with a present table and an index in range, the name is the table's entry at that index; in every other case it is `class_` followed by the canonical decimal form of the index, from which the index reads back; the lookup never goes out of range |
| `Naming.NoTableFallsBack` | app.py:116 | an absent or empty table always gives the synthetic name, on the still-image path as on the live path |
| `Naming.ResolvedNameNonEmpty` | app.py:73 | with a table produced by `load_labels`, the resolved name is never empty |
| `Naming.SyntheticNamesDistinct` | app.py:73 | two synthetic names are equal only for equal indices |
| `Debounce.Present` | app.py:91 | no contract of its own: the truthiness test `if name_v`, a value that is present and non-empty; `PollAbsentUnchanged` and `PresentLabels` state its effect |
| `Debounce.PollStep` | app.py:89-96 | no contract of its own: one iteration of the poller loop on the value read; `PollAbsentUnchanged`, `PollAnnouncesIffChanged`, `PollAudioOffSilent` and `PollIdempotent` state its behaviour |
| `Debounce.PollAbsentUnchanged` | app.py:90-91 | an absent or empty label read from the slot changes nothing: nothing shown, nothing announced, last announced unchanged |
| `Debounce.PollAnnouncesIffChanged` | app.py:91-96 | with audio on and a present label, the label is shown, one announcement of it is made exactly when it differs from the last announced label, and afterwards it is the last announced |
| `Debounce.PollAudioOffSilent` | app.py:93 | with audio off, no announcement and the last announced value untouched |
| `Debounce.PollIdempotent` | app.py:88-97 | polling the same value twice in a row has the effect of polling it once |
| `Debounce.PollTrace` | app.py:88-97 | no contract of its own: the `while ctx.state.playing` loop over the values it reads; `DebounceAnnouncesChanges`, `SilentRunWithoutAudio` and `DisplayShowsLatest` state its behaviour |
| `Debounce.PresentLabels` | app.py:91 | the labels that count are no more than the reads and none of them is empty |
| `Debounce.Changes` | app.py:94-96 | the reference "changes of consecutive label": no two neighbours equal, the first differs from the label before the run, and it ends on the run's last label |
| `Debounce.DebounceAnnouncesChanges` | app.py:88-97 | over any run with audio on, the announcements made are exactly the changes of consecutive present label, and the last announced value is the last present label read |
| `Debounce.SilentRunWithoutAudio` | app.py:93 | over any run with audio off, nothing is announced and the last announced value is untouched |
| `Debounce.DisplayShowsLatest` | app.py:91-92 | after a run, the display shows `Live: ` and the last present label read, or what it showed before |
| `Debounce.ChangesOfExample` | app.py:94-96 | the changes of A, A, A, B, B, A are A, B, A |
| `Debounce.ThreeAnnouncements` | app.py:88-97 | polling A, A, A, B, B, A from a fresh poller announces exactly three times: A, B, A |
| `LiveVideo.MapImages` | app.py:102 | the per-frame conversion keeps length and order |
| `LiveVideo.Ingest` | app.py:68-77 | no contract of its own: the state change of one callback invocation; `Session.OnFrame` is proved against it, and `ReplayFrames` and `ReplayLabel` state its effect over a stream |
| `LiveVideo.PollShared` | app.py:89-96 | no contract of its own: one poller iteration on the shared state, reading the slot and leaving the slot and frame list alone; `Session.PollOnce` is proved against it, and `ReplayPoller` states its effect over a stream |
| `LiveVideo.Replay` | app.py:67-97 | no contract of its own: a whole stream as the sequence of atomic steps; `ReplayFrames`, `ReplayLabel`, `ReplayPoller` and `NoModelNoAnnouncement` state its behaviour, and `Session.RunSession` is proved against it |
| `LiveVideo.ReplayFrames` | app.py:74-77 | the frame list is append-only: after any steps it is the old list followed by the images of the arrived frames in arrival order, when a model is loaded and recording is on, and the old list otherwise |
| `LiveVideo.ReplayLabel` | app.py:73-75 | the slot holds the name resolved for the last frame that arrived; with no model, or before any frame, it keeps its old value |
| `LiveVideo.ReplayPoller` | app.py:88-90 | the poller's part of a stream is the poller loop run over the values it read from the slot |
| `LiveVideo.NoModelNoAnnouncement` | app.py:69 | with no model, a stream that starts with an empty slot ends in its starting state: slot still empty, no frame recorded, nothing shown or announced |
| `LiveVideo.Session.constructor` | app.py:56-66 | a page run starts with the table loaded from the label file (app.py:56), an empty slot and no recorded frames (app.py:66), and the last announced value carried over from the UI session storage that app.py:94 reads |
| `LiveVideo.Session.OnFrame` | app.py:67-78 | the frame is returned unchanged; the state becomes `Ingest` of the old state: with a model the slot is overwritten with the resolved name and the image appended when recording, with none nothing changes; the frame list only grows, by one exactly when a model is loaded and recording is on; the object invariant is kept |
| `LiveVideo.Session.PollOnce` | app.py:89-96 | the poller state becomes one `PollStep` on the value read from the slot; the slot and frame list are not modified |
| `LiveVideo.Session.RunSession` | app.py:88-97 | over a stream's steps, every frame is forwarded unchanged and in order, and the state is the steps replayed |
| `LiveVideo.Session.ExportFrames` | app.py:98-102 | export is offered exactly when recording is on and frames were recorded, and then yields every recorded frame resized, in recording order; a session whose invariant holds offers an export only when a model is loaded |

## Left out

- Model loading, `preprocess`, `model.predict`, `np.argmax` and `np.max` (app.py:14-17, 26-31, 70-72, 112-115): foreign library calls and floating point. They are one opaque function from an image to a class index, or absent. The confidence value is not modelled.
- Opening and reading `labels.txt` (app.py:20-22): I/O. The file is given as its sequence of lines, or as absent.
- `speak` (app.py:33-46): it emits browser script for speech synthesis. An announcement is an entry appended to the `spoken` trace. Rate and locale are not modelled.
- Page layout, tabs, toggles, uploader, camera input and the still-image path (app.py:48-64, 104-120), apart from the name resolution at app.py:116: UI glue.
- `webrtc_streamer`, `threading.Lock` and `time.sleep` (app.py:65, 79-86, 97): threads and timing. Each locked block is one atomic step, and `ctx.state.playing` is the end of the step sequence.
- GIF encoding with `imageio.mimsave`, `Image.resize` and `copy`, and the save and download buttons (app.py:99-103): foreign library and UI. `ExportFrames` returns the frame list handed to the encoder, and `resize` is a parameter.
- Python strings are sequences of code points and so are Dafny strings. Unicode normalisation plays no part in `str.strip()`.
- Session.OnFrame: the model is a total function, so the case where `preprocess`, `predict` or `argmax` raises (app.py:70-72) is not modelled. In the source that exception leaves the callback before `with lock:` (app.py:74), the slot and frame list stay unchanged, and `return frame` (app.py:78) is not reached. The model always forwards the frame.
- Session.ExportFrames: the model calls it on the same session after `RunSession`. In the source the click on "Save GIF" reruns the page, which re-creates the frame list empty (app.py:66), so the export sees only frames recorded during that rerun. The model does not capture page reruns.
