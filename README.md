# playa — a verified model of the playback cursor and the key loop

playa is a terminal audio player: it takes a list of media paths, plays them
through a vlc media player and reacts to single keystrokes (next, previous,
seek, jump to a track number, progress-bar scrub, pause, quit). This project
models the core of `playa.py`:

- the `AudioPlayer` class, which keeps one mutable cursor `current_index`
  into an immutable playlist and drives the backend player;
- the keystroke loop of `main`, which maps every key to at most one
  operation of the player and ends on Ctrl-C;
- playlist ingestion in `main`: which source the track list comes from
  (standard input via `-`, then the `-f` playlist file, then the positional
  arguments, else the "No input files provided" exit) and how lines are
  stripped and blank ones dropped.

## Layout

- `wrappers.dfy` — `Option` and `Result`.
- `backend.dfy` (module `Backend`) — the vlc player as an abstract object
  (`MediaPlayer`): the media it holds, the time and length it reports, and
  the log of `stop`, `set_media`, `play`, `pause` and `set_time` commands it
  received.
- `transport.dfy` (module `Transport`) — a `Session` value (cursor plus
  backend state), the transport operations as pure transitions on it, the
  invariant `Valid` and the lemmas about them. `Find` models `str.find` for
  one character.
- `player.dfy` (module `Player`) — the class `AudioPlayer` with the field
  `currentIndex` and the backend object; each method updates them step by
  step, as the source does, and its `ensures` equates the new `Snapshot()`
  with the matching `Transport` function of the old one.
- `dispatch.dfy` (module `Dispatch`) — the key table (`Decode`), the loop
  body (`DispatchKey`), the loop (`Run`, a `while` loop with `break`), its
  specification `Replay` over a finite stream of keys, and lemmas.
- `ingest.dfy` (module `Ingest`) — Python's `str.strip()`, the line
  cleaning comprehension and the source precedence.
- `launch.dfy` (module `Launch`) — `main` end to end.

The invariant `Transport.Valid` says more than the cursor range: the backend
always holds the track under the cursor (nothing when the playlist is empty),
and every `set_media` in the backend's log loads a playlist entry and sits
between a `stop` and a `play`.

Behaviour of `playa.py` worth noting, all of it kept in the model:
- the playlist may be empty (empty standard input, or a playlist file with
  only blank lines); the player is then built anyway, nothing is played and
  the cursor stays 0;
- Ctrl-C only leaves the loop; no `stop` is sent to the backend;
- this revision has no Escape (view mode) or `?` (help) keys; they are
  ignored like any other unknown key;
- `play_song` sets `current_index` before it stops, loads and plays.

## Model

| member | source | states |
|---|---|---|
| Transport.Find | playa.py:40-41 | `str.find` of one character: -1 exactly when the key is absent, otherwise a position holding the key with no earlier occurrence |
| Transport.PlaySong | playa.py:13-20 | the play_song transition itself; its properties are stated by Transport.PlaySongSpec |
| Transport.PlaySongSpec | playa.py:13-20 | out of range: no backend call and the same cursor; in range: cursor set to the index, media set to that track, log extended by exactly stop, set_media(track), play in that order; the invariant is kept |
| Transport.Open | playa.py:7-11 | the state right after construction; its properties are stated by Transport.OpenSpec |
| Transport.OpenSpec | playa.py:7-11 | after construction the invariant holds, the cursor is 0, and the log is stop, set_media(track 0), play, or empty for an empty playlist |
| Transport.LoadsBracketedAppend | playa.py:16-20 | appending a well-bracketed stretch of commands to a well-bracketed log keeps every load between a stop and a play |
| Transport.NextSong | playa.py:22-24 | the next_song transition itself; its properties are stated by Transport.NextSongSpec |
| Transport.PrevSong | playa.py:26-28 | the prev_song transition itself; its properties are stated by Transport.PrevSongSpec |
| Transport.NextSongSpec | playa.py:22-24 | below the last track the cursor advances by one through play_song; on the last track (or an empty playlist) nothing changes |
| Transport.PrevSongSpec | playa.py:26-28 | above track 0 the cursor goes back by one through play_song; at 0 nothing changes |
| Transport.PrevUndoesNext | playa.py:22-28 | prev_song after a successful next_song returns to the same track with the same media loaded |
| Transport.JumpToSong | playa.py:34-37 | the jump_to_song transition itself; its properties are stated by Transport.JumpToSongSpec |
| Transport.JumpToSongSpec | playa.py:34-37 | jump_to_song(n) changes the state if and only if 1 <= n <= number of tracks, and then plays track n-1 |
| Transport.Seek | playa.py:30-32 | the seek transition itself, given the time the backend reports; its properties are stated by Transport.SeekSpec |
| Transport.SeekSpec | playa.py:30-32 | for any reported time, seek sends exactly one set_time to that time plus 1000 ms per second, unclamped; cursor and media unchanged; the invariant is kept |
| Transport.ProgressBarSeek | playa.py:39-46 | the progress_bar_seek transition itself, given the length the backend reports; its properties are stated by Transport.ProgressBarSeekSpec |
| Transport.TruncDiv | playa.py:43-46 | int() of a quotient: the sign follows the dividend and the magnitude is the floor of the magnitudes' quotient, so it rounds toward zero |
| Transport.ScaledTime | playa.py:43-46 | the new time of a progress key; its bounds are stated by Transport.ScaledTimeBounds and Transport.ProgressBarSeekEnds |
| Transport.ProgressBarSeekSpec | playa.py:39-46 | for any reported length: a key outside "qwertyuiop" sends nothing; a key of rank r sends one set_time to length*r/9 truncated toward zero; the invariant is kept |
| Transport.ProgressBarSeekEnds | playa.py:39-46 | for any reported length, key q seeks to 0 and key p seeks to that length |
| Transport.ScaledTimeBounds | playa.py:43-46 | for a non-negative length every progress key lands in [0, length] and a later key never lands earlier |
| Transport.PlayPause | playa.py:48-49 | the play_pause transition itself; its properties are stated by Transport.PlayPauseSpec |
| Transport.PlayPauseSpec | playa.py:48-49 | play_pause sends one pause and changes nothing else |
| Player.AudioPlayer.constructor | playa.py:7-11 | a fresh backend, cursor 0, track 0 loaded and played; the invariant holds |
| Player.AudioPlayer.PlaySong | playa.py:13-20 | the field updates and backend calls reach exactly Transport.PlaySong of the old state |
| Player.AudioPlayer.NextSong | playa.py:22-24 | reaches Transport.NextSong of the old state and keeps the invariant |
| Player.AudioPlayer.PrevSong | playa.py:26-28 | reaches Transport.PrevSong of the old state and keeps the invariant |
| Player.AudioPlayer.Seek | playa.py:30-32 | reads the backend time and reaches Transport.Seek of the old state; the cursor is untouched |
| Player.AudioPlayer.JumpToSong | playa.py:34-37 | reaches Transport.JumpToSong of the old state and keeps the invariant |
| Player.AudioPlayer.ProgressBarSeek | playa.py:39-46 | reaches Transport.ProgressBarSeek of the old state, for the length the backend reports on entry |
| Player.AudioPlayer.PlayPause | playa.py:48-49 | reaches Transport.PlayPause of the old state |
| Dispatch.DigitValue | playa.py:78-79 | int() of a digit character: the number whose digit it is |
| Dispatch.Decode | playa.py:70-88 | the key table as a value; its entries are stated by Dispatch.DecodeTable, Dispatch.DecodeDigits, Dispatch.QuitKey and Dispatch.DecodeHandled |
| Dispatch.Apply | playa.py:70-86 | the one player operation an action performs, with what the backend reports at that moment; Dispatch.ApplyValid states that it keeps the invariant |
| Dispatch.DispatchKey | playa.py:69-88 | one key performs exactly the one operation Decode assigns it, with the time and length the backend reports at that moment, and asks to break exactly for Ctrl-C |
| Dispatch.Run | playa.py:68-88 | the loop reads keys up to and including the first Ctrl-C and ends in the state Replay describes for some readings, one per key given, the first being what the backend reports on entry (the backend promises nothing about its later reports); the invariant is kept |
| Dispatch.Replay | playa.py:68-88 | whatever the backend reports, the loop quits if and only if Ctrl-C is typed, then exactly after reading the first Ctrl-C; otherwise it reads every key |
| Dispatch.DecodeTable | playa.py:70-88 | the table key by key: j next, k previous, h seek -10 s, l seek +10 s, a digit jumps, q-p scrub, space pause, Ctrl-C quit, anything else ignored |
| Dispatch.QuitKey | playa.py:87-88 | a key quits if and only if it is Ctrl-C |
| Dispatch.DecodeDigits | playa.py:78-82 | digits 1-9 jump to that track number, 0 jumps to track 10, and no other key jumps |
| Dispatch.DecodeHandled | playa.py:70-88 | a key acts if and only if it is in the table; any other key leaves the state unchanged |
| Dispatch.ApplyValid | playa.py:70-86 | every action of the table keeps the invariant |
| Dispatch.ReplayValid | playa.py:68-88 | any stream of keys keeps the cursor in range and the current track loaded |
| Dispatch.ReplayStopsAtQuit | playa.py:87-88 | keys typed after Ctrl-C are neither read nor acted on |
| Dispatch.ReplayConcat | playa.py:68-69 | reading two stretches of keys without Ctrl-C is reading one after the other |
| Dispatch.ThreeNextsStopAtLast | playa.py:70-71 | with three tracks, j j j from the start ends on the third track, whatever the backend reports |
| Dispatch.ZeroNeedsTenTracks | playa.py:78-82 | key 0 leaves the state unchanged if and only if there are fewer than ten tracks |
| Ingest.IsSpace | playa.py:57 | the characters `str.strip()` removes: exactly the characters for which Python's `str.isspace` holds |
| Ingest.StripStart | playa.py:57 | drops exactly the leading whitespace: a suffix, a blank dropped part, no leading whitespace left |
| Ingest.StripEnd | playa.py:57 | drops exactly the trailing whitespace: a prefix, a blank dropped part, no trailing whitespace left |
| Ingest.Strip | playa.py:57 | no whitespace at either end, empty if and only if the line is blank |
| Ingest.StripSlice | playa.py:57 | the stripped line is the slice of the line between a blank prefix and a blank suffix |
| Ingest.StripIdempotent | playa.py:57 | stripping twice is stripping once |
| Ingest.CleanLines | playa.py:57-59 | every kept line is non-empty, and no more lines come out than went in |
| Ingest.CleanLinesStripped | playa.py:57-59 | every kept line is already stripped |
| Ingest.CleanLinesAppend | playa.py:57-59 | cleaning splits over concatenation, so line order is kept |
| Ingest.CleanLinesKeepsNonBlank | playa.py:57-59 | every non-blank line reaches the playlist in stripped form |
| Ingest.CleanLinesFromNonBlank | playa.py:57-59 | every playlist entry is the strip of some non-blank line |
| Ingest.CleanLinesKeepsClean | playa.py:57-59 | lines that are stripped and non-empty pass through unchanged |
| Ingest.SelectPlaylist | playa.py:55-64 | the "no input" exit (status 1) happens if and only if there are no positional arguments and no playlist file |
| Ingest.StdinFirst | playa.py:56-57 | with "-" among the arguments, the playlist is standard input's lines stripped with blank ones dropped, whatever else is given |
| Ingest.FileBeforeArguments | playa.py:58-59 | without "-", a playlist file is the source, cleaned, whatever the positional arguments |
| Ingest.ArgumentsAsGiven | playa.py:60-61 | with only positional arguments, they are the playlist unchanged |
| Ingest.BlankStdinGivesEmptyPlaylist | playa.py:56-57 | standard input with only blank lines gives an empty playlist, not the exit |
| Launch.Launch | playa.py:54-88 | main exits with "no input" exactly when selection fails; otherwise the loop ends in a state satisfying the invariant, as Replay from the freshly opened player describes for some backend readings, one per key given (those after Ctrl-C are never used) |

## Left out

- The vlc library itself. The backend is an abstract object that records
  commands; `set_media` sets the media it holds, and every command is
  recorded. The time and length it reports are its own business: they change
  with playback, with a new media and with whatever the backend does to a
  `set_time` (clamping a negative one, say), so no command promises anything
  about them. The model takes them as inputs instead: `seek` and
  `progress_bar_seek` are stated for any reported time or length, and the
  key loop for any sequence of readings (`Dispatch.Reading`), one per key.
  Nothing is proved about where playback ends up after a `set_time`.
- `get_time` and `get_length` are queries and leave no entry in the log.
- `pause` is an opaque toggle; the model records that it was issued and does
  not track paused or playing.
- Transport.ScaledTime: the new time is computed with integers as
  length*rank/9 truncated toward zero; Python computes `length * (rank/9)` in
  floating point, which agrees at ranks 0 and 9 but may differ by one
  millisecond at other ranks.
- Transport.ProgressBarSeek: the same integer computation of the new time,
  for the same reason.
- Transport.ProgressBarSeekSpec: the same integer computation of the new
  time, for the same reason.
- Player.AudioPlayer.ProgressBarSeek: the same integer computation of the
  new time, for the same reason.
- Dispatch.Run: only the first reading is tied to the backend (what it
  reports on entry); the later ones are not recorded against the backend's
  state, because after any command the backend promises nothing about what
  it reports.
- Integer widths: vlc's times are 64-bit; the model uses unbounded integers.
- `readchar.readchar()`: the keys are a given finite sequence of single
  characters. When it runs out without Ctrl-C the source would block for the
  next key; `Run` returns with `quit` false.
- The `click` front end: option parsing, the `click.Path(exists=True)`
  check on positional arguments (with click's defaults it admits `-` only
  when a file of that name exists), opening the `-f` file, reading and
  decoding standard input and the file into lines, `click.echo` and
  `sys.exit`. The sources are given sequences of lines and the exit is the
  `Exit` value (status 1, message "No input files provided").
- The curses renderer, view modes, help overlay, time formatting and the
  render and input threads are not in this revision of `playa.py` and are
  not modelled.
