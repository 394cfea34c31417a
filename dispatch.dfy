/** The key loop of playa.py's main: one keystroke at a time, each mapped to
    at most one operation of the player, until Ctrl-C. The keystrokes are a
    given sequence instead of blocking reads from the terminal. */
module Dispatch {
  import opened Transport
  import opened Player

  /** What one keystroke asks for. */
  datatype Action =
    | Next
    | Prev
    | SeekBy(seconds: int)
    | Jump(num: int)
    | ProgressSeek(key: char)
    | TogglePause
    | Quit
    | Ignore

  const DigitKeys: string := "1234567890"

  /** The interrupt character Ctrl-C. */
  const CtrlC: char := '\U{3}'

  /** Every key the loop reacts to. */
  const HandledKeys: string := "jkhl" + DigitKeys + ProgressKeys + " " + [CtrlC]

  /** int() of a decimal digit character. */
  function DigitValue(key: char): (n: int)
    requires key in DigitKeys
    ensures 0 <= n <= 9 && key == ('0' as int + n) as char
  {
    key as int - '0' as int
  }

  /** The dispatch table, in the order the loop tests the keys. */
  function Decode(key: char): Action
  {
    if key == 'j' then Next
    else if key == 'k' then Prev
    else if key == 'h' then SeekBy(-10)
    else if key == 'l' then SeekBy(10)
    else if key in DigitKeys then
      var num := DigitValue(key);
      Jump(if num == 0 then 10 else num)
    else if key in ProgressKeys then ProgressSeek(key)
    else if key == ' ' then TogglePause
    else if key == CtrlC then Quit
    else Ignore
  }

  /** What the backend reports while a key is handled: get_time and
      get_length. The seek keys read them; the other keys ignore them. */
  datatype Reading = Reading(time: int, length: int)

  /** The one operation an action performs. */
  function Apply(playlist: seq<string>, s: Session, a: Action, reading: Reading): Session
  {
    match a
    case Next => NextSong(playlist, s)
    case Prev => PrevSong(playlist, s)
    case SeekBy(seconds) => Seek(s, reading.time, seconds)
    case Jump(num) => JumpToSong(playlist, s, num)
    case ProgressSeek(key) => ProgressBarSeek(s, reading.length, key)
    case TogglePause => PlayPause(s)
    case Quit => s
    case Ignore => s
  }

  /** Where a run of the loop ends: the final session, how many keys were
      read, and whether the loop was left through Ctrl-C. */
  datatype Outcome = Outcome(session: Session, consumed: nat, quit: bool)

  function Shift(o: Outcome, n: nat): Outcome
  {
    o.(consumed := o.consumed + n)
  }

  /** The loop over a finite stream of keys, key i being handled while the
      backend reports readings[i]: it reads up to and including the first
      Ctrl-C and stops there; without one it reads every key. */
  function Replay(playlist: seq<string>, s: Session, keys: seq<char>, readings: seq<Reading>): (r: Outcome)
    requires |readings| == |keys|
    ensures r.consumed <= |keys|
    ensures r.quit <==> CtrlC in keys
    ensures r.quit ==> 0 < r.consumed && keys[r.consumed - 1] == CtrlC && CtrlC !in keys[..r.consumed - 1]
    ensures !r.quit ==> r.consumed == |keys| && (keys == [] ==> r.session == s)
    decreases |keys|
  {
    if keys == [] then Outcome(s, 0, false)
    else if keys[0] == CtrlC then Outcome(s, 1, true)
    else
      assert keys == [keys[0]] + keys[1..];
      var rest := Replay(playlist, Apply(playlist, s, Decode(keys[0]), readings[0]), keys[1..], readings[1..]);
      assert rest.quit ==> keys[..rest.consumed + 1] == [keys[0]] + keys[1..][..rest.consumed];
      Shift(rest, 1)
  }

  // ---------------------------------------------------------------------
  // The loop itself
  // ---------------------------------------------------------------------

  /** The body of the loop for one key: at most one operation of the
      player, reading what the backend reports at that moment; quit tells
      the loop to break. */
  method DispatchKey(p: AudioPlayer, key: char) returns (quit: bool)
    requires p.Valid()
    modifies p, p.player
    ensures p.Valid()
    ensures quit == (Decode(key) == Quit)
    ensures p.Snapshot()
         == Apply(p.playlist, old(p.Snapshot()), Decode(key), Reading(old(p.player.time), old(p.player.length)))
  {
    quit := false;
    DecodeTable(key);
    if key == 'j' {
      p.NextSong();
    } else if key == 'k' {
      p.PrevSong();
    } else if key == 'h' {
      p.Seek(-10);
    } else if key == 'l' {
      p.Seek(10);
    } else if key in DigitKeys {
      var num := DigitValue(key);
      if num == 0 {
        num := 10;
      }
      p.JumpToSong(num);
    } else if key in ProgressKeys {
      p.ProgressBarSeek(key);
    } else if key == ' ' {
      p.PlayPause();
    } else if key == CtrlC {
      quit := true;
    }
  }

  /** Decode, branch by branch of the loop body. */
  lemma DecodeTable(key: char)
    ensures key == 'j' ==> Decode(key) == Next
    ensures key == 'k' ==> Decode(key) == Prev
    ensures key == 'h' ==> Decode(key) == SeekBy(-10)
    ensures key == 'l' ==> Decode(key) == SeekBy(10)
    ensures key in DigitKeys ==> Decode(key) == Jump(if key == '0' then 10 else DigitValue(key))
    ensures key !in DigitKeys && key in ProgressKeys ==> Decode(key) == ProgressSeek(key)
    ensures key == ' ' ==> Decode(key) == TogglePause
    ensures key == CtrlC ==> Decode(key) == Quit
    ensures key !in HandledKeys ==> Decode(key) == Ignore
  {
  }

  /** Reads keys until Ctrl-C or until the stream is exhausted (where the
      source would block waiting for the next key). The ghost readings are
      what the backend reported while each key was handled: the first is
      what it reports on entry; the later ones follow commands after which
      the backend promises nothing about its reports. */
  method Run(p: AudioPlayer, keys: seq<char>) returns (consumed: nat, quit: bool, ghost readings: seq<Reading>)
    requires p.Valid()
    modifies p, p.player
    ensures p.Valid() && |readings| == |keys|
    ensures |keys| > 0 ==> readings[0] == Reading(old(p.player.time), old(p.player.length))
    ensures Outcome(p.Snapshot(), consumed, quit) == Replay(p.playlist, old(p.Snapshot()), keys, readings)
  {
    consumed, quit := 0, false;
    ghost var s0 := p.Snapshot();
    ghost var seen: seq<Reading> := [];
    while consumed < |keys|
      invariant consumed <= |keys| && |seen| == consumed
      invariant p.Valid()
      invariant CtrlC !in keys[..consumed]
      invariant consumed == 0 ==> p.player.time == old(p.player.time) && p.player.length == old(p.player.length)
      invariant consumed > 0 ==> seen[0] == Reading(old(p.player.time), old(p.player.length))
      invariant Replay(p.playlist, s0, keys[..consumed], seen) == Outcome(p.Snapshot(), consumed, false)
    {
      var key := keys[consumed];
      ghost var reading := Reading(p.player.time, p.player.length);
      ghost var before := p.Snapshot();
      quit := DispatchKey(p, key);
      QuitKey(key);
      if quit {
        readings := seen + [reading] + seq(|keys| - consumed - 1, _ => Reading(0, 0));
        ReplayQuitAt(p.playlist, s0, keys, consumed, seen, readings);
        consumed := consumed + 1;
        break;
      }
      ReplayExtend(p.playlist, s0, keys[..consumed], key, seen, reading, before);
      assert keys[..consumed + 1] == keys[..consumed] + [key];
      seen := seen + [reading];
      consumed := consumed + 1;
    }
    if !quit {
      readings := seen;
      assert keys[..consumed] == keys;
    }
  }

  // ---------------------------------------------------------------------
  // Lemmas
  // ---------------------------------------------------------------------

  /** One more key that is not Ctrl-C extends a run without Ctrl-C by the
      action of that key. */
  lemma ReplayExtend(playlist: seq<string>, s: Session, prefix: seq<char>, key: char,
                     seen: seq<Reading>, reading: Reading, before: Session)
    requires CtrlC !in prefix && key != CtrlC && |seen| == |prefix|
    requires Replay(playlist, s, prefix, seen) == Outcome(before, |prefix|, false)
    ensures Replay(playlist, s, prefix + [key], seen + [reading])
         == Outcome(Apply(playlist, before, Decode(key), reading), |prefix| + 1, false)
  {
    ReplayConcat(playlist, s, prefix, [key], seen, [reading]);
    var after := Apply(playlist, before, Decode(key), reading);
    assert Replay(playlist, before, [key], [reading]) == Shift(Replay(playlist, after, [], []), 1);
  }

  /** A run that meets its first Ctrl-C at position i ends there, in the
      state reached before it. */
  lemma ReplayQuitAt(playlist: seq<string>, s: Session, keys: seq<char>, i: nat,
                     seen: seq<Reading>, readings: seq<Reading>)
    requires i < |keys| && keys[i] == CtrlC && CtrlC !in keys[..i]
    requires |readings| == |keys| && |seen| == i && readings[..i] == seen
    ensures Replay(playlist, s, keys, readings)
         == Outcome(Replay(playlist, s, keys[..i], seen).session, i + 1, true)
  {
    assert keys == keys[..i] + [CtrlC] + keys[i + 1..];
    ReplayStopsAtQuit(playlist, s, keys[..i], keys[i + 1..], readings);
  }

  /** Only Ctrl-C decodes to Quit. */
  lemma QuitKey(key: char)
    ensures Decode(key) == Quit <==> key == CtrlC
  {
  }

  /** Digits 1-9 jump to that track number and 0 jumps to track 10; no
      other key jumps. */
  lemma DecodeDigits(key: char)
    ensures Decode(key).Jump? <==> '0' <= key <= '9'
    ensures '1' <= key <= '9' ==> Decode(key) == Jump(key as int - '0' as int)
    ensures Decode('0') == Jump(10)
  {
  }

  /** Exactly the keys of the table act; every other key is ignored and
      leaves the session as it was. */
  lemma DecodeHandled(playlist: seq<string>, s: Session, key: char, reading: Reading)
    ensures Decode(key) != Ignore <==> key in HandledKeys
    ensures key !in HandledKeys ==> Apply(playlist, s, Decode(key), reading) == s
  {
  }

  /** Every action keeps the player's invariant, whatever the backend
      reports. */
  lemma ApplyValid(playlist: seq<string>, s: Session, a: Action, reading: Reading)
    requires Valid(playlist, s)
    ensures Valid(playlist, Apply(playlist, s, a, reading))
  {
    match a
    case Next => NextSongSpec(playlist, s);
    case Prev => PrevSongSpec(playlist, s);
    case SeekBy(seconds) => SeekSpec(playlist, s, reading.time, seconds);
    case Jump(num) => JumpToSongSpec(playlist, s, num);
    case ProgressSeek(key) => ProgressBarSeekSpec(playlist, s, reading.length, key);
    case TogglePause => PlayPauseSpec(playlist, s);
    case Quit =>
    case Ignore =>
  }

  /** Any stream of keys keeps the invariant: the cursor never leaves the
      playlist and the backend always holds the track under it. */
  lemma {:induction false} ReplayValid(playlist: seq<string>, s: Session, keys: seq<char>, readings: seq<Reading>)
    requires Valid(playlist, s) && |readings| == |keys|
    ensures Valid(playlist, Replay(playlist, s, keys, readings).session)
    decreases |keys|
  {
    if keys != [] && keys[0] != CtrlC {
      ApplyValid(playlist, s, Decode(keys[0]), readings[0]);
      ReplayValid(playlist, Apply(playlist, s, Decode(keys[0]), readings[0]), keys[1..], readings[1..]);
    }
  }

  /** Nothing typed after Ctrl-C is read or acted on. */
  lemma {:induction false} ReplayStopsAtQuit(playlist: seq<string>, s: Session, before: seq<char>, after: seq<char>,
                                             readings: seq<Reading>)
    requires CtrlC !in before && |readings| == |before| + 1 + |after|
    ensures Replay(playlist, s, before + [CtrlC] + after, readings)
         == Outcome(Replay(playlist, s, before, readings[..|before|]).session, |before| + 1, true)
    decreases |before|
  {
    var keys := before + [CtrlC] + after;
    if before == [] {
      assert keys[0] == CtrlC;
    } else {
      assert keys[0] == before[0] != CtrlC;
      assert keys[1..] == before[1..] + [CtrlC] + after;
      assert readings[..|before|][1..] == readings[1..][..|before| - 1];
      var s1 := Apply(playlist, s, Decode(before[0]), readings[0]);
      ReplayStopsAtQuit(playlist, s1, before[1..], after, readings[1..]);
    }
  }

  /** Reading two stretches of keys without Ctrl-C is reading one after the
      other. */
  lemma {:induction false} ReplayConcat(playlist: seq<string>, s: Session, first: seq<char>, second: seq<char>,
                                        firstReadings: seq<Reading>, secondReadings: seq<Reading>)
    requires CtrlC !in first && |firstReadings| == |first| && |secondReadings| == |second|
    ensures Replay(playlist, s, first + second, firstReadings + secondReadings)
         == Shift(Replay(playlist, Replay(playlist, s, first, firstReadings).session, second, secondReadings), |first|)
    decreases |first|
  {
    if first == [] {
      assert first + second == second;
      assert firstReadings + secondReadings == secondReadings;
    } else {
      var both := first + second;
      var all := firstReadings + secondReadings;
      assert both[0] == first[0] != CtrlC;
      assert both[1..] == first[1..] + second;
      assert all[0] == firstReadings[0] && all[1..] == firstReadings[1..] + secondReadings;
      assert CtrlC !in first[1..];
      var s1 := Apply(playlist, s, Decode(first[0]), firstReadings[0]);
      assert Replay(playlist, s, both, all) == Shift(Replay(playlist, s1, both[1..], all[1..]), 1);
      assert Replay(playlist, s, first, firstReadings) == Shift(Replay(playlist, s1, first[1..], firstReadings[1..]), 1);
      ReplayConcat(playlist, s1, first[1..], second, firstReadings[1..], secondReadings);
    }
  }

  /** Three tracks, starting on the first: j j j ends on the third, the third
      j being a no-op at the boundary. */
  lemma ThreeNextsStopAtLast(playlist: seq<string>, readings: seq<Reading>)
    requires |playlist| == 3 && |readings| == 3
    ensures Replay(playlist, Open(playlist), "jjj", readings).session.index == 2
  {
    var s0 := Open(playlist);
    var s1 := NextSong(playlist, s0);
    var s2 := NextSong(playlist, s1);
    var s3 := NextSong(playlist, s2);
    assert s3.index == 2 by {
      OpenSpec(playlist);
      NextSongSpec(playlist, s0);
      NextSongSpec(playlist, s1);
      NextSongSpec(playlist, s2);
    }
    assert Replay(playlist, s0, "jjj", readings).session == s3 by {
      DecodeTable('j');
      assert "jjj"[1..] == "jj" && "jj"[1..] == "j";
      ReplayStep(playlist, s0, "jjj", readings);
      ReplayStep(playlist, s1, "jj", readings[1..]);
      ReplayStep(playlist, s2, "j", readings[2..]);
    }
  }

  /** One key that is not Ctrl-C: act on it, then read the rest. */
  lemma ReplayStep(playlist: seq<string>, s: Session, keys: seq<char>, readings: seq<Reading>)
    requires |readings| == |keys| && keys != [] && keys[0] != CtrlC
    ensures Replay(playlist, s, keys, readings)
         == Shift(Replay(playlist, Apply(playlist, s, Decode(keys[0]), readings[0]), keys[1..], readings[1..]), 1)
  {
  }

  /** With fewer than ten tracks the key 0 (track 10) changes nothing. */
  lemma ZeroNeedsTenTracks(playlist: seq<string>, s: Session, reading: Reading)
    requires Valid(playlist, s)
    ensures Replay(playlist, s, "0", [reading]).session == s <==> |playlist| < 10
  {
    JumpToSongSpec(playlist, s, 10);
    assert "0"[1..] == [];
  }
}
