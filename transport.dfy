/** The transport operations of the player (playa.py, class AudioPlayer) as
    pure transitions on a Session: the playback cursor, the media the backend
    holds and the commands sent to it. The times the backend reports are
    inputs to the operations that read them, never part of the state. The
    class in module Player performs the same operations step by step and is
    proved equal to these functions. */
module Transport {
  import opened Wrappers
  import opened Backend

  /** The cursor into the playlist, the media the backend holds and the
      commands it was sent. */
  datatype Session = Session(index: int, media: Option<string>, log: seq<Call>)

  /** The ten progress-bar keys, in rank order. */
  const ProgressKeys: string := "qwertyuiop"

  /** str.find for a single character: the first position of c in s, or -1. */
  function Find(s: string, c: char): (r: int)
    ensures -1 <= r < |s|
    ensures r == -1 <==> c !in s
    ensures 0 <= r ==> s[r] == c && c !in s[..r]
  {
    if s == [] then -1
    else if s[0] == c then 0
    else
      var k := Find(s[1..], c);
      assert s == [s[0]] + s[1..];
      if k == -1 then -1
      else
        assert s[..k + 1] == [s[0]] + s[1..][..k];
        k + 1
  }

  /** Python's int() of a quotient: division truncating toward zero. */
  function TruncDiv(n: int, d: int): (q: int)
    requires d > 0
    ensures (n >= 0 ==> q >= 0) && (n <= 0 ==> q <= 0)
    ensures var a := if q < 0 then -q else q;
      var m := if n < 0 then -n else n;
      a * d <= m < a * d + d
  {
    if n >= 0 then n / d else -((-n) / d)
  }

  /** The time a progress-bar key of the given rank seeks to: length * rank / 9,
      truncated toward zero. */
  function ScaledTime(length: int, rank: int): int
  {
    TruncDiv(length * rank, |ProgressKeys| - 1)
  }

  // ---------------------------------------------------------------------
  // The invariant
  // ---------------------------------------------------------------------

  /** The cursor is never negative; it is inside the playlist when there is
      one and stays 0 when the playlist is empty. */
  predicate CursorInRange(playlist: seq<string>, index: int)
  {
    0 <= index && (if |playlist| == 0 then index == 0 else index < |playlist|)
  }

  /** Every set_media in the log loads a playlist entry, comes right after a
      stop and right before a play. */
  predicate LoadsBracketed(playlist: seq<string>, log: seq<Call>)
  {
    forall k :: 0 <= k < |log| && log[k].SetMedia? ==>
      0 < k < |log| - 1 && log[k - 1] == Stop && log[k + 1] == Play && log[k].path in playlist
  }

  /** The invariant every operation keeps: the cursor is in range, the
      backend holds the track under the cursor (nothing when the playlist is
      empty), and every load was bracketed by stop and play. */
  predicate Valid(playlist: seq<string>, s: Session)
  {
    && CursorInRange(playlist, s.index)
    && s.media == (if |playlist| == 0 then None else Some(playlist[s.index]))
    && LoadsBracketed(playlist, s.log)
  }

  // ---------------------------------------------------------------------
  // The operations
  // ---------------------------------------------------------------------

  /** The only primitive that changes track. */
  function PlaySong(playlist: seq<string>, s: Session, index: int): Session
  {
    if index < 0 || index >= |playlist| then s
    else s.(index := index, media := Some(playlist[index]),
            log := s.log + [Stop, SetMedia(playlist[index]), Play])
  }

  /** The state right after construction: cursor 0 and an immediate play of
      track 0. */
  function Open(playlist: seq<string>): Session
  {
    PlaySong(playlist, Session(0, None, []), 0)
  }

  function NextSong(playlist: seq<string>, s: Session): Session
  {
    if s.index + 1 < |playlist| then PlaySong(playlist, s, s.index + 1) else s
  }

  function PrevSong(playlist: seq<string>, s: Session): Session
  {
    if s.index - 1 >= 0 then PlaySong(playlist, s, s.index - 1) else s
  }

  /** Move by a number of seconds from now, the time the backend reports. */
  function Seek(s: Session, now: int, seconds: int): Session
  {
    var newTime := now + seconds * 1000;
    s.(log := s.log + [SetTime(newTime)])
  }

  /** Jump to a track numbered from 1. */
  function JumpToSong(playlist: seq<string>, s: Session, num: int): Session
  {
    var index := num - 1;
    if index >= 0 && index < |playlist| then PlaySong(playlist, s, index) else s
  }

  /** Seek to rank/9 of the track length the backend reports, for a key of
      ProgressKeys. */
  function ProgressBarSeek(s: Session, length: int, key: char): Session
  {
    var position := Find(ProgressKeys, key);
    if position != -1 then
      var newTime := ScaledTime(length, position);
      s.(log := s.log + [SetTime(newTime)])
    else s
  }

  function PlayPause(s: Session): Session
  {
    s.(log := s.log + [Pause])
  }

  // ---------------------------------------------------------------------
  // Lemmas
  // ---------------------------------------------------------------------

  /** Appending a well-bracketed stretch of commands keeps the log well
      bracketed. */
  lemma LoadsBracketedAppend(playlist: seq<string>, log: seq<Call>, more: seq<Call>)
    requires LoadsBracketed(playlist, log) && LoadsBracketed(playlist, more)
    ensures LoadsBracketed(playlist, log + more)
  {
    var all := log + more;
    forall k | 0 <= k < |all| && all[k].SetMedia?
      ensures 0 < k < |all| - 1 && all[k - 1] == Stop && all[k + 1] == Play && all[k].path in playlist
    {
      if k < |log| {
        assert all[k] == log[k];
      } else {
        var j := k - |log|;
        assert all[k] == more[j];
        assert more[j - 1] == all[k - 1] && more[j + 1] == all[k + 1];
      }
    }
  }

  /** A command that is not a load keeps the log well bracketed. */
  lemma RecordKeepsBracketed(playlist: seq<string>, log: seq<Call>, c: Call)
    requires LoadsBracketed(playlist, log) && !c.SetMedia?
    ensures LoadsBracketed(playlist, log + [c])
  {
    LoadsBracketedAppend(playlist, log, [c]);
  }

  /** A play_song out of range is a no-op: no backend call, same cursor. A
      play_song in range moves the cursor there and sends exactly stop,
      set_media of that track, play, in that order. Either way the invariant
      is kept. */
  lemma PlaySongSpec(playlist: seq<string>, s: Session, index: int)
    requires Valid(playlist, s)
    ensures var r := PlaySong(playlist, s, index);
      && Valid(playlist, r)
      && (index < 0 || index >= |playlist| ==> r == s)
      && (0 <= index < |playlist| ==>
            && r.index == index && r.media == Some(playlist[index])
            && r.log == s.log + [Stop, SetMedia(playlist[index]), Play])
  {
    if 0 <= index < |playlist| {
      LoadKeepsBracketed(playlist, s.log, index);
    }
  }

  /** Loading a playlist entry as play_song does keeps the log well
      bracketed. */
  lemma LoadKeepsBracketed(playlist: seq<string>, log: seq<Call>, index: int)
    requires LoadsBracketed(playlist, log) && 0 <= index < |playlist|
    ensures LoadsBracketed(playlist, log + [Stop, SetMedia(playlist[index]), Play])
  {
    var load := [Stop, SetMedia(playlist[index]), Play];
    assert LoadsBracketed(playlist, load) by {
      forall k | 0 <= k < |load| && load[k].SetMedia?
        ensures 0 < k < |load| - 1 && load[k - 1] == Stop && load[k + 1] == Play && load[k].path in playlist
      {
        assert k == 1;
      }
    }
    LoadsBracketedAppend(playlist, log, load);
  }

  /** The freshly opened player satisfies the invariant, sits on track 0 and
      has loaded and started it, unless the playlist is empty, in which case
      nothing was sent to the backend. */
  lemma OpenSpec(playlist: seq<string>)
    ensures var r := Open(playlist);
      && Valid(playlist, r) && r.index == 0
      && r.log == (if |playlist| == 0 then [] else [Stop, SetMedia(playlist[0]), Play])
  {
    if |playlist| > 0 {
      LoadKeepsBracketed(playlist, [], 0);
    }
  }

  /** next_song advances by one below the last track and is a no-op on it. */
  lemma NextSongSpec(playlist: seq<string>, s: Session)
    requires Valid(playlist, s)
    ensures var r := NextSong(playlist, s);
      && Valid(playlist, r)
      && (s.index < |playlist| - 1 ==> r.index == s.index + 1 && r == PlaySong(playlist, s, s.index + 1))
      && (s.index >= |playlist| - 1 ==> r == s)
  {
    PlaySongSpec(playlist, s, s.index + 1);
  }

  /** prev_song goes back by one above the first track and is a no-op on it. */
  lemma PrevSongSpec(playlist: seq<string>, s: Session)
    requires Valid(playlist, s)
    ensures var r := PrevSong(playlist, s);
      && Valid(playlist, r)
      && (s.index > 0 ==> r.index == s.index - 1 && r == PlaySong(playlist, s, s.index - 1))
      && (s.index == 0 ==> r == s)
  {
    PlaySongSpec(playlist, s, s.index - 1);
  }

  /** prev_song undoes next_song: back on the same track, loaded again. */
  lemma PrevUndoesNext(playlist: seq<string>, s: Session)
    requires Valid(playlist, s) && s.index < |playlist| - 1
    ensures var r := PrevSong(playlist, NextSong(playlist, s));
      r.index == s.index && r.media == s.media
  {
    NextSongSpec(playlist, s);
    PrevSongSpec(playlist, NextSong(playlist, s));
  }

  /** jump_to_song(n) changes the session if and only if 1 <= n <= the
      number of tracks, and then plays track n - 1. */
  lemma JumpToSongSpec(playlist: seq<string>, s: Session, num: int)
    requires Valid(playlist, s)
    ensures var r := JumpToSong(playlist, s, num);
      && Valid(playlist, r)
      && (r != s <==> 1 <= num <= |playlist|)
      && (1 <= num <= |playlist| ==> r.index == num - 1 && r == PlaySong(playlist, s, num - 1))
  {
    PlaySongSpec(playlist, s, num - 1);
    if 1 <= num <= |playlist| {
      assert |JumpToSong(playlist, s, num).log| > |s.log|;
    }
  }

  /** seek sends one set_time to the reported time plus 1000 ms per second,
      unclamped, and leaves the cursor and the media alone. */
  lemma SeekSpec(playlist: seq<string>, s: Session, now: int, seconds: int)
    requires Valid(playlist, s)
    ensures var r := Seek(s, now, seconds);
      && Valid(playlist, r)
      && r.log == s.log + [SetTime(now + 1000 * seconds)]
      && r.index == s.index && r.media == s.media
  {
    RecordKeepsBracketed(playlist, s.log, SetTime(now + seconds * 1000));
  }

  /** A key outside ProgressKeys sends nothing; a key of rank r sends one
      set_time to length * r / 9, truncated toward zero. */
  lemma ProgressBarSeekSpec(playlist: seq<string>, s: Session, length: int, key: char)
    requires Valid(playlist, s)
    ensures var r := ProgressBarSeek(s, length, key);
      && Valid(playlist, r)
      && (key !in ProgressKeys ==> r == s)
      && (key in ProgressKeys ==>
            && r.log == s.log + [SetTime(ScaledTime(length, Find(ProgressKeys, key)))]
            && r.index == s.index && r.media == s.media)
  {
    var position := Find(ProgressKeys, key);
    if position != -1 {
      RecordKeepsBracketed(playlist, s.log, SetTime(ScaledTime(length, position)));
    }
  }

  /** The first progress key seeks to the start and the last to the end. */
  lemma ProgressBarSeekEnds(s: Session, length: int)
    ensures ProgressBarSeek(s, length, 'q').log == s.log + [SetTime(0)]
    ensures ProgressBarSeek(s, length, 'p').log == s.log + [SetTime(length)]
  {
    FirstAndLastKeys();
    ScaledTimeEnds(length);
  }

  lemma ScaledTimeEnds(length: int)
    ensures ScaledTime(length, 0) == 0 && ScaledTime(length, 9) == length
  {
    assert length * 0 == 0;
  }

  /** q has rank 0 and p rank 9. */
  lemma FirstAndLastKeys()
    ensures Find(ProgressKeys, 'q') == 0 && Find(ProgressKeys, 'p') == 9
  {
    var keys := ProgressKeys;
    assert keys[0] == 'q' && keys[9] == 'p' && |keys| == 10;
    assert keys[..0] == [];
    assert keys[..9] == "qwertyuio";
    FindFirst(keys, 'q', 0);
    FindFirst(keys, 'p', 9);
  }

  /** Find returns the first occurrence. */
  lemma FindFirst(s: string, c: char, i: int)
    requires 0 <= i < |s| && s[i] == c && c !in s[..i]
    ensures Find(s, c) == i
  {
  }

  /** For a track of known, non-negative length every progress key lands
      inside the track, and a later key never lands earlier. */
  lemma ScaledTimeBounds(length: int, r1: int, r2: int)
    requires 0 <= length && 0 <= r1 <= r2 <= |ProgressKeys| - 1
    ensures 0 <= ScaledTime(length, r1) <= ScaledTime(length, r2) <= length
  {
    assert length * r1 <= length * r2 by {
      MulLeftMonotone(length, r1, r2);
    }
    assert length * r2 <= length * 9 by {
      MulLeftMonotone(length, r2, 9);
    }
  }

  lemma MulLeftMonotone(a: int, x: int, y: int)
    requires 0 <= a && x <= y
    ensures a * x <= a * y
  {
    assert a * y - a * x == a * (y - x);
  }

  /** play_pause sends one pause and changes nothing else. */
  lemma PlayPauseSpec(playlist: seq<string>, s: Session)
    requires Valid(playlist, s)
    ensures var r := PlayPause(s);
      Valid(playlist, r) && r.log == s.log + [Pause] && r.(log := s.log) == s
  {
    RecordKeepsBracketed(playlist, s.log, Pause);
  }
}
