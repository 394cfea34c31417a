/** The AudioPlayer class of playa.py: a cursor into an immutable playlist
    and the backend player it drives. Every method changes the fields step by
    step, as the source does, and is proved to reach the state the matching
    function of module Transport describes. */
module Player {
  import opened Backend
  import opened Transport

  class AudioPlayer {
    const playlist: seq<string>
    const player: MediaPlayer
    var currentIndex: int

    /** The cursor, the media the backend holds and the commands it was
        sent, as one value. */
    function Snapshot(): Session
      reads this, player
    {
      Session(currentIndex, player.media, player.log)
    }

    ghost predicate Valid()
      reads this, player
    {
      Transport.Valid(playlist, Snapshot())
    }

    /** Creates the backend, puts the cursor on track 0 and plays it. */
    constructor (playlist: seq<string>)
      ensures Valid() && fresh(player) && this.playlist == playlist
      ensures Snapshot() == Open(playlist)
    {
      this.playlist := playlist;
      player := new MediaPlayer();
      currentIndex := 0;
      new;
      PlaySong(currentIndex);
      OpenSpec(playlist);
    }

    /** Plays track index; an index outside the playlist is ignored. It
        needs no invariant: the constructor calls it before the backend holds
        any media. */
    method PlaySong(index: int)
      modifies this, player
      ensures Snapshot() == Transport.PlaySong(playlist, old(Snapshot()), index)
    {
      if index < 0 || index >= |playlist| {
        return;
      }
      currentIndex := index;
      player.Stop();
      var media := playlist[currentIndex];
      player.SetMedia(media);
      player.Play();
    }

    method NextSong()
      requires Valid()
      modifies this, player
      ensures Valid()
      ensures Snapshot() == Transport.NextSong(playlist, old(Snapshot()))
    {
      NextSongSpec(playlist, Snapshot());
      if currentIndex + 1 < |playlist| {
        PlaySong(currentIndex + 1);
      }
    }

    method PrevSong()
      requires Valid()
      modifies this, player
      ensures Valid()
      ensures Snapshot() == Transport.PrevSong(playlist, old(Snapshot()))
    {
      PrevSongSpec(playlist, Snapshot());
      if currentIndex - 1 >= 0 {
        PlaySong(currentIndex - 1);
      }
    }

    /** Seeks relative to the time the backend reports at the call. */
    method Seek(seconds: int)
      requires Valid()
      modifies player
      ensures Valid()
      ensures Snapshot() == Transport.Seek(old(Snapshot()), old(player.time), seconds)
    {
      SeekSpec(playlist, Snapshot(), player.time, seconds);
      var now := player.GetTime();
      var newTime := now + seconds * 1000;
      player.SetTime(newTime);
    }

    method JumpToSong(num: int)
      requires Valid()
      modifies this, player
      ensures Valid()
      ensures Snapshot() == Transport.JumpToSong(playlist, old(Snapshot()), num)
    {
      JumpToSongSpec(playlist, Snapshot(), num);
      var index := num - 1;
      if index >= 0 && index < |playlist| {
        PlaySong(index);
      }
    }

    /** Seeks within the track length the backend reports at the call. */
    method ProgressBarSeek(key: char)
      requires Valid()
      modifies player
      ensures Valid()
      ensures Snapshot() == Transport.ProgressBarSeek(old(Snapshot()), old(player.length), key)
    {
      ProgressBarSeekSpec(playlist, Snapshot(), player.length, key);
      var keys := ProgressKeys;
      var position := Find(keys, key);
      if position != -1 {
        var duration := player.GetLength();
        var newTime := TruncDiv(duration * position, |keys| - 1);
        player.SetTime(newTime);
      }
    }

    method PlayPause()
      requires Valid()
      modifies player
      ensures Valid()
      ensures Snapshot() == Transport.PlayPause(old(Snapshot()))
    {
      PlayPauseSpec(playlist, Snapshot());
      player.Pause();
    }
  }
}
