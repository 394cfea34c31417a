/** The media backend (a vlc MediaPlayer) as an abstract object: the media
    it was last given, the times it reports, and the log of the commands it
    was sent. The times are the backend's own: it plays, loads asynchronously
    and may clamp a seek, so any command may change what it reports next. */
module Backend {
  import opened Wrappers

  /** A command sent to the backend. Queries (get_time, get_length) are not
      commands and leave no trace. */
  datatype Call = Stop | SetMedia(path: string) | Play | Pause | SetTime(ms: int)

  class MediaPlayer {
    /** The media last handed to set_media, if any. */
    var media: Option<string>
    /** What get_time reports, in milliseconds; no command promises
        anything about it. */
    var time: int
    /** What get_length reports, in milliseconds; no command promises
        anything about it. */
    var length: int
    /** Every command received, oldest first. */
    var log: seq<Call>

    /** A fresh player holds no media and has received no command; the times
        it reports are the backend's own business. */
    constructor ()
      ensures media == None && log == []
    {
      media := None;
      log := [];
    }

    method Stop()
      modifies this
      ensures log == old(log) + [Call.Stop] && media == old(media)
    {
      log := log + [Call.Stop];
    }

    method SetMedia(path: string)
      modifies this
      ensures log == old(log) + [Call.SetMedia(path)] && media == Some(path)
    {
      log := log + [Call.SetMedia(path)];
      media := Some(path);
    }

    method Play()
      modifies this
      ensures log == old(log) + [Call.Play] && media == old(media)
    {
      log := log + [Call.Play];
    }

    /** An opaque toggle: only the fact that it was issued is recorded. */
    method Pause()
      modifies this
      ensures log == old(log) + [Call.Pause] && media == old(media)
    {
      log := log + [Call.Pause];
    }

    method SetTime(ms: int)
      modifies this
      ensures log == old(log) + [Call.SetTime(ms)] && media == old(media)
    {
      log := log + [Call.SetTime(ms)];
    }

    method GetTime() returns (t: int)
      ensures t == time
    {
      t := time;
    }

    method GetLength() returns (n: int)
      ensures n == length
    {
      n := length;
    }
  }
}
