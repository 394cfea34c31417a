/** playa.py's main as a whole: choose the track list, build the player on
    it, and run the key loop over the keystrokes typed. */
module Launch {
  import opened Wrappers
  import opened Transport
  import opened Player
  import opened Dispatch
  import opened Ingest

  /** Either the "no input" exit, before any player exists, or where the key
      loop ended, for what the backend happened to report along the way. */
  method Launch(files: seq<string>, stdinLines: seq<string>, playlistFile: Option<seq<string>>, keys: seq<char>)
    returns (r: Result<Outcome, Exit>)
    ensures r.Err? <==> SelectPlaylist(files, stdinLines, playlistFile).Err?
    ensures r.Err? ==> r.error == NoInput
    ensures r.Ok? ==>
      var playlist := SelectPlaylist(files, stdinLines, playlistFile).value;
      && Valid(playlist, r.value.session)
      && exists readings :: |readings| == |keys| && r.value == Replay(playlist, Open(playlist), keys, readings)
  {
    var selected := SelectPlaylist(files, stdinLines, playlistFile);
    if selected.Err? {
      return Err(selected.error);
    }
    var playlist := selected.value;
    var p := new AudioPlayer(playlist);
    ghost var readings;
    var consumed, quit;
    consumed, quit, readings := Run(p, keys);
    r := Ok(Outcome(p.Snapshot(), consumed, quit));
    assert r.value == Replay(playlist, Open(playlist), keys, readings);
  }
}
