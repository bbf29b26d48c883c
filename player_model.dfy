/**
 * The state of one guild's `MusicPlayer` as a value, one pure transition per
 * way the source changes it, the invariant every transition keeps, and the
 * FIFO order of playback over any run of events.
 */
module PlayerModel {
  import opened Wrappers
  import opened Roles
  import opened Voting

  /** The song dictionary built by `play` from the media lookup: its playable stream is opaque. */
  datatype Song = Song(title: string, webpageUrl: string, url: string, requester: string)

  /** The voice client as far as the player sees it: its channel and the transport's flags. */
  datatype VoiceClient = VoiceClient(channel: ChannelId, connected: bool, playing: bool, paused: bool)

  /** Where `player_loop` is. */
  datatype LoopState =
    | AwaitingSong         // blocked on `queue.get()` with the 300 s timeout
    | AwaitingCompletion   // blocked on `_play_next.wait()` while a song plays
    | Finished             // returned after the idle timeout
    | Crashed              // ended by the exception `voice_client.play` raised
    | Cancelled            // cancelled by `destroy`

  datatype PlayerState = PlayerState(
    queue: seq<Song>,
    current: Option<Song>,
    skipVotes: set<MemberId>,
    volume: int,            // percent; the source stores volume / 100.0
    voice: Option<VoiceClient>,
    loop: LoopState)

  /** `self.volume = 0.5`, as a percentage. */
  const DefaultVolume := 50

  /** A player right after `MusicPlayer.__init__`: its loop is waiting for the first song. */
  function Initial(): PlayerState
  {
    PlayerState([], None, {}, DefaultVolume, None, AwaitingSong)
  }

  predicate Sounding(s: PlayerState)
  {
    s.voice.Some? && (s.voice.value.playing || s.voice.value.paused)
  }

  /**
   * The player's invariant: the volume is a percentage; a loop that waits for a
   * song (or gave up waiting) has no current song and no votes; a loop waiting
   * for completion has a current song; audio only sounds, on a connected voice
   * client, while the loop waits for it to complete.
   */
  predicate Inv(s: PlayerState)
  {
    && 0 <= s.volume <= 100
    && (s.loop.AwaitingSong? || s.loop.Finished? ==> s.current.None? && s.skipVotes == {})
    && (s.loop.AwaitingCompletion? ==> s.current.Some?)
    && (Sounding(s) ==> s.loop.AwaitingCompletion? && s.voice.value.connected)
    && (s.voice.Some? ==> !(s.voice.value.playing && s.voice.value.paused))
  }

  /** `queue.put(song)`. */
  function Put(s: PlayerState, song: Song): (r: PlayerState)
    ensures r.queue == s.queue + [song]
    ensures r == s.(queue := r.queue)
    ensures Inv(s) ==> Inv(r)
  {
    s.(queue := s.queue + [song])
  }

  /** Whether the loop's next dequeue hands it a song. */
  predicate StartsSong(s: PlayerState)
  {
    s.loop.AwaitingSong? && |s.queue| > 0
  }

  /**
   * One pass of `player_loop` from `queue.get()`. A waiting `get` returns the
   * oldest song at once when there is one; otherwise it either keeps waiting or,
   * when `timedOut`, ends the loop after disconnecting. A dequeued song becomes
   * `current`; `voice_client.play` raises (ending the loop) unless the voice
   * client is present and connected.
   */
  function LoopStep(s: PlayerState, timedOut: bool): (r: PlayerState)
    ensures StartsSong(s) ==> r.current == Some(s.queue[0]) && r.queue == s.queue[1..]
    ensures !StartsSong(s) ==> r.current == s.current && r.queue == s.queue
    ensures r.loop.AwaitingCompletion? && !s.loop.AwaitingCompletion? ==> StartsSong(s) && r.voice.Some? && r.voice.value.playing
    ensures r.loop.Finished? && !s.loop.Finished? ==>
              s.loop.AwaitingSong? && |s.queue| == 0 && timedOut && (r.voice.Some? ==> !r.voice.value.connected)
    ensures r.skipVotes == s.skipVotes && r.volume == s.volume
    // a song dequeued on a connected client plays while the loop waits for it; otherwise `play` raises
    ensures StartsSong(s) && s.voice.Some? && s.voice.value.connected ==>
              r.loop.AwaitingCompletion? && r.voice == Some(s.voice.value.(playing := true, paused := false))
    ensures StartsSong(s) && !(s.voice.Some? && s.voice.value.connected) ==> r.loop.Crashed? && r.voice == s.voice
    // the idle timeout over an empty queue disconnects and ends the loop
    ensures s.loop.AwaitingSong? && |s.queue| == 0 && timedOut ==>
              r.loop.Finished? && r.voice == Disconnected(s.voice) && r.current == s.current
    ensures s.loop.AwaitingSong? && |s.queue| == 0 && !timedOut ==> r == s
    ensures !s.loop.AwaitingSong? ==> r == s
    ensures Inv(s) ==> Inv(r)
  {
    if !s.loop.AwaitingSong? then s
    else if |s.queue| > 0 then
      var started := s.(queue := s.queue[1..], current := Some(s.queue[0]));
      if s.voice.Some? && s.voice.value.connected then
        started.(voice := Some(s.voice.value.(playing := true, paused := false)), loop := AwaitingCompletion)
      else
        started.(loop := Crashed)
    else if timedOut then
      s.(voice := Disconnected(s.voice), loop := Finished)
    else s
  }

  /** `voice_client.disconnect()` when there is a voice client. */
  function Disconnected(v: Option<VoiceClient>): (r: Option<VoiceClient>)
    ensures r.Some? <==> v.Some?
    ensures r.Some? ==> !r.value.connected && !r.value.playing && !r.value.paused && r.value.channel == v.value.channel
  {
    if v.Some? then Some(v.value.(connected := false, playing := false, paused := false)) else None
  }

  /**
   * The end of a song: the transport stops and calls `after_song`, which clears
   * `current` and the votes and wakes the loop, which goes back to the queue.
   * A playback error is only logged, so it makes no difference here.
   */
  function FinishTrack(s: PlayerState): (r: PlayerState)
    ensures r.current.None? && r.skipVotes == {}
    ensures r.queue == s.queue && r.volume == s.volume
    ensures s.loop.AwaitingCompletion? ==> r.loop.AwaitingSong?
    ensures !s.loop.AwaitingCompletion? ==> r.loop == s.loop
    ensures !Sounding(r)
    ensures r.voice == StopVoice(s).voice
    ensures Inv(s) ==> Inv(r)
  {
    s.(current := None, skipVotes := {},
       voice := if s.voice.Some? then Some(s.voice.value.(playing := false, paused := false)) else None,
       loop := if s.loop.AwaitingCompletion? then AwaitingSong else s.loop)
  }

  /** `voice_client.stop()`: the audio stops now; `after_song` follows as `FinishTrack`. */
  function StopVoice(s: PlayerState): (r: PlayerState)
    ensures !Sounding(r)
    ensures r == s.(voice := r.voice)
    ensures r.voice.Some? <==> s.voice.Some?
    ensures r.voice.Some? ==> r.voice.value.channel == s.voice.value.channel && r.voice.value.connected == s.voice.value.connected
    ensures Inv(s) ==> Inv(r)
  {
    if s.voice.Some? then s.(voice := Some(s.voice.value.(playing := false, paused := false))) else s
  }

  /** `destroy`: schedule the disconnect of the voice client and cancel the loop task. */
  function Teardown(s: PlayerState): (r: PlayerState)
    ensures r.voice == Disconnected(s.voice)
    ensures r.voice.Some? ==> !r.voice.value.connected
    ensures !r.loop.AwaitingSong? && !r.loop.AwaitingCompletion?
    ensures r.queue == s.queue && r.current == s.current && r.skipVotes == s.skipVotes && r.volume == s.volume
    ensures Inv(s) ==> Inv(r)
  {
    s.(voice := Disconnected(s.voice),
       loop := if s.loop.AwaitingSong? || s.loop.AwaitingCompletion? then Cancelled else s.loop)
  }

  /** `voice_client.channel` for the rank checks: None without a voice client. */
  function ChannelOf(s: PlayerState, members: seq<Member>): Option<seq<Member>>
  {
    if s.voice.Some? then Some(members) else None
  }

  /** `voice_client.is_playing()`, False without a voice client. */
  predicate IsPlaying(s: PlayerState)
  {
    s.voice.Some? && s.voice.value.playing
  }

  /** The state part of `skip`: the vote, and `voice_client.stop()` when it (or an admin) skips. */
  function CastVote(s: PlayerState, a: Author, members: seq<Member>): (r: (SkipOutcome, PlayerState))
    ensures r.0 == Skip(a, ChannelOf(s, members), IsPlaying(s), s.skipVotes).outcome
    ensures r.1.skipVotes == Skip(a, ChannelOf(s, members), IsPlaying(s), s.skipVotes).votes
    ensures r.1.queue == s.queue && r.1.current == s.current && r.1.loop == s.loop && r.1.volume == s.volume
    ensures StopsPlayback(r.0) ==> !Sounding(r.1) && r.1.voice == StopVoice(s).voice
    ensures !StopsPlayback(r.0) ==> r.1.voice == s.voice
    ensures Inv(s) ==> Inv(r.1)
  {
    var v := Skip(a, ChannelOf(s, members), IsPlaying(s), s.skipVotes);
    var voted := s.(skipVotes := v.votes);
    (v.outcome, if StopsPlayback(v.outcome) then StopVoice(voted) else voted)
  }

  datatype VolumeOutcome = MissingPermission | NotConnected | OutOfRange | VolumeSet(percent: int)

  /** `set_volume` after `get_player`: needs a voice client and a value in 0..100. */
  function ChangeVolume(s: PlayerState, v: int): (r: (VolumeOutcome, PlayerState))
    ensures r.0.VolumeSet? <==> s.voice.Some? && 0 <= v <= 100
    ensures r.1.volume == (if r.0.VolumeSet? then v else s.volume)
    ensures r.1 == s.(volume := r.1.volume)
    ensures r.0.VolumeSet? ==> r.0.percent == v
    ensures Inv(s) ==> Inv(r.1)
  {
    if s.voice.None? then (NotConnected, s)
    else if !(0 <= v <= 100) then (OutOfRange, s)
    else (VolumeSet(v), s.(volume := v))
  }

  /** `voice_client.pause()` when playing; the boolean says whether it paused. */
  function PauseVoice(s: PlayerState): (r: (bool, PlayerState))
    ensures r.0 <==> IsPlaying(s)
    ensures r.0 ==> r.1.voice == Some(s.voice.value.(playing := false, paused := true))
    ensures !r.0 ==> r.1 == s
    ensures r.1 == s.(voice := r.1.voice)
    ensures Inv(s) ==> Inv(r.1)
  {
    if IsPlaying(s) then (true, s.(voice := Some(s.voice.value.(playing := false, paused := true))))
    else (false, s)
  }

  /** `voice_client.resume()` when paused; the boolean says whether it resumed. */
  function ResumeVoice(s: PlayerState): (r: (bool, PlayerState))
    ensures r.0 <==> s.voice.Some? && s.voice.value.paused
    ensures r.0 ==> r.1.voice == Some(s.voice.value.(playing := true, paused := false))
    ensures !r.0 ==> r.1 == s
    ensures r.1 == s.(voice := r.1.voice)
    ensures Inv(s) ==> Inv(r.1)
  {
    if s.voice.Some? && s.voice.value.paused then (true, s.(voice := Some(s.voice.value.(playing := true, paused := false))))
    else (false, s)
  }

  /** `player.voice_client = await channel.connect()`: a new, silent connection. */
  function ConnectVoice(s: PlayerState, ch: ChannelId): (r: PlayerState)
    ensures r.voice == Some(VoiceClient(ch, true, false, false))
    ensures r == s.(voice := r.voice)
    ensures Inv(s) ==> Inv(r)
  {
    s.(voice := Some(VoiceClient(ch, true, false, false)))
  }

  /** `voice_client.move_to(channel)`: playback carries on in the new channel. */
  function MoveVoice(s: PlayerState, ch: ChannelId): (r: PlayerState)
    requires s.voice.Some?
    ensures r.voice == Some(s.voice.value.(channel := ch))
    ensures r == s.(voice := r.voice)
    ensures Inv(s) ==> Inv(r)
  {
    s.(voice := Some(s.voice.value.(channel := ch)))
  }

  /** One line of `show_queue`: its 1-based number and the song's details. */
  datatype Entry = Entry(number: nat, title: string, webpageUrl: string, requester: string)

  datatype QueueView = EmptyQueue | Listing(entries: seq<Entry>, current: Option<Song>)

  /** `show_queue`: the pending songs in the order they will play, then the current song. */
  function ShowQueue(s: PlayerState): (r: QueueView)
    ensures r.EmptyQueue? <==> |s.queue| == 0
    ensures r.Listing? ==>
              |r.entries| == |s.queue| && r.current == s.current &&
              forall i :: 0 <= i < |s.queue| ==>
                r.entries[i] == Entry(i + 1, s.queue[i].title, s.queue[i].webpageUrl, s.queue[i].requester)
  {
    if |s.queue| == 0 then EmptyQueue
    else Listing(seq(|s.queue|, i requires 0 <= i < |s.queue| =>
                       Entry(i + 1, s.queue[i].title, s.queue[i].webpageUrl, s.queue[i].requester)),
                 s.current)
  }
}
