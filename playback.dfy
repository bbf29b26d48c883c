/**
 * Runs of a player: every event that changes a `MusicPlayer`, applied in
 * sequence. Over any run the invariant holds, songs start in the order they
 * were queued, and votes never outlive the song they were cast against.
 */
module Playback {
  import opened Wrappers
  import opened Roles
  import opened Voting
  import opened PlayerModel

  datatype Event =
    | Enqueue(song: Song)                              // `play`: queue.put
    | Dequeue(timedOut: bool)                          // `player_loop`: the outcome of queue.get
    | TrackEnd                                         // the transport's `after` callback
    | SkipVote(author: Author, members: seq<Member>)   // `skip`
    | Volume(percent: int)                             // `set_volume`
    | Pause                                            // `pause`
    | Resume                                           // `resume`
    | Join(channel: ChannelId)                         // `join` connecting
    | Move(channel: ChannelId)                         // `join` moving
    | Stop                                             // `leave`: voice_client.stop
    | Destroy                                          // `leave`: destroy

  function Apply(s: PlayerState, e: Event): PlayerState
  {
    match e
    case Enqueue(song) => Put(s, song)
    case Dequeue(timedOut) => LoopStep(s, timedOut)
    case TrackEnd => FinishTrack(s)
    case SkipVote(a, ms) => CastVote(s, a, ms).1
    case Volume(v) => ChangeVolume(s, v).1
    case Pause => PauseVoice(s).1
    case Resume => ResumeVoice(s).1
    case Join(ch) => if s.voice.Some? && s.voice.value.connected then s else ConnectVoice(s, ch)
    case Move(ch) => if s.voice.Some? then MoveVoice(s, ch) else s
    case Stop => StopVoice(s)
    case Destroy => Teardown(s)
  }

  function Run(s: PlayerState, evs: seq<Event>): PlayerState
    decreases |evs|
  {
    if |evs| == 0 then s else Run(Apply(s, evs[0]), evs[1..])
  }

  /** The songs that became `current`, in order, during a run. */
  function Started(s: PlayerState, evs: seq<Event>): seq<Song>
    decreases |evs|
  {
    if |evs| == 0 then []
    else (if evs[0].Dequeue? && StartsSong(s) then [s.queue[0]] else []) + Started(Apply(s, evs[0]), evs[1..])
  }

  /** The songs queued during a run, in order. */
  function Enqueued(evs: seq<Event>): seq<Song>
  {
    if |evs| == 0 then []
    else (if evs[0].Enqueue? then [evs[0].song] else []) + Enqueued(evs[1..])
  }

  /** Every event keeps the player's invariant. */
  lemma ApplyKeepsInv(s: PlayerState, e: Event)
    requires Inv(s)
    ensures Inv(Apply(s, e))
  {
    match e
    case Enqueue(song) => assert Inv(Put(s, song));
    case Dequeue(timedOut) => assert Inv(LoopStep(s, timedOut));
    case TrackEnd => assert Inv(FinishTrack(s));
    case SkipVote(a, ms) => assert Inv(CastVote(s, a, ms).1);
    case Volume(v) => assert Inv(ChangeVolume(s, v).1);
    case Pause => assert Inv(PauseVoice(s).1);
    case Resume => assert Inv(ResumeVoice(s).1);
    case Join(ch) => assert !(s.voice.Some? && s.voice.value.connected) ==> Inv(ConnectVoice(s, ch));
    case Move(ch) => assert s.voice.Some? ==> Inv(MoveVoice(s, ch));
    case Stop => assert Inv(StopVoice(s));
    case Destroy => assert Inv(Teardown(s));
  }

  lemma {:induction false} RunKeepsInv(s: PlayerState, evs: seq<Event>)
    requires Inv(s)
    ensures Inv(Run(s, evs))
    decreases |evs|
  {
    if |evs| > 0 {
      ApplyKeepsInv(s, evs[0]);
      RunKeepsInv(Apply(s, evs[0]), evs[1..]);
    }
  }

  /** What one event does to the queue: a started song leaves its front, a queued one joins its back. */
  lemma ApplyQueue(s: PlayerState, e: Event)
    ensures (if e.Dequeue? && StartsSong(s) then [s.queue[0]] else []) + Apply(s, e).queue ==
            s.queue + (if e.Enqueue? then [e.song] else [])
  {
    if e.Dequeue? && StartsSong(s) {
      assert [s.queue[0]] + s.queue[1..] == s.queue;
    }
  }

  /**
   * Strict FIFO: over any run, the songs started followed by the songs still
   * waiting are exactly the songs waiting at the start followed by the songs
   * queued during the run.
   */
  lemma {:induction false} FifoOrder(s: PlayerState, evs: seq<Event>)
    ensures Started(s, evs) + Run(s, evs).queue == s.queue + Enqueued(evs)
    decreases |evs|
  {
    if |evs| > 0 {
      var e, s' := evs[0], Apply(s, evs[0]);
      var taken := if e.Dequeue? && StartsSong(s) then [s.queue[0]] else [];
      var added := if e.Enqueue? then [e.song] else [];
      FifoOrder(s', evs[1..]);
      ApplyQueue(s, e);
      assert Started(s, evs) == taken + Started(s', evs[1..]);
      assert Enqueued(evs) == added + Enqueued(evs[1..]);
      Regroup(taken, Started(s', evs[1..]), Run(s', evs[1..]).queue, s'.queue, s.queue, added, Enqueued(evs[1..]));
    }
  }

  /** The sequence algebra of one step of `FifoOrder`. */
  lemma Regroup<T>(taken: seq<T>, started: seq<T>, rest: seq<T>, q': seq<T>, q: seq<T>, added: seq<T>, later: seq<T>)
    requires started + rest == q' + later
    requires taken + q' == q + added
    ensures taken + started + rest == q + (added + later)
  {
    calc {
      taken + started + rest;
      taken + (started + rest);
      (taken + q') + later;
      (q + added) + later;
    }
  }

  /** Starting from an empty queue, songs start in exactly the order they were queued. */
  lemma PlaysInQueueOrder(s: PlayerState, evs: seq<Event>)
    requires |s.queue| == 0
    ensures Started(s, evs) <= Enqueued(evs)
  {
    FifoOrder(s, evs);
    assert Started(s, evs) + Run(s, evs).queue == Enqueued(evs);
  }

  /** Votes are never carried over: whenever `current` changes, the vote set is empty. */
  lemma VotesClearedOnTrackChange(s: PlayerState, e: Event)
    requires Inv(s)
    ensures Apply(s, e).current != s.current ==> Apply(s, e).skipVotes == {}
  {
    match e
    case Dequeue(timedOut) =>
    case TrackEnd =>
    case _ =>
  }

  /**
   * A loop that ended on the idle timeout stays ended: whatever happens to the
   * player afterwards, no song ever starts again.
   */
  lemma {:induction false} FinishedPlayerNeverPlays(s: PlayerState, evs: seq<Event>)
    requires s.loop.Finished?
    ensures Started(s, evs) == [] && Run(s, evs).loop.Finished?
    decreases |evs|
  {
    if |evs| > 0 {
      var s' := Apply(s, evs[0]);
      assert s'.loop.Finished? by {
        match evs[0]
        case Join(ch) =>
        case Move(ch) =>
        case _ =>
      }
      FinishedPlayerNeverPlays(s', evs[1..]);
    }
  }

  /** A new player that joins a channel plays the first song queued to it. */
  lemma NewPlayerPlays(ch: ChannelId, song: Song)
    ensures Started(Initial(), [Join(ch), Enqueue(song), Dequeue(false)]) == [song]
  {
    var evs := [Join(ch), Enqueue(song), Dequeue(false)];
    var s1 := Apply(Initial(), Join(ch));
    var s2 := Apply(s1, Enqueue(song));
    assert evs[1..] == [Enqueue(song), Dequeue(false)];
    assert evs[1..][1..] == [Dequeue(false)];
    assert Started(s2, [Dequeue(false)]) == [song];
    assert Started(s1, evs[1..]) == [song];
  }
}
