/**
 * `MusicPlayer`: one guild's player object, whose methods update its fields in
 * place. Each method is proved to perform the matching transition of module
 * PlayerModel, so everything proved there holds of the object.
 */
module Player {
  import opened Wrappers
  import opened Roles
  import opened Voting
  import opened PlayerModel

  class MusicPlayer {
    const guild: GuildId
    var queue: seq<Song>
    var current: Option<Song>
    var skipVotes: set<MemberId>
    var volume: int
    var voiceClient: Option<VoiceClient>
    var loop: LoopState

    /** The fields as a value. */
    function State(): PlayerState
      reads this
    {
      PlayerState(queue, current, skipVotes, volume, voiceClient, loop)
    }

    predicate Valid()
      reads this
    {
      Inv(State())
    }

    /** `MusicPlayer.__init__`, which also starts `player_loop`. */
    constructor (guild: GuildId)
      ensures this.guild == guild && State() == Initial() && Valid()
    {
      this.guild := guild;
      queue := [];
      current := None;
      volume := DefaultVolume;
      skipVotes := {};
      voiceClient := None;
      loop := AwaitingSong;
    }

    /** `queue.put(song_info)` from `play`. */
    method Enqueue(song: Song)
      requires Valid()
      modifies this
      ensures Valid() && State() == Put(old(State()), song)
    {
      queue := queue + [song];
    }

    /** `after_song`, preceded by the transport stopping. */
    method AfterSong()
      requires Valid()
      modifies this
      ensures Valid() && State() == FinishTrack(old(State()))
    {
      if voiceClient.Some? {
        voiceClient := Some(voiceClient.value.(playing := false, paused := false));
      }
      current := None;
      skipVotes := {};
      if loop == AwaitingCompletion {
        loop := AwaitingSong;
      }
    }

    /** One pass of the body of `player_loop`'s `while`, from the timed `queue.get()`. */
    method PlayerLoopStep(timedOut: bool)
      requires Valid()
      modifies this
      ensures Valid() && State() == LoopStep(old(State()), timedOut)
    {
      if loop != AwaitingSong {
        return;
      }
      if |queue| == 0 {
        if timedOut {
          if voiceClient.Some? {
            voiceClient := Some(voiceClient.value.(connected := false, playing := false, paused := false));
          }
          loop := Finished;
        }
        return;
      }
      var songInfo := queue[0];
      queue := queue[1..];
      current := Some(songInfo);
      if voiceClient.None? || !voiceClient.value.connected {
        loop := Crashed;
        return;
      }
      voiceClient := Some(voiceClient.value.(playing := true, paused := false));
      loop := AwaitingCompletion;
    }

    /** `voice_client.stop()`. */
    method Stop()
      requires Valid()
      modifies this
      ensures Valid() && State() == StopVoice(old(State()))
    {
      if voiceClient.Some? {
        voiceClient := Some(voiceClient.value.(playing := false, paused := false));
      }
    }

    /** `destroy`. */
    method Destroy()
      requires Valid()
      modifies this
      ensures Valid() && State() == Teardown(old(State()))
    {
      if voiceClient.Some? {
        voiceClient := Some(voiceClient.value.(connected := false, playing := false, paused := false));
      }
      if loop == AwaitingSong || loop == AwaitingCompletion {
        loop := Cancelled;
      }
    }

    /** The body of `set_volume` after `get_player`. */
    method SetVolume(v: int) returns (outcome: VolumeOutcome)
      requires Valid()
      modifies this
      ensures Valid() && (outcome, State()) == ChangeVolume(old(State()), v)
    {
      if voiceClient.None? {
        return NotConnected;
      }
      if !(0 <= v <= 100) {
        return OutOfRange;
      }
      volume := v;
      outcome := VolumeSet(v);
    }

    /** The body of `pause` after its rank check. */
    method Pause() returns (paused: bool)
      requires Valid()
      modifies this
      ensures Valid() && (paused, State()) == PauseVoice(old(State()))
    {
      paused := voiceClient.Some? && voiceClient.value.playing;
      if paused {
        voiceClient := Some(voiceClient.value.(playing := false, paused := true));
      }
    }

    /** The body of `resume` after its rank check. */
    method Resume() returns (resumed: bool)
      requires Valid()
      modifies this
      ensures Valid() && (resumed, State()) == ResumeVoice(old(State()))
    {
      resumed := voiceClient.Some? && voiceClient.value.paused;
      if resumed {
        voiceClient := Some(voiceClient.value.(playing := true, paused := false));
      }
    }

    /** `player.voice_client = await channel.connect()`. */
    method Connect(ch: ChannelId)
      requires Valid()
      modifies this
      ensures Valid() && State() == ConnectVoice(old(State()), ch)
    {
      voiceClient := Some(VoiceClient(ch, true, false, false));
    }

    /** `voice_client.move_to(channel)`. */
    method MoveTo(ch: ChannelId)
      requires Valid() && voiceClient.Some?
      modifies this
      ensures Valid() && State() == MoveVoice(old(State()), ch)
    {
      voiceClient := Some(voiceClient.value.(channel := ch));
    }

    /**
     * The body of `skip` after `get_player`; `members` are the members of the
     * voice client's channel.
     */
    method Skip(a: Author, members: seq<Member>) returns (outcome: SkipOutcome)
      requires Valid()
      modifies this
      ensures Valid() && (outcome, State()) == CastVote(old(State()), a, members)
    {
      if voiceClient.None? || !voiceClient.value.playing {
        return NothingPlaying;
      }
      if a.isOwner || a.isAdmin {
        Stop();
        return SkippedByAdmin;
      }
      var channel := Some(members);
      if !CanOverride(a, channel) {
        var highest := GetHighestRole(members);
        if highest.None? {
          return NoRankedMember;
        }
        if a.member.topRank < highest.value {
          return Outranked;
        }
      }
      outcome := Vote(a, members);
    }

    /** The vote of `skip`, on a playing voice client, once the author is let through. */
    method Vote(a: Author, members: seq<Member>) returns (outcome: SkipOutcome)
      requires Valid() && IsPlaying(State())
      modifies this
      ensures Valid()
      ensures var v := CountVote(a, members, old(skipVotes));
              var voted := old(State()).(skipVotes := v.votes);
              outcome == v.outcome && State() == if StopsPlayback(v.outcome) then StopVoice(voted) else voted
    {
      var required := RequiredVotes(|NonBots(members)|);
      if a.member.id in skipVotes {
        return AlreadyVoted;
      }
      skipVotes := skipVotes + {a.member.id};
      if |skipVotes| >= required {
        Stop();
        outcome := VotePassed;
      } else {
        outcome := VoteRecorded(|skipVotes|, required, required - |skipVotes|);
      }
    }
  }
}
