/**
 * The global `players` dictionary as an object holding one `MusicPlayer` per
 * guild, and the command handlers acting on it. Each handler is proved to do
 * exactly what its function in module Commands does to the registry.
 */
module Registry {
  import opened Wrappers
  import opened Roles
  import opened Voting
  import opened PlayerModel
  import opened Player
  import PM = PlayerModel
  import C = Commands

  class Registry {
    var players: map<GuildId, MusicPlayer>

    /** Every entry is the player of its own guild (so players of different guilds are distinct objects). */
    ghost predicate Valid()
      reads this, players.Values
    {
      forall g :: g in players ==> players[g].guild == g && players[g].Valid()
    }

    /** The registry as a value. */
    ghost function Snapshot(): C.Players
      reads this, players.Values
    {
      map g | g in players :: players[g].State()
    }

    constructor ()
      ensures Valid() && players == map[] && Snapshot() == map[]
    {
      players := map[];
    }

    /** `get_player`. */
    method GetPlayer(g: GuildId) returns (p: MusicPlayer)
      requires Valid()
      modifies this
      ensures Valid() && g in players && players[g] == p
      ensures g in old(players) ==> p == old(players[g]) && players == old(players)
      ensures g !in old(players) ==> fresh(p) && players == old(players)[g := p]
      ensures Snapshot() == C.GetPlayer(old(Snapshot()), g)
      ensures forall h :: h in players ==> (h in old(players) && players[h] == old(players[h])) || fresh(players[h])
    {
      if g !in players {
        ghost var before := Snapshot();
        p := new MusicPlayer(g);
        players := players[g := p];
        SnapshotWith(before, g);
      }
      p := players[g];
    }

    /** Inserting the entry of `g` adds it to the snapshot `before` taken just before. */
    lemma SnapshotWith(before: C.Players, g: GuildId)
      requires g in players
      requires forall h :: h in before <==> h in players && h != g
      requires forall h :: h in before ==> before[h] == players[h].State()
      ensures Snapshot() == before[g := players[g].State()]
    {
      ghost var after := Snapshot();
      assert after.Keys == before[g := players[g].State()].Keys;
    }

    /** A change to the player of guild `g` alone changes the snapshot at `g` alone. */
    twostate lemma OnlyOnePlayerChanged(g: GuildId)
      requires old(Valid()) && unchanged(this) && g in players
      requires forall h :: h in players && h != g ==> unchanged(players[h])
      requires players[g].Valid()
      ensures Valid()
      ensures Snapshot() == old(Snapshot())[g := players[g].State()]
    {
      ghost var after, expected := Snapshot(), old(Snapshot())[g := players[g].State()];
      assert after.Keys == expected.Keys;
      forall h | h in after
        ensures after[h] == expected[h]
      {
      }
    }

    /** Dropping the entry of `g` drops it from the snapshot `before` taken just before. */
    lemma SnapshotWithout(before: C.Players, g: GuildId)
      requires g !in players
      requires forall h :: h in before <==> h in players || h == g
      requires forall h :: h in players ==> before[h] == players[h].State()
      ensures Snapshot() == before - {g}
    {
      ghost var after := Snapshot();
      assert after.Keys == (before - {g}).Keys;
    }

    /** `can_override(ctx)`. */
    method CanOverride(ctx: C.Context) returns (allowed: bool)
      requires Valid()
      modifies this
      ensures Valid()
      ensures (Snapshot(), allowed) == C.CanOverrideCmd(old(Snapshot()), ctx)
      ensures forall h :: h in players ==> (h in old(players) && players[h] == old(players[h])) || fresh(players[h])
    {
      if ctx.author.isOwner || ctx.author.isAdmin {
        return true;
      }
      var p := GetPlayer(ctx.guild);
      allowed := Roles.CanOverride(ctx.author, ChannelOf(p.State(), ctx.members));
    }

    /** `join`. */
    method Join(ctx: C.Context, target: Option<ChannelId>) returns (outcome: C.JoinOutcome)
      requires Valid()
      modifies this, players.Values
      ensures Valid()
      ensures (Snapshot(), outcome) == C.Join(old(Snapshot()), ctx, target)
      ensures forall h :: h in players ==> (h in old(players) && players[h] == old(players[h])) || fresh(players[h])
    {
      var channel := target;
      if channel.None? && ctx.authorVoice.Some? {
        channel := ctx.authorVoice;
      }
      if channel.None? {
        return C.NoChannel;
      }
      var p := GetPlayer(ctx.guild);
      var mayOverride := Roles.CanOverride(ctx.author, ChannelOf(p.State(), ctx.members));
      outcome := C.JoinDecision(channel.value, ctx.authorVoice, C.BotChannel(p.State()), mayOverride);
      ghost var m1, s0 := Snapshot(), p.State();
      assert m1 == C.GetPlayer(old(Snapshot()), ctx.guild) && m1[ctx.guild] == s0;
      Steer(ctx.guild, outcome);
    }

    /** The voice step of `join`: `move_to` or `connect` as decided, on the guild's player. */
    method Steer(g: GuildId, outcome: C.JoinOutcome)
      requires Valid() && g in players
      requires outcome.Moved? ==> players[g].voiceClient.Some?
      modifies players[g]
      ensures Valid()
      ensures Snapshot() == old(Snapshot())[g := C.Steered(old(Snapshot())[g], outcome)]
    {
      var p := players[g];
      label L:
      if outcome.Moved? {
        p.MoveTo(outcome.channel);
      } else if outcome.Connected? {
        p.Connect(outcome.channel);
      }
      OnlyOnePlayerChanged@L(g);
    }

    /** `leave`, behind its rank check. */
    method Leave(ctx: C.Context) returns (outcome: C.LeaveOutcome)
      requires Valid()
      modifies this, players.Values
      ensures Valid()
      ensures (Snapshot(), outcome) == C.Leave(old(Snapshot()), ctx)
    {
      var allowed := CanOverride(ctx);
      if !allowed {
        return C.LeaveDenied;
      }
      ghost var m1 := Snapshot();
      var p := GetPlayer(ctx.guild);
      ghost var m2, s0 := Snapshot(), p.State();
      assert m2 == C.GetPlayer(m1, ctx.guild) && m2[ctx.guild] == s0;
      if p.voiceClient.Some? && p.voiceClient.value.connected {
        var released := Release(ctx.guild);
        outcome := C.Left(released);
      } else {
        outcome := C.NotInVoice;
      }
    }

    /** The connected branch of `leave`: stop, `destroy`, and delete the entry. */
    method Release(g: GuildId) returns (released: PlayerState)
      requires Valid() && g in players
      modifies this, players[g]
      ensures Valid()
      ensures released == Teardown(StopVoice(old(Snapshot())[g]))
      ensures Snapshot() == old(Snapshot()) - {g}
    {
      var p := players[g];
      label L:
      p.Stop();
      p.Destroy();
      OnlyOnePlayerChanged@L(g);
      released := p.State();
      Remove(g);
    }

    /** `del players[g]`. */
    method Remove(g: GuildId)
      requires Valid() && g in players
      modifies this
      ensures Valid()
      ensures players == old(players) - {g}
      ensures Snapshot() == old(Snapshot()) - {g}
    {
      ghost var before := Snapshot();
      players := players - {g};
      SnapshotWithout(before, g);
    }

    /** `play`: `resolved` is what the media lookup returned for the search term. */
    method Play(ctx: C.Context, resolved: Option<C.SongInfo>) returns (outcome: C.PlayOutcome)
      requires Valid()
      modifies this, players.Values
      ensures Valid()
      ensures (Snapshot(), outcome) == C.Play(old(Snapshot()), ctx, resolved)
    {
      ghost var m0 := Snapshot();
      var connected := ctx.guild in players && C.BotChannel(players[ctx.guild].State()).Some?;
      assert connected <==> C.BotChannel(C.Lookup(m0, ctx.guild)).Some?;
      if !connected {
        if ctx.authorVoice.None? {
          return C.NeedVoice;
        }
        var joined := Join(ctx, None);
      }
      ghost var m1 := Snapshot();
      assert m1 == if connected then m0 else C.Join(m0, ctx, None).0;
      outcome := QueueSong(ctx, resolved);
    }

    /** `play` once the bot is in voice: the rank check whose answer is unused, `get_player`, and the `put`. */
    method QueueSong(ctx: C.Context, resolved: Option<C.SongInfo>) returns (outcome: C.PlayOutcome)
      requires Valid()
      modifies this, players.Values
      ensures Valid()
      ensures (Snapshot(), outcome) == C.QueueSong(old(Snapshot()), ctx, resolved)
    {
      ghost var m0 := Snapshot();
      var mayOverride := CanOverride(ctx);
      ghost var m1 := Snapshot();
      assert m1 == C.CanOverrideCmd(m0, ctx).0;
      var p := GetPlayer(ctx.guild);
      ghost var m2 := Snapshot();
      assert m2 == C.GetPlayer(m1, ctx.guild);
      if resolved.None? {
        return C.LookupFailed;
      }
      var info := resolved.value;
      var playing := EnqueueSong(ctx.guild, Song(info.title, info.webpageUrl, info.url, ctx.author.member.name));
      if playing.None? {
        outcome := C.LookupFailed;
      } else if playing.value {
        outcome := C.AddedToQueue(info.title);
      } else {
        outcome := C.Queued;
      }
    }

    /** `player.queue.put(song)` followed by `player.voice_client.is_playing()` (None without a voice client). */
    method EnqueueSong(g: GuildId, song: Song) returns (playing: Option<bool>)
      requires Valid() && g in players
      modifies players[g]
      ensures Valid()
      ensures Snapshot() == old(Snapshot())[g := Put(old(Snapshot())[g], song)]
      ensures var v := Snapshot()[g].voice; playing == if v.Some? then Some(v.value.playing) else None
    {
      var p := players[g];
      label L:
      p.Enqueue(song);
      OnlyOnePlayerChanged@L(g);
      playing := if p.voiceClient.Some? then Some(p.voiceClient.value.playing) else None;
    }

    /** `skip`. */
    method Skip(ctx: C.Context) returns (outcome: SkipOutcome)
      requires Valid()
      modifies this, players.Values
      ensures Valid()
      ensures (Snapshot(), outcome) == C.SkipCmd(old(Snapshot()), ctx)
    {
      var p := GetPlayer(ctx.guild);
      label L:
      outcome := p.Skip(ctx.author, ctx.members);
      OnlyOnePlayerChanged@L(ctx.guild);
    }

    /** `show_queue`. */
    method ShowQueue(g: GuildId) returns (view: QueueView)
      requires Valid()
      modifies this
      ensures Valid()
      ensures (Snapshot(), view) == C.ShowQueueCmd(old(Snapshot()), g)
    {
      var p := GetPlayer(g);
      view := PM.ShowQueue(p.State());
    }

    /** `set_volume`, behind its `manage_channels` permission check. */
    method SetVolume(g: GuildId, canManageChannels: bool, v: int) returns (outcome: VolumeOutcome)
      requires Valid()
      modifies this, players.Values
      ensures Valid()
      ensures (Snapshot(), outcome) == C.SetVolume(old(Snapshot()), g, canManageChannels, v)
    {
      if !canManageChannels {
        return MissingPermission;
      }
      var p := GetPlayer(g);
      label L:
      outcome := p.SetVolume(v);
      OnlyOnePlayerChanged@L(g);
    }

    /** `pause`, behind its rank check. */
    method Pause(ctx: C.Context) returns (outcome: C.ControlOutcome)
      requires Valid()
      modifies this, players.Values
      ensures Valid()
      ensures (Snapshot(), outcome) == C.PauseCmd(old(Snapshot()), ctx)
    {
      var allowed := CanOverride(ctx);
      if !allowed {
        return C.ControlDenied;
      }
      var paused := PauseGuild(ctx.guild);
      outcome := if paused then C.Done else C.NothingToDo;
    }

    /** `get_player`, then pause the guild's voice client if it is playing. */
    method PauseGuild(g: GuildId) returns (paused: bool)
      requires Valid()
      modifies this, players.Values
      ensures Valid()
      ensures var m := C.GetPlayer(old(Snapshot()), g);
              var (b, s) := PauseVoice(m[g]);
              paused == b && Snapshot() == (if b then m[g := s] else m)
    {
      var p := GetPlayer(g);
      ghost var m := Snapshot();
      label L:
      paused := p.Pause();
      OnlyOnePlayerChanged@L(g);
      assert !paused ==> m[g := p.State()] == m;
    }

    /** `resume`, behind its rank check. */
    method Resume(ctx: C.Context) returns (outcome: C.ControlOutcome)
      requires Valid()
      modifies this, players.Values
      ensures Valid()
      ensures (Snapshot(), outcome) == C.ResumeCmd(old(Snapshot()), ctx)
    {
      var allowed := CanOverride(ctx);
      if !allowed {
        return C.ControlDenied;
      }
      var resumed := ResumeGuild(ctx.guild);
      outcome := if resumed then C.Done else C.NothingToDo;
    }

    /** `get_player`, then resume the guild's voice client if it is paused. */
    method ResumeGuild(g: GuildId) returns (resumed: bool)
      requires Valid()
      modifies this, players.Values
      ensures Valid()
      ensures var m := C.GetPlayer(old(Snapshot()), g);
              var (b, s) := ResumeVoice(m[g]);
              resumed == b && Snapshot() == (if b then m[g := s] else m)
    {
      var p := GetPlayer(g);
      ghost var m := Snapshot();
      label L:
      resumed := p.Resume();
      OnlyOnePlayerChanged@L(g);
      assert !resumed ==> m[g := p.State()] == m;
    }

    /** The transport's `after` callback on a registered guild's player. */
    method SongFinished(g: GuildId)
      requires Valid() && g in players
      modifies players[g]
      ensures Valid()
      ensures Snapshot() == old(Snapshot())[g := FinishTrack(old(Snapshot())[g])]
    {
      var p := players[g];
      label L:
      p.AfterSong();
      OnlyOnePlayerChanged@L(g);
    }

    /**
     * A step of a registered guild's `player_loop`; when the loop ends on the
     * idle timeout the guild's entry is removed as well.
     */
    method IdleStep(g: GuildId, timedOut: bool)
      requires Valid() && g in players
      modifies this, players[g]
      ensures Valid()
      ensures Snapshot() == C.IdleStep(old(Snapshot()), g, timedOut)
    {
      var p := players[g];
      var ends := C.TimesOut(p.State(), timedOut);
      label L:
      p.PlayerLoopStep(timedOut);
      OnlyOnePlayerChanged@L(g);
      if ends {
        Remove(g);
      }
    }
  }
}
