/**
 * The `players` registry and the command handlers, as functions over the map
 * from guild id to player state. Each handler does what the source's handler
 * does to the map and to its guild's player, and returns what it reports.
 */
module Commands {
  import opened Wrappers
  import opened Roles
  import opened Voting
  import opened PlayerModel
  import opened Playback

  type Players = map<GuildId, PlayerState>

  /**
   * What a command sees of its context: the guild, the author, the voice
   * channel the author is in, and the members of the channel the guild's voice
   * client is in.
   */
  datatype Context = Context(guild: GuildId, author: Author, authorVoice: Option<ChannelId>, members: seq<Member>)

  /** What the media lookup returns for a search term. */
  datatype SongInfo = SongInfo(title: string, webpageUrl: string, url: string)

  predicate RegistryInv(m: Players)
  {
    forall g :: g in m ==> Inv(m[g])
  }

  /** No guild other than `g` gains, loses or changes its player. */
  ghost predicate OthersUntouched(m: Players, r: Players, g: GuildId)
  {
    forall h :: h != g ==> (h in r <==> h in m) && (h in m ==> r[h] == m[h])
  }

  /** The state `get_player` returns for `g`. */
  function Lookup(m: Players, g: GuildId): PlayerState
  {
    if g in m then m[g] else Initial()
  }

  /** `get_player`: the registry after looking up or creating the guild's player. */
  function GetPlayer(m: Players, g: GuildId): (r: Players)
    ensures g in r && r[g] == Lookup(m, g)
    ensures g in m ==> r == m
    ensures g !in m ==> r.Keys == m.Keys + {g} && r[g] == Initial()
    ensures OthersUntouched(m, r, g)
    ensures RegistryInv(m) ==> RegistryInv(r)
  {
    if g in m then m else m[g := Initial()]
  }

  /** `ctx.voice_client`: the channel of the guild's live voice connection, if any. */
  function BotChannel(s: PlayerState): (r: Option<ChannelId>)
    ensures r.Some? <==> s.voice.Some? && s.voice.value.connected
    ensures r.Some? ==> r.value == s.voice.value.channel
  {
    if s.voice.Some? && s.voice.value.connected then Some(s.voice.value.channel) else None
  }

  /** `can_override(ctx)`, which calls `get_player` unless the author is owner or admin. */
  function CanOverrideCmd(m: Players, ctx: Context): (r: (Players, bool))
    ensures r.1 == CanOverride(ctx.author, ChannelOf(Lookup(m, ctx.guild), ctx.members))
    ensures ctx.author.isOwner || ctx.author.isAdmin ==> r.0 == m && r.1
    ensures !(ctx.author.isOwner || ctx.author.isAdmin) ==> r.0 == GetPlayer(m, ctx.guild)
  {
    if ctx.author.isOwner || ctx.author.isAdmin then (m, true)
    else
      var m1 := GetPlayer(m, ctx.guild);
      (m1, CanOverride(ctx.author, ChannelOf(m1[ctx.guild], ctx.members)))
  }

  datatype JoinOutcome =
    | NoChannel
    | AlreadyHere
    | MoveDenied
    | ConnectDenied
    /** `ctx.author.voice.channel` on an author outside voice: the command fails with an internal error. */
    | AuthorNotInVoice
    | Moved(channel: ChannelId)
    | Connected(channel: ChannelId)

  /** The decision tree of `join` once the target channel is known. */
  function JoinDecision(channel: ChannelId, authorVoice: Option<ChannelId>, botChannel: Option<ChannelId>,
                        mayOverride: bool): (r: JoinOutcome)
    ensures !r.NoChannel?
    ensures r.AlreadyHere? <==> botChannel == Some(channel)
    ensures r.Moved? ==> botChannel.Some? && botChannel.value != channel && mayOverride && r.channel == channel
    ensures r.Connected? ==> botChannel.None? && r.channel == channel && (authorVoice == Some(channel) || mayOverride)
    ensures r.AuthorNotInVoice? <==> botChannel.None? && authorVoice.None?
    ensures botChannel.None? && authorVoice == Some(channel) ==> r == Connected(channel)
    ensures mayOverride ==> !r.MoveDenied? && !r.ConnectDenied?
  {
    if botChannel.Some? then
      if botChannel.value == channel then AlreadyHere
      else if !mayOverride then MoveDenied
      else Moved(channel)
    else if authorVoice.None? then AuthorNotInVoice
    else if channel != authorVoice.value && !mayOverride then ConnectDenied
    else Connected(channel)
  }

  /** `join`: the explicit channel, or else the author's own. */
  function Join(m: Players, ctx: Context, target: Option<ChannelId>): (r: (Players, JoinOutcome))
    ensures r.1.NoChannel? <==> target.None? && ctx.authorVoice.None?
    ensures r.1.NoChannel? ==> r.0 == m
    ensures !r.1.NoChannel? ==>
              r.1 == JoinDecision(if target.Some? then target.value else ctx.authorVoice.value, ctx.authorVoice,
                                  BotChannel(Lookup(m, ctx.guild)),
                                  CanOverride(ctx.author, ChannelOf(Lookup(m, ctx.guild), ctx.members)))
    ensures !r.1.NoChannel? ==> ctx.guild in r.0 && r.0.Keys == m.Keys + {ctx.guild}
    ensures r.1.Moved? || r.1.Connected? ==> BotChannel(r.0[ctx.guild]) == Some(r.1.channel)
    ensures r.1.Connected? ==> BotChannel(Lookup(m, ctx.guild)).None?
    // `move_to` keeps the audio going; `connect` gives a new, silent client
    ensures r.1.Moved? ==> r.0[ctx.guild].voice == Some(Lookup(m, ctx.guild).voice.value.(channel := r.1.channel))
    ensures r.1.Connected? ==> r.0[ctx.guild].voice == Some(VoiceClient(r.1.channel, true, false, false))
    ensures !r.1.Moved? && !r.1.Connected? && !r.1.NoChannel? ==> r.0 == GetPlayer(m, ctx.guild)
    ensures ctx.guild in r.0 ==> r.0[ctx.guild] == Lookup(m, ctx.guild).(voice := r.0[ctx.guild].voice)
    ensures OthersUntouched(m, r.0, ctx.guild)
    ensures RegistryInv(m) ==> RegistryInv(r.0)
  {
    var channel := if target.None? && ctx.authorVoice.Some? then ctx.authorVoice else target;
    if channel.None? then (m, NoChannel)
    else
      var m1 := GetPlayer(m, ctx.guild);
      var s := m1[ctx.guild];
      var outcome := JoinDecision(channel.value, ctx.authorVoice, BotChannel(s),
                                  CanOverride(ctx.author, ChannelOf(s, ctx.members)));
      assert m1[ctx.guild := s] == m1;
      (m1[ctx.guild := Steered(s, outcome)], outcome)
  }

  /** The player after the voice step of `join`: `move_to` or `connect` as decided, else unchanged. */
  function Steered(s: PlayerState, outcome: JoinOutcome): PlayerState
    requires outcome.Moved? ==> s.voice.Some?
  {
    if outcome.Moved? then MoveVoice(s, outcome.channel)
    else if outcome.Connected? then ConnectVoice(s, outcome.channel)
    else s
  }

  datatype LeaveOutcome = LeaveDenied | NotInVoice | Left(released: PlayerState)

  /**
   * `leave` behind its rank check: with a live connection, stop, destroy and
   * delete the guild's entry; the released player is returned.
   */
  function Leave(m: Players, ctx: Context): (r: (Players, LeaveOutcome))
    ensures var s := Lookup(m, ctx.guild);
            r.1.Left? <==> CanOverride(ctx.author, ChannelOf(s, ctx.members)) && BotChannel(s).Some?
    ensures r.1.Left? ==> r.0 == m - {ctx.guild}
    ensures !r.1.Left? ==> r.0 == GetPlayer(m, ctx.guild)
    ensures r.1.Left? ==>
              r.1.released.queue == Lookup(m, ctx.guild).queue &&
              !Sounding(r.1.released) && BotChannel(r.1.released).None? &&
              !r.1.released.loop.AwaitingSong? && !r.1.released.loop.AwaitingCompletion?
    ensures OthersUntouched(m, r.0, ctx.guild)
    ensures RegistryInv(m) ==> RegistryInv(r.0)
  {
    var (m1, allowed) := CanOverrideCmd(m, ctx);
    if !allowed then (m1, LeaveDenied)
    else
      var m2 := GetPlayer(m1, ctx.guild);
      var s := m2[ctx.guild];
      if s.voice.Some? && s.voice.value.connected then (m2 - {ctx.guild}, Left(Teardown(StopVoice(s))))
      else (m2, NotInVoice)
  }

  datatype PlayOutcome = NeedVoice | LookupFailed | AddedToQueue(title: string) | Queued

  /**
   * `play`: join the author's channel when the bot is not connected, then queue
   * the song the lookup returned (`resolved`), requested by the author.
   */
  function Play(m: Players, ctx: Context, resolved: Option<SongInfo>): (r: (Players, PlayOutcome))
    ensures r.1.NeedVoice? <==> BotChannel(Lookup(m, ctx.guild)).None? && ctx.authorVoice.None?
    ensures r.1.NeedVoice? ==> r.0 == m
    ensures !r.1.NeedVoice? ==> ctx.guild in r.0 && BotChannel(r.0[ctx.guild]).Some?
    ensures !r.1.NeedVoice? ==>
              r.0[ctx.guild].queue ==
                Lookup(m, ctx.guild).queue +
                (if resolved.Some?
                 then [Song(resolved.value.title, resolved.value.webpageUrl, resolved.value.url, ctx.author.member.name)]
                 else [])
    ensures !r.1.NeedVoice? ==>
              r.0[ctx.guild] == Lookup(m, ctx.guild).(queue := r.0[ctx.guild].queue, voice := r.0[ctx.guild].voice)
    // a bot outside voice joins the author's channel; a connected bot stays where it is
    ensures !r.1.NeedVoice? && BotChannel(Lookup(m, ctx.guild)).None? ==> BotChannel(r.0[ctx.guild]) == ctx.authorVoice
    ensures BotChannel(Lookup(m, ctx.guild)).Some? ==> r.0[ctx.guild].voice == Lookup(m, ctx.guild).voice
    ensures !r.1.NeedVoice? && BotChannel(Lookup(m, ctx.guild)).None? ==>
              r.0[ctx.guild].voice == Some(VoiceClient(ctx.authorVoice.value, true, false, false))
    ensures r.1.AddedToQueue? ==> resolved.Some? && r.1.title == resolved.value.title
    ensures !r.1.NeedVoice? && resolved.None? ==> r.1.LookupFailed?
    ensures !r.1.NeedVoice? && resolved.Some? ==> (r.1.AddedToQueue? <==> IsPlaying(r.0[ctx.guild]))
    ensures OthersUntouched(m, r.0, ctx.guild)
    ensures RegistryInv(m) ==> RegistryInv(r.0)
  {
    if BotChannel(Lookup(m, ctx.guild)).None? && ctx.authorVoice.None? then (m, NeedVoice)
    else QueueSong(if BotChannel(Lookup(m, ctx.guild)).None? then Join(m, ctx, None).0 else m, ctx, resolved)
  }

  /** The part of `play` after the bot is in voice: the unused rank check, `get_player` and the `put`. */
  function QueueSong(m: Players, ctx: Context, resolved: Option<SongInfo>): (r: (Players, PlayOutcome))
  {
    var m1 := GetPlayer(CanOverrideCmd(m, ctx).0, ctx.guild);
    if resolved.None? then (m1, LookupFailed)
    else
      var info := resolved.value;
      var s := Put(m1[ctx.guild], Song(info.title, info.webpageUrl, info.url, ctx.author.member.name));
      (m1[ctx.guild := s],
       if s.voice.None? then LookupFailed else if s.voice.value.playing then AddedToQueue(info.title) else Queued)
  }

  /** `skip`. */
  function SkipCmd(m: Players, ctx: Context): (r: (Players, SkipOutcome))
    ensures var s := Lookup(m, ctx.guild);
            var v := Skip(ctx.author, ChannelOf(s, ctx.members), IsPlaying(s), s.skipVotes);
            r.1 == v.outcome && ctx.guild in r.0 && r.0[ctx.guild].skipVotes == v.votes &&
            r.0[ctx.guild].queue == s.queue && r.0[ctx.guild].current == s.current
    ensures ctx.guild in r.0 && r.0[ctx.guild] == CastVote(Lookup(m, ctx.guild), ctx.author, ctx.members).1
    ensures StopsPlayback(r.1) ==> !Sounding(r.0[ctx.guild])
    ensures r.0.Keys == m.Keys + {ctx.guild}
    ensures OthersUntouched(m, r.0, ctx.guild)
    ensures RegistryInv(m) ==> RegistryInv(r.0)
  {
    var m1 := GetPlayer(m, ctx.guild);
    var (outcome, s) := CastVote(m1[ctx.guild], ctx.author, ctx.members);
    (m1[ctx.guild := s], outcome)
  }

  /** `show_queue`. */
  function ShowQueueCmd(m: Players, g: GuildId): (r: (Players, QueueView))
    ensures r.0 == GetPlayer(m, g)
    ensures r.1.EmptyQueue? <==> |Lookup(m, g).queue| == 0
    ensures var q := Lookup(m, g).queue;
            r.1.Listing? ==>
              |r.1.entries| == |q| && r.1.current == Lookup(m, g).current &&
              forall i :: 0 <= i < |q| ==> r.1.entries[i] == Entry(i + 1, q[i].title, q[i].webpageUrl, q[i].requester)
  {
    (GetPlayer(m, g), ShowQueue(Lookup(m, g)))
  }

  /** `set_volume`, behind its `manage_channels` permission check (which runs before `get_player`). */
  function SetVolume(m: Players, g: GuildId, canManageChannels: bool, v: int): (r: (Players, VolumeOutcome))
    ensures !canManageChannels ==> r == (m, MissingPermission)
    ensures r.1.VolumeSet? <==> canManageChannels && Lookup(m, g).voice.Some? && 0 <= v <= 100
    ensures canManageChannels ==>
              (g in r.0 &&
               r.0[g].volume == (if r.1.VolumeSet? then v else Lookup(m, g).volume) &&
               r.0[g] == Lookup(m, g).(volume := r.0[g].volume))
    ensures OthersUntouched(m, r.0, g)
    ensures RegistryInv(m) ==> RegistryInv(r.0)
  {
    if !canManageChannels then (m, MissingPermission)
    else
      var m1 := GetPlayer(m, g);
      var (outcome, s) := ChangeVolume(m1[g], v);
      (m1[g := s], outcome)
  }

  datatype ControlOutcome = ControlDenied | Done | NothingToDo

  /** `pause` behind its rank check. */
  function PauseCmd(m: Players, ctx: Context): (r: (Players, ControlOutcome))
    ensures var s := Lookup(m, ctx.guild);
            r.1.Done? <==> CanOverride(ctx.author, ChannelOf(s, ctx.members)) && IsPlaying(s)
    ensures r.1.Done? ==> ctx.guild in r.0 && r.0[ctx.guild] == PauseVoice(Lookup(m, ctx.guild)).1
    ensures !r.1.Done? ==> r.0 == GetPlayer(m, ctx.guild)
    ensures OthersUntouched(m, r.0, ctx.guild)
    ensures RegistryInv(m) ==> RegistryInv(r.0)
  {
    var (m1, allowed) := CanOverrideCmd(m, ctx);
    if !allowed then (m1, ControlDenied)
    else
      var m2 := GetPlayer(m1, ctx.guild);
      var (paused, s) := PauseVoice(m2[ctx.guild]);
      if paused then (m2[ctx.guild := s], Done) else (m2, NothingToDo)
  }

  /** `resume` behind its rank check. */
  function ResumeCmd(m: Players, ctx: Context): (r: (Players, ControlOutcome))
    ensures var s := Lookup(m, ctx.guild);
            r.1.Done? <==> CanOverride(ctx.author, ChannelOf(s, ctx.members)) && s.voice.Some? && s.voice.value.paused
    ensures r.1.Done? ==> ctx.guild in r.0 && r.0[ctx.guild] == ResumeVoice(Lookup(m, ctx.guild)).1
    ensures !r.1.Done? ==> r.0 == GetPlayer(m, ctx.guild)
    ensures OthersUntouched(m, r.0, ctx.guild)
    ensures RegistryInv(m) ==> RegistryInv(r.0)
  {
    var (m1, allowed) := CanOverrideCmd(m, ctx);
    if !allowed then (m1, ControlDenied)
    else
      var m2 := GetPlayer(m1, ctx.guild);
      var (resumed, s) := ResumeVoice(m2[ctx.guild]);
      if resumed then (m2[ctx.guild := s], Done) else (m2, NothingToDo)
  }

  /** Whether a loop step ends the loop on the idle timeout. */
  predicate TimesOut(s: PlayerState, timedOut: bool)
  {
    s.loop.AwaitingSong? && |s.queue| == 0 && timedOut
  }

  /**
   * A step of a registered guild's `player_loop`, with the registry entry
   * removed when the loop ends on the idle timeout, so that the next command
   * creates a fresh player with a live loop.
   */
  function IdleStep(m: Players, g: GuildId, timedOut: bool): (r: Players)
    requires g in m
    ensures TimesOut(m[g], timedOut) ==> r == m - {g} && GetPlayer(r, g)[g] == Initial()
    ensures !TimesOut(m[g], timedOut) ==> r == m[g := LoopStep(m[g], timedOut)]
    ensures OthersUntouched(m, r, g)
    ensures RegistryInv(m) ==> RegistryInv(r)
  {
    if TimesOut(m[g], timedOut) then m - {g} else m[g := LoopStep(m[g], timedOut)]
  }

  /**
   * As the source is written, the idle timeout ends the loop but leaves the
   * entry in `players`: every later `get_player` returns that player, and no
   * song queued to it ever starts.
   */
  lemma TimeoutLeavesDeadPlayer(m: Players, g: GuildId)
    requires g in m && TimesOut(m[g], true)
    ensures var stale := m[g := LoopStep(m[g], true)];
            GetPlayer(stale, g) == stale &&
            forall evs :: Started(Lookup(stale, g), evs) == []
  {
    var stale := m[g := LoopStep(m[g], true)];
    forall evs
      ensures Started(Lookup(stale, g), evs) == []
    {
      FinishedPlayerNeverPlays(Lookup(stale, g), evs);
    }
  }
}
