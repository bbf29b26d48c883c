# Tune Turtle: per-guild player state and role-rank access, in Dafny

This project models the core of the Tune Turtle Discord music bot (`Tune_Turtle_Bot.py`):

- the role-rank authority rules `get_highest_role` and `can_override`;
- the skip vote of the `skip` command;
- the `MusicPlayer` state machine, one per guild: a FIFO queue, the current song, the skip votes, the volume, the voice client, and where `player_loop` is;
- the `players` registry and the state logic of the command handlers (`join`, `leave`, `play`, `skip`, `queue`, `volume`, `pause`, `resume`);
- the guild allow-list of `on_ready` and `on_guild_join`.

Everything the bot sends to Discord, and everything it receives from yt-dlp or FFmpeg, is outside the model.

The model has two layers:

- **Pure layer.** Modules `Roles`, `Voting`, `PlayerModel`, `Playback` and `Commands` describe the player and the registry as values. `PlayerModel` has one transition function per way the source mutates a player. `Playback` applies any sequence of those events. `Commands` gives each command handler as a function over the map from guild id to player state.
- **Imperative layer.** Module `Player` holds the `MusicPlayer` class and module `Registry` holds the class that owns the `players` map. Their methods update fields in place, the way the source does. Each method is proved to perform exactly the matching pure transition, so every lemma about the pure layer also holds for the objects.

Modelling decisions:

- A member is a snapshot: id, display name, whether it is a bot, whether it has roles, and the position of its top role (`topRank`). As in discord.py, members are compared by id.
- Volume is stored as an integer percentage; the default is 50 (the source's 0.5).
- The queue is a `seq`; the skip votes are a `set` of member ids.
- The 300-second wait on the queue becomes a boolean argument saying whether the wait timed out.
- `ctx.voice_client` (the guild's live voice connection) is taken to be the player's voice client while that client is connected.
- `voice_client.channel.members` is a snapshot passed to each command.
- The result of the media lookup is a parameter (`None` when the lookup fails).

Points where the model follows the code's exact behaviour:

- `get_highest_role` skips members without roles. It does not treat them as having the lowest rank. So when every listener lacks a role, `can_override` refuses.
- An owner's or administrator's skip only calls `stop()`. The votes are cleared later, by `after_song`.
- The idle timeout does not remove the guild's registry entry (see Findings).
- Nothing restricts the votes to members who are still in the channel.

## Model

| member | source | states |
|---|---|---|
| Roles.HighestRoleIsMaximum | Tune_Turtle_Bot.py:138-150 | the running maximum is None iff no member is a non-bot with roles; otherwise it is the top rank of such a member and no such member ranks higher |
| Roles.GetHighestRole | Tune_Turtle_Bot.py:138-150 | the loop returns that maximum: None iff nobody is ranked, else a ranked member's top rank that bounds every ranked member |
| Roles.Listeners | Tune_Turtle_Bot.py:169 | a member is a listener iff it is in the channel, is not a bot and is not the author |
| Roles.CanOverride | Tune_Turtle_Bot.py:152-182 | true iff the author is owner or admin, or there is no voice client, or there are no listeners, or some listener has roles and the author strictly outranks every listener with roles (so a tie, or listeners who all lack roles, refuse) |
| Voting.NonBots | Tune_Turtle_Bot.py:360 | exactly the non-bot members of the channel, each as often as it occurs there, so its length is the number of non-bot members `len(members)` counts |
| Voting.RequiredVotes | Tune_Turtle_Bot.py:361 | `int(n*0.5)+1` is the smallest strict majority of n members |
| Voting.Skip | Tune_Turtle_Bot.py:338-374 | refused iff nothing plays; owner or admin skips with the votes untouched; without override, an author ranked strictly below the highest role in the channel is refused with the votes untouched (and only such an author, so a higher-ranked member is present), and a channel with no ranked member fails with the votes untouched; a tie reaches the vote; a repeat vote changes nothing; a passing or recorded vote adds exactly the author's new vote; playback stops iff the tally with that vote is a strict majority of non-bot members, else the remaining count is positive and adds up to the threshold |
| Voting.RepeatedVoteCountsOnce | Tune_Turtle_Bot.py:363-367 | voting twice raises the tally by at most one, and the second vote changes nothing |
| PlayerModel.Put | Tune_Turtle_Bot.py:326 | `queue.put` appends the song at the back and changes nothing else; the invariant is kept |
| PlayerModel.LoopStep | Tune_Turtle_Bot.py:73-98 | a waiting loop takes the oldest song as `current`; on a connected voice client that song plays and the loop waits for its completion, otherwise `play` raises and the loop crashes; a timeout over an empty queue disconnects and ends the loop, and no other step ends it; without a timeout an empty queue changes nothing, and a loop not waiting on the queue is unchanged; votes and volume are untouched; the invariant is kept |
| PlayerModel.Disconnected | Tune_Turtle_Bot.py:82-83 | a disconnected voice client is silent and not connected, on the same channel |
| PlayerModel.FinishTrack | Tune_Turtle_Bot.py:61-67 | with or without an error, `current` becomes None and the votes empty, a loop waiting for completion goes back to the queue, the voice client is silenced but keeps its channel and connection, and the queue and volume are untouched |
| PlayerModel.StopVoice | Tune_Turtle_Bot.py:347 | `stop()` silences the voice client and changes nothing else |
| PlayerModel.Teardown | Tune_Turtle_Bot.py:113-117 | `destroy` disconnects the voice client on its channel and the loop no longer runs; the queue, current song, votes and volume are untouched |
| PlayerModel.CastVote | Tune_Turtle_Bot.py:341-374 | the vote decision on the player's own voice client and votes; the queue, current song, volume and loop are untouched; a skip stops the audio and leaves the client connected on its channel; otherwise the voice client is untouched |
| PlayerModel.ChangeVolume | Tune_Turtle_Bot.py:405-413 | accepted iff there is a voice client and 0 <= v <= 100 (both bounds accepted); an accepted v becomes the volume; a rejected one changes nothing |
| PlayerModel.PauseVoice | Tune_Turtle_Bot.py:424-428 | pauses iff audio is playing, and then only the audio flags change (the client keeps its channel and connection); otherwise nothing changes |
| PlayerModel.ResumeVoice | Tune_Turtle_Bot.py:434-438 | resumes iff audio is paused, and then only the audio flags change (the client keeps its channel and connection); otherwise nothing changes |
| PlayerModel.ConnectVoice | Tune_Turtle_Bot.py:286 | the player gets a new, connected, silent voice client on the channel |
| PlayerModel.MoveVoice | Tune_Turtle_Bot.py:279 | the voice client moves to the channel and keeps playing |
| PlayerModel.ShowQueue | Tune_Turtle_Bot.py:376-398 | empty iff no song waits; otherwise one entry per waiting song, numbered from 1 in queue order, together with the current song |
| Playback.ApplyKeepsInv | Tune_Turtle_Bot.py:61-117 | every event keeps the invariant: volume in 0..100; a loop waiting on the queue (or ended by the timeout) has no current song and no votes; a loop waiting for completion has a current song; audio sounds only then, and only while connected |
| Playback.RunKeepsInv | Tune_Turtle_Bot.py:61-117 | any run of events keeps that invariant |
| Playback.ApplyQueue | Tune_Turtle_Bot.py:79 | one event removes a starting song from the front of the queue and adds a queued song at the back, and does nothing else to the queue |
| Playback.FifoOrder | Tune_Turtle_Bot.py:76-86 | over any run, the songs started followed by the songs still waiting equal the songs waiting at the start followed by the songs queued during the run |
| Playback.PlaysInQueueOrder | Tune_Turtle_Bot.py:76-86 | from an empty queue, the songs start in exactly the order they were queued |
| Playback.VotesClearedOnTrackChange | Tune_Turtle_Bot.py:61-67 | whenever `current` changes, the vote set is empty, so votes never carry over to the next song |
| Playback.FinishedPlayerNeverPlays | Tune_Turtle_Bot.py:80-84 | once the loop has ended on the idle timeout, no later event starts a song |
| Playback.NewPlayerPlays | Tune_Turtle_Bot.py:33-44 | a fresh player that connects and is given a song starts exactly that song |
| Player.MusicPlayer.constructor | Tune_Turtle_Bot.py:33-44 | a new player has an empty queue, no current song, no votes, volume 50, no voice client, and a loop waiting for a song |
| Player.MusicPlayer.Enqueue | Tune_Turtle_Bot.py:326 | the fields change as `Put` says, and the invariant is kept |
| Player.MusicPlayer.AfterSong | Tune_Turtle_Bot.py:61-67 | the fields change as `FinishTrack` says |
| Player.MusicPlayer.PlayerLoopStep | Tune_Turtle_Bot.py:73-98 | the fields change as `LoopStep` says |
| Player.MusicPlayer.Stop | Tune_Turtle_Bot.py:295 | the fields change as `StopVoice` says |
| Player.MusicPlayer.Destroy | Tune_Turtle_Bot.py:113-117 | the fields change as `Teardown` says |
| Player.MusicPlayer.SetVolume | Tune_Turtle_Bot.py:405-413 | outcome and fields as `ChangeVolume` says |
| Player.MusicPlayer.Pause | Tune_Turtle_Bot.py:424-428 | outcome and fields as `PauseVoice` says |
| Player.MusicPlayer.Resume | Tune_Turtle_Bot.py:434-438 | outcome and fields as `ResumeVoice` says |
| Player.MusicPlayer.Connect | Tune_Turtle_Bot.py:286 | the fields change as `ConnectVoice` says |
| Player.MusicPlayer.MoveTo | Tune_Turtle_Bot.py:279 | the fields change as `MoveVoice` says |
| Player.MusicPlayer.Skip | Tune_Turtle_Bot.py:341-374 | the source's guards, using the highest-role loop, give the outcome and votes of `CastVote` |
| Player.MusicPlayer.Vote | Tune_Turtle_Bot.py:359-374 | the vote part of `skip`: the outcome and votes the vote rule gives, with `stop()` exactly when it passes |
| Commands.GetPlayer | Tune_Turtle_Bot.py:128-132 | an existing entry is returned and the map is unchanged; a missing one is created as a new player, the only key added; other guilds are untouched |
| Commands.BotChannel | Tune_Turtle_Bot.py:269-270 | there is a live connection iff the voice client is present and connected, and it is on the voice client's channel |
| Commands.CanOverrideCmd | Tune_Turtle_Bot.py:152-182 | the decision of `CanOverride` on the guild's player; owner or admin decide before `get_player` and leave the map alone |
| Commands.JoinDecision | Tune_Turtle_Bot.py:264-286 | "already here" iff connected to the target; a move needs the override and a different channel; a connect needs the author's own channel or the override; an author outside voice crashes a connect; the override is never refused |
| Commands.Join | Tune_Turtle_Bot.py:259-288 | no channel iff none is given and the author is not in voice, and then nothing changes; otherwise the outcome is the decision tree on the requested channel (or else the author's), the bot's current channel and the override rule, and the guild gains a player; a move changes only the client's channel and keeps the audio going, a connect gives a new connected, silent client on the channel; only the voice client changes, and other guilds are untouched |
| Commands.Leave | Tune_Turtle_Bot.py:290-300 | the entry is deleted iff the author may override and the voice client is connected, and the released player is silent, disconnected and no longer running; otherwise only `get_player` takes effect; other guilds are untouched |
| Commands.Play | Tune_Turtle_Bot.py:302-335 | refused, with no effect, iff the bot is not connected and the author is not in voice; otherwise a bot outside voice gets a new connected, silent client on the author's channel and a connected bot keeps its client, the resolved song, requested by the author, is appended to the queue, and nothing but the queue and the voice client changes; a failed lookup reports failure, and a queued song is reported as added iff the client is playing; other guilds are untouched |
| Commands.SkipCmd | Tune_Turtle_Bot.py:338-374 | the outcome is that of `Skip` on the guild's player, and the player becomes exactly what `CastVote` makes of it: votes as decided, queue, current song, volume and loop unchanged, a skip silences it; other guilds untouched |
| Commands.ShowQueueCmd | Tune_Turtle_Bot.py:376-398 | only `get_player` takes effect; empty iff the guild's queue is empty; otherwise one entry per waiting song, numbered from 1 in queue order with its title, link and requester, together with the current song |
| Commands.SetVolume | Tune_Turtle_Bot.py:401-418 | without `manage_channels` nothing at all happens; otherwise the volume changes iff there is a voice client and 0 <= v <= 100, and nothing else changes |
| Commands.PauseCmd | Tune_Turtle_Bot.py:420-428 | pauses iff the author may override and audio is playing; otherwise only `get_player` takes effect |
| Commands.ResumeCmd | Tune_Turtle_Bot.py:430-438 | resumes iff the author may override and audio is paused; otherwise only `get_player` takes effect |
| Commands.IdleStep | Tune_Turtle_Bot.py:76-84 | corrected loop step: a timeout over an empty queue removes the guild's entry, so the next `get_player` creates a fresh player; other steps are `LoopStep` |
| Commands.TimeoutLeavesDeadPlayer | Tune_Turtle_Bot.py:80-84 | as written, after the timeout `get_player` keeps returning the ended player, and no event ever starts a song on it |
| Registry.Registry.constructor | Tune_Turtle_Bot.py:126 | the registry starts empty |
| Registry.Registry.GetPlayer | Tune_Turtle_Bot.py:128-132 | returns the existing object when the guild has one, leaving the map unchanged; otherwise exactly one new player is inserted; the snapshot follows `Commands.GetPlayer` |
| Registry.Registry.CanOverride | Tune_Turtle_Bot.py:152-182 | result and registry as `Commands.CanOverrideCmd` |
| Registry.Registry.Join | Tune_Turtle_Bot.py:259-288 | result and registry as `Commands.Join` |
| Registry.Registry.Steer | Tune_Turtle_Bot.py:279-286 | the guild's player moves or connects as decided, and nothing else in the registry changes |
| Registry.Registry.Leave | Tune_Turtle_Bot.py:290-300 | result and registry as `Commands.Leave` |
| Registry.Registry.Release | Tune_Turtle_Bot.py:294-297 | stop, destroy and delete: the entry is gone and the released state is the torn-down player |
| Registry.Registry.Remove | Tune_Turtle_Bot.py:297 | `del players[g]`: exactly that entry leaves the registry |
| Registry.Registry.Play | Tune_Turtle_Bot.py:302-335 | result and registry as `Commands.Play` |
| Registry.Registry.QueueSong | Tune_Turtle_Bot.py:313-335 | once the bot is in voice: the unused rank check, `get_player` and the `put`, with registry and outcome as in `Commands.Play` |
| Registry.Registry.EnqueueSong | Tune_Turtle_Bot.py:326-328 | the guild's queue gains the song; reports whether the voice client is playing |
| Registry.Registry.Skip | Tune_Turtle_Bot.py:338-374 | result and registry as `Commands.SkipCmd` |
| Registry.Registry.ShowQueue | Tune_Turtle_Bot.py:376-398 | result and registry as `Commands.ShowQueueCmd` |
| Registry.Registry.SetVolume | Tune_Turtle_Bot.py:401-418 | result and registry as `Commands.SetVolume` |
| Registry.Registry.Pause | Tune_Turtle_Bot.py:420-428 | result and registry as `Commands.PauseCmd` |
| Registry.Registry.PauseGuild | Tune_Turtle_Bot.py:423-428 | after `get_player`, the guild's player pauses iff it is playing, and the registry is otherwise untouched |
| Registry.Registry.Resume | Tune_Turtle_Bot.py:430-438 | result and registry as `Commands.ResumeCmd` |
| Registry.Registry.ResumeGuild | Tune_Turtle_Bot.py:433-438 | after `get_player`, the guild's player resumes iff it is paused, and the registry is otherwise untouched |
| Registry.Registry.SongFinished | Tune_Turtle_Bot.py:61-67 | the guild's player goes through `FinishTrack`; other guilds untouched |
| Registry.Registry.IdleStep | Tune_Turtle_Bot.py:76-84 | registry as `Commands.IdleStep`: the entry is removed when the loop ends on the timeout |
| Allowlist.UnauthorizedExactly | Tune_Turtle_Bot.py:201-205 | the guilds left at startup are exactly those whose id is not in `ALLOWED_SERVERS` |
| Allowlist.CleanupOnReady | Tune_Turtle_Bot.py:201-205 | the loop collects exactly the guilds not on the allow-list, in order |
| Allowlist.OnGuildJoin | Tune_Turtle_Bot.py:212-220 | a joined guild is left iff its id is not allowed |
| Allowlist.StartupAgreesWithJoin | Tune_Turtle_Bot.py:201-218 | startup and invitation apply the same rule to every guild |

## Left out

- Discord messaging (`ctx.send`, embeds, the "Now Playing" message, presence) is not modelled. It has no effect on state; its failures are not modelled either.
- `guild.leave` is not called: the model returns the guilds to leave, or a verdict.
- Voice connect, move and disconnect are modelled as immediate, successful state changes. Transport failures such as connection timeouts are not modelled.
- The disconnect that `destroy` schedules is applied at once.
- `get_source` and yt-dlp are a foreign media lookup. Their result is the `resolved` parameter; a failed lookup is `None`.
- FFmpeg audio and `PCMVolumeTransformer` are not modelled. This includes updating the live source's volume (lines 415-416).
- Volume is an integer percentage, not the source's float.
- asyncio is not modelled: events, tasks, cancellation, `bot.wait_until_ready`, the `bot.is_closed()` loop condition, and the real 300-second timer. The timer is a boolean dequeue outcome.
- Races between concurrent commands, votes or loop steps are not modelled. Every operation is atomic.
- When `ctx.voice_client` and the player's voice client diverge (only possible while a scheduled disconnect is pending) is not modelled.
- `after_song` setting `_play_next` is modelled as waking the loop only when the loop waits for completion. A completion arriving while the loop waits on the queue cannot happen in the model, because audio only sounds while the loop waits for completion.
- `voice_client.play` raising "Already playing audio" is not a separate case. The invariant shows the loop never dequeues while audio sounds.
- `int(n * 0.5)` is taken as exact integer halving. Float rounding for n above 2^53 is not modelled.
- discord.py's `Member.roles` always contains the default role, so real members have roles. The model keeps the source's test as the `hasRoles` flag.
- `on_command_error` (lines 227-253) is not modelled: it maps exceptions to messages by matching their text. Commands that raise are modelled as outcomes (`NoRankedMember`, `AuthorNotInVoice`, and `LookupFailed` for the exception `play` catches).
- Startup, token and environment reading, and `bot.run` (lines 8-29, 121-123, 195-199, 441-445) are not modelled.

## Findings

| source | as written | input that shows it | evidently intended | confidence | as-written member | corrected member |
|---|---|---|---|---|---|---|
| Tune_Turtle_Bot.py:80-84 | on the idle timeout `player_loop` disconnects and returns, but `players[guild]` keeps the player whose loop has ended | a guild stays idle for 300 s after its last song, then a member in voice sends `!play x`: `join` reconnects the same player, the song is queued, and nothing ever takes it off the queue | the timeout also removes the guild's entry, so the next command creates a fresh player whose loop is running | medium, not executed | Commands.TimeoutLeavesDeadPlayer | Commands.IdleStep |

The registry class uses the corrected step (`Registry.Registry.IdleStep`). `Player.MusicPlayer.PlayerLoopStep` keeps the loop body as written, since the removal belongs to the registry.
