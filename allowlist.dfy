/**
 * The guild allow-list: the bot leaves every guild whose id is not listed,
 * both when it starts (`on_ready`) and when it is invited (`on_guild_join`).
 */
module Allowlist {
  import opened Wrappers

  /** `ALLOWED_SERVERS`. */
  const AllowedServers: set<GuildId> := {1439561356960464979}

  datatype Guild = Guild(id: GuildId, name: string)

  /** The guilds `on_ready` leaves, in the order it visits them. */
  function Unauthorized(guilds: seq<Guild>): seq<Guild>
  {
    if |guilds| == 0 then []
    else
      var last := guilds[|guilds| - 1];
      Unauthorized(guilds[..|guilds| - 1]) + (if last.id !in AllowedServers then [last] else [])
  }

  /** Exactly the guilds whose id is not allowed are left. */
  lemma {:induction false} UnauthorizedExactly(guilds: seq<Guild>)
    ensures forall g :: g in Unauthorized(guilds) <==> g in guilds && g.id !in AllowedServers
    ensures |Unauthorized(guilds)| <= |guilds|
  {
    if |guilds| > 0 {
      var init := guilds[..|guilds| - 1];
      assert guilds == init + [guilds[|guilds| - 1]];
      UnauthorizedExactly(init);
    }
  }

  /** The loop of `on_ready`: collect (and leave) every guild not on the allow-list. */
  method CleanupOnReady(guilds: seq<Guild>) returns (left: seq<Guild>)
    ensures left == Unauthorized(guilds)
    ensures forall g :: g in left <==> g in guilds && g.id !in AllowedServers
  {
    left := [];
    for i := 0 to |guilds|
      invariant left == Unauthorized(guilds[..i])
    {
      assert guilds[..i + 1][..i] == guilds[..i];
      var guild := guilds[i];
      if guild.id !in AllowedServers {
        left := left + [guild];
      }
    }
    assert guilds[..|guilds|] == guilds;
    UnauthorizedExactly(guilds);
  }

  datatype JoinVerdict = Stay | LeaveGuild

  /** `on_guild_join`. */
  function OnGuildJoin(g: Guild): (v: JoinVerdict)
    ensures v == LeaveGuild <==> g.id !in AllowedServers
  {
    if g.id !in AllowedServers then LeaveGuild else Stay
  }

  /** Startup and invitation apply the same rule: a guild is left at startup iff it would be left on joining. */
  lemma StartupAgreesWithJoin(guilds: seq<Guild>, g: Guild)
    requires g in guilds
    ensures g in Unauthorized(guilds) <==> OnGuildJoin(g) == LeaveGuild
  {
    UnauthorizedExactly(guilds);
  }
}
