/**
 * The skip vote of the `skip` command: guards, the idempotent vote and the
 * majority threshold.
 */
module Voting {
  import opened Wrappers
  import opened Roles

  /** The non-bot members of a channel, in order (`members` in `skip`). */
  function NonBots(ms: seq<Member>): (r: seq<Member>)
    ensures forall m :: m in r <==> m in ms && !m.isBot
    ensures forall m :: multiset(r)[m] == if m.isBot then 0 else multiset(ms)[m]
    ensures |r| <= |ms|
  {
    if |ms| == 0 then []
    else
      assert ms == [ms[0]] + ms[1..];
      (if ms[0].isBot then [] else [ms[0]]) + NonBots(ms[1..])
  }

  /** `int(n * 0.5) + 1`: the smallest number of votes that is a strict majority of `n` members. */
  function RequiredVotes(n: nat): (r: nat)
    ensures 2 * r > n
    ensures 2 * (r - 1) <= n
  {
    n / 2 + 1
  }

  datatype SkipOutcome =
    | NothingPlaying
    | SkippedByAdmin
    /** The author cannot override and ranks strictly below the highest role in the channel. */
    | Outranked
    /** The rank guard dereferenced a missing highest role: the command fails with an internal error. */
    | NoRankedMember
    | AlreadyVoted
    | VotePassed
    | VoteRecorded(count: nat, required: nat, remaining: nat)

  /** The outcomes on which `skip` calls `voice_client.stop()`. */
  predicate StopsPlayback(o: SkipOutcome)
  {
    o.SkippedByAdmin? || o.VotePassed?
  }

  datatype SkipResult = SkipResult(outcome: SkipOutcome, votes: set<MemberId>)

  /**
   * `skip`, after `get_player`. `channel` is None when the player has no voice
   * client and otherwise the members of its channel; `playing` is
   * `voice_client.is_playing()`; `votes` is `skip_votes`.
   */
  function Skip(a: Author, channel: Option<seq<Member>>, playing: bool, votes: set<MemberId>): (r: SkipResult)
    // a vote is only ever the author's own, counted once
    ensures r.votes == votes || (a.member.id !in votes && r.votes == votes + {a.member.id})
    ensures r.outcome.NothingPlaying? <==> channel.None? || !playing
    // owner and administrators stop playback at once and leave the tally alone
    ensures channel.Some? && playing && (a.isOwner || a.isAdmin) ==>
              r.outcome.SkippedByAdmin? && r.votes == votes
    // an outranked author may not start or join a vote
    ensures r.outcome.Outranked? ==>
              r.votes == votes && !CanOverride(a, channel) &&
              exists m :: m in channel.value && Ranked(m) && m.topRank > a.member.topRank
    // without override, an author below the highest rank is refused, and a channel with no ranked member fails
    ensures channel.Some? && playing && !a.isOwner && !a.isAdmin && !CanOverride(a, channel) ==>
              (HighestRole(channel.value).None? ==> r.outcome.NoRankedMember? && r.votes == votes) &&
              (HighestRole(channel.value).Some? && a.member.topRank < HighestRole(channel.value).value ==>
                 r.outcome.Outranked? && r.votes == votes)
    ensures r.outcome.NoRankedMember? ==>
              r.votes == votes && !CanOverride(a, channel) && HighestRole(channel.value).None?
    // an author who can override, or who ties the highest rank, reaches the vote
    ensures channel.Some? && playing && !a.isOwner && !a.isAdmin &&
            (CanOverride(a, channel) ||
             (HighestRole(channel.value).Some? && a.member.topRank >= HighestRole(channel.value).value)) ==>
              (r.outcome.AlreadyVoted? <==> a.member.id in votes) &&
              (r.outcome.VotePassed? || r.outcome.VoteRecorded? <==> a.member.id !in votes)
    ensures r.outcome.AlreadyVoted? ==> r.votes == votes && a.member.id in votes
    // a passing or recorded vote is the author's new vote
    ensures r.outcome.VotePassed? || r.outcome.VoteRecorded? ==>
              a.member.id !in votes && r.votes == votes + {a.member.id}
    ensures r.votes != votes ==> channel.Some? && playing && !a.isOwner && !a.isAdmin
    // playback stops on a vote exactly when the tally is a strict majority of the non-bot members
    ensures r.votes != votes ==>
              (r.outcome.VotePassed? <==> 2 * |r.votes| > |NonBots(channel.value)|)
    ensures r.outcome.VoteRecorded? ==>
              r.votes != votes && r.outcome.count == |r.votes| && r.outcome.remaining > 0 &&
              r.outcome.count + r.outcome.remaining == r.outcome.required &&
              r.outcome.required == RequiredVotes(|NonBots(channel.value)|)
    ensures StopsPlayback(r.outcome) ==> channel.Some? && playing
  {
    if channel.None? || !playing then SkipResult(NothingPlaying, votes)
    else if a.isOwner || a.isAdmin then SkipResult(SkippedByAdmin, votes)
    else if !CanOverride(a, channel) && HighestRole(channel.value).None? then SkipResult(NoRankedMember, votes)
    else if !CanOverride(a, channel) && a.member.topRank < HighestRole(channel.value).value then
      HighestRoleIsMaximum(channel.value);
      SkipResult(Outranked, votes)
    else CountVote(a, channel.value, votes)
  }

  /** The vote itself, once the guards of `skip` let the author through. */
  function CountVote(a: Author, members: seq<Member>, votes: set<MemberId>): SkipResult
  {
    var required := RequiredVotes(|NonBots(members)|);
    if a.member.id in votes then SkipResult(AlreadyVoted, votes)
    else
      var tally := votes + {a.member.id};
      if |tally| >= required then SkipResult(VotePassed, tally)
      else SkipResult(VoteRecorded(|tally|, required, required - |tally|), tally)
  }

  /** Voting twice with the same author and channel adds at most one vote. */
  lemma RepeatedVoteCountsOnce(a: Author, channel: Option<seq<Member>>, playing: bool, votes: set<MemberId>)
    ensures var once := Skip(a, channel, playing, votes);
            Skip(a, channel, playing, once.votes).votes == once.votes &&
            |once.votes| <= |votes| + 1
  {
    var once := Skip(a, channel, playing, votes);
    if once.votes != votes {
      assert a.member.id in once.votes;
    }
  }
}
