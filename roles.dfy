/**
 * Role-rank authority: `get_highest_role` and `can_override`.
 *
 * A member is a snapshot taken at decision time; the position of its top
 * role is its rank. Discord compares members by id, so "the author" is
 * recognised by id.
 */
module Roles {
  import opened Wrappers

  datatype Member = Member(id: MemberId, name: string, isBot: bool, hasRoles: bool, topRank: int)

  /** The command author and the two designations that grant authority unconditionally. */
  datatype Author = Author(member: Member, isOwner: bool, isAdmin: bool)

  /** A member that `get_highest_role` takes into account: not a bot, and holding roles. */
  predicate Ranked(m: Member)
  {
    !m.isBot && m.hasRoles
  }

  /** One iteration of the loop in `get_highest_role`: a strictly higher rank replaces the running maximum. */
  function Consider(highest: Option<int>, m: Member): Option<int>
  {
    if !Ranked(m) then highest
    else if highest.None? || m.topRank > highest.value then Some(m.topRank)
    else highest
  }

  /** The running maximum after scanning `ms` from the front; None when no member is ranked. */
  function HighestRole(ms: seq<Member>): Option<int>
  {
    if |ms| == 0 then None else Consider(HighestRole(ms[..|ms| - 1]), ms[|ms| - 1])
  }

  /** The highest role is None exactly when nobody is ranked, and otherwise the top rank of a
      ranked member that no ranked member exceeds. */
  lemma {:induction false} HighestRoleIsMaximum(ms: seq<Member>)
    ensures HighestRole(ms).None? <==> forall m :: m in ms ==> !Ranked(m)
    ensures HighestRole(ms).Some? ==>
              (exists m :: m in ms && Ranked(m) && m.topRank == HighestRole(ms).value) &&
              (forall m :: m in ms && Ranked(m) ==> m.topRank <= HighestRole(ms).value)
  {
    if |ms| > 0 {
      var init, last := ms[..|ms| - 1], ms[|ms| - 1];
      assert ms == init + [last];
      HighestRoleIsMaximum(init);
      if HighestRole(init).Some? && !(Ranked(last) && last.topRank > HighestRole(init).value) {
        var w :| w in init && Ranked(w) && w.topRank == HighestRole(init).value;
        assert w in ms;
      }
    }
  }

  /** `get_highest_role` (the loop over the members with its running maximum). */
  method GetHighestRole(members: seq<Member>) returns (highest: Option<int>)
    ensures highest == HighestRole(members)
    ensures highest.None? <==> forall m :: m in members ==> !Ranked(m)
    ensures highest.Some? ==>
              (exists m :: m in members && Ranked(m) && m.topRank == highest.value) &&
              (forall m :: m in members && Ranked(m) ==> m.topRank <= highest.value)
  {
    highest := None;
    for i := 0 to |members|
      invariant highest == HighestRole(members[..i])
    {
      assert members[..i + 1][..i] == members[..i];
      var member := members[i];
      if member.isBot {
        continue;
      }
      if member.hasRoles {
        if highest.None? || member.topRank > highest.value {
          highest := Some(member.topRank);
        }
      }
    }
    assert members[..|members|] == members;
    HighestRoleIsMaximum(members);
  }

  /** A member the author has to outrank: present in the channel, not a bot, not the author. */
  predicate IsListener(m: Member, author: MemberId)
  {
    !m.isBot && m.id != author
  }

  /** `current_listeners`: the non-bot members of the channel other than the author, in order. */
  function Listeners(ms: seq<Member>, author: MemberId): (ls: seq<Member>)
    ensures forall m :: m in ls <==> m in ms && IsListener(m, author)
  {
    if |ms| == 0 then []
    else (if IsListener(ms[0], author) then [ms[0]] else []) + Listeners(ms[1..], author)
  }

  /**
   * `can_override`. `channel` is None when the guild's player has no voice client,
   * and otherwise the members of the voice client's channel.
   */
  function CanOverride(a: Author, channel: Option<seq<Member>>): (r: bool)
    ensures r <==>
              || a.isOwner || a.isAdmin
              || channel.None?
              || (forall m :: m in channel.value ==> !IsListener(m, a.member.id))
              || ((exists m :: m in channel.value && IsListener(m, a.member.id) && m.hasRoles) &&
                  (forall m :: m in channel.value && IsListener(m, a.member.id) && m.hasRoles ==>
                                 a.member.topRank > m.topRank))
  {
    if a.isOwner || a.isAdmin then true
    else if channel.None? then true
    else
      var listeners := Listeners(channel.value, a.member.id);
      if |listeners| == 0 then true
      else
        assert listeners[0] in listeners;
        HighestRoleIsMaximum(listeners);
        var highest := HighestRole(listeners);
        highest.Some? && a.member.topRank > highest.value
  }
}
