/** The chat provider (provider/fake/provider_server.go): channels and their member lists,
    changed in place. */
module Providers {
  import opened Common
  import opened Manager

  class Provider {
    const bot: string
    var channels: map<nat, Channel>
    var lastChannel: nat

    function Current(): Chat
      reads this
    {
      Chat(bot, channels, lastChannel)
    }

    constructor (bot: string)
      ensures Current() == Chat(bot, map[], 0)
    {
      this.bot := bot;
      channels, lastChannel := map[], 0;
    }

    /** Refused when another channel that is not archived has the name. */
    method CreatePrivateChannel(name: string, members: seq<string>) returns (r: Result<nat, Error>)
      modifies this
      ensures (Current(), r) == CreateChannel(old(Current()), name, members)
    {
      var rest := channels.Keys;
      while rest != {}
        invariant rest <= channels.Keys
        invariant forall c :: c in channels && c !in rest ==> channels[c].name != name || channels[c].archived
        decreases |rest|
      {
        var c :| c in rest;
        if channels[c].name == name && !channels[c].archived {
          return Err(NameTaken);
        }
        rest := rest - {c};
      }
      lastChannel := lastChannel + 1;
      channels := channels[lastChannel := Channel(name, [bot] + members, false)];
      return Ok(lastChannel);
    }

    method AddUser(c: nat, user: string) returns (r: Result<bool, Error>)
      modifies this`channels
      ensures match AddMember(old(Current()), c, user)
              case Ok(chat) => r == Ok(user in old(channels)[c].members) && Current() == chat
              case Err(e) => r == Err(e) && Current() == old(Current())
    {
      if c !in channels {
        return Err(NotFound);
      }
      var ch := channels[c];
      for i := 0 to |ch.members|
        invariant user !in ch.members[..i]
      {
        if ch.members[i] == user {
          assert channels == channels[c := ch];
          return Ok(true);
        }
        assert ch.members[..i + 1] == ch.members[..i] + [ch.members[i]];
      }
      assert ch.members[..|ch.members|] == ch.members;
      channels := channels[c := ch.(members := ch.members + [user])];
      return Ok(false);
    }

    method RemoveUser(c: nat, user: string) returns (r: Result<bool, Error>)
      modifies this`channels
      ensures match RemoveMember(old(Current()), c, user)
              case Ok(chat) => r == Ok(user in old(channels)[c].members) && Current() == chat
              case Err(e) => r == Err(e) && Current() == old(Current())
    {
      if c !in channels {
        return Err(NotFound);
      }
      var ch := channels[c];
      for i := 0 to |ch.members|
        invariant user !in ch.members[..i]
      {
        if ch.members[i] == user {
          WithoutAt(ch.members, i, user);
          channels := channels[c := ch.(members := ch.members[..i] + ch.members[i + 1..])];
          return Ok(true);
        }
        assert ch.members[..i + 1] == ch.members[..i] + [ch.members[i]];
      }
      assert ch.members[..|ch.members|] == ch.members;
      WithoutAbsent(ch.members, user);
      assert channels == channels[c := ch];
      return Ok(false);
    }

    method Archive(c: nat) returns (r: Result<(), Error>)
      modifies this`channels
      ensures match ArchiveChannelIn(old(Current()), c)
              case Ok(chat) => r == Ok(()) && Current() == chat
              case Err(e) => r == Err(e) && Current() == old(Current())
    {
      if c !in channels {
        return Err(NotFound);
      }
      channels := channels[c := channels[c].(archived := true)];
      return Ok(());
    }
  }

  /** Cutting out the first occurrence. */
  lemma {:induction false} WithoutAt(members: seq<string>, i: nat, user: string)
    requires i < |members| && members[i] == user && user !in members[..i]
    ensures WithoutMember(members, user) == members[..i] + members[i + 1..]
  {
    if i > 0 {
      assert members[..i][0] == members[0];
      assert members[1..][..i - 1] == members[..i][1..];
      WithoutAt(members[1..], i - 1, user);
      assert members[..i] + members[i + 1..] == [members[0]] + (members[1..][..i - 1] + members[1..][i..]);
    }
  }

  lemma {:induction false} WithoutAbsent(members: seq<string>, user: string)
    requires user !in members
    ensures WithoutMember(members, user) == members
  {
    if members != [] {
      WithoutAbsent(members[1..], user);
    }
  }
}
