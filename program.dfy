/**
 * The bot's process: startup consumes the marker files the last run left
 * behind, the first guild that holds the channel a restart was asked from
 * gets the reconnection notice, a lost connection is watched and escalated to
 * a deadlock exit, and reactions in the colour channel change colour roles.
 */
module Bot {
  import opened Wrappers
  import opened Decimal
  import opened Effects
  import opened Configuration
  import opened Shutdown
  import opened ColorRoles

  const Reconnected := "Successfully reconnected."

  // ---------------------------------------------------------------------------
  // Startup

  /** The channel a launch will announce itself in: what `./update` holds, or 0 when it is absent or not a `ulong`. */
  function ChannelAtStartup(m: Markers): ULong
  {
    if m.update.Some? then TryParseULong(m.update.value).GetOr(0) else 0
  }

  /** The effects of startup before the owners are told about a deadlock. */
  function StartupEffects(m: Markers): seq<Effect>
  {
    (if m.update.Some? then [DeletedUpdate] else []) + [LoggedIn] + (if m.deadlock then [DeletedDeadlock] else [])
  }

  /** `es` holds one message attempt for each owner and nothing else. */
  predicate NotifiesEachOnce(es: seq<Effect>, owners: set<nat>)
  {
    && (forall i :: 0 <= i < |es| ==> es[i].NotifiedOwner? && es[i].user in owners)
    && (forall i, j :: 0 <= i < j < |es| ==> es[i] != es[j])
    && (forall u :: u in owners ==> NotifiedOwner(u) in es)
  }

  /** A message to every owner, in the set's own order: the `foreach` over `config.OwnerIds`. */
  method NotifyOwners(host: Host, owners: set<nat>)
    requires host.exitCode == None
    modifies host
    ensures host.markers == old(host.markers) && host.exitCode == None
    ensures |host.effects| >= |old(host.effects)|
    ensures host.effects[..|old(host.effects)|] == old(host.effects)
    ensures NotifiesEachOnce(host.effects[|old(host.effects)|..], owners)
  {
    ghost var before := host.effects;
    ghost var sent: seq<Effect> := [];
    ghost var done: set<nat> := {};
    var rest := owners;
    while rest != {}
      invariant host.effects == before + sent
      invariant host.markers == old(host.markers) && host.exitCode == None
      invariant done + rest == owners && done !! rest
      invariant NotifiesEachOnce(sent, done)
      decreases rest
    {
      var u :| u in rest;
      host.Do(NotifiedOwner(u));
      sent := sent + [NotifiedOwner(u)];
      done := done + {u};
      rest := rest - {u};
    }
    assert host.effects[..|before|] == before;
    assert host.effects[|before|..] == sent;
  }

  // ---------------------------------------------------------------------------
  // The reconnection notice

  /** Whether a guild with these text channels gets the notice for `channel`. */
  predicate Announces(channel: ULong, textChannels: set<nat>)
  {
    channel != 0 && channel in textChannels
  }

  /**
   * What `Client_GuildAvailable` sends, and the channel it still waits for,
   * for each of a sequence of guilds becoming available, one after another.
   */
  function Notices(channel: ULong, guilds: seq<set<nat>>): seq<Effect>
    decreases |guilds|
  {
    if guilds == [] then []
    else if Announces(channel, guilds[0]) then [Sent(channel, Reconnected)] + Notices(0, guilds[1..])
    else Notices(channel, guilds[1..])
  }

  /**
   * One launch sends at most one notice, in the channel the restart was asked
   * from, and sends it exactly when some guild holds that channel.
   */
  lemma {:induction false} AtMostOneNotice(channel: ULong, guilds: seq<set<nat>>)
    ensures |Notices(channel, guilds)| <= 1
    ensures Notices(channel, guilds) != [] <==> channel != 0 && exists g :: g in guilds && channel in g
    ensures forall e :: e in Notices(channel, guilds) ==> e == Sent(channel, Reconnected)
    decreases |guilds|
  {
    if guilds != [] {
      if Announces(channel, guilds[0]) {
        NoNoticeForZero(guilds[1..]);
      } else {
        AtMostOneNotice(channel, guilds[1..]);
        assert forall g :: g in guilds ==> g == guilds[0] || g in guilds[1..];
      }
    }
  }

  /** Once the notice is sent (or there was none to send) no guild triggers another. */
  lemma {:induction false} NoNoticeForZero(guilds: seq<set<nat>>)
    ensures Notices(0, guilds) == []
    decreases |guilds|
  {
    if guilds != [] {
      NoNoticeForZero(guilds[1..]);
    }
  }

  /** A channel id that `restart` or `update` wrote is the channel the next launch announces itself in. */
  lemma RestartComesBackToItsChannel(cmd: OwnerCommand, channel: ULong, m: Markers)
    requires cmd.RestartCommand? || cmd.UpdateCommand?
    ensures var left := ApplyAll(m, ShutdownEffects(cmd, true, channel));
      && left.update == Some(ToDecimal(channel))
      && ChannelAtStartup(left) == channel
  {
    OwnerCommandOutcome(cmd, channel, m);
    ParseOfDecimal(channel);
  }

  /**
   * An owner restarts the bot from channel 500: `./update` holds "500" (whatever
   * an earlier run left there), the next launch reads back 500, and the guild
   * holding that channel gets one notice.
   */
  lemma RestartFromChannel500(m: Markers)
    ensures var left := ApplyAll(m, ShutdownEffects(RestartCommand, true, 500));
      && left.update == Some("500")
      && ExitOf(ShutdownEffects(RestartCommand, true, 500)) == Some(ExitCode.Restart)
      && ChannelAtStartup(left) == 500
      && Notices(ChannelAtStartup(left), [{500}]) == [Sent(500, Reconnected)]
  {
    RestartComesBackToItsChannel(RestartCommand, 500, m);
    OwnerCommandOutcome(RestartCommand, 500, m);
    assert ToDecimal(500) == "500" by {
      assert ToDecimal(5) == "5";
      assert ToDecimal(50) == "50";
    }
  }

  /** A launch with no `./update`, or with one that is not a `ulong`, sends no notice at all. */
  lemma NoMarkerNoNotice(m: Markers, guilds: seq<set<nat>>)
    requires m.update.None? || TryParseULong(m.update.value).None?
    ensures Notices(ChannelAtStartup(m), guilds) == []
  {
    NoNoticeForZero(guilds);
  }

  // ---------------------------------------------------------------------------
  // The disconnect watchdog

  /** `ConnectionState` of the socket client. */
  datatype ConnectionState = Disconnected | Connecting | Connected | Disconnecting

  /** Whether the watchdog gives up: neither sample found the client connected. */
  predicate Escalates(samples: seq<ConnectionState>)
    requires |samples| == 2
  {
    samples[0] != Connected && samples[1] != Connected
  }

  /** What the watchdog leaves behind after its samples. */
  function WatchdogEffects(samples: seq<ConnectionState>): seq<Effect>
    requires |samples| == 2
  {
    if Escalates(samples) then [CreatedDeadlock, SavedConfig, Exited(DeadlockEscape)] else []
  }

  /**
   * The watchdog exits exactly when both samples miss the connection, and then
   * only after leaving `./deadlock` for the next launch; otherwise it changes nothing.
   */
  lemma WatchdogOutcome(samples: seq<ConnectionState>, m: Markers)
    requires |samples| == 2
    ensures ExitOf(WatchdogEffects(samples)) == (if Escalates(samples) then Some(DeadlockEscape) else None)
    ensures ApplyAll(m, WatchdogEffects(samples)) == (if Escalates(samples) then m.(deadlock := true) else m)
    ensures Escalates(samples) ==> TearsDownInOrder(WatchdogEffects(samples))
  {
    var es := WatchdogEffects(samples);
    if Escalates(samples) {
      ApplyAllSingleTouch(m, es, 0);
      ExitOfLast(es);
    }
  }

  /** The state of one run of the bot. */
  class Program {
    var config: Config
    var RoleColors: map<string, nat>
    var updateChannel: ULong

    /**
     * `RunAsync` up to the point where it waits forever: reads and deletes
     * `./update`, loads the configuration, logs in, deletes `./deadlock` and
     * messages every owner if it was there, and loads the colour table.
     */
    constructor RunAsync(host: Host, loaded: Config, colors: map<string, nat>)
      requires host.exitCode == None
      modifies host
      ensures config == loaded && RoleColors == colors
      ensures updateChannel == ChannelAtStartup(old(host.markers))
      ensures host.markers == NoMarkers && host.exitCode == None
      ensures var n := |old(host.effects)| + |StartupEffects(old(host.markers))|;
        && |host.effects| >= n
        && host.effects[..n] == old(host.effects) + StartupEffects(old(host.markers))
        && (if old(host.markers).deadlock then NotifiesEachOnce(host.effects[n..], loaded.OwnerIds)
            else |host.effects| == n)
    {
      ghost var m := host.markers;
      updateChannel := 0;
      if host.markers.update.Some? {
        var temp := host.markers.update.value;
        updateChannel := TryParseULong(temp).GetOr(0);
        host.Do(DeletedUpdate);
      }
      config := loaded;
      host.Do(LoggedIn);
      ghost var n := |host.effects|;
      if host.markers.deadlock {
        host.Do(DeletedDeadlock);
        n := n + 1;
        NotifyOwners(host, loaded.OwnerIds);
      }
      RoleColors := colors;
      assert host.effects[..n] == old(host.effects) + StartupEffects(m);
    }

    /** `Client_GuildAvailable`: a guild that holds the awaited channel gets the notice, and then none is awaited. */
    method ClientGuildAvailable(host: Host, textChannels: set<nat>)
      requires host.exitCode == None
      modifies this, host
      ensures config == old(config) && RoleColors == old(RoleColors)
      ensures host.markers == old(host.markers) && host.exitCode == None
      ensures host.effects == old(host.effects) + Notices(old(updateChannel), [textChannels])
      ensures updateChannel == (if Announces(old(updateChannel), textChannels) then 0 else old(updateChannel))
    {
      if updateChannel != 0 && updateChannel in textChannels {
        host.Do(Sent(updateChannel, Reconnected));
        updateChannel := 0;
      }
    }

    /**
     * `SocketClient_Disconnected`: up to two samples of the connection state,
     * one after each wait; `samples` holds what they would see. Returns how
     * many samples were taken.
     */
    method SocketClientDisconnected(host: Host, samples: seq<ConnectionState>) returns (taken: nat)
      requires |samples| == 2 && host.exitCode == None
      modifies host
      ensures taken == (if samples[0] == Connected then 1 else 2)
      ensures host.effects == old(host.effects) + WatchdogEffects(samples)
      ensures host.markers == (if Escalates(samples) then old(host.markers).(deadlock := true) else old(host.markers))
      ensures host.exitCode == (if Escalates(samples) then Some(DeadlockEscape) else None)
    {
      taken := 0;
      for i := 0 to 2
        invariant taken == i && (i >= 1 ==> samples[0] != Connected) && (i == 2 ==> samples[1] == Connected)
        invariant host.effects == old(host.effects) && host.markers == old(host.markers) && host.exitCode == None
      {
        taken := taken + 1;
        if samples[i] == Connected {
          break;
        } else if i == 1 {
          host.Do(CreatedDeadlock);
          host.Do(SavedConfig);
          host.Do(Exited(DeadlockEscape));
          return;
        }
      }
    }

    /** `Client_ReactionAdded`: a colour emote swaps the member's colour, "🚫" removes it. */
    method ClientReactionAdded(user: GuildUser, channel: nat, emote: string)
      modifies user
      ensures user.roles == AfterAdded(old(user.roles), RoleColors, channel, emote)
    {
      if channel == ColorChannel && emote in RoleColors {
        var color := RoleColors[emote];
        RemoveRoles(user, set r | r in user.roles && r in RoleColors.Values && r != color);
        if color !in user.roles {
          user.roles := user.roles + {color};
        }
      } else if channel == ColorChannel && emote == NoColor {
        RemoveRoles(user, set r | r in user.roles && r in RoleColors.Values);
      }
    }

    /** `Client_ReactionRemoved`: taking back a colour emote drops that colour if the member holds it. */
    method ClientReactionRemoved(user: GuildUser, channel: nat, emote: string)
      modifies user
      ensures user.roles == AfterRemoved(old(user.roles), RoleColors, channel, emote)
    {
      if channel == ColorChannel && emote in RoleColors {
        if RoleColors[emote] in user.roles {
          user.roles := user.roles - {RoleColors[emote]};
        }
      }
    }
  }
}
