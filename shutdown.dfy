/**
 * The four owner-only commands that end the process: `quit`, `restart`,
 * `update` and `deadlocksim`. Each refuses a caller who is not an owner;
 * otherwise it replies, saves the configuration, leaves the marker file the
 * next launch looks for (if any), logs out and exits with its own status.
 */
module Shutdown {
  import opened Wrappers
  import opened Decimal
  import opened Effects
  import opened Configuration

  datatype OwnerCommand = QuitCommand | RestartCommand | UpdateCommand | DeadlockSimCommand

  const Refusal := ":no_good::skin-tone-3: You don't have permission to run this command!"
  const Disconnecting := "Disconnecting..."
  const Restarting := "Restarting..."
  const Rebuilding := "Pulling latest code and rebuilding from source, I'll be back in a bit."

  /** What each command leaves behind, in the order the command does it. */
  function ShutdownEffects(cmd: OwnerCommand, isOwner: bool, channel: ULong): seq<Effect>
  {
    if !isOwner then [Replied(Refusal)]
    else match cmd
      case QuitCommand =>
        [Replied(Disconnecting), SavedConfig, LoggedOut, Exited(Success)]
      case RestartCommand =>
        [Replied(Restarting), SavedConfig, WroteUpdate(ToDecimal(channel)), LoggedOut, Exited(ExitCode.Restart)]
      case UpdateCommand =>
        [WroteUpdate(ToDecimal(channel)),
         Replied(Rebuilding),
         SavedConfig, LoggedOut, Exited(RestartAndUpdate)]
      case DeadlockSimCommand =>
        [CreatedDeadlock, Replied(Restarting), SavedConfig, LoggedOut, Exited(DeadlockEscape)]
  }

  /** The exit status the supervisor sees after each command. */
  function ExitStatus(cmd: OwnerCommand): ExitCode
  {
    match cmd
    case QuitCommand => Success
    case RestartCommand => ExitCode.Restart
    case UpdateCommand => RestartAndUpdate
    case DeadlockSimCommand => DeadlockEscape
  }

  /** The marker files the next launch finds after an owner ran `cmd` in `channel`. */
  function MarkersLeft(cmd: OwnerCommand, channel: ULong, m: Markers): Markers
  {
    match cmd
    case QuitCommand => m
    case RestartCommand => m.(update := Some(ToDecimal(channel)))
    case UpdateCommand => m.(update := Some(ToDecimal(channel)))
    case DeadlockSimCommand => m.(deadlock := true)
  }

  /**
   * The teardown happens last and in a fixed order: every marker write comes
   * before the log-out, the log-out before the exit, and nothing but the
   * log-out comes between a teardown step and the exit.
   */
  predicate TearsDownInOrder(es: seq<Effect>)
  {
    && es != [] && es[|es| - 1].Exited?
    && (forall i :: 0 <= i < |es| - 1 ==> !es[i].Exited?)
    && (forall i, j :: 0 <= i < |es| && 0 <= j < |es| && TearsDown(es[i]) && !TearsDown(es[j]) ==> j < i)
    && (forall i, j :: 0 <= i < |es| && 0 <= j < |es| && WritesMarker(es[i]) && es[j].LoggedOut? ==> i < j)
  }

  /** A refused caller gets the refusal and nothing else: no marker, no log-out, no exit. */
  lemma RefusalChangesNothing(cmd: OwnerCommand, channel: ULong, m: Markers)
    ensures var es := ShutdownEffects(cmd, false, channel);
      && es == [Replied(Refusal)]
      && ApplyAll(m, es) == m
      && ExitOf(es) == None
      && (forall e :: e in es ==> !TearsDown(e) && !WritesMarker(e))
  {
  }

  /** An owner's command leaves its marker and ends the process with its own exit status. */
  lemma OwnerCommandOutcome(cmd: OwnerCommand, channel: ULong, m: Markers)
    ensures var es := ShutdownEffects(cmd, true, channel);
      && ApplyAll(m, es) == MarkersLeft(cmd, channel, m)
      && ExitOf(es) == Some(ExitStatus(cmd))
  {
    var es := ShutdownEffects(cmd, true, channel);
    if cmd.QuitCommand? {
      ApplyAllUntouched(m, es);
    } else {
      ApplyAllSingleTouch(m, es, if cmd.RestartCommand? then 2 else 0);
    }
    ExitOfLast(es);
  }

  /** An owner's command writes its marker before logging out, and logs out just before exiting. */
  lemma OwnerCommandOrder(cmd: OwnerCommand, channel: ULong)
    ensures TearsDownInOrder(ShutdownEffects(cmd, true, channel))
  {
  }

  /** An owner's command replies exactly once. */
  lemma OwnerCommandRepliesOnce(cmd: OwnerCommand, channel: ULong)
    ensures var es := ShutdownEffects(cmd, true, channel);
      && (exists i :: 0 <= i < |es| && es[i].Replied?)
      && (forall i, j :: 0 <= i < |es| && 0 <= j < |es| && es[i].Replied? && es[j].Replied? ==> i == j)
  {
    var es := ShutdownEffects(cmd, true, channel);
    assert es[if cmd.UpdateCommand? || cmd.DeadlockSimCommand? then 1 else 0].Replied?;
  }

  /** The supervisor can tell the four commands apart by exit status alone. */
  lemma ExitStatusesDistinct(a: OwnerCommand, b: OwnerCommand)
    ensures ExitStatus(a) == ExitStatus(b) <==> a == b
  {
  }

  /** `quit`: disconnects and exits with `Success`, leaving no marker. */
  method ShutDown(config: Config, host: Host, caller: nat)
    requires host.exitCode == None
    modifies host
    ensures host.effects == old(host.effects) + ShutdownEffects(QuitCommand, caller in config.OwnerIds, 0)
    ensures host.markers == (if caller in config.OwnerIds then MarkersLeft(QuitCommand, 0, old(host.markers)) else old(host.markers))
    ensures host.exitCode == (if caller in config.OwnerIds then Some(ExitStatus(QuitCommand)) else None)
  {
    if caller !in config.OwnerIds {
      host.Do(Replied(Refusal));
      return;
    }
    host.Do(Replied(Disconnecting));
    host.Do(SavedConfig);
    host.Do(LoggedOut);
    host.Do(Exited(Success));
  }

  /** `restart`: writes the channel id to `./update` and exits with `Restart`. */
  method Restart(config: Config, host: Host, caller: nat, channel: ULong)
    requires host.exitCode == None
    modifies host
    ensures host.effects == old(host.effects) + ShutdownEffects(RestartCommand, caller in config.OwnerIds, channel)
    ensures host.markers == (if caller in config.OwnerIds then MarkersLeft(RestartCommand, channel, old(host.markers)) else old(host.markers))
    ensures host.exitCode == (if caller in config.OwnerIds then Some(ExitStatus(RestartCommand)) else None)
  {
    if caller !in config.OwnerIds {
      host.Do(Replied(Refusal));
      return;
    }
    host.Do(Replied(Restarting));
    host.Do(SavedConfig);
    host.Do(WroteUpdate(ToDecimal(channel)));
    host.Do(LoggedOut);
    host.Do(Exited(ExitCode.Restart));
  }

  /** `update`: writes the channel id to `./update` first, then exits with `RestartAndUpdate`. */
  method UpdateAndRestart(config: Config, host: Host, caller: nat, channel: ULong)
    requires host.exitCode == None
    modifies host
    ensures host.effects == old(host.effects) + ShutdownEffects(UpdateCommand, caller in config.OwnerIds, channel)
    ensures host.markers == (if caller in config.OwnerIds then MarkersLeft(UpdateCommand, channel, old(host.markers)) else old(host.markers))
    ensures host.exitCode == (if caller in config.OwnerIds then Some(ExitStatus(UpdateCommand)) else None)
  {
    if caller !in config.OwnerIds {
      host.Do(Replied(Refusal));
      return;
    }
    host.Do(WroteUpdate(ToDecimal(channel)));
    host.Do(Replied(Rebuilding));
    host.Do(SavedConfig);
    host.Do(LoggedOut);
    host.Do(Exited(RestartAndUpdate));
  }

  /** `deadlocksim`: creates `./deadlock` and exits with `DeadlockEscape`, as the watchdog would. */
  method DeadlockSimulation(config: Config, host: Host, caller: nat)
    requires host.exitCode == None
    modifies host
    ensures host.effects == old(host.effects) + ShutdownEffects(DeadlockSimCommand, caller in config.OwnerIds, 0)
    ensures host.markers == (if caller in config.OwnerIds then MarkersLeft(DeadlockSimCommand, 0, old(host.markers)) else old(host.markers))
    ensures host.exitCode == (if caller in config.OwnerIds then Some(ExitStatus(DeadlockSimCommand)) else None)
  {
    if caller !in config.OwnerIds {
      host.Do(Replied(Refusal));
      return;
    }
    host.Do(CreatedDeadlock);
    host.Do(Replied(Restarting));
    host.Do(SavedConfig);
    host.Do(LoggedOut);
    host.Do(Exited(DeadlockEscape));
  }
}
