# TaranzaSoul in Dafny

TaranzaSoul is a Discord bot for one community server. This project models the
parts of it that have behaviour worth stating precisely, and proves properties
of that model.

- **Watch-list argument parser and note table** (`watch`, `watch clear`, `watch all`).
  - Moderators attach notes to user ids.
  - The command remainder is split into tokens.
  - The leading run of tokens that are ids (bare digits or mentions) is the list of users.
  - The rest of the remainder is the note.
  - The notes live in a `ulong → string` table in the configuration.
- **The `help` listing.** It lists, module by module, the commands whose
  preconditions the caller passes.
- **The restart / deadlock lifecycle.**
  - Four owner-only commands end the process: `quit`, `restart`, `update` and `deadlocksim`.
  - `restart` and `update` leave `./update` holding the channel id for the next launch; `deadlocksim` leaves `./deadlock`; `quit` leaves neither.
  - Each then logs out and exits with its own status, so the supervisor knows how to relaunch.
  - Startup consumes both markers.
  - A guild becoming available may get the "Successfully reconnected." notice.
  - A watchdog samples the connection up to twice after a disconnect. It escalates to a deadlock exit only if neither sample finds it connected.
- **Colour roles.** Reactions in one channel give a member exactly one colour role, or none.

Modules:

- `Text` (`text.dfy`): splitting on spaces, joining, trimming.
- `Decimal` (`decimal.dfy`): `ulong.ToString` and digit-only `ulong.TryParse`.
- `Effects` (`effects.dfy`): the outside world as a `Host` object. It records the effects performed, the marker files and the exit status.
- `Configuration` (`config.dfy`): the `OwnerIds` and `WatchedIds` of the configuration.
- `WatchList` (`watchlist.dfy`): the watch-list commands.
- `Help` (`help.dfy`): the `help` command.
- `Shutdown` (`shutdown.dfy`): the owner-only exit commands.
- `ColorRoles` (`colorroles.dfy`): colour-role rules.
- `Bot` (`program.dfy`): class `Program`, with startup, the guild-available, disconnect and reaction handlers.

Each loop in the source is a `while` or `for` loop here. Each loop is proved against a reference function or a predicate:

- `help` against `ModulesBefore`, `Build`, `Sections` and `HelpText`;
- storing, looking up and clearing notes against `Assigned`, `PriorNotes`, `Lookup`, `Removed` and `ClearLines`;
- `watch all` (`ListWatch`) against the predicate `ListsEveryNote`;
- the deadlock messages to the owners (`NotifyOwners`) against the predicate `NotifiesEachOnce`;
- the watchdog against `WatchdogEffects`;
- the removal of colour roles (`RemoveRoles`, and through it the reaction handlers) against set difference, `AfterAdded` and `AfterRemoved`.

The shutdown commands and startup have no loop. They are proved against `ShutdownEffects`, `MarkersLeft` and `ChannelAtStartup`. The lemmas state what those reference functions promise.

Two behaviours of the code differ from what a reader might expect; the model follows the code:

- One might expect the deadlock-recovery messages to the owners to wait until the gateway connection is up. They do not: they are sent over the REST client straight after log-in, during startup (Program.cs:62-76).
- The comment at Program.cs:118-120 describes the watchdog's intent: wait three minutes, check the connection, check once more three minutes later, and restart if it is still lost. The code looks at the connection state at most twice, once after each wait. It stops after the first look if that finds `Connected`. It escalates when neither look finds it `Connected`. A reconnection and a new drop between the two looks goes unnoticed. `Connecting` counts as not connected.

## Model

| member | source | states |
|---|---|---|
| Text.Tokens | TaranzaSoul/Modules/Standard.cs:92 | the arguments of a watch command are non-empty and contain no space |
| Text.TokensOfJoin | TaranzaSoul/Modules/Standard.cs:92 | splitting a space-joined list of words and dropping empty pieces gives back exactly those words |
| Text.TokensKeepEveryOtherChar | TaranzaSoul/Modules/Standard.cs:92 | the tokens, concatenated, are the remainder with its spaces removed: runs of spaces never create empty tokens and no character is lost |
| Text.TrimStartByShape | TaranzaSoul/Modules/Standard.cs:98 | trimming from the start removes exactly the longest prefix of dropped characters |
| Text.TrimEndByShape | TaranzaSoul/Modules/Standard.cs:98 | trimming from the end removes exactly the longest suffix of dropped characters |
| Decimal.ParseOfDecimal | TaranzaSoul/Modules/Standard.cs:100 | `ulong.TryParse` recovers every `ulong` from the text `ToString` writes for it |
| Decimal.DecimalOfParse | TaranzaSoul/Modules/Standard.cs:100 | digit text without a leading zero that parses is exactly what `ToString` writes back |
| WatchList.LeadingIdsMeaning | TaranzaSoul/Modules/Standard.cs:96-113 | the users are the ids of the longest leading run of tokens that parse, in order; scanning stops at the first token that does not |
| WatchList.WatchListHelper | TaranzaSoul/Modules/Standard.cs:90-119 | the scanning loop returns exactly the leading ids and the note |
| WatchList.ArgumentsMeaning | TaranzaSoul/Modules/Standard.cs:90-119 | the users are the ids of the longest leading run of tokens that parse; the note is empty when there are none, otherwise the remaining tokens joined by single spaces and trimmed |
| WatchList.MentionFormsParse | TaranzaSoul/Modules/Standard.cs:98-100 | "<@!id>", "<@id>" and the bare digits all name the same id |
| WatchList.MisorderedMentionRejected | TaranzaSoul/Modules/Standard.cs:98-100 | the prefixes are stripped in a fixed order, so "@<id>" is not an id |
| WatchList.Assigned | TaranzaSoul/Modules/Standard.cs:151-159 | after storing a note, every listed id maps to it and every other entry is unchanged |
| WatchList.PriorNotesExact | TaranzaSoul/Modules/Standard.cs:151-159 | an id is reported with a previous note exactly when it had one; an id listed twice is reported again with the new note |
| WatchList.StoreNote | TaranzaSoul/Modules/Standard.cs:151-159 | the store loop leaves the table as `Assigned` says and reports `PriorNotes`; the owners are unchanged |
| WatchList.Lookup | TaranzaSoul/Modules/Standard.cs:169-177 | one look-up line per listed id |
| WatchList.LookUpNotes | TaranzaSoul/Modules/Standard.cs:169-177 | the look-up loop reports each listed id's note, or that it has none, without changing the table |
| WatchList.WatchList | TaranzaSoul/Modules/Standard.cs:124-181 | outside the watch guild or without the watch role nothing happens; with no id, "None ... valid" and then an empty report; with a note, the note is stored and the configuration saved; without one, the ids are looked up and the table is unchanged |
| WatchList.Removed | TaranzaSoul/Modules/Standard.cs:206-215 | after clearing, no listed id has a note and every other entry is unchanged |
| WatchList.ClearLines | TaranzaSoul/Modules/Standard.cs:206-215 | one report line per listed id |
| WatchList.ClearLinesExact | TaranzaSoul/Modules/Standard.cs:206-215 | "Note cleared" is reported exactly for the listed ids that had a note, with that note; "did not have a note" for the rest and for a second mention |
| WatchList.ClearNotes | TaranzaSoul/Modules/Standard.cs:206-215 | the clear loop leaves the table as `Removed` says and reports `ClearLines` |
| WatchList.ClearWatch | TaranzaSoul/Modules/Standard.cs:186-220 | with no valid id it replies once and returns before any change or save; otherwise it clears, reports and saves once |
| WatchList.ListWatch | TaranzaSoul/Modules/Standard.cs:225-241 | the listing names every note exactly once, with its id |
| Help.VisitCommand | TaranzaSoul/Modules/Standard.cs:51-73 | one turn of the loop keeps the output, the section being built, the seen modules and the counter in step with the reference grouping |
| Help.HelpCommand | TaranzaSoul/Modules/Standard.cs:38-80 | the reply is exactly `HelpText`: the introduction, then each module section that lists a permitted command |
| Help.RenderedAll | TaranzaSoul/Modules/Standard.cs:76-77 | after the loop, the last section is appended, with a line break, exactly when it lists something |
| Help.HelpTextOfSections | TaranzaSoul/Modules/Standard.cs:49-77 | a module's header appears only for a section that lists at least one permitted command; the reply ends with a line break exactly when the last section is shown |
| Help.ListedSoFar | TaranzaSoul/Modules/Standard.cs:63-73 | after k commands, the listed names are exactly the permitted ones among them, in order |
| Help.ListedArePermitted | TaranzaSoul/Modules/Standard.cs:63-73 | every permitted command is listed, in registration order, and nothing else is |
| Help.ModulesDistinct | TaranzaSoul/Modules/Standard.cs:51-59 | the seen-modules list holds each module of the commands so far exactly once, and nothing else |
| Help.TitlesSoFar | TaranzaSoul/Modules/Standard.cs:51-61 | the section titles are the modules in order of first appearance |
| Help.OneSectionPerModule | TaranzaSoul/Modules/Standard.cs:51-61 | the section titles are distinct, cover every module of the commands, and name no other |
| Help.ListTextShape | TaranzaSoul/Modules/Standard.cs:65-72 | a section's list is a single space, then the quoted names separated by ", " |
| Shutdown.RefusalChangesNothing | TaranzaSoul/Modules/Standard.cs:261-265 | a caller who is not an owner gets only the refusal: the markers are unchanged and there is no log-out and no exit |
| Shutdown.OwnerCommandOutcome | TaranzaSoul/Modules/Standard.cs:257-329 | quit leaves no marker; restart and update leave the channel id as decimal text in `./update`; deadlocksim leaves `./deadlock`; each exits with its own status |
| Shutdown.OwnerCommandOrder | TaranzaSoul/Modules/Standard.cs:257-329 | the marker is written before the log-out, the log-out comes just before the exit, and the exit is the last thing done |
| Shutdown.OwnerCommandRepliesOnce | TaranzaSoul/Modules/Standard.cs:257-329 | an owner's command replies exactly once |
| Shutdown.ExitStatusesDistinct | TaranzaSoul/Modules/Standard.cs:257-329 | the four commands exit with four different statuses |
| Shutdown.ShutDown | TaranzaSoul/Modules/Standard.cs:257-272 | `quit` performs `ShutdownEffects` in order: the markers are unchanged, and an owner's call exits with `Success` |
| Shutdown.Restart | TaranzaSoul/Modules/Standard.cs:274-291 | `restart` performs `ShutdownEffects` in order: for an owner, `./update` holds the channel id and the exit is `Restart` |
| Shutdown.UpdateAndRestart | TaranzaSoul/Modules/Standard.cs:293-310 | `update` performs `ShutdownEffects` in order: for an owner, `./update` holds the channel id and the exit is `RestartAndUpdate` |
| Shutdown.DeadlockSimulation | TaranzaSoul/Modules/Standard.cs:312-329 | `deadlocksim` performs `ShutdownEffects` in order: for an owner, `./deadlock` exists and the exit is `DeadlockEscape` |
| Bot.NotifyOwners | TaranzaSoul/Program.cs:71-75 | one message attempt for each owner, each exactly once, and nothing else |
| Bot.Program.RunAsync | TaranzaSoul/Program.cs:31-104 | `updateChannel` is the parsed `./update`, or 0 when the file is absent or unparsable; both markers are gone afterwards; the owners are messaged exactly when `./deadlock` was there |
| Bot.RestartComesBackToItsChannel | TaranzaSoul/Program.cs:47-53 | the channel id written by restart or update is exactly the channel the next launch reads back |
| Bot.RestartFromChannel500 | TaranzaSoul/Program.cs:47-53 | a restart from channel 500 writes "500", exits with `Restart`, and the next launch sends one notice to channel 500 |
| Bot.NoMarkerNoNotice | TaranzaSoul/Program.cs:47-53 | an absent or unparsable `./update` never leads to a notice |
| Bot.Program.ClientGuildAvailable | TaranzaSoul/Program.cs:106-114 | a guild that holds the awaited non-zero channel gets the notice, after which no channel is awaited; any other guild changes nothing |
| Bot.AtMostOneNotice | TaranzaSoul/Program.cs:106-114 | over any sequence of available guilds, at most one notice is sent, to the awaited channel, and one is sent exactly when some guild holds that channel |
| Bot.NoNoticeForZero | TaranzaSoul/Program.cs:108 | once the awaited channel is 0, no guild gets a notice |
| Bot.Program.SocketClientDisconnected | TaranzaSoul/Program.cs:116-137 | a first sample that is `Connected` ends the check after one sample with no action; otherwise two samples are taken, and the check escalates exactly when neither is `Connected` |
| Bot.WatchdogOutcome | TaranzaSoul/Program.cs:123-135 | escalation leaves `./deadlock` and exits with `DeadlockEscape`, with the exit last; without escalation nothing changes |
| Bot.Program.ClientReactionAdded | TaranzaSoul/Program.cs:150-173 | the member's roles end as `AfterAdded` says |
| Bot.Program.ClientReactionRemoved | TaranzaSoul/Program.cs:139-148 | the member's roles end as `AfterRemoved` says |
| ColorRoles.RemoveRoles | TaranzaSoul/Program.cs:156-159 | removing the filtered roles one by one removes exactly those roles |
| ColorRoles.ChosenColorOnly | TaranzaSoul/Program.cs:152-163 | after a colour reaction, the member's colour roles are exactly that colour, and the other roles are unchanged |
| ColorRoles.NoColorClears | TaranzaSoul/Program.cs:164-172 | "🚫" removes every colour role and leaves the other roles |
| ColorRoles.AtMostOneColor | TaranzaSoul/Program.cs:150-173 | after a colour or "🚫" reaction in the colour channel the member holds at most one colour |
| ColorRoles.RemovalTakesOnlyItsColor | TaranzaSoul/Program.cs:139-148 | taking back a reaction removes only its own colour, and only if the member held it |
| ColorRoles.OtherReactionsIgnored | TaranzaSoul/Program.cs:139-173 | reactions in another channel, or with an emote that is neither a colour nor "🚫", change nothing |
| ColorRoles.AddingTwiceIsAddingOnce | TaranzaSoul/Program.cs:150-173 | reacting twice with the same emote has the effect of reacting once |

## Left out

- `DatabaseHelper` (SQLite storage) is not part of this model. It is a wrapper over SQL strings.
- Configuration loading and saving (`Config.Load`, `config.Save()`) are not modelled as JSON. Saving is an effect (`SavedConfig`) in the host's record. Loading is the `loaded` parameter of `RunAsync`.
- The Discord clients are abstract effects in the host's record:
  - replies and messages;
  - log-in and log-out;
  - the look-up of owners and guild channels.
  The deadlock messages to the owners are not awaited in the source, so one that fails does not stop the others. The model records one `NotifiedOwner` per owner, including an owner whose look-up finds no user.
- The reply texts of the watch commands are structured lines (`NoteLine`), not the formatted strings. The text built by `help` is modelled character for character; `AppendLine`'s line terminator is taken as "\n".
- `Task.Delay` waits are not modelled: the 1-second wait before exit, the 3-second wait before the notice and the 3-minute watchdog waits. The watchdog's samples are the `samples` parameter instead of real time.
- Concurrency is not modelled. Handlers and commands run one at a time to completion. Each disconnect starts its own independent watchdog task, so nothing here claims at most one check at a time. With overlapping guild events, the 3-second wait before the notice could let two notices through. `AtMostOneNotice` holds for events handled one after another.
- `RunAsync`, `AtMostOneNotice`, `SocketClientDisconnected`: the source subscribes the guild-available and disconnect handlers only at the end of startup (Program.cs:78-79). That is after the gateway log-in and start (lines 62-63), which connect in the background, and after the REST log-in and the owner look-ups (lines 65-75). A guild that becomes available earlier reaches no handler, so that launch never sends the reconnection notice. A disconnect earlier starts no watchdog. The `guilds` and `samples` inputs cover only events delivered after the handlers are subscribed.
- Every awaited Discord, file and configuration call is assumed to succeed. In the source, a throw ends the handler, which changes the outcome in three places:
  - `ShutdownEffects`, `OwnerCommandOutcome`: a failing reply, `config.Save()` or `./update` write stops `quit`, `restart`, `update` or `deadlocksim` before the log-out and the exit; the model always reaches the exit.
  - `ClientGuildAvailable`: a failing send of the notice skips the reset of `updateChannel` to 0, so a later guild would be tried again; the model resets it after every send.
  - `WatchdogEffects`: a failing `./deadlock` creation or save faults the watchdog task, so nothing exits; the model always exits.
- `Environment.Exit` is the last effect. The host accepts no effect after it.
- `ShutDown`, `DeadlockSimulation`: the channel id they do not use is passed as 0 to `ShutdownEffects`.
- `ulong.TryParse` is modelled on ASCII digit strings only; culture, whitespace and sign handling are not.
- `OwnerIds` is a set, so the deadlock notice goes to each distinct owner once, in an unspecified order.
- `Client_ReactionAdded`, `Client_ReactionRemoved`: `GetRole` is assumed to find every configured colour role. The role cache is assumed to be current, so `user.Roles` reflects removals already made.
- The outcome of each command's precondition check in `help` is the `passes` input.
- `help`: when a module's commands are not registered together, a later command of an already seen module joins the section being built. This matches the source, where that section is another module's. `Build` models this as written.
- `watch` with no valid id replies "None of those mentioned were valid user Ids!" and then also sends an empty look-up report, because the source does not return there. This is modelled as written.
- Wall-clock and guild-state commands are not modelled: `CheckNewUsers`, `UpdateRoles`, `Download` and `CheckRaiders`. The trivial commands `ping`, `setnick` and `listroles`, the reload of the colour table in `Client_MessageReceived`, and the spoiler filter are not modelled either.
