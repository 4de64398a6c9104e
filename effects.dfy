/**
 * What the bot does to the world outside its own memory: the two marker files
 * `./update` and `./deadlock`, the messages and log-in/log-out calls it makes
 * to the chat service, the saving of its configuration, and its exit status.
 */
module Effects {
  import opened Wrappers

  /** `ExitCodes.ExitCode`: four distinct exit statuses read by the supervisor that relaunches the bot. */
  datatype ExitCode = Success | Restart | RestartAndUpdate | DeadlockEscape

  /** The marker files: the text of `./update` if it exists, and whether `./deadlock` exists. */
  datatype Markers = Markers(update: Option<string>, deadlock: bool)

  const NoMarkers := Markers(None, false)

  datatype Effect =
    | Replied(text: string)            // a reply in the channel the command came from
    | SavedConfig                      // `config.Save()`
    | WroteUpdate(text: string)        // `File.WriteAllTextAsync("./update", text)`
    | CreatedDeadlock                  // `File.Create("./deadlock")`
    | DeletedUpdate                    // `File.Delete("./update")`
    | DeletedDeadlock                  // `File.Delete("./deadlock")`
    | LoggedIn                         // the socket and REST clients log in and start
    | LoggedOut                        // `Context.Client.LogoutAsync()`
    | Exited(code: ExitCode)           // `Environment.Exit`
    | Sent(channel: nat, text: string) // a message to a text channel found in a guild
    | NotifiedOwner(user: nat)         // a look-up of an owner and a direct message to them

  /** Whether an effect writes a marker file. */
  predicate WritesMarker(e: Effect)
  {
    e.WroteUpdate? || e.CreatedDeadlock?
  }

  /** Whether an effect tears the connection or the process down. */
  predicate TearsDown(e: Effect)
  {
    e.LoggedOut? || e.Exited?
  }

  /** The marker files after one effect. */
  function Apply(m: Markers, e: Effect): Markers
  {
    match e
    case WroteUpdate(t) => m.(update := Some(t))
    case CreatedDeadlock => m.(deadlock := true)
    case DeletedUpdate => m.(update := None)
    case DeletedDeadlock => m.(deadlock := false)
    case _ => m
  }

  /** The marker files after a sequence of effects, in order. */
  function ApplyAll(m: Markers, es: seq<Effect>): Markers
    decreases es
  {
    if es == [] then m else ApplyAll(Apply(m, es[0]), es[1..])
  }

  /** Whether an effect touches a marker file at all. */
  predicate TouchesMarker(e: Effect)
  {
    WritesMarker(e) || e.DeletedUpdate? || e.DeletedDeadlock?
  }

  /** Effects that touch no marker file leave the markers as they were. */
  lemma {:induction false} ApplyAllUntouched(m: Markers, es: seq<Effect>)
    requires forall i :: 0 <= i < |es| ==> !TouchesMarker(es[i])
    ensures ApplyAll(m, es) == m
    decreases es
  {
    if es != [] {
      ApplyAllUntouched(m, es[1..]);
    }
  }

  /** When only the effect at `k` touches a marker file, the markers end as that one effect leaves them. */
  lemma {:induction false} ApplyAllSingleTouch(m: Markers, es: seq<Effect>, k: nat)
    requires k < |es|
    requires forall i :: 0 <= i < |es| && i != k ==> !TouchesMarker(es[i])
    ensures ApplyAll(m, es) == Apply(m, es[k])
    decreases es
  {
    if k == 0 {
      ApplyAllUntouched(Apply(m, es[0]), es[1..]);
    } else {
      ApplyAllSingleTouch(m, es[1..], k - 1);
    }
  }

  /** The exit status an effect sequence ends the process with, if any. */
  function ExitOf(es: seq<Effect>): Option<ExitCode>
  {
    if es == [] then None
    else if es[0].Exited? then Some(es[0].code)
    else ExitOf(es[1..])
  }

  /** A sequence whose only exit is its last effect ends the process with that exit's status. */
  lemma {:induction false} ExitOfLast(es: seq<Effect>)
    requires es != [] && es[|es| - 1].Exited?
    requires forall i :: 0 <= i < |es| - 1 ==> !es[i].Exited?
    ensures ExitOf(es) == Some(es[|es| - 1].code)
    decreases es
  {
    if |es| > 1 {
      ExitOfLast(es[1..]);
    }
  }

  /**
   * The world as one incarnation of the bot sees it. `effects` is the ordered
   * record of everything the bot has done outside its memory; `markers` and
   * `exitCode` are what those effects leave behind.
   */
  class Host {
    var markers: Markers
    var effects: seq<Effect>
    var exitCode: Option<ExitCode>

    constructor (m: Markers)
      ensures markers == m && effects == [] && exitCode == None
    {
      markers := m;
      effects := [];
      exitCode := None;
    }

    /** Performs one effect. Nothing happens after the process has exited. */
    method Do(e: Effect)
      requires exitCode == None
      modifies this
      ensures effects == old(effects) + [e]
      ensures markers == Apply(old(markers), e)
      ensures exitCode == (if e.Exited? then Some(e.code) else None)
    {
      effects := effects + [e];
      markers := Apply(markers, e);
      if e.Exited? {
        exitCode := Some(e.code);
      }
    }
  }
}
