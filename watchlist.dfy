/**
 * The moderators' watch list (`watch`, `watch clear`, `watch all`): the
 * argument parser `WatchListHelper` and the three commands that set, look up,
 * clear and list the notes kept in `Config.WatchedIds`.
 */
module WatchList {
  import opened Wrappers
  import opened Text
  import opened Decimal
  import opened Effects
  import opened Configuration

  /** The only guild the watch-list commands answer in. */
  const WatchGuild: nat := 132720341058453504
  /** The role a caller must hold to use them. */
  const WatchRole: nat := 451057945044582400

  /** One line of a watch-list reply; the chat formatting of each line is abstracted away. */
  datatype NoteLine =
    | AddedReason(note: string, author: string, ids: seq<nat>)  // "Added the reason ... to the following user Id(s): ..."
    | AlreadyHad(id: nat, previous: string)                      // "`id` already had a note! It was: ..."
    | NoteFor(id: nat, note: string)                             // "Note for `id`: ..."
    | NoNote(id: nat)                                            // "`id` does not currently have a note set."
    | Cleared(id: nat, previous: string)                         // "Note cleared for `id`: ..."
    | DidNotHave(id: nat)                                        // "`id` did not have a note."

  /** One reply message. */
  datatype Reply =
    | NoValidIds               // "None of those mentioned were valid user Ids!"
    | Report(lines: seq<NoteLine>)

  /** The guild and role guard every watch-list command starts with. */
  predicate MayWatch(guildId: nat, callerRoles: set<nat>)
  {
    guildId == WatchGuild && WatchRole in callerRoles
  }

  // ---------------------------------------------------------------------------
  // Parsing the arguments

  /** Strips mention punctuation: all leading '<', then all leading '@', then all leading '!', then all trailing '>'. */
  function NormaliseId(token: string): string
  {
    TrimEnd(TrimStart(TrimStart(TrimStart(token, '<'), '@'), '!'), '>')
  }

  /** The id a token names, if its normalised text parses as a `ulong`. */
  function ParseId(token: string): Option<ULong>
  {
    TryParseULong(NormaliseId(token))
  }

  /** The longest leading run of tokens that name ids, as those ids, in order. */
  function LeadingIds(ts: seq<string>): (r: seq<nat>)
    ensures |r| <= |ts|
  {
    if ts == [] then []
    else match ParseId(ts[0])
      case None => []
      case Some(id) => [id] + LeadingIds(ts[1..])
  }

  /** The leading ids are exactly the longest run of tokens that parse, in order: scanning stops at the first that does not. */
  lemma {:induction false} LeadingIdsMeaning(ts: seq<string>)
    ensures var r := LeadingIds(ts);
      && |r| <= |ts|
      && (forall i :: 0 <= i < |r| ==> ParseId(ts[i]) == Some(r[i]))
      && (|r| < |ts| ==> ParseId(ts[|r|]) == None)
  {
    if ts != [] && ParseId(ts[0]).Some? {
      LeadingIdsMeaning(ts[1..]);
      var r := LeadingIds(ts);
      forall i | 0 <= i < |r|
        ensures ParseId(ts[i]) == Some(r[i])
      {
        if i > 0 {
          assert ts[i] == ts[1..][i - 1];
        }
      }
    }
  }

  /** The ids a command remainder lists. */
  function Users(remainder: string): seq<nat>
  {
    LeadingIds(Tokens(remainder))
  }

  /** The note a command remainder carries: empty when no id was listed. */
  function NoteText(remainder: string): string
  {
    var ts := Tokens(remainder);
    var users := LeadingIds(ts);
    if users == [] then "" else Trim(Join(ts[|users|..]))
  }

  /** `WatchListHelper`: scans the tokens of `remainder`, moving each leading id into `users`. */
  method WatchListHelper(remainder: string) returns (users: seq<nat>, note: string)
    ensures users == Users(remainder) && note == NoteText(remainder)
  {
    var args := Tokens(remainder);
    note := "";
    users := [];
    var copy := args;
    var k := 0;
    while k < |copy|
      invariant 0 <= k <= |copy|
      invariant |users| == k
      invariant args == copy[k..]
      invariant LeadingIds(copy) == users + LeadingIds(copy[k..])
    {
      var parsed := ParseId(copy[k]);
      if parsed.Some? {
        assert copy[k..][1..] == copy[k + 1..];
        users := users + [parsed.value];
        args := args[1..];
        k := k + 1;
      } else {
        break;
      }
    }
    if |users| == 0 {
      return;
    } else {
      note := Trim(Join(args));
    }
  }

  /**
   * What the parser returns: the ids named by the longest leading run of tokens,
   * in order, scanning stopping at the first token that is not an id; and, when
   * some id was found, the remaining tokens joined by single spaces and trimmed.
   */
  lemma ArgumentsMeaning(remainder: string)
    ensures var ts, users := Tokens(remainder), Users(remainder);
      && |users| <= |ts|
      && (forall i :: 0 <= i < |users| ==> ParseId(ts[i]) == Some(users[i]))
      && (|users| < |ts| ==> ParseId(ts[|users|]) == None)
      && (users == [] ==> NoteText(remainder) == "")
      && (users != [] ==> NoteText(remainder) == Trim(Join(ts[|users|..])))
  {
    LeadingIdsMeaning(Tokens(remainder));
  }

  lemma {:induction false} TrimStartPast(p: string, d: string, c: char)
    requires forall i :: 0 <= i < |p| ==> p[i] == c
    requires d == [] || d[0] != c
    ensures TrimStart(p + d, c) == d
  {
    if p == [] {
      assert p + d == d;
    } else {
      assert (p + d)[1..] == p[1..] + d;
      TrimStartPast(p[1..], d, c);
    }
  }

  lemma TrimEndBefore(d: string, c: char)
    requires d != [] && d[|d| - 1] != c
    ensures TrimEnd(d, c) == d && TrimEnd(d + [c], c) == d
  {
    assert (d + [c])[..|d|] == d;
  }

  /** A digit string wrapped as a nickname mention "<@!id>" normalises to the digits. */
  lemma NormaliseNicknameMention(d: string)
    requires d != [] && AllDigits(d)
    ensures NormaliseId("<@!" + d + ">") == d
  {
    TrimEndBefore(d, '>');
    var tail := d + ">";
    TrimStartPast("!", tail, '!');
    assert "!" + tail == "!" + d + ">";
    TrimStartPast("@", "!" + tail, '@');
    assert "@" + ("!" + tail) == "@!" + d + ">";
    TrimStartPast("<", "@!" + d + ">", '<');
    assert "<" + ("@!" + d + ">") == "<@!" + d + ">";
  }

  /** A digit string wrapped as a user mention "<@id>" normalises to the digits. */
  lemma NormaliseUserMention(d: string)
    requires d != [] && AllDigits(d)
    ensures NormaliseId("<@" + d + ">") == d
  {
    TrimEndBefore(d, '>');
    var tail := d + ">";
    TrimStartPast([], tail, '!');
    assert [] + tail == tail;
    TrimStartPast("@", tail, '@');
    assert "@" + tail == "@" + d + ">";
    TrimStartPast("<", "@" + d + ">", '<');
    assert "<" + ("@" + d + ">") == "<@" + d + ">";
  }

  /** A bare digit string is its own normal form. */
  lemma NormaliseBareId(d: string)
    requires d != [] && AllDigits(d)
    ensures NormaliseId(d) == d
  {
    TrimEndBefore(d, '>');
    assert [] + d == d;
    TrimStartPast([], d, '<');
    TrimStartPast([], d, '@');
    TrimStartPast([], d, '!');
  }

  /** "<@!42>", "<@42>" and "42" all name user 42. */
  lemma MentionFormsParse(n: ULong)
    ensures ParseId("<@!" + ToDecimal(n) + ">") == Some(n)
    ensures ParseId("<@" + ToDecimal(n) + ">") == Some(n)
    ensures ParseId(ToDecimal(n)) == Some(n)
  {
    ParseOfDecimal(n);
    NormaliseNicknameMention(ToDecimal(n));
    NormaliseUserMention(ToDecimal(n));
    NormaliseBareId(ToDecimal(n));
  }

  /** The prefixes are stripped in a fixed order, so "@<42>" is not an id. */
  lemma MisorderedMentionRejected(n: ULong)
    ensures ParseId("@<" + ToDecimal(n) + ">") == None
  {
    var d := ToDecimal(n);
    var s := "@<" + d + ">";
    TrimStartPast([], s, '<');
    assert [] + s == s;
    TrimStartPast("@", "<" + d + ">", '@');
    assert "@" + ("<" + d + ">") == s;
    TrimStartPast([], "<" + d + ">", '!');
    assert [] + ("<" + d + ">") == "<" + d + ">";
    TrimEndBefore("<" + d, '>');
    assert "<" + d + ">" == ("<" + d) + ['>'];
    assert !IsDigit(("<" + d)[0]);
  }

  // ---------------------------------------------------------------------------
  // Setting notes: `watch <ids> <note>`

  /** The note table after `note` is stored for each listed id in turn. */
  function Assigned(m: map<nat, string>, us: seq<nat>, note: string): (r: map<nat, string>)
    ensures r.Keys == m.Keys + (set u | u in us)
    ensures forall i :: 0 <= i < |us| ==> r[us[i]] == note
    ensures forall u :: u in m && u !in us ==> r[u] == m[u]
  {
    if us == [] then m
    else Assigned(m, us[..|us| - 1], note)[us[|us| - 1] := note]
  }

  /** The "already had a note" lines, one per listed id that had a note when its turn came. */
  function PriorNotes(m: map<nat, string>, us: seq<nat>, note: string): seq<NoteLine>
  {
    if us == [] then []
    else
      var before := Assigned(m, us[..|us| - 1], note);
      var u := us[|us| - 1];
      PriorNotes(m, us[..|us| - 1], note) + (if u in before then [AlreadyHad(u, before[u])] else [])
  }

  /**
   * An id is reported with its previous note exactly when it had one; an id
   * listed twice is reported again at its second mention, with the new note.
   */
  lemma {:induction false} PriorNotesExact(m: map<nat, string>, us: seq<nat>, note: string, u: nat, v: string)
    ensures AlreadyHad(u, v) in PriorNotes(m, us, note)
        <==> (u in us && u in m && v == m[u]) || (multiset(us)[u] >= 2 && v == note)
  {
    if us != [] {
      var init, x := us[..|us| - 1], us[|us| - 1];
      assert us == init + [x];
      assert multiset(us) == multiset(init) + multiset{x};
      PriorNotesExact(m, init, note, u, v);
      var before := Assigned(m, init, note);
      if x in init {
        var j :| 0 <= j < |init| && init[j] == x;
        assert before[x] == note;
      }
    }
  }

  /** The lines of a look-up: each listed id with its note, or the fact that it has none. */
  function Lookup(m: map<nat, string>, us: seq<nat>): (r: seq<NoteLine>)
    ensures |r| == |us|
  {
    seq(|us|, i requires 0 <= i < |us| => if us[i] in m then NoteFor(us[i], m[us[i]]) else NoNote(us[i]))
  }

  /** Storing the note for one more listed id: one entry changes, and one line reports a note it replaced. */
  lemma StoreStep(m: map<nat, string>, us: seq<nat>, note: string, i: nat)
    requires i < |us|
    ensures var before, u := Assigned(m, us[..i], note), us[i];
      && Assigned(m, us[..i + 1], note) == before[u := note]
      && PriorNotes(m, us[..i + 1], note) == PriorNotes(m, us[..i], note) + (if u in before then [AlreadyHad(u, before[u])] else [])
  {
    assert us[..i + 1][..i] == us[..i];
  }

  /** The set-note loop of `watch`: stores `note` for each id in turn, collecting the ids that already had a note. */
  method StoreNote(config: Config, users: seq<nat>, note: string) returns (lines: seq<NoteLine>)
    modifies config
    ensures config.OwnerIds == old(config.OwnerIds)
    ensures config.WatchedIds == Assigned(old(config.WatchedIds), users, note)
    ensures lines == PriorNotes(old(config.WatchedIds), users, note)
  {
    var m0 := config.WatchedIds;
    lines := [];
    var i := 0;
    while i < |users|
      invariant 0 <= i <= |users|
      invariant config.WatchedIds == Assigned(m0, users[..i], note)
      invariant lines == PriorNotes(m0, users[..i], note)
      invariant config.OwnerIds == old(config.OwnerIds)
    {
      var u := users[i];
      StoreStep(m0, users, note, i);
      if u in config.WatchedIds {
        lines := lines + [AlreadyHad(u, config.WatchedIds[u])];
      }
      config.WatchedIds := config.WatchedIds[u := note];
      i := i + 1;
    }
    assert users[..|users|] == users;
  }

  /** The look-up loop of `watch`: reports each listed id's note, or that it has none. */
  method LookUpNotes(config: Config, users: seq<nat>) returns (lines: seq<NoteLine>)
    ensures lines == Lookup(config.WatchedIds, users)
  {
    lines := [];
    var i := 0;
    while i < |users|
      invariant 0 <= i <= |users|
      invariant |lines| == i
      invariant forall j :: 0 <= j < i ==> lines[j] == Lookup(config.WatchedIds, users)[j]
    {
      var u := users[i];
      if u in config.WatchedIds {
        lines := lines + [NoteFor(u, config.WatchedIds[u])];
      } else {
        lines := lines + [NoNote(u)];
      }
      i := i + 1;
    }
  }

  /** `watch`: with a note, stores it for every listed id; without one, looks the listed ids up. */
  method WatchList(config: Config, host: Host, guildId: nat, callerRoles: set<nat>, author: string, remainder: string)
    returns (replies: seq<Reply>)
    requires host.exitCode == None
    modifies config, host
    ensures config.OwnerIds == old(config.OwnerIds)
    ensures host.markers == old(host.markers) && host.exitCode == None
    ensures !MayWatch(guildId, callerRoles) ==>
      replies == [] && config.WatchedIds == old(config.WatchedIds) && host.effects == old(host.effects)
    ensures MayWatch(guildId, callerRoles) ==>
      var users, note := Users(remainder), NoteText(remainder);
      && replies == (if users == [] then [NoValidIds] else [])
                    + [if note != "" then Report([AddedReason(note, author, users)] + PriorNotes(old(config.WatchedIds), users, note))
                       else Report(Lookup(old(config.WatchedIds), users))]
      && config.WatchedIds == (if note != "" then Assigned(old(config.WatchedIds), users, note) else old(config.WatchedIds))
      && host.effects == old(host.effects) + (if note != "" then [SavedConfig] else [])
  {
    replies := [];
    if guildId != WatchGuild || WatchRole !in callerRoles {
      return;
    }
    var users, note := WatchListHelper(remainder);
    if |users| == 0 {
      replies := replies + [NoValidIds];
    }
    if note != "" {
      var prior := StoreNote(config, users, note);
      replies := replies + [Report([AddedReason(note, author, users)] + prior)];
      host.Do(SavedConfig);
    } else {
      var lines := LookUpNotes(config, users);
      replies := replies + [Report(lines)];
    }
  }

  // ---------------------------------------------------------------------------
  // Clearing notes: `watch clear <ids>`

  /** The note table after each listed id's note is removed in turn. */
  function Removed(m: map<nat, string>, us: seq<nat>): (r: map<nat, string>)
    ensures r.Keys == m.Keys - (set u | u in us)
    ensures forall u :: u in r ==> r[u] == m[u]
  {
    if us == [] then m
    else Removed(m, us[..|us| - 1]) - {us[|us| - 1]}
  }

  /** One line per listed id: its note was cleared, or it had none when its turn came. */
  function ClearLines(m: map<nat, string>, us: seq<nat>): (r: seq<NoteLine>)
    ensures |r| == |us|
  {
    if us == [] then []
    else
      var before := Removed(m, us[..|us| - 1]);
      var u := us[|us| - 1];
      ClearLines(m, us[..|us| - 1]) + [if u in before then Cleared(u, before[u]) else DidNotHave(u)]
  }

  /**
   * "Note cleared" is reported exactly for the listed ids that had a note, with
   * that note; "did not have a note" for the others, and for an id's second mention.
   */
  lemma {:induction false} ClearLinesExact(m: map<nat, string>, us: seq<nat>, u: nat, v: string)
    ensures Cleared(u, v) in ClearLines(m, us) <==> u in us && u in m && v == m[u]
    ensures DidNotHave(u) in ClearLines(m, us) <==> u in us && (u !in m || multiset(us)[u] >= 2)
  {
    if us != [] {
      var init, x := us[..|us| - 1], us[|us| - 1];
      assert us == init + [x];
      assert multiset(us) == multiset(init) + multiset{x};
      ClearLinesExact(m, init, u, v);
    }
  }

  /** Clearing one more listed id: its note goes, and one line reports what went. */
  lemma ClearStep(m: map<nat, string>, us: seq<nat>, i: nat)
    requires i < |us|
    ensures var before, u := Removed(m, us[..i]), us[i];
      && Removed(m, us[..i + 1]) == before - {u}
      && ClearLines(m, us[..i + 1]) == ClearLines(m, us[..i]) + [if u in before then Cleared(u, before[u]) else DidNotHave(u)]
  {
    assert us[..i + 1][..i] == us[..i];
  }

  /** The loop of `watch clear`: removes each listed id's note in turn, reporting what it removed. */
  method ClearNotes(config: Config, users: seq<nat>) returns (lines: seq<NoteLine>)
    modifies config
    ensures config.OwnerIds == old(config.OwnerIds)
    ensures config.WatchedIds == Removed(old(config.WatchedIds), users)
    ensures lines == ClearLines(old(config.WatchedIds), users)
  {
    var m0 := config.WatchedIds;
    lines := [];
    var i := 0;
    while i < |users|
      invariant 0 <= i <= |users|
      invariant config.WatchedIds == Removed(m0, users[..i])
      invariant lines == ClearLines(m0, users[..i])
      invariant config.OwnerIds == old(config.OwnerIds)
    {
      var u := users[i];
      ClearStep(m0, users, i);
      if u in config.WatchedIds {
        lines := lines + [Cleared(u, config.WatchedIds[u])];
        config.WatchedIds := config.WatchedIds - {u};
      } else {
        lines := lines + [DidNotHave(u)];
      }
      i := i + 1;
    }
    assert users[..|users|] == users;
  }

  /** `watch clear`: removes the note of every listed id; with no valid id, changes and saves nothing. */
  method ClearWatch(config: Config, host: Host, guildId: nat, callerRoles: set<nat>, remainder: string)
    returns (replies: seq<Reply>)
    requires host.exitCode == None
    modifies config, host
    ensures config.OwnerIds == old(config.OwnerIds)
    ensures host.markers == old(host.markers) && host.exitCode == None
    ensures !MayWatch(guildId, callerRoles) || Users(remainder) == [] ==>
      && replies == (if MayWatch(guildId, callerRoles) then [NoValidIds] else [])
      && config.WatchedIds == old(config.WatchedIds) && host.effects == old(host.effects)
    ensures MayWatch(guildId, callerRoles) && Users(remainder) != [] ==>
      && replies == [Report(ClearLines(old(config.WatchedIds), Users(remainder)))]
      && config.WatchedIds == Removed(old(config.WatchedIds), Users(remainder))
      && host.effects == old(host.effects) + [SavedConfig]
  {
    replies := [];
    if guildId != WatchGuild || WatchRole !in callerRoles {
      return;
    }
    var users, note := WatchListHelper(remainder);
    if |users| == 0 {
      replies := [NoValidIds];
      return;
    }
    var lines := ClearNotes(config, users);
    replies := [Report(lines)];
    host.Do(SavedConfig);
  }

  // ---------------------------------------------------------------------------
  // Listing notes: `watch all`

  /** A listing names every note exactly once, in whatever order the table enumerates them. */
  predicate ListsEveryNote(lines: seq<NoteLine>, m: map<nat, string>)
  {
    && |lines| == |m|
    && (forall l :: l in lines ==> l.NoteFor? && l.id in m && m[l.id] == l.note)
    && (forall k :: k in m ==> NoteFor(k, m[k]) in lines)
  }

  /** `watch all`: one reply listing every note. */
  method ListWatch(config: Config, guildId: nat, callerRoles: set<nat>) returns (replies: seq<Reply>)
    ensures !MayWatch(guildId, callerRoles) ==> replies == []
    ensures MayWatch(guildId, callerRoles) ==>
      |replies| == 1 && replies[0].Report? && ListsEveryNote(replies[0].lines, config.WatchedIds)
  {
    replies := [];
    if guildId != WatchGuild || WatchRole !in callerRoles {
      return;
    }
    var m := config.WatchedIds;
    var lines: seq<NoteLine> := [];
    var rest := m.Keys;
    ghost var done: set<nat> := {};
    while rest != {}
      invariant done + rest == m.Keys && done !! rest
      invariant |lines| == |done|
      invariant forall l :: l in lines ==> l.NoteFor? && l.id in done && m[l.id] == l.note
      invariant forall k :: k in done ==> NoteFor(k, m[k]) in lines
      decreases rest
    {
      var k :| k in rest;
      lines := lines + [NoteFor(k, m[k])];
      rest := rest - {k};
      done := done + {k};
    }
    assert done == m.Keys;
    assert |m| == |m.Keys|;
    replies := [Report(lines)];
  }
}
