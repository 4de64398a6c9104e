/**
 * Colour roles picked by reacting in one channel. `colors` maps an emote name
 * to the id of the role of that colour; a role is a colour role when its id is
 * among the map's values.
 */
module ColorRoles {

  /** The channel whose reactions pick colours. */
  const ColorChannel: nat := 431953417024307210

  /** The emote that removes every colour role. */
  const NoColor := "🚫"

  /** The ids of the colour roles. */
  function ColorIds(colors: map<string, nat>): set<nat>
  {
    colors.Values
  }

  /** The roles a member holds after adding the reaction `emote` in `channel`. */
  function AfterAdded(roles: set<nat>, colors: map<string, nat>, channel: nat, emote: string): set<nat>
  {
    if channel != ColorChannel then roles
    else if emote in colors then (roles - ColorIds(colors)) + {colors[emote]}
    else if emote == NoColor then roles - ColorIds(colors)
    else roles
  }

  /** The roles a member holds after taking back the reaction `emote` in `channel`. */
  function AfterRemoved(roles: set<nat>, colors: map<string, nat>, channel: nat, emote: string): set<nat>
  {
    if channel == ColorChannel && emote in colors then roles - {colors[emote]} else roles
  }

  /** Picking a colour leaves exactly that colour and every other role as it was. */
  lemma ChosenColorOnly(roles: set<nat>, colors: map<string, nat>, emote: string)
    requires emote in colors
    ensures var after := AfterAdded(roles, colors, ColorChannel, emote);
      && after * ColorIds(colors) == {colors[emote]}
      && after - ColorIds(colors) == roles - ColorIds(colors)
  {
  }

  /** "🚫" (when it names no colour) takes every colour away and leaves every other role. */
  lemma NoColorClears(roles: set<nat>, colors: map<string, nat>)
    requires NoColor !in colors
    ensures var after := AfterAdded(roles, colors, ColorChannel, NoColor);
      && after * ColorIds(colors) == {}
      && after - ColorIds(colors) == roles - ColorIds(colors)
  {
  }

  /** After a colour or "🚫" reaction in the colour channel, the member holds at most one colour. */
  lemma AtMostOneColor(roles: set<nat>, colors: map<string, nat>, channel: nat, emote: string)
    requires channel == ColorChannel && (emote in colors || emote == NoColor)
    ensures |AfterAdded(roles, colors, channel, emote) * ColorIds(colors)| <= 1
  {
    var after := AfterAdded(roles, colors, channel, emote);
    if emote in colors {
      assert after * ColorIds(colors) == {colors[emote]};
    } else {
      assert after * ColorIds(colors) == {};
    }
  }

  /** Taking back a reaction removes at most its own colour, and only a role the member held. */
  lemma RemovalTakesOnlyItsColor(roles: set<nat>, colors: map<string, nat>, channel: nat, emote: string)
    ensures var after := AfterRemoved(roles, colors, channel, emote);
      && after <= roles
      && roles - after == (if channel == ColorChannel && emote in colors then roles * {colors[emote]} else {})
  {
  }

  /** Reactions elsewhere, or with an emote that is neither a colour nor "🚫", change nothing. */
  lemma OtherReactionsIgnored(roles: set<nat>, colors: map<string, nat>, channel: nat, emote: string)
    requires channel != ColorChannel || (emote !in colors && emote != NoColor)
    ensures AfterAdded(roles, colors, channel, emote) == roles
    ensures AfterRemoved(roles, colors, channel, emote) == roles
  {
  }

  /** Reacting a second time with the same emote changes nothing more. */
  lemma AddingTwiceIsAddingOnce(roles: set<nat>, colors: map<string, nat>, channel: nat, emote: string)
    ensures var once := AfterAdded(roles, colors, channel, emote);
      AfterAdded(once, colors, channel, emote) == once
  {
  }

  /** A member of the guild, whose roles the reaction handlers change one at a time. */
  class GuildUser {
    var roles: set<nat>

    constructor (roles: set<nat>)
      ensures this.roles == roles
    {
      this.roles := roles;
    }
  }

  /** The `foreach` of the handlers: one `RemoveRoleAsync` per role in `doomed`. */
  method RemoveRoles(user: GuildUser, doomed: set<nat>)
    modifies user
    ensures user.roles == old(user.roles) - doomed
  {
    var rest := doomed;
    while rest != {}
      invariant user.roles == old(user.roles) - (doomed - rest)
      invariant rest <= doomed
      decreases rest
    {
      var r :| r in rest;
      user.roles := user.roles - {r};
      rest := rest - {r};
    }
  }
}
