/** The part of the bot's configuration the core reads and updates. */
module Configuration {

  class Config {
    /** Users allowed to run the owner-only commands. */
    var OwnerIds: set<nat>
    /** The moderators' notes, keyed by user id. */
    var WatchedIds: map<nat, string>

    constructor (owners: set<nat>, watched: map<nat, string>)
      ensures OwnerIds == owners && WatchedIds == watched
    {
      OwnerIds := owners;
      WatchedIds := watched;
    }
  }
}
