/** The leave command (src/commands/Leave.ts): destroy the guild's voice
    connection and drop its subscription from the registry. */
module LeaveCommand {
  import opened Wrappers
  import opened Subscription

  const StevenOut := "Steven out!"

  /** `LeaveCommand.execute`. The result is the reply, None when there is no
      guild id. */
  method Execute(registry: SubscriptionRegistry, guildId: Option<GuildId>) returns (reply: Option<string>)
    requires registry.Valid()
    modifies registry, registry.subscriptions.Values
    ensures registry.Valid()
    ensures !Truthy(guildId) ==>
      reply == None && registry.subscriptions == old(registry.subscriptions) && registry.entries == old(registry.entries)
    ensures Truthy(guildId) && guildId.value !in old(registry.subscriptions) ==>
      && reply == Some(NotPlaying)
      && registry.subscriptions == old(registry.subscriptions)
      && registry.entries == old(registry.entries)
    ensures Truthy(guildId) && guildId.value in old(registry.subscriptions) ==>
      var g := guildId.value;
      && reply == Some(StevenOut)
      && old(registry.subscriptions)[g].destroyed
      && registry.Get(g) == None
      && registry.subscriptions == old(registry.subscriptions) - {g}
      && registry.entries == old(registry.entries) - {g}
  {
    if !Truthy(guildId) {
      return None;
    }
    var g := guildId.value;
    match registry.Get(g)
    case Some(_) =>
      registry.Remove(g);
      reply := Some(StevenOut);
    case None =>
      reply := Some(NotPlaying);
  }
}
