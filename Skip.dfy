/** The skip command (src/commands/Skip.ts): stop the guild's player. What
    the subscription does when its player goes Idle is not part of this
    model; stopping here only makes the player Idle. */
module SkipCommand {
  import opened Wrappers
  import opened Subscription

  const Skipped := "Skipped song!"

  /** `SkipCommand.execute`. The result is the reply, None when there is no
      guild id. */
  method Execute(registry: SubscriptionRegistry, guildId: Option<GuildId>) returns (reply: Option<string>)
    requires registry.Valid()
    modifies registry, registry.subscriptions.Values
    ensures registry.Valid()
    ensures registry.subscriptions == old(registry.subscriptions)
    ensures !Truthy(guildId) ==> reply == None && registry.entries == old(registry.entries)
    ensures Truthy(guildId) && guildId.value !in registry.subscriptions ==>
      reply == Some(NotPlaying) && registry.entries == old(registry.entries)
    ensures Truthy(guildId) && guildId.value in registry.subscriptions ==>
      var g := guildId.value;
      && reply == Some(Skipped)
      && registry.entries == old(registry.entries)[g := old(registry.entries)[g].(player := Idle)]
  {
    if !Truthy(guildId) {
      return None;
    }
    var g := guildId.value;
    match registry.Get(g)
    case Some(_) =>
      registry.Stop(g);
      reply := Some(Skipped);
    case None =>
      reply := Some(NotPlaying);
  }
}
