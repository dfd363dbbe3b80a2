/** The play command (src/commands/Play.ts). Everything the command waits
    for is an input: whether the interaction has a guild, whether the member
    is in a voice channel, whether the voice connection became ready within
    20 seconds, and the outcome of the extraction tool's metadata call. */
module PlayCommand {
  import opened Wrappers
  import opened Track
  import opened Subscription

  const NeedVoiceChannel := "You need to be in a voice channel for me to sing!"
  const FailedToJoin := "Failed to join voice channel within 20 seconds, please try again later!"
  const NoResults := "Diu, no results found!"
  const FailedToPlay := "Diu, failed to play track, please try again later!"

  function EnqueuedReply(d: TrackData): string
  {
    "Enqueued **" + TitleText(d.title) + "**"
  }

  /** The tracks the command appends to the guild's queue once its
      subscription exists: the resolved track when the connection was ready
      and the resolution found one, otherwise none. */
  function Appended(readyInTime: bool, call: Result<Info, string>): (ts: seq<TrackData>)
    ensures |ts| <= 1
    ensures |ts| == 1 <==> readyInTime && GetVideoData(call).Success? && GetVideoData(call).value.Some?
    ensures |ts| == 1 ==> ts[0] == GetVideoData(call).value.value && ts[0].url != ""
  {
    var resolved := GetVideoData(call);
    if readyInTime && resolved.Success? && resolved.value.Some? then [resolved.value.value] else []
  }

  /** The follow-up once the member is in a voice channel: the timeout
      message when the connection did not become ready, otherwise the
      outcome of resolving the query. */
  function JoinReply(readyInTime: bool, call: Result<Info, string>): (reply: string)
    ensures !readyInTime ==> reply == FailedToJoin
    ensures readyInTime && GetVideoData(call).Failure? ==> reply == FailedToPlay
    ensures readyInTime && GetVideoData(call) == Success(None) ==> reply == NoResults
    ensures readyInTime && GetVideoData(call).Success? && GetVideoData(call).value.Some? ==>
      reply == EnqueuedReply(GetVideoData(call).value.value)
    ensures reply != FailedToJoin ==> readyInTime
  {
    if !readyInTime then FailedToJoin
    else match GetVideoData(call)
      case Failure(_) => FailedToPlay
      case Success(None) => NoResults
      case Success(Some(d)) => EnqueuedReply(d)
  }

  /** `PlayCommand.execute`. The result is the follow-up message, None when
      the command returns before sending one. */
  method Execute(registry: SubscriptionRegistry, guildId: Option<GuildId>, inVoiceChannel: bool,
                 readyInTime: bool, call: Result<Info, string>) returns (followUp: Option<string>)
    requires registry.Valid()
    modifies registry, registry.subscriptions.Values
    ensures registry.Valid()
    // Without a guild id nothing happens.
    ensures !Truthy(guildId) ==>
      && followUp == None
      && registry.subscriptions == old(registry.subscriptions)
      && registry.entries == old(registry.entries)
    // Past the guild check there is exactly one follow-up.
    ensures Truthy(guildId) ==> followUp.Some?
    // Not in a voice channel: refused before the registry is touched.
    ensures Truthy(guildId) && !inVoiceChannel ==>
      && followUp == Some(NeedVoiceChannel)
      && registry.subscriptions == old(registry.subscriptions)
      && registry.entries == old(registry.entries)
    // In a voice channel: an existing subscription is reused, otherwise a
    // new one is registered, whatever happens afterwards.
    ensures Truthy(guildId) && inVoiceChannel ==>
      var g := guildId.value;
      && g in registry.subscriptions
      && registry.subscriptions == old(registry.subscriptions)[g := registry.subscriptions[g]]
      && (g in old(registry.subscriptions) ==> registry.subscriptions[g] == old(registry.subscriptions)[g])
      && (g !in old(registry.subscriptions) ==> fresh(registry.subscriptions[g]))
    // The reply says why nothing was enqueued, or which track was.
    ensures Truthy(guildId) && inVoiceChannel ==> followUp == Some(JoinReply(readyInTime, call))
    // The guild's entry (a fresh one if there was none) gains exactly the
    // appended tracks; no other guild's entry changes.
    ensures Truthy(guildId) && inVoiceChannel ==>
      var g := guildId.value;
      var before := if g in old(registry.entries) then old(registry.entries)[g] else FreshEntry;
      registry.entries == old(registry.entries)[g := before.(queue := before.queue + Appended(readyInTime, call))]
  {
    if !Truthy(guildId) {
      return None;
    }
    var g := guildId.value;
    var existing := registry.Get(g);

    if !inVoiceChannel {
      return Some(NeedVoiceChannel);
    }

    var reply := JoinAndEnqueue(registry, g, existing, readyInTime, call);
    followUp := Some(reply);
  }

  /** Lines 30-81 of `execute`, once the member is known to be in a voice
      channel: make sure the guild has a subscription, wait for the voice
      connection, then resolve the query and enqueue the track. */
  method JoinAndEnqueue(registry: SubscriptionRegistry, g: GuildId, existing: Option<Subscription>,
                        readyInTime: bool, call: Result<Info, string>) returns (reply: string)
    requires registry.Valid() && existing == registry.Get(g)
    modifies registry, registry.subscriptions.Values
    ensures registry.Valid() && g in registry.subscriptions
    ensures registry.subscriptions == old(registry.subscriptions)[g := registry.subscriptions[g]]
    ensures g in old(registry.subscriptions) ==> registry.subscriptions[g] == old(registry.subscriptions)[g]
    ensures g !in old(registry.subscriptions) ==> fresh(registry.subscriptions[g])
    ensures reply == JoinReply(readyInTime, call)
    ensures
      var before := if g in old(registry.entries) then old(registry.entries)[g] else FreshEntry;
      registry.entries == old(registry.entries)[g := before.(queue := before.queue + Appended(readyInTime, call))]
  {
    ghost var before := if g in registry.entries then registry.entries[g] else FreshEntry;
    ghost var after := before.(queue := before.queue + Appended(readyInTime, call));
    RegisterIfAbsent(registry, g, existing);
    ReplacedTwice(old(registry.entries), g, before, after);
    reply := EnqueueIfReady(registry, g, readyInTime, call);
  }

  /** Replacing a key's value twice leaves only the second replacement. */
  lemma ReplacedTwice<K, V>(m: map<K, V>, k: K, first: V, second: V)
    ensures m[k := first][k := second] == m[k := second]
  {
  }

  /** Lines 30-42 of `execute`: when the lookup found no subscription for
      the guild, a new one is created and registered under it. */
  method RegisterIfAbsent(registry: SubscriptionRegistry, g: GuildId, existing: Option<Subscription>)
    requires registry.Valid() && existing == registry.Get(g)
    modifies registry
    ensures registry.Valid() && g in registry.subscriptions
    ensures registry.subscriptions == old(registry.subscriptions)[g := registry.subscriptions[g]]
    ensures g in old(registry.subscriptions) ==> registry.subscriptions[g] == old(registry.subscriptions)[g]
    ensures g !in old(registry.subscriptions) ==> fresh(registry.subscriptions[g])
    ensures registry.entries == old(registry.entries)[g := if g in old(registry.entries) then old(registry.entries)[g] else FreshEntry]
  {
    if existing.None? {
      var subscription := new Subscription();
      registry.Set(g, subscription);
    } else {
      assert registry.subscriptions[g := registry.subscriptions[g]] == registry.subscriptions;
      assert registry.entries[g := registry.entries[g]] == registry.entries;
    }
  }

  /** Lines 44-81 of `execute`, once the guild has a subscription: unless
      the connection timed out, resolve the query, then enqueue the track
      and acknowledge it, or report why nothing was enqueued. */
  method EnqueueIfReady(registry: SubscriptionRegistry, g: GuildId, readyInTime: bool,
                        call: Result<Info, string>) returns (reply: string)
    requires registry.Valid() && g in registry.subscriptions
    modifies registry, registry.subscriptions[g]
    ensures registry.Valid()
    ensures registry.subscriptions == old(registry.subscriptions)
    ensures reply == JoinReply(readyInTime, call)
    ensures registry.entries ==
      old(registry.entries)[g := old(registry.entries)[g].(queue := old(registry.entries)[g].queue + Appended(readyInTime, call))]
  {
    assert g in registry.entries && registry.entries[g].queue + [] == registry.entries[g].queue;
    ghost var same := registry.entries[g].(queue := registry.entries[g].queue + []);
    assert registry.entries[g := same] == registry.entries;
    if !readyInTime {
      return FailedToJoin;
    }
    match GetVideoData(call)
    case Failure(_) =>
      reply := FailedToPlay;
    case Success(None) =>
      reply := NoResults;
    case Success(Some(trackData)) =>
      registry.Enqueue(g, trackData);
      reply := EnqueuedReply(trackData);
  }
}
