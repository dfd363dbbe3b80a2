/** The per-guild music subscription and the process-wide registry of them,
    as far as the commands use them. Only three operations of a
    subscription are modelled: `enqueue` appends one track, `stop` makes the
    player Idle, and destroying the voice connection sets a flag. */
module Subscription {
  import opened Wrappers
  import opened Track

  type GuildId = string

  /** The audio player's state: Idle, or one of the busy statuses with the
      track whose resource is bound to it. */
  datatype Status = Buffering | Playing | Paused | AutoPaused
  datatype PlayerState = Idle | Busy(status: Status, current: TrackData)

  /** What the commands can observe of one subscription. */
  datatype Entry = Entry(queue: seq<TrackData>, player: PlayerState)

  /** The reply of skip, leave and queue when the guild has no subscription. */
  const NotPlaying := "Not playing in this server!"

  /** The entry of a subscription just created for a new voice connection. */
  const FreshEntry := Entry([], Idle)

  class Subscription {
    var queue: seq<TrackData>
    var player: PlayerState
    /** Whether `voiceConnection.destroy()` has been called. */
    var destroyed: bool

    constructor ()
      ensures queue == [] && player == Idle && !destroyed
    {
      queue := [];
      player := Idle;
      destroyed := false;
    }

    function AsEntry(): (e: Entry)
      reads this
    {
      Entry(queue, player)
    }

    /** `enqueue`: the track is appended to the tail of the queue. */
    method Enqueue(t: TrackData)
      modifies this
      ensures queue == old(queue) + [t]
      ensures player == old(player) && destroyed == old(destroyed)
    {
      queue := queue + [t];
    }

    /** `audioPlayer.stop()`: the player becomes Idle, whatever it was. */
    method Stop()
      modifies this
      ensures player == Idle
      ensures queue == old(queue) && destroyed == old(destroyed)
    {
      player := Idle;
    }

    /** `voiceConnection.destroy()`. */
    method Destroy()
      modifies this
      ensures destroyed
      ensures queue == old(queue) && player == old(player)
    {
      destroyed := true;
    }
  }

  /** The `subscriptions` map from guild to subscription. */
  class SubscriptionRegistry {
    var subscriptions: map<GuildId, Subscription>
    /** Each registered guild's queue and player, as the commands see them. */
    ghost var entries: map<GuildId, Entry>

    /** No subscription object is registered under two guilds. */
    ghost predicate Distinct()
      reads this
    {
      forall g, h :: g in subscriptions && h in subscriptions && g != h ==> subscriptions[g] != subscriptions[h]
    }

    /** The subscription registered for `g` has a live connection and
        `entries` describes it. */
    ghost predicate Describes(g: GuildId)
      requires g in subscriptions && g in entries
      reads this, subscriptions[g]
    {
      entries[g] == subscriptions[g].AsEntry() && !subscriptions[g].destroyed
    }

    ghost predicate Valid()
      reads this, subscriptions.Values
    {
      && entries.Keys == subscriptions.Keys
      && Distinct()
      && forall g :: g in subscriptions ==> Describes(g)
    }

    constructor ()
      ensures Valid() && subscriptions == map[] && entries == map[]
    {
      subscriptions := map[];
      entries := map[];
    }

    /** `subscriptions.get(guildId)`. */
    function Get(g: GuildId): (r: Option<Subscription>)
      reads this
      ensures r.Some? <==> g in subscriptions
      ensures r.Some? ==> r.value == subscriptions[g]
    {
      if g in subscriptions then Some(subscriptions[g]) else None
    }

    /** `subscriptions.set(guildId, s)` for a subscription not registered yet. */
    method Set(g: GuildId, s: Subscription)
      requires Valid() && g !in subscriptions
      requires s !in subscriptions.Values && !s.destroyed
      modifies this
      ensures Valid()
      ensures subscriptions == old(subscriptions)[g := s]
      ensures entries == old(entries)[g := s.AsEntry()]
    {
      subscriptions := subscriptions[g := s];
      entries := entries[g := s.AsEntry()];
      assert forall h :: h in old(subscriptions) ==> subscriptions[h] == old(subscriptions)[h];
    }

    /** `enqueue` on the subscription registered for `g`: its queue gains
        the track at the tail and nothing else in the registry changes. */
    method Enqueue(g: GuildId, t: TrackData)
      requires Valid() && g in subscriptions
      modifies this, subscriptions[g]
      ensures Valid()
      ensures subscriptions == old(subscriptions)
      ensures entries == old(entries)[g := old(entries)[g].(queue := old(entries)[g].queue + [t])]
    {
      subscriptions[g].Enqueue(t);
      entries := entries[g := entries[g].(queue := entries[g].queue + [t])];
    }

    /** `audioPlayer.stop()` on the subscription registered for `g`: its
        player becomes Idle and nothing else in the registry changes. */
    method Stop(g: GuildId)
      requires Valid() && g in subscriptions
      modifies this, subscriptions[g]
      ensures Valid()
      ensures subscriptions == old(subscriptions)
      ensures entries == old(entries)[g := old(entries)[g].(player := Idle)]
    {
      subscriptions[g].Stop();
      entries := entries[g := entries[g].(player := Idle)];
    }

    /** `voiceConnection.destroy()` on the subscription registered for `g`,
        then `subscriptions.delete(guildId)`. */
    method Remove(g: GuildId)
      requires Valid() && g in subscriptions
      modifies this, subscriptions[g]
      ensures Valid()
      ensures old(subscriptions)[g].destroyed
      ensures subscriptions == old(subscriptions) - {g}
      ensures entries == old(entries) - {g}
    {
      subscriptions[g].Destroy();
      subscriptions := subscriptions - {g};
      entries := entries - {g};
    }
  }
}
