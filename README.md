# steven-bot music commands, modelled in Dafny

steven-bot is a Discord music bot. A slash command `/play` resolves a search
term or URL to a track through an extraction tool (`yt-dlp`), and enqueues
that track on the guild's music subscription, creating the subscription and
joining the member's voice channel when needed. `/queue` lists the next
tracks, `/skip` stops the current one and `/leave` tears the subscription
down. This project models:

- **Track selection** (`Track.dfy`). `TrackFactory.getVideoData` reads the
  tool's JSON answer: the first search entry, no track for an empty search,
  or the answer itself. Then it takes `webpage_url || url` and the title. A
  thrown tool error is re-thrown. This part is pure functions over an `Info`
  datatype. JavaScript truthiness of an optional string is "present and
  non-empty" (`Wrappers.Truthy`).
- **The subscription registry** (`Subscription.dfy`). The process-wide
  `subscriptions` map is a class `SubscriptionRegistry` holding
  `map<GuildId, Subscription>`. Each `Subscription` object has a queue, a
  player state and a `destroyed` flag for its voice connection. The ghost
  map `entries` records what the commands can observe of every guild (queue
  and player). `Valid()` ties it to the objects: the same keys, a distinct
  live object per guild, and each entry equal to its object's fields.
- **The play, skip and leave commands** (`Play.dfy`, `Skip.dfy`,
  `Leave.dfy`). Each is a method on the registry. Whatever the command
  waits for is a parameter: whether there is a guild id, whether the member
  is in a voice channel, whether the connection became ready within 20
  seconds, and the outcome of the tool call. Each method returns the reply
  text. Its postconditions give the new `subscriptions` map and the new
  `entries` map in terms of the old ones.
- **The queue listing** (`Queue.dfy`). The reply of `/queue` is a pure
  function of the guild's entry. Lemmas read it back line by line through
  `Text.Split`, whose round trip with `Text.Join` is proved in `Text.dfy`.
  That file also holds `Text.Decimal`, which renders the line numbers.

A subscription created by `/play` stays registered when the voice connection
does not become ready in time: `subscriptions.set` (src/commands/Play.ts:41)
runs before the wait (src/commands/Play.ts:46), so the subscription is still
in the registry after the "Failed to join" reply. `PlayCommand.Execute`
states this.

## Model

| member | source | states |
|---|---|---|
| Track.ChosenItem | src/music/Track.ts:49-55 | a non-empty `entries` gives its first element, an empty one gives nothing, and an answer without `entries` is itself the item |
| Track.UrlField | src/music/Track.ts:57 | the result is truthy iff `webpage_url` or `url` is; it is `webpage_url` when that is truthy, otherwise `url` |
| Track.SelectVideoData | src/music/Track.ts:47-66 | an empty search gives None; a track is returned iff an item was chosen and it has a truthy URL; the track's URL is non-empty and is `webpage_url || url` of the item, so the page URL is preferred; its title is the item's title unchanged (possibly absent); it has no stream URL |
| Track.GetVideoData | src/music/Track.ts:36-70 | the result fails iff the tool call threw, with the same error, so a throw is never turned into "no result"; otherwise it is the selection from the answer |
| Track.TitleText | src/commands/Play.ts:76 | a template literal prints a defined title as itself and an undefined one as `undefined` |
| Track.FirstEntryDecides | src/music/Track.ts:49-50 | two answers with the same non-empty first entry give the same result: top-level fields and later entries are ignored, and the result is that entry's own |
| Track.PlainAnswerIsItem | src/music/Track.ts:53-66 | without `entries`, a track is returned iff `webpage_url` or `url` is truthy, and it carries the preferred URL and the answer's title; a title without a truthy URL gives None |
| Track.SelectAnswerOf | src/music/Track.ts:47-66 | round trip: a track with a non-empty URL is recovered from a plain answer carrying it and from a search whose first entry carries it |
| Text.Decimal | src/commands/Queue.ts:23 | the decimal rendering of a number is non-empty, all digits, a single digit below ten and without a leading zero above |
| Text.DecimalRoundTrip | src/commands/Queue.ts:23 | reading the rendering back as a decimal numeral gives the number |
| Text.Join | src/commands/Queue.ts:24 | joining no lines gives the empty string, and joining one line gives that line |
| Text.JoinEnds | src/commands/Queue.ts:24 | a join of lines starts with the first line and ends with the last, so there is no leading or trailing separator |
| Text.JoinAppend | src/commands/Queue.ts:24 | joining two non-empty runs of lines is joining each and putting one separator between them |
| Text.Split | src/commands/Queue.ts:24 | splitting gives at least one piece, and no piece contains the separator |
| Text.SplitWithout | src/commands/Queue.ts:24 | a text without the separator splits into itself |
| Text.SplitAt | src/commands/Queue.ts:24 | splitting at the first separator gives the text before it, then the split of the rest |
| Text.SplitJoin | src/commands/Queue.ts:24 | round trip: lines without the separator, joined with one separator and split again, are the original lines |
| Subscription.Subscription.constructor | src/commands/Play.ts:39 | a new subscription has an empty queue, an Idle player and a live connection |
| Subscription.Subscription.Enqueue | src/commands/Play.ts:75 | appends exactly the given track to the queue; player and connection unchanged |
| Subscription.Subscription.Stop | src/commands/Skip.ts:14 | the player becomes Idle; queue and connection unchanged |
| Subscription.Subscription.Destroy | src/commands/Leave.ts:14 | the connection is destroyed; queue and player unchanged |
| Subscription.SubscriptionRegistry.constructor | src/commands/Play.ts:4 | the registry starts empty and valid |
| Subscription.SubscriptionRegistry.Get | src/commands/Play.ts:20 | the lookup finds a subscription iff the guild is registered, and it is the registered one |
| Subscription.SubscriptionRegistry.Set | src/commands/Play.ts:41 | registers a new live subscription under a new guild, keeps the registry valid, and adds that guild's entry; nothing else changes |
| Subscription.SubscriptionRegistry.Enqueue | src/commands/Play.ts:75 | the guild's entry gains exactly the track at the end of its queue; the map and every other entry are unchanged and the registry stays valid |
| Subscription.SubscriptionRegistry.Stop | src/commands/Skip.ts:14 | the guild's player becomes Idle; the map, its queue and every other entry are unchanged and the registry stays valid |
| Subscription.SubscriptionRegistry.Remove | src/commands/Leave.ts:14-15 | the guild's connection is destroyed and then the guild is removed from the map and from the entries; every other entry is unchanged and the registry stays valid |
| PlayCommand.Appended | src/commands/Play.ts:46-75 | at most one track is appended: exactly one iff the connection was ready and the resolution found a track, and then it is that track, with a non-empty URL |
| PlayCommand.JoinReply | src/commands/Play.ts:46-80 | the follow-up is "Failed to join" when not ready in time, "failed to play" when resolution threw, "no results" when it found nothing, and "Enqueued **title**" for the resolved track |
| PlayCommand.Execute | src/commands/Play.ts:15-82 | with no guild id, no follow-up and no change; otherwise exactly one follow-up; outside a voice channel, the voice-channel refusal and no change; otherwise an existing subscription is reused (a fresh one is registered only when none exists, and it stays even after a timeout), the follow-up is `JoinReply`, the guild's entry gains exactly `Appended`, and no other guild changes |
| PlayCommand.JoinAndEnqueue | src/commands/Play.ts:30-81 | after the voice-channel check: the guild ends up registered (the existing object, or a fresh one), the reply is `JoinReply`, and its entry (a fresh empty one if it had none) gains exactly `Appended` |
| PlayCommand.RegisterIfAbsent | src/commands/Play.ts:30-42 | the guild ends up registered; an existing subscription is kept, and otherwise a fresh one is added with an empty, Idle entry; no other guild changes |
| PlayCommand.EnqueueIfReady | src/commands/Play.ts:44-81 | the map is unchanged, the reply is `JoinReply`, and the guild's queue gains exactly `Appended` |
| QueueCommand.CurrentLine | src/commands/Queue.ts:16-19 | an Idle player gives "Nothing is currently singing!", otherwise the line names the current track's title |
| QueueCommand.ListingLines | src/commands/Queue.ts:21-23 | there are min(5, queue length) lines, and line i is `i + 1`, ") " and the title of the i-th queued track |
| QueueCommand.Listing | src/commands/Queue.ts:24 | an empty queue gives an empty listing |
| QueueCommand.Reply | src/commands/Queue.ts:27-28 | with no subscription the reply is "Not playing in this server!" |
| QueueCommand.Execute | src/commands/Queue.ts:11-30 | with no guild id there is no reply; otherwise the reply is the "not playing" text when the guild has no entry, and the reply for its entry when it has one; as a function, it changes nothing |
| QueueCommand.Numbering | src/commands/Queue.ts:23 | line i starts with the digit i + 1, then ") ", then the title, so numbering starts at 1 and is consecutive |
| QueueCommand.ListingLinesWithoutNewline | src/commands/Queue.ts:23-24 | listing lines contain no newline when the shown titles contain none |
| QueueCommand.ReplyFraming | src/commands/Queue.ts:26 | the reply starts with the header and a blank line and ends with a blank line and the current line |
| QueueCommand.ReplyLines | src/commands/Queue.ts:16-26 | read line by line, the reply is the header, a blank line, the listing lines (or one empty line for an empty queue), a blank line and the current line, in that order, provided no title holds a newline |
| QueueCommand.ListingGrows | src/commands/Queue.ts:21-23 | with fewer than five queued tracks, an enqueued track appears as the next numbered line and the earlier lines are unchanged |
| QueueCommand.ListingFull | src/commands/Queue.ts:21-22 | with five or more queued tracks, enqueueing one leaves the listing unchanged |
| SkipCommand.Execute | src/commands/Skip.ts:9-19 | the map never changes; with no guild id, no reply and no change; with no subscription, "Not playing in this server!" and no change; otherwise the player is stopped whatever its state, nothing else changes and the reply is "Skipped song!" |
| LeaveCommand.Execute | src/commands/Leave.ts:9-20 | with no guild id, no reply and no change; with no subscription, "Not playing in this server!" and no change; otherwise the subscription's connection is destroyed, the guild is removed (a later lookup finds nothing), every other guild is unchanged and the reply is "Steven out!" |

## Left out

- `TrackFactory.getStream` (src/music/Track.ts:79-118): it spawns a subprocess and wires pipe and exit events, which is operating-system I/O.
- The `youtubedl` call (src/music/Track.ts:38-45): it is a foreign call. Its outcome (the JSON answer, or a thrown error) is an input. The query string and the tool's options are therefore not modelled.
- src/index.ts: process bootstrap, client login and command registration, which hold no logic worth stating.
- Joining the voice channel and the 20-second `entersState` wait (src/commands/Play.ts:33-37, 46): they are network transport and timing. Readiness is a boolean input.
- `deferReply`, `reply`, `followUp` and console logging: they are Discord and console I/O. Replies are returned strings, and `None` stands for no reply.
- The track callbacks `onStart`, `onFinish` and `onError` (src/commands/Play.ts:63-72): they only send chat messages, so the model's track carries only the URL, the title and the stream URL.
- src/music/Subscription.ts is not part of this model. Enqueueing a track only appends it to the queue, and stopping only makes the player Idle. So the model does not capture the subscription starting playback on enqueue, or advancing to the next track when the player goes Idle.
- The player's state is a value in the model (Idle, or a busy status with its current track). The audio resource bound to the player, and the player's own state transitions, are not modelled.
- Concurrency between commands or guilds: each command is one atomic step on the registry.
- Exceptions thrown by `subscription.enqueue` or by Discord calls inside the `try` block of src/commands/Play.ts:53-81: the only failure modelled there is the tool call throwing.
