/** The queue command (src/commands/Queue.ts): a text built from the
    guild's subscription, reading the registry and changing nothing. */
module QueueCommand {
  import opened Wrappers
  import opened Track
  import opened Subscription
  import opened Text

  const Header := "whats up next cousin?"
  const NothingSinging := "Nothing is currently singing!"

  /** How many queued tracks are listed. */
  const Shown := 5

  function Min(a: nat, b: nat): nat { if a < b then a else b }

  /** The line about the player: a fixed text when Idle, otherwise the
      title of the track bound to it. */
  function CurrentLine(player: PlayerState): (r: string)
    ensures player.Idle? ==> r == NothingSinging
    ensures player.Busy? ==> r == "currently singing: **" + TitleText(player.current.title) + "**"
  {
    match player
    case Idle => NothingSinging
    case Busy(_, current) => "currently singing: **" + TitleText(current.title) + "**"
  }

  /** The first five queued tracks in queue order, numbered from 1, each as
      `<n>) <title>`. */
  function ListingLines(queue: seq<TrackData>): (lines: seq<string>)
    ensures |lines| == Min(Shown, |queue|)
    ensures forall i :: 0 <= i < |lines| ==> lines[i] == Decimal(i + 1) + ") " + TitleText(queue[i].title)
  {
    var front := queue[..Min(Shown, |queue|)];
    seq(|front|, i requires 0 <= i < |front| => Decimal(i + 1) + ") " + TitleText(front[i].title))
  }

  /** The listing: those lines joined by single newlines. */
  function Listing(queue: seq<TrackData>): (r: string)
    ensures queue == [] ==> r == ""
  {
    Join(ListingLines(queue), "\n")
  }

  /** The reply for the guild's registry entry, if it has one. */
  function Reply(entry: Option<Entry>): (r: string)
    ensures entry.None? ==> r == NotPlaying
  {
    match entry
    case None => NotPlaying
    case Some(e) => Header + "\n\n" + Listing(e.queue) + "\n\n" + CurrentLine(e.player)
  }

  /** `QueueCommand.execute`: no reply without a guild id, otherwise the
      reply for that guild's entry in the registry. */
  function Execute(registry: SubscriptionRegistry, guildId: Option<GuildId>): (reply: Option<string>)
    requires registry.Valid()
    reads registry, registry.subscriptions.Values
    ensures !Truthy(guildId) ==> reply == None
    ensures Truthy(guildId) && guildId.value !in registry.entries ==> reply == Some(NotPlaying)
    ensures Truthy(guildId) && guildId.value in registry.entries ==>
      reply == Some(Reply(Some(registry.entries[guildId.value])))
  {
    if !Truthy(guildId) then None
    else
      match registry.Get(guildId.value)
      case None => Some(Reply(None))
      case Some(s) => Some(Reply(Some(s.AsEntry())))
  }

  /** Numbering starts at 1 and goes up by one: line i begins with the
      digit i + 1. */
  lemma Numbering(queue: seq<TrackData>, i: nat)
    requires i < |ListingLines(queue)|
    ensures ListingLines(queue)[i][0] == ('1' as int + i) as char
    ensures ListingLines(queue)[i][1..3] == ") "
    ensures ListingLines(queue)[i][3..] == TitleText(queue[i].title)
  {
  }

  /** No listing line holds a newline unless a shown title does. */
  lemma ListingLinesWithoutNewline(queue: seq<TrackData>)
    requires forall i :: 0 <= i < Min(Shown, |queue|) ==> '\n' !in TitleText(queue[i].title)
    ensures forall k :: 0 <= k < |ListingLines(queue)| ==> '\n' !in ListingLines(queue)[k]
  {
    forall k | 0 <= k < |ListingLines(queue)| ensures '\n' !in ListingLines(queue)[k] {
      var digits := Decimal(k + 1);
      assert '\n' !in digits;
      assert ListingLines(queue)[k] == digits + ") " + TitleText(queue[k].title);
    }
  }

  /** Joining a head line, a blank line, some middle lines, a blank line
      and a last line puts two separators on each side of the middle. */
  lemma JoinAround(head: string, middle: seq<string>, last: string, sep: string)
    requires |middle| >= 1
    ensures Join([head, ""] + middle + ["", last], sep) == head + sep + sep + Join(middle, sep) + sep + sep + last
  {
    var a, b := [head, ""], ["", last];
    assert a[1..] == [""];
    assert Join(a, sep) == head + sep;
    assert b[1..] == [last];
    assert Join(b, sep) == sep + last;
    JoinAppend(a, middle, sep);
    JoinAppend(a + middle, b, sep);
  }

  lemma DoubleNewline(h: string, m: string, l: string)
    ensures h + "\n" + "\n" + m + "\n" + "\n" + l == h + "\n\n" + m + "\n\n" + l
  {
  }

  /** Splitting a head line, a blank line, joined middle lines, a blank line
      and a last line gives those lines back. */
  lemma SplitFramed(head: string, middle: seq<string>, last: string)
    requires |middle| >= 1
    requires '\n' !in head && '\n' !in last
    requires forall k :: 0 <= k < |middle| ==> '\n' !in middle[k]
    ensures Split(head + "\n\n" + Join(middle, "\n") + "\n\n" + last, '\n') == [head, ""] + middle + ["", last]
  {
    var all := [head, ""] + middle + ["", last];
    JoinAround(head, middle, last, "\n");
    DoubleNewline(head, Join(middle, "\n"), last);
    NoneHolds([head, ""], middle, '\n');
    NoneHolds([head, ""] + middle, ["", last], '\n');
    SplitJoin(all, '\n');
  }

  /** If no line of either list holds `c`, no line of their concatenation does. */
  lemma NoneHolds(a: seq<string>, b: seq<string>, c: char)
    requires forall k :: 0 <= k < |a| ==> c !in a[k]
    requires forall k :: 0 <= k < |b| ==> c !in b[k]
    ensures forall k :: 0 <= k < |a + b| ==> c !in (a + b)[k]
  {
    forall k | 0 <= k < |a + b| ensures c !in (a + b)[k] {
      if k >= |a| { assert (a + b)[k] == b[k - |a|]; }
    }
  }

  /** The reply starts with the header and a blank line and ends with a
      blank line and the current line, whatever the titles hold. */
  lemma ReplyFraming(e: Entry)
    ensures
      var r, head, tail := Reply(Some(e)), Header + "\n\n", "\n\n" + CurrentLine(e.player);
      |r| >= |head| + |tail| && r[..|head|] == head && r[|r| - |tail|..] == tail
  {
    Framing(Header, "\n\n", Listing(e.queue), "\n\n", CurrentLine(e.player));
  }

  lemma Framing(a: string, b: string, c: string, d: string, e: string)
    ensures
      var r := a + b + c + d + e;
      |r| >= |a + b| + |d + e| && r[..|a + b|] == a + b && r[|r| - |d + e|..] == d + e
  {
    var r := a + b + c + d + e;
    assert r == (a + b) + (c + (d + e));
  }

  lemma HeaderIsOneLine()
    ensures '\n' !in Header
  {
    assert forall i | 0 <= i < |Header| :: Header[i] != '\n';
  }

  /** Read line by line, the reply is the header, a blank line, the listing
      (one line per shown track, or one empty line for an empty queue), a
      blank line and the current line, provided no title holds a newline. */
  lemma {:induction false} ReplyLines(e: Entry)
    requires forall i :: 0 <= i < Min(Shown, |e.queue|) ==> '\n' !in TitleText(e.queue[i].title)
    requires '\n' !in CurrentLine(e.player)
    ensures Split(Reply(Some(e)), '\n') ==
      [Header, ""] + (if e.queue == [] then [""] else ListingLines(e.queue)) + ["", CurrentLine(e.player)]
  {
    var middle := if e.queue == [] then [""] else ListingLines(e.queue);
    assert Join(middle, "\n") == Listing(e.queue);
    ListingLinesWithoutNewline(e.queue);
    HeaderIsOneLine();
    SplitFramed(Header, middle, CurrentLine(e.player));
  }

  /** While fewer than five tracks are queued, enqueueing one adds it to
      the listing as the next numbered line. */
  lemma ListingGrows(queue: seq<TrackData>, t: TrackData)
    requires |queue| < Shown
    ensures ListingLines(queue + [t]) == ListingLines(queue) + [Decimal(|queue| + 1) + ") " + TitleText(t.title)]
  {
    LinesGrow(queue, t, ListingLines(queue), ListingLines(queue + [t]));
  }

  /** Any numbered lines of `queue` and of `queue + [t]`, one per track,
      differ by the line of `t`. */
  lemma LinesGrow(queue: seq<TrackData>, t: TrackData, lines: seq<string>, longer: seq<string>)
    requires |lines| == |queue| && |longer| == |queue| + 1
    requires forall i :: 0 <= i < |lines| ==> lines[i] == Decimal(i + 1) + ") " + TitleText(queue[i].title)
    requires forall i :: 0 <= i < |longer| ==> longer[i] == Decimal(i + 1) + ") " + TitleText((queue + [t])[i].title)
    ensures longer == lines + [Decimal(|queue| + 1) + ") " + TitleText(t.title)]
  {
    forall i | 0 <= i < |lines| ensures longer[i] == lines[i] {
      assert (queue + [t])[i] == queue[i];
    }
    assert (queue + [t])[|queue|] == t;
    Extended(longer, lines, Decimal(|queue| + 1) + ") " + TitleText(t.title));
  }

  /** A sequence one longer than `front` that agrees with it and ends in
      `last` is `front + [last]`. */
  lemma Extended<T>(longer: seq<T>, front: seq<T>, last: T)
    requires |longer| == |front| + 1 && longer[|front|] == last
    requires forall i :: 0 <= i < |front| ==> longer[i] == front[i]
    ensures longer == front + [last]
  {
  }

  /** Once five tracks are queued, enqueueing more leaves the listing as it
      was. */
  lemma ListingFull(queue: seq<TrackData>, t: TrackData)
    requires |queue| >= Shown
    ensures ListingLines(queue + [t]) == ListingLines(queue)
  {
    var lines, longer := ListingLines(queue), ListingLines(queue + [t]);
    forall i | 0 <= i < |longer| ensures longer[i] == lines[i] {
      assert (queue + [t])[i] == queue[i];
    }
  }
}
