/** Durable news, queued per player (news.go). */
module News {
  import opened Entities

  const MAX_NEWS := 2000
  const MAX_PER_PLAYER := 50

  /** A news line; `arrival` tells one line from another, as its address does. */
  datatype Item = Item(arrival: nat, player: PlayerId, at: int, msg: string, delivered: bool)

  // ----- The list as a value

  function Of(items: seq<Item>, id: PlayerId): seq<Item> {
    if items == [] then []
    else (if items[0].player == id then [items[0]] else []) + Of(items[1..], id)
  }

  /** All but the first `drop` of a player's items. */
  function WithoutOldest(items: seq<Item>, id: PlayerId, drop: int): seq<Item> {
    if items == [] then []
    else if drop > 0 && items[0].player == id then WithoutOldest(items[1..], id, drop - 1)
    else [items[0]] + WithoutOldest(items[1..], id, drop)
  }

  function Newest(items: seq<Item>, n: nat): seq<Item> {
    if |items| > n then items[|items| - n..] else items
  }

  function Excess(items: seq<Item>, id: PlayerId): int {
    |Of(items, id)| - MAX_PER_PLAYER
  }

  /** The list after one more line for a player. */
  function Posted(items: seq<Item>, item: Item): seq<Item> {
    var all := items + [item];
    Newest(WithoutOldest(all, item.player, Excess(all, item.player)), MAX_NEWS)
  }

  /** What daily maintenance keeps: what is undelivered or recent. */
  function Trimmed(items: seq<Item>, cutoff: int): seq<Item> {
    if items == [] then []
    else (if items[0].delivered && items[0].at < cutoff then [] else [items[0]]) + Trimmed(items[1..], cutoff)
  }

  /** A player's lines marked delivered. */
  function Read(items: seq<Item>, id: PlayerId): seq<Item> {
    if items == [] then []
    else [if items[0].player == id then items[0].(delivered := true) else items[0]] + Read(items[1..], id)
  }

  function Unread(items: seq<Item>, id: PlayerId): seq<Item> {
    if items == [] then []
    else (if items[0].player == id && !items[0].delivered then [items[0]] else []) + Unread(items[1..], id)
  }

  /** In order of arrival. */
  ghost predicate InOrder(items: seq<Item>) {
    forall i, j :: 0 <= i < j < |items| ==> items[i].arrival < items[j].arrival
  }

  ghost predicate WithinCaps(items: seq<Item>) {
    |items| <= MAX_NEWS && forall id :: |Of(items, id)| <= MAX_PER_PLAYER
  }

  /** A selection from the list, in the same order. */
  ghost predicate Selected(from: seq<Item>, items: seq<Item>) {
    if items == [] then true
    else if from == [] then false
    else if from[0] == items[0] && Selected(from[1..], items[1..]) then true
    else Selected(from[1..], items)
  }

  lemma {:induction false} SelectedIn(from: seq<Item>, items: seq<Item>)
    requires Selected(from, items)
    ensures |items| <= |from| && forall x :: x in items ==> x in from
    ensures InOrder(from) ==> InOrder(items)
  {
    if items != [] {
      if from[0] == items[0] && Selected(from[1..], items[1..]) {
        SelectedIn(from[1..], items[1..]);
        assert forall x :: x in items ==> x == items[0] || x in items[1..];
        if InOrder(from) {
          forall i, j | 0 <= i < j < |items| ensures items[i].arrival < items[j].arrival {
            if i == 0 {
              assert items[j] in items[1..];
              assert items[j] in from[1..];
            } else {
              assert items[i] == items[1..][i - 1] && items[j] == items[1..][j - 1];
            }
          }
        }
      } else {
        SelectedIn(from[1..], items);
      }
    }
  }

  lemma {:induction false} Whole(items: seq<Item>)
    ensures Selected(items, items)
  {
    if items != [] {
      Whole(items[1..]);
    }
  }

  lemma {:induction false} NewestSelected(items: seq<Item>, n: nat)
    ensures Selected(items, Newest(items, n))
  {
    if |items| > n {
      if |items| - n == 0 {
      } else {
        NewestSelected(items[1..], n);
        assert items[1..][|items| - 1 - n..] == items[|items| - n..];
        if |items[1..]| <= n {
          assert Newest(items[1..], n) == items[1..] == items[|items| - n..];
        }
        Skipped(items, items[|items| - n..]);
      }
    } else {
      Whole(items);
    }
  }

  lemma Skipped(from: seq<Item>, items: seq<Item>)
    requires from != [] && Selected(from[1..], items)
    ensures Selected(from, items)
  {
  }

  lemma {:induction false} OldestSelected(items: seq<Item>, id: PlayerId, drop: int)
    ensures Selected(items, WithoutOldest(items, id, drop))
  {
    if items != [] {
      if drop > 0 && items[0].player == id {
        OldestSelected(items[1..], id, drop - 1);
        Skipped(items, WithoutOldest(items[1..], id, drop - 1));
      } else {
        OldestSelected(items[1..], id, drop);
        var rest := WithoutOldest(items[1..], id, drop);
        assert ([items[0]] + rest)[1..] == rest;
      }
    }
  }

  lemma {:induction false} TrimmedSelected(items: seq<Item>, cutoff: int)
    ensures Selected(items, Trimmed(items, cutoff))
  {
    if items != [] {
      TrimmedSelected(items[1..], cutoff);
      var rest := Trimmed(items[1..], cutoff);
      if items[0].delivered && items[0].at < cutoff {
        assert [] + rest == rest;
        Skipped(items, rest);
      } else {
        assert ([items[0]] + rest)[1..] == rest;
      }
    }
  }

  /** A selection holds no more of any player's items. */
  lemma {:induction false} NoMoreOf(from: seq<Item>, items: seq<Item>, id: PlayerId)
    requires Selected(from, items)
    ensures |Of(items, id)| <= |Of(from, id)|
  {
    if items != [] {
      if from[0] == items[0] && Selected(from[1..], items[1..]) {
        NoMoreOf(from[1..], items[1..], id);
      } else {
        NoMoreOf(from[1..], items, id);
      }
    }
  }

  /** One player's overflow costs that player the oldest items, and nobody else any. */
  lemma {:induction false} OnlyTheirOldest(items: seq<Item>, id: PlayerId, drop: int, other: PlayerId)
    requires drop <= |Of(items, id)|
    ensures Of(WithoutOldest(items, id, drop), other)
            == if other == id && drop > 0 then Of(items, other)[drop..] else Of(items, other)
  {
    if items != [] {
      if drop > 0 && items[0].player == id {
        OnlyTheirOldest(items[1..], id, drop - 1, other);
      } else {
        OnlyTheirOldest(items[1..], id, drop, other);
        var rest := WithoutOldest(items[1..], id, drop);
        assert ([items[0]] + rest)[1..] == rest;
      }
    }
  }

  lemma {:induction false} OfSnoc(items: seq<Item>, item: Item, id: PlayerId)
    ensures Of(items + [item], id) == Of(items, id) + if item.player == id then [item] else []
  {
    if items == [] {
      assert [item][1..] == [];
      assert Of([item], id) == (if item.player == id then [item] else []) + Of([], id);
    } else {
      assert (items + [item])[1..] == items[1..] + [item];
      OfSnoc(items[1..], item, id);
    }
  }

  /** A new line keeps the caps and the order, whoever it is for, and the newcomer is there. */
  lemma PostedKeeps(items: seq<Item>, item: Item)
    requires WithinCaps(items) && InOrder(items) && forall i :: 0 <= i < |items| ==> items[i].arrival < item.arrival
    ensures WithinCaps(Posted(items, item)) && InOrder(Posted(items, item)) && Selected(items + [item], Posted(items, item))
  {
    var all := items + [item];
    var fitted := WithoutOldest(all, item.player, Excess(all, item.player));
    OldestSelected(all, item.player, Excess(all, item.player));
    NewestSelected(fitted, MAX_NEWS);
    SelectedIn(all, fitted);
    SelectedIn(fitted, Posted(items, item));
    forall id ensures |Of(Posted(items, item), id)| <= MAX_PER_PLAYER {
      OfSnoc(items, item, id);
      OnlyTheirOldest(all, item.player, Excess(all, item.player), id);
      NoMoreOf(fitted, Posted(items, item), id);
    }
    SelectedThrough(all, fitted, Posted(items, item));
  }

  lemma {:induction false} SelectedThrough(a: seq<Item>, b: seq<Item>, c: seq<Item>)
    requires Selected(a, b) && Selected(b, c)
    ensures Selected(a, c)
    decreases |a|
  {
    if c != [] {
      if a[0] == b[0] && Selected(a[1..], b[1..]) {
        if b[0] == c[0] && Selected(b[1..], c[1..]) {
          SelectedThrough(a[1..], b[1..], c[1..]);
        } else {
          SelectedThrough(a[1..], b[1..], c);
          Skipped(a, c);
        }
      } else {
        SelectedThrough(a[1..], b, c);
        Skipped(a, c);
      }
    }
  }

  /** While the whole list has room, posting for one player never evicts another's news. */
  lemma PostingIsFair(items: seq<Item>, item: Item, other: PlayerId)
    requires WithinCaps(items) && |items| < MAX_NEWS && other != item.player
    ensures Of(Posted(items, item), other) == Of(items, other)
  {
    var all := items + [item];
    OldestSelected(all, item.player, Excess(all, item.player));
    SelectedIn(all, WithoutOldest(all, item.player, Excess(all, item.player)));
    OfSnoc(items, item, item.player);
    OfSnoc(items, item, other);
    OnlyTheirOldest(all, item.player, Excess(all, item.player), other);
  }

  /** Trimming keeps everything that has not been delivered. */
  lemma {:induction false} NothingUnreadTrimmed(items: seq<Item>, cutoff: int, id: PlayerId)
    ensures Unread(Trimmed(items, cutoff), id) == Unread(items, id)
    ensures forall x :: x in items && !x.delivered ==> x in Trimmed(items, cutoff)
  {
    if items != [] {
      NothingUnreadTrimmed(items[1..], cutoff, id);
      var rest := Trimmed(items[1..], cutoff);
      assert ([items[0]] + rest)[1..] == rest && [] + rest == rest;
      forall x | x in items && !x.delivered ensures x in Trimmed(items, cutoff) {
        assert x == items[0] || x in items[1..];
      }
    }
  }

  lemma {:induction false} ReadKeeps(items: seq<Item>, id: PlayerId, other: PlayerId)
    ensures |Read(items, id)| == |items| && |Of(Read(items, id), other)| == |Of(items, other)|
    ensures forall i :: 0 <= i < |items| ==>
              Read(items, id)[i] == if items[i].player == id then items[i].(delivered := true) else items[i]
    ensures Unread(Read(items, id), id) == []
  {
    if items != [] {
      ReadKeeps(items[1..], id, other);
      var rest := Read(items[1..], id);
      assert Read(items, id)[1..] == rest;
    }
  }

  lemma {:induction false} UnreadIn(items: seq<Item>, id: PlayerId)
    ensures forall x :: x in Unread(items, id) <==> x in items && x.player == id && !x.delivered
  {
    if items != [] {
      UnreadIn(items[1..], id);
      assert forall x :: x in items <==> x == items[0] || x in items[1..];
    }
  }

  // ----- The list as the engine keeps it

  /** A slice of a buffer, compacted in place. */
  class Board {
    var buf: array<Item>
    var lo: nat
    var hi: nat
    var arrivals: nat
    /** The arrivals ever handed out. */
    ghost var handed: set<nat>

    ghost function Items(): seq<Item>
      reads this, buf
      requires lo <= hi <= buf.Length
    {
      buf[lo..hi]
    }

    ghost predicate Valid()
      reads this, buf
    {
      && lo <= hi <= buf.Length
      && WithinCaps(Items()) && InOrder(Items())
      && Accounted(Items(), handed, arrivals)
    }

    constructor ()
      ensures Valid() && fresh(buf) && Items() == [] && handed == {}
    {
      buf := new Item[0];
      lo, hi, arrivals, handed := 0, 0, 0, {};
      new;
      Nothing();
    }

    /** One more at the end, in place if there is room and else in a larger buffer. */
    method Append(item: Item)
      requires lo <= hi <= buf.Length
      modifies this`buf, this`lo, this`hi, buf
      ensures lo <= hi <= buf.Length && Items() == old(Items()) + [item]
      ensures buf == old(buf) || fresh(buf)
    {
      ghost var before := Items();
      if hi == buf.Length {
        var larger := new Item[2 * (hi - lo) + 1](i requires 0 <= i reads this, buf =>
          if lo + i < hi && lo + i < buf.Length then buf[lo + i] else item);
        hi := hi - lo;
        buf, lo := larger, 0;
        assert buf[..hi] == before;
      }
      buf[hi] := item;
      hi := hi + 1;
      assert buf[lo..hi] == before + [item];
    }

    method CountOf(id: PlayerId) returns (count: nat)
      requires lo <= hi <= buf.Length
      ensures count == |Of(Items(), id)|
    {
      count := 0;
      var i := hi;
      while i > lo
        invariant lo <= i <= hi
        invariant count == |Of(buf[i..hi], id)|
      {
        i := i - 1;
        assert buf[i..hi][1..] == buf[i + 1..hi];
        if buf[i].player == id {
          count := count + 1;
        }
      }
    }

    /** The slice holds what has been kept, then what has not been looked at. */
    ghost predicate Between(all: seq<Item>, kept: seq<Item>, w: nat, r: nat)
      reads this, buf
    {
      && lo <= w <= r <= hi <= buf.Length && |all| == hi - lo && |kept| == w - lo
      && (forall k :: 0 <= k < |kept| ==> buf[lo + k] == kept[k])
      && (forall k :: r <= k < hi ==> buf[k] == all[k - lo])
    }

    /** Writes an item over the first place not kept. */
    method Keep(ghost all: seq<Item>, ghost kept: seq<Item>, w: nat, ghost r: nat, n: Item)
      requires Between(all, kept, w, r) && r < hi
      modifies buf
      ensures Between(all, kept + [n], w + 1, r + 1)
    {
      buf[w] := n;
    }

    /** Cuts the slice after what has been kept. */
    method CutOff(ghost all: seq<Item>, ghost kept: seq<Item>, w: nat)
      requires Between(all, kept, w, hi)
      modifies this`hi
      ensures lo <= hi <= buf.Length && Items() == kept
    {
      hi := w;
    }

    /** Drops a player's oldest items, moving the rest down over them. */
    method DropOldest(id: PlayerId, drop: int)
      requires lo <= hi <= buf.Length
      modifies this`hi, buf
      ensures lo <= hi <= buf.Length && Items() == WithoutOldest(old(Items()), id, drop)
    {
      hide WithoutOldest, Dropping;
      ghost var all, kept := Items(), [];
      var r: nat, w: nat, left := lo, lo, drop;
      DroppingStarts(all, id, drop);
      while r < hi
        invariant Between(all, kept, w, r) && hi == old(hi) && Dropping(all, r - lo, kept, id, left, drop)
      {
        var n := buf[r];
        DroppingOn(all, r - lo, kept, id, left, drop);
        if left > 0 && n.player == id {
          left := left - 1;
        } else {
          Keep(all, kept, w, r, n);
          kept := kept + [n];
          w := w + 1;
        }
        r := r + 1;
      }
      DroppingEnds(all, kept, id, left, drop);
      CutOff(all, kept, w);
    }

    /** Queues a line for a player who reads the news, within the caps. */
    method AddNews(id: PlayerId, isReader: bool, now: int, msg: string)
      requires Valid()
      modifies this, buf
      ensures Valid() && (buf == old(buf) || fresh(buf)) && handed == old(handed)
      ensures Items() == if isReader then Posted(old(Items()), Item(old(arrivals), id, now, msg, false)) else old(Items())
    {
      hide WithinCaps, InOrder, Accounted, Of, WithoutOldest;
      if isReader {
        ghost var items := Items();
        var item := Item(arrivals, id, now, msg, false);
        PostedStill(items, item, handed, arrivals);
        Append(item);
        ghost var all := Items();
        arrivals := arrivals + 1;
        assert Items() == all;
        var count := CountOf(id);
        NothingDropped(all, id, count - MAX_PER_PLAYER);
        if count - MAX_PER_PLAYER > 0 {
          DropOldest(id, count - MAX_PER_PLAYER);
        }
        ClipOldest();
      }
    }

    /** Keeps the newest items, by moving the start of the slice. */
    method ClipOldest()
      requires lo <= hi <= buf.Length
      modifies this`lo
      ensures lo <= hi <= buf.Length && Items() == Newest(old(Items()), MAX_NEWS)
    {
      ghost var items := Items();
      if hi - lo > MAX_NEWS {
        lo := hi - MAX_NEWS;
        assert Items() == items[|items| - MAX_NEWS..];
      }
    }

    /** Hands a player the lines not handed out before, and marks them. */
    method TakeNews(id: PlayerId) returns (taken: seq<Item>)
      requires Valid()
      modifies this`handed, buf
      ensures Valid()
      ensures taken == Unread(old(Items()), id) && Items() == Read(old(Items()), id)
      ensures forall x :: x in taken ==> x.arrival !in old(handed) && x.arrival in handed
      ensures forall a :: a in handed ==> a in old(handed) || exists x :: x in taken && x.arrival == a
      ensures InOrder(taken)
    {
      hide WithinCaps, InOrder, Accounted, Unread, Read;
      ghost var all := Items();
      TakenOnce(all, id, handed, arrivals);
      taken := Collect(id);
      ghost var after := Items();
      handed := handed + set x | x in taken :: x.arrival;
      assert Items() == after;
    }

    lemma Complete(all: seq<Item>, kept: seq<Item>)
      requires Between(all, kept, hi, hi)
      ensures Items() == kept
    {
    }

    /** Marks one line of the player's delivered. */
    method Mark(ghost all: seq<Item>, ghost marked: seq<Item>, i: nat, id: PlayerId)
      requires Between(all, marked, i, i) && i < hi
      modifies buf
      ensures Between(all, marked + [if all[i - lo].player == id then all[i - lo].(delivered := true) else all[i - lo]], i + 1, i + 1)
    {
      if buf[i].player == id && !buf[i].delivered {
        buf[i] := buf[i].(delivered := true);
      }
    }

    method Collect(id: PlayerId) returns (taken: seq<Item>)
      requires lo <= hi <= buf.Length
      modifies buf
      ensures taken == Unread(old(Items()), id) && Items() == Read(old(Items()), id)
    {
      hide Unread, Read, Taking;
      ghost var all, marked := Items(), [];
      taken := [];
      var i: nat := lo;
      TakingStarts(all, id);
      while i < hi
        invariant Between(all, marked, i, i) && Taking(all, i - lo, taken, marked, id)
      {
        var n := buf[i];
        TakingOn(all, i - lo, taken, marked, id);
        if n.player == id && !n.delivered {
          taken := taken + [n];
        }
        Mark(all, marked, i, id);
        marked := marked + [if n.player == id then n.(delivered := true) else n];
        i := i + 1;
      }
      TakingEnds(all, taken, marked, id);
      Complete(all, marked);
    }

    /** Drops what is both delivered and old, moving the rest down over it. */
    method TrimNews(cutoff: int)
      requires Valid()
      modifies this`hi, buf
      ensures Valid() && Items() == Trimmed(old(Items()), cutoff) && handed == old(handed)
    {
      hide WithinCaps, InOrder, Accounted, Trimmed;
      TrimmedStill(Items(), cutoff, handed, arrivals);
      DropOld(cutoff);
    }

    method DropOld(cutoff: int)
      requires lo <= hi <= buf.Length
      modifies this`hi, buf
      ensures lo <= hi <= buf.Length && Items() == Trimmed(old(Items()), cutoff)
    {
      hide Trimmed, Trimming;
      ghost var all, kept := Items(), [];
      var r: nat, w: nat := lo, lo;
      TrimmingStarts(all, cutoff);
      while r < hi
        invariant Between(all, kept, w, r) && hi == old(hi) && Trimming(all, r - lo, kept, cutoff)
      {
        var n := buf[r];
        TrimmingOn(all, r - lo, kept, cutoff);
        if !(n.delivered && n.at < cutoff) {
          Keep(all, kept, w, r, n);
          kept := kept + [n];
          w := w + 1;
        }
        r := r + 1;
      }
      TrimmingEnds(all, kept, cutoff);
      CutOff(all, kept, w);
    }
  }

  lemma Start(all: seq<Item>, result: seq<Item>)
    ensures all[0..] == all && [] + result == result
  {
  }

  /** Partway through dropping a player's oldest items. */
  ghost predicate Dropping(all: seq<Item>, i: int, kept: seq<Item>, id: PlayerId, left: int, drop: int) {
    0 <= i <= |all| && kept + WithoutOldest(all[i..], id, left) == WithoutOldest(all, id, drop)
  }

  lemma DroppingStarts(all: seq<Item>, id: PlayerId, drop: int)
    ensures Dropping(all, 0, [], id, drop, drop)
  {
    Start(all, WithoutOldest(all, id, drop));
  }

  lemma DroppingOn(all: seq<Item>, i: int, kept: seq<Item>, id: PlayerId, left: int, drop: int)
    requires Dropping(all, i, kept, id, left, drop) && i < |all|
    ensures if left > 0 && all[i].player == id then Dropping(all, i + 1, kept, id, left - 1, drop)
            else Dropping(all, i + 1, kept + [all[i]], id, left, drop)
  {
    assert all[i..][1..] == all[i + 1..];
  }

  lemma DroppingEnds(all: seq<Item>, kept: seq<Item>, id: PlayerId, left: int, drop: int)
    requires Dropping(all, |all|, kept, id, left, drop)
    ensures kept == WithoutOldest(all, id, drop)
  {
    assert kept + [] == kept;
  }

  /** Partway through trimming. */
  ghost predicate Trimming(all: seq<Item>, i: int, kept: seq<Item>, cutoff: int) {
    0 <= i <= |all| && kept + Trimmed(all[i..], cutoff) == Trimmed(all, cutoff)
  }

  lemma TrimmingStarts(all: seq<Item>, cutoff: int)
    ensures Trimming(all, 0, [], cutoff)
  {
    Start(all, Trimmed(all, cutoff));
  }

  lemma TrimmingOn(all: seq<Item>, i: int, kept: seq<Item>, cutoff: int)
    requires Trimming(all, i, kept, cutoff) && i < |all|
    ensures Trimming(all, i + 1, if all[i].delivered && all[i].at < cutoff then kept else kept + [all[i]], cutoff)
  {
    assert all[i..][1..] == all[i + 1..];
  }

  lemma TrimmingEnds(all: seq<Item>, kept: seq<Item>, cutoff: int)
    requires Trimming(all, |all|, kept, cutoff)
    ensures kept == Trimmed(all, cutoff)
  {
    assert kept + [] == kept;
  }

  /** Partway through handing out a player's lines. */
  ghost predicate Taking(all: seq<Item>, i: int, taken: seq<Item>, marked: seq<Item>, id: PlayerId) {
    0 <= i <= |all| && taken + Unread(all[i..], id) == Unread(all, id) && marked + Read(all[i..], id) == Read(all, id)
  }

  lemma TakingStarts(all: seq<Item>, id: PlayerId)
    ensures Taking(all, 0, [], [], id)
  {
    Start(all, Unread(all, id));
    Start(all, Read(all, id));
  }

  lemma TakingOn(all: seq<Item>, i: int, taken: seq<Item>, marked: seq<Item>, id: PlayerId)
    requires Taking(all, i, taken, marked, id) && i < |all|
    ensures Taking(all, i + 1, if all[i].player == id && !all[i].delivered then taken + [all[i]] else taken,
                   marked + [if all[i].player == id then all[i].(delivered := true) else all[i]], id)
  {
    assert all[i..][1..] == all[i + 1..];
  }

  lemma TakingEnds(all: seq<Item>, taken: seq<Item>, marked: seq<Item>, id: PlayerId)
    requires Taking(all, |all|, taken, marked, id)
    ensures taken == Unread(all, id) && marked == Read(all, id)
  {
    assert taken + [] == taken && marked + [] == marked;
  }

  /** Arrivals are numbered in turn, and no line still unread was ever handed out. */
  ghost predicate Accounted(items: seq<Item>, handed: set<nat>, arrivals: nat) {
    && (forall a :: a in handed ==> a < arrivals)
    && forall x :: x in items ==> x.arrival < arrivals && (!x.delivered ==> x.arrival !in handed)
  }

  lemma Nothing()
    ensures WithinCaps([]) && InOrder([])
  {
  }

  lemma {:induction false} NothingDropped(items: seq<Item>, id: PlayerId, drop: int)
    ensures drop <= 0 ==> WithoutOldest(items, id, drop) == items
  {
    if items != [] && drop <= 0 {
      NothingDropped(items[1..], id, drop);
    }
  }

  lemma PostedStill(items: seq<Item>, item: Item, handed: set<nat>, arrivals: nat)
    requires WithinCaps(items) && InOrder(items) && Accounted(items, handed, arrivals)
    requires item.arrival == arrivals && !item.delivered
    ensures WithinCaps(Posted(items, item)) && InOrder(Posted(items, item)) && Accounted(Posted(items, item), handed, arrivals + 1)
  {
    PostedKeeps(items, item);
    SelectedIn(items + [item], Posted(items, item));
  }

  lemma TrimmedStill(items: seq<Item>, cutoff: int, handed: set<nat>, arrivals: nat)
    requires WithinCaps(items) && InOrder(items) && Accounted(items, handed, arrivals)
    ensures WithinCaps(Trimmed(items, cutoff)) && InOrder(Trimmed(items, cutoff)) && Accounted(Trimmed(items, cutoff), handed, arrivals)
  {
    TrimmedSelected(items, cutoff);
    SelectedIn(items, Trimmed(items, cutoff));
    forall id ensures |Of(Trimmed(items, cutoff), id)| <= MAX_PER_PLAYER {
      NoMoreOf(items, Trimmed(items, cutoff), id);
    }
  }

  lemma TakenOnce(items: seq<Item>, id: PlayerId, handed: set<nat>, arrivals: nat)
    requires WithinCaps(items) && InOrder(items) && Accounted(items, handed, arrivals)
    ensures var taken := Unread(items, id);
            && (forall x :: x in taken ==> x.arrival !in handed) && InOrder(taken)
            && WithinCaps(Read(items, id)) && InOrder(Read(items, id))
            && Accounted(Read(items, id), handed + set x | x in taken :: x.arrival, arrivals)
  {
    var taken := Unread(items, id);
    UnreadIn(items, id);
    UnreadSelected(items, id);
    SelectedIn(items, taken);
    ReadKeeps(items, id, id);
    forall other ensures |Of(Read(items, id), other)| <= MAX_PER_PLAYER {
      ReadKeeps(items, id, other);
    }
    hide Unread, Read, Of, Selected;
    StillAccounted(items, Read(items, id), taken, id, handed, arrivals);
  }

  lemma StillAccounted(items: seq<Item>, after: seq<Item>, taken: seq<Item>, id: PlayerId, handed: set<nat>, arrivals: nat)
    requires InOrder(items) && Accounted(items, handed, arrivals) && |after| == |items|
    requires forall x :: x in taken ==> x in items && x.player == id
    requires forall i :: 0 <= i < |items| ==> after[i] == if items[i].player == id then items[i].(delivered := true) else items[i]
    ensures Accounted(after, handed + set x | x in taken :: x.arrival, arrivals)
  {
    forall y | y in after ensures y.arrival < arrivals && (!y.delivered ==> y.arrival !in handed + set x | x in taken :: x.arrival) {
      var i :| 0 <= i < |items| && after[i] == y;
      assert items[i] in items;
      if !y.delivered {
        NotTaken(items, taken, i, id);
      }
    }
  }

  lemma NotTaken(items: seq<Item>, taken: seq<Item>, i: nat, id: PlayerId)
    requires i < |items| && InOrder(items) && items[i].player != id
    requires forall x :: x in taken ==> x in items && x.player == id
    ensures items[i].arrival !in set x | x in taken :: x.arrival
  {
    forall x | x in taken ensures x.arrival != items[i].arrival {
      var j :| 0 <= j < |items| && items[j] == x;
    }
  }

  lemma {:induction false} UnreadSelected(items: seq<Item>, id: PlayerId)
    ensures Selected(items, Unread(items, id))
  {
    if items != [] {
      UnreadSelected(items[1..], id);
      var rest := Unread(items[1..], id);
      if items[0].player == id && !items[0].delivered {
        assert ([items[0]] + rest)[1..] == rest;
      } else {
        assert [] + rest == rest;
        Skipped(items, rest);
      }
    }
  }
}
