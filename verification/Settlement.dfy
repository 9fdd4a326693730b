// Settlement from the feed: the key-idempotent ledger (core/internal/adapter),
// the paged read it follows (core/cmd/server), and why every schedule settles
// each achieved key once.

module Settlement {
  import opened Text
  import opened Hashing
  import opened Intents
  import opened FeedRecord
  import opened Feed
  import Seqs

  // ---------------------------------------------------- the payload

  /** `k` little-endian bytes of a length, as `byte(n >> (8*j))`. */
  function LittleEndian(n: nat, k: nat): (b: Bytes)
    ensures |b| == k
  {
    if k == 0 then "" else [(n % 256) as char] + LittleEndian(n / 256, k - 1)
  }

  function Pow256(k: nat): (p: nat)
    ensures p > 0
  {
    if k == 0 then 1 else 256 * Pow256(k - 1)
  }

  lemma {:induction false} LittleEndianInjective(m: nat, n: nat, k: nat)
    requires m < Pow256(k) && n < Pow256(k) && LittleEndian(m, k) == LittleEndian(n, k)
    ensures m == n
    decreases k
  {
    if k > 0 {
      var a, b := LittleEndian(m, k), LittleEndian(n, k);
      assert a[0] == b[0] && a[1..] == LittleEndian(m / 256, k - 1) && b[1..] == LittleEndian(n / 256, k - 1);
      assert m == 256 * (m / 256) + m % 256 && n == 256 * (n / 256) + n % 256;
      LittleEndianInjective(m / 256, n / 256, k - 1);
    }
  }

  /** One field: an 8-byte length, then the bytes. */
  function Prefixed(s: Bytes): Bytes { LittleEndian(|s|, 8) + s }

  function Fields(h: Digest, i: Intent): seq<Bytes> {
    [Id(h, i), i.key, i.spec.actionClass, i.spec.scope, i.ruleHash, i.specHash]
  }

  function PrefixedAll(fs: seq<Bytes>): Bytes { if fs == [] then "" else Prefixed(fs[0]) + PrefixedAll(fs[1..]) }

  function Payload(h: Digest, i: Intent): Bytes { h(PrefixedAll(Fields(h, i))) }

  /** A length the 8-byte prefix can hold. */
  predicate Fits(s: Bytes) { |s| < Pow256(8) }

  lemma PrefixedSplit(a: Bytes, x: Bytes, b: Bytes, y: Bytes)
    requires Fits(a) && Fits(b) && Prefixed(a) + x == Prefixed(b) + y
    ensures a == b && x == y
  {
    hide LittleEndian, Pow256;
    var left, right := Prefixed(a) + x, Prefixed(b) + y;
    assert left[..8] == LittleEndian(|a|, 8) && right[..8] == LittleEndian(|b|, 8);
    LittleEndianInjective(|a|, |b|, 8);
    assert left[8..] == a + x && right[8..] == b + y;
    assert (a + x)[..|a|] == a && (b + y)[..|a|] == b;
    assert (a + x)[|a|..] == x && (b + y)[|a|..] == y;
  }

  lemma {:induction false} PrefixedAllInjective(fs: seq<Bytes>, gs: seq<Bytes>)
    requires |fs| == |gs| && (forall s :: s in fs || s in gs ==> Fits(s))
    requires PrefixedAll(fs) == PrefixedAll(gs)
    ensures fs == gs
    decreases |fs|
  {
    hide Prefixed, Fits;
    if fs != [] {
      assert fs[0] in fs && gs[0] in gs;
      PrefixedSplit(fs[0], PrefixedAll(fs[1..]), gs[0], PrefixedAll(gs[1..]));
      PrefixedAllInjective(fs[1..], gs[1..]);
      assert fs == [fs[0]] + fs[1..] && gs == [gs[0]] + gs[1..];
    }
  }

  /** The six fields a payload commits to. */
  ghost predicate SameSettled(h: Digest, i: Intent, j: Intent) {
    && Id(h, i) == Id(h, j) && i.key == j.key
    && i.spec.actionClass == j.spec.actionClass && i.spec.scope == j.spec.scope
    && i.ruleHash == j.ruleHash && i.specHash == j.specHash
  }

  /** Two intents settle with the same payload exactly when intent id, key,
      action class, scope, rule hash and spec hash all agree, or the digest has
      a collision. */
  lemma PayloadCommits(h: Digest, i: Intent, j: Intent)
    requires forall s :: s in Fields(h, i) || s in Fields(h, j) ==> Fits(s)
    ensures SameSettled(h, i, j) ==> Payload(h, i) == Payload(h, j)
    ensures Payload(h, i) == Payload(h, j) ==>
            SameSettled(h, i, j) || Collision(h, PrefixedAll(Fields(h, i)), PrefixedAll(Fields(h, j)))
  {
    hide Fits, PrefixedAll, Fields, Id;
    SameFields(h, i, j);
    if PrefixedAll(Fields(h, i)) == PrefixedAll(Fields(h, j)) {
      PrefixedAllInjective(Fields(h, i), Fields(h, j));
    }
  }

  lemma SameFields(h: Digest, i: Intent, j: Intent)
    ensures |Fields(h, i)| == |Fields(h, j)|
    ensures Fields(h, i) == Fields(h, j) <==> SameSettled(h, i, j)
  {
    hide Id;
    var a, b := Fields(h, i), Fields(h, j);
    if a == b {
      assert a[0] == b[0] && a[1] == b[1] && a[2] == b[2] && a[3] == b[3] && a[4] == b[4] && a[5] == b[5];
    }
  }

  /** The bytes hashed: each field after its length. */
  lemma PayloadBytes(h: Digest, i: Intent)
    ensures Payload(h, i) ==
      h(Prefixed(Id(h, i)) + (Prefixed(i.key) + (Prefixed(i.spec.actionClass) + (Prefixed(i.spec.scope)
        + (Prefixed(i.ruleHash) + Prefixed(i.specHash))))))
  {
    hide Prefixed, Id, PrefixedAll;
    var fs := Fields(h, i);
    OneField(fs, 0);
    OneField(fs, 1);
    OneField(fs, 2);
    OneField(fs, 3);
    OneField(fs, 4);
    OneField(fs, 5);
    assert fs[0..] == fs;
    NoField(fs[6..]);
    assert Prefixed(i.specHash) + "" == Prefixed(i.specHash);
  }

  lemma OneField(fs: seq<Bytes>, k: nat)
    requires k < |fs|
    ensures PrefixedAll(fs[k..]) == Prefixed(fs[k]) + PrefixedAll(fs[k + 1..])
  {
    assert fs[k..][1..] == fs[k + 1..];
  }

  lemma NoField(fs: seq<Bytes>)
    requires fs == []
    ensures PrefixedAll(fs) == ""
  {}

  /** A length is written least significant byte first. */
  lemma {:induction false} ByteAt(n: nat, k: nat, j: nat)
    requires j < k
    ensures LittleEndian(n, k)[j] as int == n / Pow256(j) % 256
  {
    if j > 0 {
      ByteAt(n / 256, k - 1, j - 1);
      DivideTwice(n, Pow256(j - 1));
    }
  }

  lemma DivideTwice(n: nat, p: nat)
    requires p > 0
    ensures n / 256 / p == n / (256 * p)
  {
    var q, r, s := n / 256 / p, n / 256 % p, n % 256;
    assert n == 256 * (q * p + r) + s == q * (256 * p) + (256 * r + s);
    Quotient(n, 256 * p, q, 256 * r + s);
  }

  lemma Quotient(n: nat, d: nat, q: nat, r: nat)
    requires d > 0 && n == q * d + r && r < d
    ensures n / d == q
  {
    var k := n / d;
    assert (k - q) * d == r - n % d;
    if k != q {
      Multiple(k - q, d);
    }
  }

  lemma Multiple(a: int, d: int)
    requires a != 0 && d >= 0
    ensures a * d >= d || a * d <= -d
  {}

  // ---------------------------------------------------- the ledger

  datatype Event = Event(intentId: string, key: string, payload: Bytes)

  datatype Ledger = Ledger(events: map<string, Event>, order: seq<string>)

  const EMPTY := Ledger(map[], [])

  function EventOf(h: Digest, i: Intent): Event { Event(Id(h, i), i.key, Payload(h, i)) }

  /** Settling an intent: the first event recorded under a key stays. */
  function Settle(l: Ledger, e: Event): Ledger {
    if e.key in l.events then l else Ledger(l.events[e.key := e], l.order + [e.key])
  }

  ghost predicate LedgerValid(l: Ledger) {
    && (forall k :: k in l.order <==> k in l.events)
    && (forall j, k :: 0 <= j < k < |l.order| ==> l.order[j] != l.order[k])
    && (forall k :: k in l.events ==> l.events[k].key == k)
  }

  class ReferenceAdapter {
    const h: Digest
    var events: map<string, Event>
    var order: seq<string>

    ghost function View(): Ledger
      reads this
    {
      Ledger(events, order)
    }

    constructor (h: Digest)
      ensures View() == EMPTY && this.h == h
    {
      this.h := h;
      events, order := map[], [];
    }

    /** Idempotent on the key. */
    method OnAchieved(i: Intent) returns (e: Event)
      modifies this
      ensures View() == Settle(old(View()), EventOf(h, i))
      ensures i.key in events && e == events[i.key]
      ensures i.key in old(events) ==> View() == old(View())
      ensures i.key !in old(events) ==>
        e == Event(Id(h, i), i.key, Payload(h, i)) && events == old(events)[i.key := e] && order == old(order) + [i.key]
    {
      hide Payload;
      if i.key in events {
        return events[i.key];
      }
      e := Event(Id(h, i), i.key, Payload(h, i));
      events := events[i.key := e];
      order := order + [i.key];
    }

    /** One event per key, in first-recorded order. */
    method Recorded() returns (out: seq<Event>)
      requires LedgerValid(View())
      ensures |out| == |order| && forall k :: 0 <= k < |out| ==> out[k] == events[order[k]] && out[k].key == order[k]
      ensures forall j, k :: 0 <= j < k < |out| ==> out[j].key != out[k].key
    {
      out := [];
      for k := 0 to |order|
        invariant |out| == k && forall j :: 0 <= j < k ==> order[j] in events && out[j] == events[order[j]]
      {
        assert order[k] in order;
        out := out + [events[order[k]]];
      }
    }
  }

  // ---------------------------------------------------- pages

  function NextSince(page: seq<Record>, since: int): int {
    if page == [] then since else page[|page| - 1].globalSeq
  }

  function Page(rs: seq<Record>, since: int, typ: string): seq<Record> { Seqs.Filter(rs, Past(since, typ)) }

  /** GET /v2/events: the records past a cursor, and the next cursor. */
  method HandleEvents(feed: FeedStore, since: Option<int>, typ: string) returns (records: seq<Record>, next: int)
    ensures var from := if since.Some? then since.value else 0;
      records == Page(feed.records, from, typ) && next == NextSince(records, from)
  {
    var from := 0;
    if since.Some? {
      from := since.value;
    }
    records := feed.Since(from, typ);
    next := from;
    if |records| > 0 {
      next := records[|records| - 1].globalSeq;
    }
  }

  lemma LastOfPage(rs: seq<Record>, since: int, typ: string)
    requires Numbered(rs) && Page(rs, since, typ) != []
    ensures var next := NextSince(Page(rs, since, typ), since);
      since < next <= |rs| && forall k :: 0 <= k < |rs| && Past(since, typ)(rs[k]) ==> rs[k].globalSeq <= next
    decreases |rs|
  {
    var n := |rs| - 1;
    if !Past(since, typ)(rs[n]) {
      assert Page(rs, since, typ) == Page(rs[..n], since, typ);
      LastOfPage(rs[..n], since, typ);
      assert forall k :: 0 <= k < n ==> rs[..n][k] == rs[k];
    }
  }

  /** A page, then a page from its next cursor once the feed has grown, are
      together one page of the grown feed: nothing skipped, nothing repeated. */
  lemma PagesChain(before: seq<Record>, after: seq<Record>, since: int, typ: string)
    requires Numbered(after) && before <= after
    ensures Page(after, since, typ) ==
            Page(before, since, typ) + Page(after, NextSince(Page(before, since, typ), since), typ)
  {
    hide Seqs.Filter;
    var page := Page(before, since, typ);
    var next := NextSince(page, since);
    var tail := after[|before|..];
    assert after == before + tail;
    Seqs.FilterAppend(before, tail, Past(since, typ));
    Seqs.FilterAppend(before, tail, Past(next, typ));
    assert forall k :: 0 <= k < |before| ==> before[k] == after[k];
    if page != [] {
      LastOfPage(before, since, typ);
    }
    Seqs.FilterNone(before, Past(next, typ)) by {
      NothingLeft(before, since, typ);
    }
    SameTail(tail, since, next, typ) by {
      assert forall k :: 0 <= k < |tail| ==> tail[k] == after[|before| + k];
    }
    assert [] + Page(tail, next, typ) == Page(tail, next, typ);
  }

  lemma NothingLeft(rs: seq<Record>, since: int, typ: string)
    requires Numbered(rs)
    ensures forall r :: r in rs ==> !Past(NextSince(Page(rs, since, typ), since), typ)(r)
  {
    hide Seqs.Filter;
    if Page(rs, since, typ) != [] {
      LastOfPage(rs, since, typ);
    } else {
      Seqs.FilterMembers(rs, Past(since, typ));
    }
  }

  lemma {:induction false} SameTail(tail: seq<Record>, since: int, next: int, typ: string)
    requires since == next || (since < next && forall k :: 0 <= k < |tail| ==> tail[k].globalSeq > next)
    ensures Page(tail, since, typ) == Page(tail, next, typ)
  {
    if tail != [] {
      SameTail(tail[..|tail| - 1], since, next, typ);
    }
  }

  /** Everything a reader collects by following `next_since` over a growing
      feed. */
  function Collected(feeds: seq<seq<Record>>, since: int, typ: string): seq<Record> {
    if feeds == [] then []
    else
      var page := Page(feeds[0], since, typ);
      page + Collected(feeds[1..], NextSince(page, since), typ)
  }

  /** It is exactly the last feed's records past the first cursor, in order. */
  lemma {:induction false} CollectedOnce(feeds: seq<seq<Record>>, since: int, typ: string)
    requires feeds != [] && Numbered(feeds[|feeds| - 1])
    requires forall j, k :: 0 <= j <= k < |feeds| ==> feeds[j] <= feeds[k]
    ensures Collected(feeds, since, typ) == Page(feeds[|feeds| - 1], since, typ)
    decreases |feeds|
  {
    hide Page;
    var page := Page(feeds[0], since, typ);
    if |feeds| == 1 {
      assert Collected(feeds[1..], NextSince(page, since), typ) == [];
      assert page + [] == page;
    } else {
      CollectedOnce(feeds[1..], NextSince(page, since), typ);
      PagesChain(feeds[0], feeds[|feeds| - 1], since, typ);
    }
  }

  // ---------------------------------------------------- the consumer

  /** What a consumer keeps: its cursor and its ledger. */
  datatype Consumer = Consumer(cursor: int, ledger: Ledger)

  predicate IsAchieved(r: Record) { r.typ == "ACHIEVED" }

  /** Every ACHIEVED record names an intent the consumer knows, under its key. */
  ghost predicate Tracked(rs: seq<Record>, intents: map<string, Intent>) {
    forall r :: r in rs && IsAchieved(r) ==> r.intentId in intents && intents[r.intentId].key == r.key
  }

  /** Settling a stretch of ACHIEVED records. */
  function SettleAll(h: Digest, l: Ledger, recs: seq<Record>, intents: map<string, Intent>): Ledger {
    if recs == [] then l
    else
      var r := recs[|recs| - 1];
      var before := SettleAll(h, l, recs[..|recs| - 1], intents);
      if r.intentId in intents then Settle(before, EventOf(h, intents[r.intentId])) else before
  }

  class FeedConsumer {
    var cursor: int
    const ref: ReferenceAdapter

    constructor (ref: ReferenceAdapter)
      ensures this.ref == ref && cursor == 0
    {
      this.ref := ref;
      cursor := 0;
    }

    /** Drain the ACHIEVED records past the cursor; safe to repeat. */
    method Poll(feed: FeedStore, intents: map<string, Intent>) returns (ok: bool)
      requires Numbered(feed.records)
      modifies this, ref
      ensures ok <==> forall r :: r in Page(feed.records, old(cursor), "ACHIEVED") ==> r.intentId in intents
      ensures ok ==>
        ref.View() == SettleAll(ref.h, old(ref.View()), Page(feed.records, old(cursor), "ACHIEVED"), intents)
      ensures ok ==> cursor == NextSince(Page(feed.records, old(cursor), "ACHIEVED"), old(cursor))
      ensures ok ==> Turn(ref.h, feed.records, intents, Consumer(old(cursor), old(ref.View())),
                          |Page(feed.records, old(cursor), "ACHIEVED")|, Consumer(cursor, ref.View()))
      ensures Tracked(feed.records, intents) ==> ok
    {
      hide Seqs.Filter, Settle, EventOf, Turn;
      var page := feed.Since(cursor, "ACHIEVED");
      ghost var start := cursor;
      PageAscends(feed.records, start, "ACHIEVED");
      PageHolds(feed.records, start);
      for k := 0 to |page|
        invariant cursor == NextSince(page[..k], start)
        invariant ref.View() == SettleAll(ref.h, old(ref.View()), page[..k], intents)
        invariant forall j :: 0 <= j < k ==> page[j].intentId in intents
      {
        var rec := page[k];
        assert page[..k + 1][..k] == page[..k];
        if rec.globalSeq > cursor {
          cursor := rec.globalSeq;
        }
        if rec.intentId !in intents {
          return false;
        }
        var _ := ref.OnAchieved(intents[rec.intentId]);
      }
      assert page[..|page|] == page;
      PollTurns(ref.h, feed.records, intents, Consumer(start, old(ref.View())), Consumer(cursor, ref.View()));
      return true;
    }
  }

  /** Settling the whole page and moving the cursor to its end is a turn. */
  lemma PollTurns(h: Digest, rs: seq<Record>, intents: map<string, Intent>, c: Consumer, c': Consumer)
    requires var page := Page(rs, c.cursor, "ACHIEVED");
      c'.ledger == SettleAll(h, c.ledger, page, intents) && c'.cursor == NextSince(page, c.cursor)
    ensures Turn(h, rs, intents, c, |Page(rs, c.cursor, "ACHIEVED")|, c')
  {
    hide Settle, EventOf, Seqs.Filter;
    var page := Page(rs, c.cursor, "ACHIEVED");
    assert page[..|page|] == page;
  }

  /** A page holds records of the feed, of the type asked for. */
  lemma PageHolds(rs: seq<Record>, since: int)
    ensures forall r :: r in Page(rs, since, "ACHIEVED") ==> r in rs && IsAchieved(r)
  {
    hide Seqs.Filter;
    Seqs.FilterMembers(rs, Past(since, "ACHIEVED"));
  }

  lemma {:induction false} PageAscends(rs: seq<Record>, since: int, typ: string)
    requires Numbered(rs)
    ensures var page := Page(rs, since, typ);
      && (forall k :: 0 <= k < |page| ==> since < page[k].globalSeq <= |rs|)
      && (forall j, k :: 0 <= j < k < |page| ==> page[j].globalSeq < page[k].globalSeq)
  {
    if rs != [] {
      var n := |rs| - 1;
      var init := Page(rs[..n], since, typ);
      PageAscends(rs[..n], since, typ);
      assert Page(rs, since, typ) == init + (if Past(since, typ)(rs[n]) then [rs[n]] else []);
      assert rs[n].globalSeq == n + 1;
    }
  }

  /** One turn of a consumer: it settles some of its page and is left with any
      cursor up to what it settled, so a crash may rewind it arbitrarily. */
  ghost predicate Turn(h: Digest, rs: seq<Record>, intents: map<string, Intent>, c: Consumer, n: nat, c': Consumer) {
    var page := Page(rs, c.cursor, "ACHIEVED");
    && n <= |page|
    && c'.ledger == SettleAll(h, c.ledger, page[..n], intents)
    && (c'.cursor <= c.cursor || (n > 0 && c'.cursor <= page[n - 1].globalSeq))
  }

  /** A schedule: the feed as each turn finds it, only ever longer, and the
      consumer before and after. */
  ghost predicate Schedule(h: Digest, feeds: seq<seq<Record>>, intents: map<string, Intent>, cs: seq<Consumer>,
                           ns: seq<nat>) {
    && |feeds| == |ns| && |cs| == |ns| + 1 && cs[0] == Consumer(0, EMPTY)
    && (forall k :: 0 <= k < |feeds| ==> Numbered(feeds[k]) && Tracked(feeds[k], intents))
    && (forall j, k :: 0 <= j <= k < |feeds| ==> feeds[j] <= feeds[k])
    && (forall k :: 0 <= k < |ns| ==> Turn(h, feeds[k], intents, cs[k], ns[k], cs[k + 1]))
  }

  ghost predicate HasKey(rs: seq<Record>, key: string) { exists r :: r in rs && IsAchieved(r) && r.key == key }

  /** The ledger covers every achieved key up to the cursor, and nothing else. */
  ghost predicate Settled(rs: seq<Record>, c: Consumer) {
    && LedgerValid(c.ledger)
    && (forall k :: 0 <= k < |rs| && IsAchieved(rs[k]) && rs[k].globalSeq <= c.cursor ==> rs[k].key in c.ledger.events)
    && (forall key :: key in c.ledger.events ==> HasKey(rs, key))
  }

  /** Recorded events never change. */
  ghost predicate Keeps(l: Ledger, l': Ledger) {
    l.order <= l'.order && forall k :: k in l.events ==> k in l'.events && l'.events[k] == l.events[k]
  }

  lemma {:induction false} SettleAllKeeps(h: Digest, l: Ledger, recs: seq<Record>, intents: map<string, Intent>)
    requires LedgerValid(l) && Tracked(recs, intents) && forall r :: r in recs ==> IsAchieved(r)
    ensures var l' := SettleAll(h, l, recs, intents);
      && LedgerValid(l') && Keeps(l, l')
      && (forall r :: r in recs ==> r.key in l'.events)
      && (forall k :: k in l'.events ==> k in l.events || exists r :: r in recs && r.key == k)
  {
    hide Payload, Settle, LedgerValid, Keeps;
    if recs == [] {
      KeepsSelf(l);
    } else {
      var init, r := recs[..|recs| - 1], recs[|recs| - 1];
      assert recs == init + [r];
      SettleAllKeeps(h, l, init, intents);
      assert r in recs;
      var before, e := SettleAll(h, l, init, intents), EventOf(h, intents[r.intentId]);
      SettleKeeps(before, e);
      KeepsTransitive(l, before, Settle(before, e));
      KeepsEvents(before, Settle(before, e));
    }
  }

  lemma KeepsSelf(l: Ledger)
    ensures Keeps(l, l)
  {}

  lemma KeepsTransitive(a: Ledger, b: Ledger, c: Ledger)
    requires Keeps(a, b) && Keeps(b, c)
    ensures Keeps(a, c)
  {}

  lemma SettleKeeps(l: Ledger, e: Event)
    requires LedgerValid(l)
    ensures LedgerValid(Settle(l, e)) && Keeps(l, Settle(l, e)) && e.key in Settle(l, e).events
    ensures forall k :: k in Settle(l, e).events ==> k in l.events || k == e.key
  {}

  lemma TurnSettles(h: Digest, rs: seq<Record>, intents: map<string, Intent>, c: Consumer, n: nat, c': Consumer)
    requires Numbered(rs) && Tracked(rs, intents) && Settled(rs, c) && Turn(h, rs, intents, c, n, c')
    ensures Settled(rs, c') && Keeps(c.ledger, c'.ledger)
  {
    hide SettleAll, Seqs.Filter, Keeps, LedgerValid;
    var page := Page(rs, c.cursor, "ACHIEVED");
    PageMembers(rs, c.cursor, page);
    PageAscends(rs, c.cursor, "ACHIEVED");
    assert forall r :: r in page[..n] ==> r in page;
    SettleAllKeeps(h, c.ledger, page[..n], intents);
    KeepsEvents(c.ledger, c'.ledger);
    forall k | 0 <= k < |rs| && IsAchieved(rs[k]) && rs[k].globalSeq <= c'.cursor
      ensures rs[k].key in c'.ledger.events
    {
      if rs[k].globalSeq > c.cursor {
        InPrefix(page, n, rs[k]);
      }
    }
  }

  lemma KeepsEvents(l: Ledger, l': Ledger)
    requires Keeps(l, l')
    ensures forall k :: k in l.events ==> k in l'.events
  {}

  lemma PageMembers(rs: seq<Record>, since: int, page: seq<Record>)
    requires page == Page(rs, since, "ACHIEVED")
    ensures forall r :: r in page <==> r in rs && IsAchieved(r) && r.globalSeq > since
  {
    hide Seqs.Filter;
    Seqs.FilterMembers(rs, Past(since, "ACHIEVED"));
  }

  lemma InPrefix(page: seq<Record>, n: nat, r: Record)
    requires 0 < n <= |page| && r in page && r.globalSeq <= page[n - 1].globalSeq
    requires forall j, k :: 0 <= j < k < |page| ==> page[j].globalSeq < page[k].globalSeq
    ensures r in page[..n]
  {
    var k :| 0 <= k < |page| && page[k] == r;
    assert page[..n][if k < n then k else 0] == page[if k < n then k else 0];
  }

  lemma SettledGrows(before: seq<Record>, after: seq<Record>, c: Consumer)
    requires Settled(before, c) && before <= after && Numbered(after) && c.cursor <= |before|
    ensures Settled(after, c)
  {
    forall k | 0 <= k < |after| && IsAchieved(after[k]) && after[k].globalSeq <= c.cursor
      ensures after[k].key in c.ledger.events
    {
      assert after[k] == before[k];
    }
    forall key | key in c.ledger.events
      ensures HasKey(after, key)
    {
      var r :| r in before && IsAchieved(r) && r.key == key;
      var k :| 0 <= k < |before| && before[k] == r;
      assert after[k] == r;
    }
  }

  lemma CursorBound(h: Digest, rs: seq<Record>, intents: map<string, Intent>, c: Consumer, n: nat, c': Consumer)
    requires Numbered(rs) && c.cursor <= |rs| && Turn(h, rs, intents, c, n, c')
    ensures c'.cursor <= |rs|
  {
    hide Seqs.Filter, SettleAll;
    PageAscends(rs, c.cursor, "ACHIEVED");
  }

  /** The invariant after every turn, with respect to the feed that turn saw. */
  lemma {:induction false} ScheduleSettles(
    h: Digest, feeds: seq<seq<Record>>, intents: map<string, Intent>, cs: seq<Consumer>, ns: seq<nat>, k: nat)
    requires Schedule(h, feeds, intents, cs, ns) && k < |ns|
    ensures Settled(feeds[k], cs[k + 1]) && cs[k + 1].cursor <= |feeds[k]|
    decreases k
  {
    hide Turn, Settled, Numbered, Tracked;
    if k > 0 {
      ScheduleSettles(h, feeds, intents, cs, ns, k - 1);
      assert feeds[k - 1] <= feeds[k];
      assert cs[k - 1 + 1] == cs[k];
      SettledGrows(feeds[k - 1], feeds[k], cs[k]);
    } else {
      StartSettled(feeds[0]);
    }
    assert Turn(h, feeds[k], intents, cs[k], ns[k], cs[k + 1]);
    TurnSettles(h, feeds[k], intents, cs[k], ns[k], cs[k + 1]);
    CursorBound(h, feeds[k], intents, cs[k], ns[k], cs[k + 1]);
  }

  lemma StartSettled(rs: seq<Record>)
    requires Numbered(rs)
    ensures Settled(rs, Consumer(0, EMPTY))
  {}

  lemma {:induction false} LedgerKept(
    h: Digest, feeds: seq<seq<Record>>, intents: map<string, Intent>, cs: seq<Consumer>, ns: seq<nat>, i: nat, j: nat)
    requires Schedule(h, feeds, intents, cs, ns) && i <= j < |cs|
    ensures Keeps(cs[i].ledger, cs[j].ledger)
    decreases j - i
  {
    hide Turn, Settled, Numbered, Tracked;
    if i < j {
      LedgerKept(h, feeds, intents, cs, ns, i, j - 1);
      var k := j - 1;
      if k > 0 {
        ScheduleSettles(h, feeds, intents, cs, ns, k - 1);
        assert feeds[k - 1] <= feeds[k] && cs[k - 1 + 1] == cs[k];
        SettledGrows(feeds[k - 1], feeds[k], cs[k]);
      } else {
        StartSettled(feeds[0]);
      }
      assert Turn(h, feeds[k], intents, cs[k], ns[k], cs[k + 1]);
      TurnSettles(h, feeds[k], intents, cs[k], ns[k], cs[k + 1]);
    }
  }

  /** Exactly once in effect: after any schedule of polls, crashes, rewinds and
      feed growth, the ledger holds one event per key, only for achieved keys,
      each as first recorded; and a consumer that finds nothing left past its
      cursor holds every achieved key. */
  lemma SettledOnce(
    h: Digest, feeds: seq<seq<Record>>, intents: map<string, Intent>, cs: seq<Consumer>, ns: seq<nat>, k: nat)
    requires Schedule(h, feeds, intents, cs, ns) && k < |ns|
    ensures var l := cs[k + 1].ledger;
      && LedgerValid(l)
      && (forall key :: key in l.events ==> HasKey(feeds[k], key))
      && (Page(feeds[k], cs[k + 1].cursor, "ACHIEVED") == [] ==>
           forall key :: key in l.events <==> HasKey(feeds[k], key))
    ensures forall j :: 0 <= j <= k + 1 ==> Keeps(cs[j].ledger, cs[k + 1].ledger)
  {
    hide Turn, Seqs.Filter, LedgerValid, Keeps, Tracked, Numbered;
    ScheduleSettles(h, feeds, intents, cs, ns, k);
    forall j | 0 <= j <= k + 1
      ensures Keeps(cs[j].ledger, cs[k + 1].ledger)
    {
      LedgerKept(h, feeds, intents, cs, ns, j, k + 1);
    }
    var rs, c := feeds[k], cs[k + 1];
    PageMembers(rs, c.cursor, Page(rs, c.cursor, "ACHIEVED"));
    if Page(rs, c.cursor, "ACHIEVED") == [] {
      forall key | HasKey(rs, key)
        ensures key in c.ledger.events
      {
        var r :| r in rs && IsAchieved(r) && r.key == key;
        assert r !in Page(rs, c.cursor, "ACHIEVED");
        var i :| 0 <= i < |rs| && rs[i] == r;
      }
    }
  }
}
