/** Spend analytics (app/services/usage.py): grouped totals, the day series and the
    merged list of recent activity. Times are seconds, days are UTC days. */
module UsageReport {
  import opened Wrappers

  const SECONDS_PER_DAY := 86400

  // --- group by ---------------------------------------------------------

  /** A row of a spend ledger that passed the query's filter; cost may be NULL. */
  datatype Spend = Spend(at: int, cost: Option<int>, model: Option<string>)

  function CostOf(r: Spend): int { r.cost.GetOr(0) }
  function One(r: Spend): int { 1 }
  function DayOf(r: Spend): int { r.at / SECONDS_PER_DAY }
  function ModelOf(r: Spend): Option<string> { r.model }

  function Total(rows: seq<Spend>, val: Spend -> int): int {
    if rows == [] then 0 else Total(rows[..|rows| - 1], val) + val(rows[|rows| - 1])
  }

  /** coalesce(sum(val), 0) over the rows of one group. */
  function Bucket<K(==)>(rows: seq<Spend>, key: Spend -> K, val: Spend -> int, k: K): int {
    if rows == [] then 0
    else
      var last := rows[|rows| - 1];
      Bucket(rows[..|rows| - 1], key, val, k) + if key(last) == k then val(last) else 0
  }

  ghost predicate DistinctKeys<K(!new)>(ks: seq<K>) {
    forall i, j :: 0 <= i < j < |ks| ==> ks[i] != ks[j]
  }

  /** `groups` is an answer of SELECT key, sum(val) ... GROUP BY key, in any order. */
  ghost predicate IsGroupBy<K(!new)>(rows: seq<Spend>, key: Spend -> K, val: Spend -> int, groups: seq<(K, int)>) {
    && (forall i, j :: 0 <= i < j < |groups| ==> groups[i].0 != groups[j].0)
    && (forall i :: 0 <= i < |rows| ==> exists j :: 0 <= j < |groups| && groups[j].0 == key(rows[i]))
    && (forall j :: 0 <= j < |groups| ==> groups[j].1 == Bucket(rows, key, val, groups[j].0))
  }

  function Keys<K>(groups: seq<(K, int)>): (ks: seq<K>)
    ensures |ks| == |groups| && forall i :: 0 <= i < |ks| ==> ks[i] == groups[i].0
  {
    seq(|groups|, i requires 0 <= i < |groups| => groups[i].0)
  }

  function SumOf<K>(groups: seq<(K, int)>): int {
    if groups == [] then 0 else SumOf(groups[..|groups| - 1]) + groups[|groups| - 1].1
  }

  function Buckets<K(==)>(rows: seq<Spend>, key: Spend -> K, val: Spend -> int, ks: seq<K>): int {
    if ks == [] then 0
    else Buckets(rows, key, val, ks[..|ks| - 1]) + Bucket(rows, key, val, ks[|ks| - 1])
  }

  lemma {:induction false} BucketsGrow<K(!new)>(rows: seq<Spend>, r: Spend, key: Spend -> K, val: Spend -> int, ks: seq<K>)
    requires DistinctKeys(ks)
    ensures Buckets(rows + [r], key, val, ks) == Buckets(rows, key, val, ks) + if key(r) in ks then val(r) else 0
  {
    if ks != [] {
      var n := |ks| - 1;
      BucketsGrow(rows, r, key, val, ks[..n]);
      assert (rows + [r])[..|rows|] == rows;
      assert key(r) in ks <==> key(r) in ks[..n] || key(r) == ks[n];
    }
  }

  lemma {:induction false} EmptyBuckets<K(!new)>(key: Spend -> K, val: Spend -> int, ks: seq<K>)
    ensures Buckets([], key, val, ks) == 0
  {
    if ks != [] {
      EmptyBuckets(key, val, ks[..|ks| - 1]);
    }
  }

  /** Buckets that cover the rows add up to the rows. */
  lemma {:induction false} BucketsAddUp<K(!new)>(rows: seq<Spend>, key: Spend -> K, val: Spend -> int, ks: seq<K>)
    requires DistinctKeys(ks) && forall i :: 0 <= i < |rows| ==> key(rows[i]) in ks
    ensures Buckets(rows, key, val, ks) == Total(rows, val)
  {
    if rows == [] {
      EmptyBuckets(key, val, ks);
    } else {
      var n := |rows| - 1;
      BucketsAddUp(rows[..n], key, val, ks);
      BucketsGrow(rows[..n], rows[n], key, val, ks);
      assert rows[..n] + [rows[n]] == rows;
    }
  }

  lemma {:induction false} SumIsBuckets<K(!new)>(rows: seq<Spend>, key: Spend -> K, val: Spend -> int, groups: seq<(K, int)>)
    requires forall j :: 0 <= j < |groups| ==> groups[j].1 == Bucket(rows, key, val, groups[j].0)
    ensures SumOf(groups) == Buckets(rows, key, val, Keys(groups))
  {
    if groups != [] {
      var n := |groups| - 1;
      SumIsBuckets(rows, key, val, groups[..n]);
      assert Keys(groups)[..n] == Keys(groups[..n]);
    }
  }

  lemma {:induction false} GroupsAddUp<K(!new)>(rows: seq<Spend>, key: Spend -> K, val: Spend -> int, groups: seq<(K, int)>)
    requires IsGroupBy(rows, key, val, groups)
    ensures SumOf(groups) == Total(rows, val)
  {
    SumIsBuckets(rows, key, val, groups);
    forall i | 0 <= i < |rows|
      ensures key(rows[i]) in Keys(groups)
    {
      var j :| 0 <= j < |groups| && groups[j].0 == key(rows[i]);
      assert Keys(groups)[j] == key(rows[i]);
    }
    BucketsAddUp(rows, key, val, Keys(groups));
  }

  lemma {:induction false} CountIsLength(rows: seq<Spend>)
    ensures Total(rows, One) == |rows|
  {
    if rows != [] {
      CountIsLength(rows[..|rows| - 1]);
    }
  }

  /** However the database orders its groups: the credits by model and the credits by day add
      up to the same chat total, and the messages by model add up to the message count. */
  lemma {:induction false} ModelsAndDaysAgree(rows: seq<Spend>, byModel: seq<(Option<string>, int)>, messages: seq<(Option<string>, int)>, daily: seq<(int, int)>)
    requires IsGroupBy(rows, ModelOf, CostOf, byModel)
    requires IsGroupBy(rows, ModelOf, One, messages)
    requires IsGroupBy(rows, DayOf, CostOf, daily)
    ensures SumOf(byModel) == SumOf(daily) == Total(rows, CostOf)
    ensures SumOf(messages) == |rows|
  {
    GroupsAddUp(rows, ModelOf, CostOf, byModel);
    GroupsAddUp(rows, ModelOf, One, messages);
    GroupsAddUp(rows, DayOf, CostOf, daily);
    CountIsLength(rows);
  }

  // --- the day series ---------------------------------------------------

  /** dict.get(day, ZERO) */
  function Get(daily: seq<(int, int)>, day: int): int {
    if daily == [] then 0
    else if daily[|daily| - 1].0 == day then daily[|daily| - 1].1
    else Get(daily[..|daily| - 1], day)
  }

  datatype Point = Point(day: int, chat: int, image: int, audio: int, video: int)

  function ChatOf(p: Point): int { p.chat }
  function ImageOf(p: Point): int { p.image }
  function AudioOf(p: Point): int { p.audio }
  function VideoOf(p: Point): int { p.video }

  /** The points of n days ending at `last`, oldest first. */
  function DayPoints(last: int, n: nat, chat: seq<(int, int)>, image: seq<(int, int)>, audio: seq<(int, int)>, video: seq<(int, int)>): (points: seq<Point>)
    ensures |points| == n
    ensures forall i :: 0 <= i < n ==>
      var day := last - (n - 1 - i);
      points[i] == Point(day, Get(chat, day), Get(image, day), Get(audio, day), Get(video, day))
  {
    seq(n, i =>
      var day := last - (n - 1 - i);
      Point(day, Get(chat, day), Get(image, day), Get(audio, day), Get(video, day)))
  }

  /** The by_day loop: the last `days` days, today included. */
  method ByDay(now: int, days: nat, chat: seq<(int, int)>, image: seq<(int, int)>, audio: seq<(int, int)>, video: seq<(int, int)>)
    returns (points: seq<Point>)
    ensures points == DayPoints(now / SECONDS_PER_DAY, days, chat, image, audio, video)
  {
    points := [];
    var offset := days - 1;
    while offset >= 0
      invariant -1 <= offset <= days - 1
      invariant |points| == days - 1 - offset
      invariant forall i :: 0 <= i < |points| ==>
        var day := now / SECONDS_PER_DAY - (days - 1 - i);
        points[i] == Point(day, Get(chat, day), Get(image, day), Get(audio, day), Get(video, day))
    {
      var day := now / SECONDS_PER_DAY - offset;
      points := points + [Point(day, Get(chat, day), Get(image, day), Get(audio, day), Get(video, day))];
      offset := offset - 1;
    }
  }

  /** One category summed over a list of points. */
  function PointSum(points: seq<Point>, category: Point -> int): int {
    if points == [] then 0 else PointSum(points[..|points| - 1], category) + category(points[|points| - 1])
  }

  /** The sum of one category's series over n days ending at `last`. */
  function Series(daily: seq<(int, int)>, last: int, n: nat): int
    decreases n
  {
    if n == 0 then 0 else Series(daily, last - 1, n - 1) + Get(daily, last)
  }

  lemma {:induction false} BucketOfNothing<K(!new)>(rows: seq<Spend>, key: Spend -> K, val: Spend -> int, k: K)
    requires forall i :: 0 <= i < |rows| ==> key(rows[i]) != k
    ensures Bucket(rows, key, val, k) == 0
  {
    if rows != [] {
      BucketOfNothing(rows[..|rows| - 1], key, val, k);
    }
  }

  lemma {:induction false} GetFinds(daily: seq<(int, int)>, day: int)
    ensures (exists j :: 0 <= j < |daily| && daily[j].0 == day && daily[j].1 == Get(daily, day))
         || (Get(daily, day) == 0 && forall j :: 0 <= j < |daily| ==> daily[j].0 != day)
  {
    if daily != [] && daily[|daily| - 1].0 != day {
      var n := |daily| - 1;
      GetFinds(daily[..n], day);
      if exists j :: 0 <= j < n && daily[..n][j].0 == day && daily[..n][j].1 == Get(daily[..n], day) {
        var j :| 0 <= j < n && daily[..n][j].0 == day && daily[..n][j].1 == Get(daily[..n], day);
        assert daily[j].0 == day && daily[j].1 == Get(daily, day);
      } else {
        assert forall j :: 0 <= j < n ==> daily[..n][j].0 == daily[j].0;
      }
    }
  }

  lemma {:induction false} GetIsBucket(rows: seq<Spend>, daily: seq<(int, int)>, day: int)
    requires IsGroupBy(rows, DayOf, CostOf, daily)
    ensures Get(daily, day) == Bucket(rows, DayOf, CostOf, day)
  {
    GetFinds(daily, day);
    if forall j :: 0 <= j < |daily| ==> daily[j].0 != day {
      BucketOfNothing(rows, DayOf, CostOf, day);
    }
  }

  function Days(last: int, n: nat): (ks: seq<int>)
    ensures |ks| == n && forall i :: 0 <= i < n ==> ks[i] == last - (n - 1) + i
  {
    seq(n, i => last - (n - 1) + i)
  }

  lemma {:induction false} SeriesIsBuckets(rows: seq<Spend>, daily: seq<(int, int)>, last: int, n: nat)
    requires IsGroupBy(rows, DayOf, CostOf, daily)
    ensures Series(daily, last, n) == Buckets(rows, DayOf, CostOf, Days(last, n))
    decreases n
  {
    if n > 0 {
      SeriesIsBuckets(rows, daily, last - 1, n - 1);
      assert Days(last, n)[..n - 1] == Days(last - 1, n - 1);
      GetIsBucket(rows, daily, last);
    }
  }

  lemma {:induction false} SeriesSplits(daily: seq<(int, int)>, last: int, n: nat)
    ensures Series(daily, last, n + 1) == Series(daily, last, n) + Get(daily, last - n)
    decreases n
  {
    if n > 0 {
      SeriesSplits(daily, last - 1, n - 1);
    }
  }

  lemma {:induction false} PointsAreSeries(last: int, n: nat, chat: seq<(int, int)>, image: seq<(int, int)>, audio: seq<(int, int)>, video: seq<(int, int)>)
    ensures var points := DayPoints(last, n, chat, image, audio, video);
            && PointSum(points, ChatOf) == Series(chat, last, n) && PointSum(points, ImageOf) == Series(image, last, n)
            && PointSum(points, AudioOf) == Series(audio, last, n) && PointSum(points, VideoOf) == Series(video, last, n)
    decreases n
  {
    if n > 0 {
      PointsAreSeries(last - 1, n - 1, chat, image, audio, video);
      assert DayPoints(last, n, chat, image, audio, video)[..n - 1] == DayPoints(last - 1, n - 1, chat, image, audio, video);
    }
  }

  /** The rows of the last `days` days, to the second. */
  predicate Within(rows: seq<Spend>, now: int, days: nat) {
    forall i :: 0 <= i < |rows| ==> now - days * SECONDS_PER_DAY <= rows[i].at <= now
  }

  lemma {:induction false} TotalSplits(rows: seq<Spend>, daily: seq<(int, int)>, now: int, days: nat)
    requires IsGroupBy(rows, DayOf, CostOf, daily) && Within(rows, now, days)
    ensures var today := now / SECONDS_PER_DAY;
            && Total(rows, CostOf) == SumOf(daily) == Series(daily, today, days) + Bucket(rows, DayOf, CostOf, today - days)
  {
    var today := now / SECONDS_PER_DAY;
    var ks := Days(today, days + 1);
    forall i | 0 <= i < |rows|
      ensures DayOf(rows[i]) in ks
    {
      var d := DayOf(rows[i]);
      assert today - days <= d <= today;
      assert ks[d - (today - days)] == d;
    }
    GroupsAddUp(rows, DayOf, CostOf, daily);
    BucketsAddUp(rows, DayOf, CostOf, ks);
    SeriesIsBuckets(rows, daily, today, days + 1);
    SeriesSplits(daily, today, days);
    GetIsBucket(rows, daily, today - days);
  }

  /** The four spend ledgers of the report period with an answer of each daily query. */
  datatype Books = Books(chat: seq<Spend>, image: seq<Spend>, audio: seq<Spend>, video: seq<Spend>,
                         dailyChat: seq<(int, int)>, dailyImage: seq<(int, int)>, dailyAudio: seq<(int, int)>, dailyVideo: seq<(int, int)>)

  ghost predicate ValidBooks(b: Books, now: int, days: nat) {
    && Within(b.chat, now, days) && Within(b.image, now, days) && Within(b.audio, now, days) && Within(b.video, now, days)
    && IsGroupBy(b.chat, DayOf, CostOf, b.dailyChat) && IsGroupBy(b.image, DayOf, CostOf, b.dailyImage)
    && IsGroupBy(b.audio, DayOf, CostOf, b.dailyAudio) && IsGroupBy(b.video, DayOf, CostOf, b.dailyVideo)
  }

  /** Each category's total is the sum of that category over the points the report lists,
      plus exactly the bucket of the partial first day at now - days, which it does not. */
  lemma {:induction false} TotalIsPointsPlusPartialDay(b: Books, now: int, days: nat)
    requires ValidBooks(b, now, days)
    ensures var today := now / SECONDS_PER_DAY;
            var points := DayPoints(today, days, b.dailyChat, b.dailyImage, b.dailyAudio, b.dailyVideo);
            && Total(b.chat, CostOf) == PointSum(points, ChatOf) + Bucket(b.chat, DayOf, CostOf, today - days)
            && Total(b.image, CostOf) == PointSum(points, ImageOf) + Bucket(b.image, DayOf, CostOf, today - days)
            && Total(b.audio, CostOf) == PointSum(points, AudioOf) + Bucket(b.audio, DayOf, CostOf, today - days)
            && Total(b.video, CostOf) == PointSum(points, VideoOf) + Bucket(b.video, DayOf, CostOf, today - days)
  {
    PointsAreSeries(now / SECONDS_PER_DAY, days, b.dailyChat, b.dailyImage, b.dailyAudio, b.dailyVideo);
    TotalSplits(b.chat, b.dailyChat, now, days);
    TotalSplits(b.image, b.dailyImage, now, days);
    TotalSplits(b.audio, b.dailyAudio, now, days);
    TotalSplits(b.video, b.dailyVideo, now, days);
  }

  // --- recent activity --------------------------------------------------

  datatype Kind = Chat | Image | Audio | Video | PurchaseKind

  datatype Item = Item(kind: Kind, time: int, id: nat)

  ghost predicate NewestFirst(items: seq<Item>) {
    forall i, j :: 0 <= i < j < |items| ==> items[i].time > items[j].time
  }

  ghost predicate DistinctTimes(items: seq<Item>) {
    forall i, j :: 0 <= i < j < |items| ==> items[i].time != items[j].time
  }

  function Insert(x: Item, items: seq<Item>): (r: seq<Item>)
    ensures |r| == |items| + 1
    ensures forall y :: y in r <==> y == x || y in items
  {
    if items == [] then [x]
    else if items[0].time <= x.time then [x] + items
    else
      assert items == [items[0]] + items[1..];
      [items[0]] + Insert(x, items[1..])
  }

  lemma {:induction false} InsertKeepsOrder(x: Item, items: seq<Item>)
    requires NewestFirst(items) && forall y :: y in items ==> y.time != x.time
    ensures NewestFirst(Insert(x, items))
  {
    if items != [] && items[0].time > x.time {
      InsertKeepsOrder(x, items[1..]);
      var rest := Insert(x, items[1..]);
      forall j | 0 <= j < |rest|
        ensures rest[j].time < items[0].time
      {
        assert rest[j] in rest;
      }
    }
  }

  /** list.sort(key=created_at, reverse=True), on distinct times. */
  function Sorted(items: seq<Item>): (r: seq<Item>)
    ensures |r| == |items|
    ensures forall y :: y in r <==> y in items
  {
    if items == [] then []
    else
      var n := |items| - 1;
      assert items == items[..n] + [items[n]];
      Insert(items[n], Sorted(items[..n]))
  }

  lemma {:induction false} SortedIsNewestFirst(items: seq<Item>)
    requires DistinctTimes(items)
    ensures NewestFirst(Sorted(items))
  {
    if items != [] {
      var n := |items| - 1;
      SortedIsNewestFirst(items[..n]);
      InsertKeepsOrder(items[n], Sorted(items[..n]));
    }
  }

  /** ORDER BY created_at DESC LIMIT cap, for a ledger listed newest first. */
  function Fetch(ledger: seq<Item>, cap: nat): seq<Item> {
    if |ledger| <= cap then ledger else ledger[..cap]
  }

  /** The five ledgers of a user in full, newest first. */
  datatype Ledgers = Ledgers(chat: seq<Item>, image: seq<Item>, audio: seq<Item>, video: seq<Item>, purchase: seq<Item>)

  function Everything(l: Ledgers): seq<Item> {
    l.chat + l.image + l.audio + l.video + l.purchase
  }

  const CHAT_CAP := 10
  const OTHER_CAP := 5
  const RECENT_CAP := 20

  function Fetched(l: Ledgers): seq<Item> {
    Fetch(l.chat, CHAT_CAP) + Fetch(l.image, OTHER_CAP) + Fetch(l.audio, OTHER_CAP)
    + Fetch(l.video, OTHER_CAP) + Fetch(l.purchase, OTHER_CAP)
  }

  ghost predicate ValidLedgers(l: Ledgers) {
    && NewestFirst(l.chat) && NewestFirst(l.image) && NewestFirst(l.audio) && NewestFirst(l.video) && NewestFirst(l.purchase)
    && DistinctTimes(Everything(l))
  }

  /** The merge at the end of summarize. */
  method Recent(l: Ledgers) returns (recent: seq<Item>)
    requires ValidLedgers(l)
    ensures recent == Fetch(Sorted(Fetched(l)), RECENT_CAP)
    ensures NewestFirst(recent) && |recent| <= 20
    ensures forall x :: x in recent ==> x in Everything(l)
  {
    FetchedAreDistinct(l);
    SortedIsNewestFirst(Fetched(l));
    recent := [];
    recent := AppendRows(recent, Fetch(l.chat, CHAT_CAP));
    recent := AppendRows(recent, Fetch(l.image, OTHER_CAP));
    recent := AppendRows(recent, Fetch(l.audio, OTHER_CAP));
    recent := AppendRows(recent, Fetch(l.video, OTHER_CAP));
    recent := AppendRows(recent, Fetch(l.purchase, OTHER_CAP));
    assert recent == Fetched(l);
    recent := Fetch(Sorted(recent), RECENT_CAP);
  }

  method AppendRows(before: seq<Item>, rows: seq<Item>) returns (recent: seq<Item>)
    ensures recent == before + rows
  {
    recent := before;
    for i := 0 to |rows|
      invariant recent == before + rows[..i]
    {
      recent := recent + [rows[i]];
    }
  }

  /** Fetching less of one ledger keeps the times apart. */
  lemma {:induction false} PrefixKeepsDistinct(a: seq<Item>, b: seq<Item>, c: seq<Item>, cap: nat)
    requires DistinctTimes(a + b + c)
    ensures DistinctTimes(a + Fetch(b, cap) + c)
    ensures forall x :: x in a + Fetch(b, cap) + c ==> x in a + b + c
  {
    var all, some := a + b + c, a + Fetch(b, cap) + c;
    var cut := |b| - |Fetch(b, cap)|;
    forall i | 0 <= i < |some|
      ensures some[i] == all[if i < |a| + |Fetch(b, cap)| then i else i + cut]
    {
    }
  }

  lemma {:induction false} FetchedAreDistinct(l: Ledgers)
    requires DistinctTimes(Everything(l))
    ensures DistinctTimes(Fetched(l))
    ensures forall x :: x in Fetched(l) ==> x in Everything(l)
  {
    var c, i, a, v, p := Fetch(l.chat, CHAT_CAP), Fetch(l.image, OTHER_CAP), Fetch(l.audio, OTHER_CAP),
      Fetch(l.video, OTHER_CAP), Fetch(l.purchase, OTHER_CAP);
    assert Everything(l) == [] + l.chat + (l.image + l.audio + l.video + l.purchase);
    PrefixKeepsDistinct([], l.chat, l.image + l.audio + l.video + l.purchase, CHAT_CAP);
    assert [] + c + (l.image + l.audio + l.video + l.purchase) == c + l.image + (l.audio + l.video + l.purchase);
    PrefixKeepsDistinct(c, l.image, l.audio + l.video + l.purchase, OTHER_CAP);
    assert c + i + (l.audio + l.video + l.purchase) == (c + i) + l.audio + (l.video + l.purchase);
    PrefixKeepsDistinct(c + i, l.audio, l.video + l.purchase, OTHER_CAP);
    assert (c + i) + a + (l.video + l.purchase) == (c + i + a) + l.video + l.purchase;
    PrefixKeepsDistinct(c + i + a, l.video, l.purchase, OTHER_CAP);
    assert (c + i + a) + v + l.purchase == (c + i + a + v) + l.purchase + [];
    PrefixKeepsDistinct(c + i + a + v, l.purchase, [], OTHER_CAP);
    assert (c + i + a + v) + p + [] == Fetched(l);
  }

  // --- the bounded merge against the full one ---------------------------

  /** Newer items of one ledger stand before an item in any list that contains them. */
  lemma {:induction false} NewerItemsComeFirst(list: seq<Item>, ledger: seq<Item>, k: nat, p: nat)
    requires NewestFirst(list) && NewestFirst(ledger) && k < |ledger| && p < |list| && list[p] == ledger[k]
    requires forall x :: x in ledger ==> x in list
    ensures k <= p
  {
    if k > 0 {
      assert ledger[k - 1] in list;
      var q :| 0 <= q < |list| && list[q] == ledger[k - 1];
      NewerItemsComeFirst(list, ledger, k - 1, q);
      assert q < p;
    }
  }

  /** Two newest-first lists, one within the other, agree on their first m items exactly
      when those items of the larger list are all in the smaller. */
  lemma {:induction false} PrefixAgrees(some: seq<Item>, all: seq<Item>, m: nat)
    requires NewestFirst(some) && NewestFirst(all) && m <= |all|
    requires forall x :: x in some ==> x in all
    requires forall i :: 0 <= i < m ==> all[i] in some
    ensures m <= |some| && some[..m] == all[..m]
  {
    if m > 0 {
      PrefixAgrees(some, all, m - 1);
      forall i | 0 <= i < m - 1
        ensures some[i] == all[i]
      {
        assert some[..m - 1][i] == all[..m - 1][i];
      }
      NextItemAgrees(some, all, m - 1);
    }
  }

  lemma {:induction false} NextItemAgrees(some: seq<Item>, all: seq<Item>, n: nat)
    requires NewestFirst(some) && NewestFirst(all) && n < |all| && n <= |some|
    requires forall x :: x in some ==> x in all
    requires all[n] in some && forall i :: 0 <= i < n ==> some[i] == all[i]
    ensures n < |some| && some[n] == all[n]
  {
    var p :| 0 <= p < |some| && some[p] == all[n];
    assert p >= n;
    assert some[n] in all;
    var q :| 0 <= q < |all| && all[q] == some[n];
    assert q >= n;
  }

  /** The first row of a ledger that the query leaves out is not among the m newest. */
  ghost predicate LeavesOutOnlyOlder(ledger: seq<Item>, cap: nat, newest: seq<Item>) {
    |ledger| > cap ==> ledger[cap] !in newest
  }

  ghost predicate NothingRecentLeftOut(l: Ledgers, m: nat)
    requires m <= |Sorted(Everything(l))|
  {
    var newest := Sorted(Everything(l))[..m];
    && LeavesOutOnlyOlder(l.chat, 10, newest)
    && LeavesOutOnlyOlder(l.image, 5, newest)
    && LeavesOutOnlyOlder(l.audio, 5, newest)
    && LeavesOutOnlyOlder(l.video, 5, newest)
    && LeavesOutOnlyOlder(l.purchase, 5, newest)
  }

  lemma {:induction false} FetchHasTheNewest(list: seq<Item>, ledger: seq<Item>, cap: nat, m: nat, i: nat)
    requires NewestFirst(list) && NewestFirst(ledger) && i < m <= |list|
    requires forall x :: x in ledger ==> x in list
    requires LeavesOutOnlyOlder(ledger, cap, list[..m])
    requires list[i] in ledger
    ensures list[i] in Fetch(ledger, cap)
  {
    var k :| 0 <= k < |ledger| && ledger[k] == list[i];
    if |ledger| > cap {
      assert ledger[cap] in list;
      var p :| 0 <= p < |list| && list[p] == ledger[cap];
      forall j | 0 <= j < m
        ensures list[j] in list[..m]
      {
        assert list[..m][j] == list[j];
      }
      assert p >= m;
      assert k < cap;
      assert ledger[..cap][k] == list[i];
    }
  }

  lemma {:induction false} LeftOutIsNotFetched(a: seq<Item>, b: seq<Item>, c: seq<Item>, cap: nat)
    requires DistinctTimes(a + b + c) && |b| > cap
    ensures b[cap] !in a + Fetch(b, cap) + c
  {
    var all := a + b + c;
    assert all[|a| + cap] == b[cap];
    assert forall i :: 0 <= i < |a| ==> all[i] == a[i];
    assert forall i :: 0 <= i < cap ==> all[|a| + i] == b[i];
    assert forall i :: 0 <= i < |c| ==> all[|a| + |b| + i] == c[i];
  }

  /** No row that a query leaves out comes back through another ledger. */
  lemma {:induction false} LeftOutRowsStayOut(l: Ledgers)
    requires DistinctTimes(Everything(l))
    ensures |l.chat| > CHAT_CAP ==> l.chat[CHAT_CAP] !in Fetched(l)
    ensures |l.image| > OTHER_CAP ==> l.image[OTHER_CAP] !in Fetched(l)
    ensures |l.audio| > OTHER_CAP ==> l.audio[OTHER_CAP] !in Fetched(l)
    ensures |l.video| > OTHER_CAP ==> l.video[OTHER_CAP] !in Fetched(l)
    ensures |l.purchase| > OTHER_CAP ==> l.purchase[OTHER_CAP] !in Fetched(l)
  {
    LeftOutFrom(l, [], l.chat, l.image + l.audio + l.video + l.purchase, CHAT_CAP);
    LeftOutFrom(l, l.chat, l.image, l.audio + l.video + l.purchase, OTHER_CAP);
    LeftOutFrom(l, l.chat + l.image, l.audio, l.video + l.purchase, OTHER_CAP);
    LeftOutFrom(l, l.chat + l.image + l.audio, l.video, l.purchase, OTHER_CAP);
    LeftOutFrom(l, l.chat + l.image + l.audio + l.video, l.purchase, [], OTHER_CAP);
  }

  lemma {:induction false} LeftOutFrom(l: Ledgers, a: seq<Item>, b: seq<Item>, c: seq<Item>, cap: nat)
    requires DistinctTimes(Everything(l)) && Everything(l) == a + b + c
    requires forall x :: x in Fetched(l) ==> x in a || x in Fetch(b, cap) || x in c
    ensures |b| > cap ==> b[cap] !in Fetched(l)
  {
    if |b| > cap {
      LeftOutIsNotFetched(a, b, c, cap);
    }
  }

  lemma {:induction false} NewestAreFetched(l: Ledgers, m: nat, i: nat)
    requires ValidLedgers(l) && i < m <= |Sorted(Everything(l))| && NothingRecentLeftOut(l, m)
    ensures Sorted(Everything(l))[i] in Sorted(Fetched(l))
  {
    var all := Sorted(Everything(l));
    SortedIsNewestFirst(Everything(l));
    assert all[i] in all;
    assert all[i] in Everything(l);
    if all[i] in l.chat {
      FetchHasTheNewest(all, l.chat, CHAT_CAP, m, i);
    } else if all[i] in l.image {
      FetchHasTheNewest(all, l.image, OTHER_CAP, m, i);
    } else if all[i] in l.audio {
      FetchHasTheNewest(all, l.audio, OTHER_CAP, m, i);
    } else if all[i] in l.video {
      FetchHasTheNewest(all, l.video, OTHER_CAP, m, i);
    } else {
      FetchHasTheNewest(all, l.purchase, OTHER_CAP, m, i);
    }
    assert all[i] in Fetched(l);
  }

  /** The merged list agrees with the full history on its first m items exactly when the
      first row each query leaves out is not one of the m newest. */
  lemma {:induction false} BoundedMergeAgrees(l: Ledgers, m: nat)
    requires ValidLedgers(l) && m <= |Sorted(Everything(l))| && m <= 20
    ensures var recent, all := Fetch(Sorted(Fetched(l)), RECENT_CAP), Sorted(Everything(l));
            (m <= |recent| && recent[..m] == all[..m]) <==> NothingRecentLeftOut(l, m)
  {
    var some, all := Sorted(Fetched(l)), Sorted(Everything(l));
    var recent := Fetch(some, RECENT_CAP);
    FetchedAreDistinct(l);
    SortedIsNewestFirst(Fetched(l));
    SortedIsNewestFirst(Everything(l));
    if NothingRecentLeftOut(l, m) {
      CompleteMergeAgrees(l, m);
    }
    if m <= |recent| && recent[..m] == all[..m] {
      AgreeingMergeIsComplete(l, m);
    }
  }

  lemma {:induction false} CompleteMergeAgrees(l: Ledgers, m: nat)
    requires ValidLedgers(l) && m <= |Sorted(Everything(l))| && m <= 20 && NothingRecentLeftOut(l, m)
    requires NewestFirst(Sorted(Fetched(l))) && NewestFirst(Sorted(Everything(l)))
    ensures var recent := Fetch(Sorted(Fetched(l)), RECENT_CAP);
            m <= |recent| && recent[..m] == Sorted(Everything(l))[..m]
  {
    var some, all := Sorted(Fetched(l)), Sorted(Everything(l));
    FetchedAreDistinct(l);
    SortedIsNewestFirst(Fetched(l));
    SortedIsNewestFirst(Everything(l));
    forall i | 0 <= i < m
      ensures all[i] in some
    {
      NewestAreFetched(l, m, i);
    }
    PrefixAgrees(some, all, m);
    assert Fetch(some, RECENT_CAP)[..m] == some[..m];
  }

  lemma {:induction false} AgreeingMergeIsComplete(l: Ledgers, m: nat)
    requires ValidLedgers(l) && m <= |Sorted(Everything(l))|
    requires var recent := Fetch(Sorted(Fetched(l)), RECENT_CAP);
             m <= |recent| && recent[..m] == Sorted(Everything(l))[..m]
    ensures NothingRecentLeftOut(l, m)
  {
    var some, all := Sorted(Fetched(l)), Sorted(Everything(l));
    var recent := Fetch(some, RECENT_CAP);
    FetchedAreDistinct(l);
    SortedIsNewestFirst(Fetched(l));
    LeftOutRowsStayOut(l);
    forall x | x in all[..m]
      ensures x in Fetched(l)
    {
      assert x in recent[..m];
      assert x in some;
    }
  }

  lemma {:induction false} FiveNewerInItsOwnLedger(all: seq<Item>, ledger: seq<Item>, cap: nat, m: nat)
    requires NewestFirst(all) && NewestFirst(ledger) && m <= |all| && m <= cap
    requires forall x :: x in ledger ==> x in all
    ensures LeavesOutOnlyOlder(ledger, cap, all[..m])
  {
    if |ledger| > cap && ledger[cap] in all[..m] {
      var p :| 0 <= p < m && all[..m][p] == ledger[cap];
      NewerItemsComeFirst(all, ledger, cap, p);
    }
  }

  /** Whatever the ledgers hold, the first five items shown are the five most recent
      activities of the user, although only ten plus four times five rows are fetched. */
  lemma {:induction false} FirstFiveAreExact(l: Ledgers, m: nat)
    requires ValidLedgers(l) && m <= 5 && m <= |Everything(l)|
    ensures var recent := Fetch(Sorted(Fetched(l)), RECENT_CAP);
            m <= |recent| && recent[..m] == Sorted(Everything(l))[..m]
  {
    var all := Sorted(Everything(l));
    SortedIsNewestFirst(Everything(l));
    FiveNewerInItsOwnLedger(all, l.chat, CHAT_CAP, m);
    FiveNewerInItsOwnLedger(all, l.image, OTHER_CAP, m);
    FiveNewerInItsOwnLedger(all, l.audio, OTHER_CAP, m);
    FiveNewerInItsOwnLedger(all, l.video, OTHER_CAP, m);
    FiveNewerInItsOwnLedger(all, l.purchase, OTHER_CAP, m);
    BoundedMergeAgrees(l, m);
  }

  /** The sixth is wrong for every user whose six newest activities are images and who has
      an older chat reply: the reply is shown in place of the sixth image. */
  lemma {:induction false} SixthCanBeWrong(images: seq<Item>, reply: Item)
    requires |images| == 6 && NewestFirst(images) && reply.time < images[5].time
    ensures var l := Ledgers([reply], images, [], [], []);
            var recent, all := Fetch(Sorted(Fetched(l)), RECENT_CAP), Sorted(Everything(l));
            ValidLedgers(l) && |recent| == 6 && |all| == 7 && recent != all[..6]
  {
    var l := Ledgers([reply], images, [], [], []);
    assert Everything(l) == [reply] + images;
    assert Fetched(l) == [reply] + images[..5];
    var all := Sorted(Everything(l));
    assert images[5] in Everything(l) by { assert Everything(l)[6] == images[5]; }
    assert reply in Everything(l) by { assert Everything(l)[0] == reply; }
    SortedIsNewestFirst(Everything(l));
    LeftOutIsAmongTheFirst(all, reply, images[5]);
    BoundedMergeAgrees(l, 6);
  }

  lemma {:induction false} LeftOutIsAmongTheFirst(all: seq<Item>, oldest: Item, x: Item)
    requires NewestFirst(all) && |all| == 7 && x in all && oldest in all && oldest.time < x.time
    ensures x in all[..6]
  {
    var p :| 0 <= p < |all| && all[p] == x;
    var q :| 0 <= q < |all| && all[q] == oldest;
    assert p < q;
    assert all[..6][p] == x;
  }
}
