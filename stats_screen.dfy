/** `StatsScreen`: the doughnut entries (the first five items of
    `ordersPerItem` followed by the result of folding the rest into one
    "Outros" record), the top-3 ranking cards with their fallbacks, and the
    `loading` flag of `fetchData`. Amounts are integers. */
module StatsScreen {
  import opened Wrappers
  import opened Seqs
  import Strings
  import Js
  import DoughnutChart

  /** A row of `/stats/orders-per-item`. */
  datatype ItemStat = ItemStat(itemId: Js.Value, itemName: Js.Value, totalOrders: int)

  /** An element of `doughnutData`: a record with the three fields, or the
      empty object `{}` that seeds the reduce. */
  datatype Entry = Stat(stat: ItemStat) | EmptyObject

  const DOUGHNUT_HEAD := 5
  const RANKING_SIZE := 3
  const OTHERS_ID := Js.Str("0")
  const OTHERS_NAME := Js.Str("Outros")
  const NO_PROFIT := "N/A"
  const PLACE_PREFIX := "Lugar "

  /** The record the reduce builds for the items past the fifth. */
  function Others(total: int): ItemStat
  {
    ItemStat(OTHERS_ID, OTHERS_NAME, total)
  }

  /** `(acc.totalOrders || 0)`: a missing or zero total reads as 0. */
  function AccTotal(acc: Entry): int
  {
    if acc.Stat? && acc.stat.totalOrders != 0 then acc.stat.totalOrders else 0
  }

  /** The reduce callback. */
  function OthersStep(acc: Entry, item: ItemStat): Entry
  {
    Stat(Others(AccTotal(acc) + item.totalOrders))
  }

  /** `items.reduce(callback, acc)`: a left fold. */
  function FoldOthers(acc: Entry, items: seq<ItemStat>): Entry
    decreases |items|
  {
    if items == [] then acc else FoldOthers(OthersStep(acc, items[0]), items[1..])
  }

  /** The number of orders the rows account for. */
  function TotalOrders(items: seq<ItemStat>): int
  {
    if items == [] then 0 else items[0].totalOrders + TotalOrders(items[1..])
  }

  lemma {:induction false} TotalOrdersAppend(a: seq<ItemStat>, b: seq<ItemStat>)
    ensures TotalOrders(a + b) == TotalOrders(a) + TotalOrders(b)
  {
    if a != [] {
      assert (a + b)[1..] == a[1..] + b;
      TotalOrdersAppend(a[1..], b);
    } else {
      assert a + b == b;
    }
  }

  /** Folding a non-empty list gives one "Outros" record carrying the
      accumulator's total plus every row's orders. */
  lemma {:induction false} FoldOthersSums(acc: Entry, items: seq<ItemStat>)
    requires items != []
    ensures FoldOthers(acc, items) == Stat(Others(AccTotal(acc) + TotalOrders(items)))
    decreases |items|
  {
    if items[1..] != [] {
      FoldOthersSums(OthersStep(acc, items[0]), items[1..]);
    }
  }

  /** `data.ordersPerItem || []`: `null` reads as the empty list. */
  function Items(ordersPerItem: Option<seq<ItemStat>>): seq<ItemStat>
  {
    if ordersPerItem.None? then [] else ordersPerItem.value
  }

  function Entries(items: seq<ItemStat>): (r: seq<Entry>)
    ensures |r| == |items| && forall i :: 0 <= i < |items| ==> r[i] == Stat(items[i])
  {
    seq(|items|, i requires 0 <= i < |items| => Stat(items[i]))
  }

  function HeadLength(n: nat): nat
  {
    if n < DOUGHNUT_HEAD then n else DOUGHNUT_HEAD
  }

  /** `doughnutData` as written: `slice(0, 5).concat(slice(5).reduce(…, {}))`. */
  function DoughnutData(ordersPerItem: Option<seq<ItemStat>>): seq<Entry>
  {
    var items := Items(ordersPerItem);
    var k := HeadLength(|items|);
    Entries(items[..k]) + [FoldOthers(EmptyObject, items[k..])]
  }

  /** The shape of `doughnutData`: the first min(n, 5) rows in order, then
      one "Outros" record summing the orders of the remaining rows when there
      are more than five, and otherwise the `{}` seed. */
  lemma DoughnutShape(ordersPerItem: Option<seq<ItemStat>>)
    ensures var items := Items(ordersPerItem);
      var r := DoughnutData(ordersPerItem);
      |r| == HeadLength(|items|) + 1 &&
      (forall i :: 0 <= i < HeadLength(|items|) ==> r[i] == Stat(items[i])) &&
      (|items| > DOUGHNUT_HEAD ==> r[DOUGHNUT_HEAD] == Stat(Others(TotalOrders(items[DOUGHNUT_HEAD..])))) &&
      (|items| <= DOUGHNUT_HEAD ==> r[|items|] == EmptyObject)
  {
    var items := Items(ordersPerItem);
    if |items| > DOUGHNUT_HEAD {
      FoldOthersSums(EmptyObject, items[DOUGHNUT_HEAD..]);
    }
  }

  /** A missing list is drawn like an empty one. */
  lemma DoughnutOfNull()
    ensures DoughnutData(None) == DoughnutData(Some([])) == [EmptyObject]
  {
  }

  /** The orders counted by a list of entries; the `{}` seed counts none. */
  function EntryTotal(entries: seq<Entry>): int
  {
    if entries == [] then 0
    else (if entries[0].Stat? then entries[0].stat.totalOrders else 0) + EntryTotal(entries[1..])
  }

  lemma {:induction false} EntryTotalAppend(a: seq<Entry>, b: seq<Entry>)
    ensures EntryTotal(a + b) == EntryTotal(a) + EntryTotal(b)
  {
    if a != [] {
      assert (a + b)[1..] == a[1..] + b;
      EntryTotalAppend(a[1..], b);
    } else {
      assert a + b == b;
    }
  }

  lemma {:induction false} EntryTotalOfEntries(items: seq<ItemStat>)
    ensures EntryTotal(Entries(items)) == TotalOrders(items)
  {
    if items != [] {
      assert Entries(items)[1..] == Entries(items[1..]);
      EntryTotalOfEntries(items[1..]);
    }
  }

  /** The doughnut accounts for every order exactly once. */
  lemma DoughnutConservesOrders(ordersPerItem: Option<seq<ItemStat>>)
    ensures EntryTotal(DoughnutData(ordersPerItem)) == TotalOrders(Items(ordersPerItem))
  {
    var items := Items(ordersPerItem);
    var k := HeadLength(|items|);
    var last := FoldOthers(EmptyObject, items[k..]);
    EntryTotalAppend(Entries(items[..k]), [last]);
    EntryTotalOfEntries(items[..k]);
    assert items == items[..k] + items[k..];
    TotalOrdersAppend(items[..k], items[k..]);
    if items[k..] != [] {
      FoldOthersSums(EmptyObject, items[k..]);
    }
  }

  /** As written, a list of at most five rows still ends in the `{}` seed:
      one row gives two entries. */
  lemma SeedAppendedToShortList(s: ItemStat)
    ensures DoughnutData(Some([s])) == [Stat(s), EmptyObject]
  {
  }

  /** The evidently intended `doughnutData`: the "Outros" record only when
      there is something past the fifth row. */
  function IntendedDoughnutData(ordersPerItem: Option<seq<ItemStat>>): (r: seq<Entry>)
    ensures var items := Items(ordersPerItem);
      |r| == HeadLength(|items|) + (if |items| > DOUGHNUT_HEAD then 1 else 0) &&
      (forall i :: 0 <= i < HeadLength(|items|) ==> r[i] == Stat(items[i])) &&
      (|items| > DOUGHNUT_HEAD ==> r[DOUGHNUT_HEAD] == Stat(Others(TotalOrders(items[DOUGHNUT_HEAD..])))) &&
      (forall i :: 0 <= i < |r| ==> r[i].Stat?)
  {
    var items := Items(ordersPerItem);
    if |items| > DOUGHNUT_HEAD then
      Entries(items[..DOUGHNUT_HEAD]) + [Stat(Others(TotalOrders(items[DOUGHNUT_HEAD..])))]
    else Entries(items)
  }

  /** The corrected entries differ from those as written only by the seed,
      and they too account for every order. */
  lemma IntendedDoughnutDropsOnlyTheSeed(ordersPerItem: Option<seq<ItemStat>>)
    ensures var items := Items(ordersPerItem);
      DoughnutData(ordersPerItem) ==
        IntendedDoughnutData(ordersPerItem) + (if |items| <= DOUGHNUT_HEAD then [EmptyObject] else [])
    ensures EntryTotal(IntendedDoughnutData(ordersPerItem)) == TotalOrders(Items(ordersPerItem))
  {
    var items := Items(ordersPerItem);
    DoughnutShape(ordersPerItem);
    DoughnutConservesOrders(ordersPerItem);
    if |items| <= DOUGHNUT_HEAD {
      assert items[..|items|] == items;
      EntryTotalAppend(IntendedDoughnutData(ordersPerItem), [EmptyObject]);
    }
  }

  // ---------------------------------------------------------------------
  // What `<DoughnutChart data={doughnutData} />` receives

  /** A doughnut entry as the object the chart is given. */
  function ObjectOf(e: Entry): Js.Obj
  {
    match e
    case Stat(s) => map["itemId" := s.itemId, "itemName" := s.itemName, "totalOrders" := Js.Num(s.totalOrders)]
    case EmptyObject => map[]
  }

  function Objects(entries: seq<Entry>): (r: seq<Js.Obj>)
    ensures |r| == |entries| && forall i :: 0 <= i < |entries| ==> r[i] == ObjectOf(entries[i])
  {
    seq(|entries|, i requires 0 <= i < |entries| => ObjectOf(entries[i]))
  }

  /** As written, the entries carry no `value` field, which is what the
      chart keeps slices by: the chart never receives a slice. */
  lemma StatsChartIsEmpty(ordersPerItem: Option<seq<ItemStat>>)
    ensures DoughnutChart.PieData(Objects(DoughnutData(ordersPerItem))) == []
  {
    var objs := Objects(DoughnutData(ordersPerItem));
    assert forall i :: 0 <= i < |objs| ==> "value" !in objs[i];
    DoughnutChart.PieDataDropsAllNonPositive(objs);
  }

  /** An entry as the chart evidently expects it: the name as `key` and the
      order count as `value`. */
  function ChartObjectOf(e: Entry): Js.Obj
  {
    match e
    case Stat(s) => map["key" := s.itemName, "value" := Js.Num(s.totalOrders)]
    case EmptyObject => map[]
  }

  function ChartObjects(entries: seq<Entry>): (r: seq<Js.Obj>)
    ensures |r| == |entries| && forall i :: 0 <= i < |entries| ==> r[i] == ChartObjectOf(entries[i])
  {
    seq(|entries|, i requires 0 <= i < |entries| => ChartObjectOf(entries[i]))
  }

  lemma {:induction false} TotalOrdersPositive(items: seq<ItemStat>)
    requires items != [] && forall i :: 0 <= i < |items| ==> items[i].totalOrders > 0
    ensures TotalOrders(items) > 0
  {
    if items[1..] != [] {
      TotalOrdersPositive(items[1..]);
    }
  }

  /** With the corrected entries and field names, every item that was
      ordered gets its own slice, named and sized by its row, in order. */
  lemma IntendedChartShowsEveryEntry(ordersPerItem: Option<seq<ItemStat>>)
    requires forall i :: 0 <= i < |Items(ordersPerItem)| ==> Items(ordersPerItem)[i].totalOrders > 0
    ensures var r := IntendedDoughnutData(ordersPerItem);
      var pie := DoughnutChart.PieData(ChartObjects(r));
      |pie| == |r| &&
      forall i :: 0 <= i < |r| ==> pie[i] == DoughnutChart.PieSlice(r[i].stat.itemName, Js.Num(r[i].stat.totalOrders))
  {
    var items := Items(ordersPerItem);
    var r := IntendedDoughnutData(ordersPerItem);
    if |items| > DOUGHNUT_HEAD {
      TotalOrdersPositive(items[DOUGHNUT_HEAD..]);
    }
    assert forall i :: 0 <= i < |r| ==> r[i].stat.totalOrders > 0;
    DoughnutChart.PieDataKeepsAllPositive(ChartObjects(r));
  }

  // ---------------------------------------------------------------------
  // The top-3 ranking

  /** A row of `/stats/profit-per-user`. */
  datatype RankedUser = RankedUser(username: Js.Value, totalProfit: Js.Value)

  /** `data.rankingUsers.slice(0, 3)`. */
  function Top3(ranking: seq<RankedUser>): (r: seq<RankedUser>)
    ensures |r| == if |ranking| < RANKING_SIZE then |ranking| else RANKING_SIZE
    ensures r == ranking[..|r|]
  {
    ranking[..if |ranking| < RANKING_SIZE then |ranking| else RANKING_SIZE]
  }

  /** Rows past the third never reach the ranking, and taking the top three
      twice is taking them once. */
  lemma Top3IgnoresTail(ranking: seq<RankedUser>, more: seq<RankedUser>)
    requires |ranking| >= RANKING_SIZE
    ensures Top3(ranking + more) == Top3(ranking)
    ensures Top3(Top3(ranking)) == Top3(ranking)
  {
    assert (ranking + more)[..RANKING_SIZE] == ranking[..RANKING_SIZE];
  }

  /** `Lugar ${index + 1}`. */
  function PlaceLabel(index: nat): string
  {
    PLACE_PREFIX + Strings.NatToString(index + 1)
  }

  /** One `RankingCard`: its title and its amount text. */
  datatype RankingCard = RankingCard(title: string, amount: string)

  /** `user.username || "Lugar k"` and `totalProfit ? "${totalProfit}€" : "N/A"`. */
  function CardOf(u: RankedUser, index: nat): (c: RankingCard)
    ensures Js.Truthy(u.username) ==> c.title == Js.ToText(u.username)
    ensures !Js.Truthy(u.username) ==> c.title == PlaceLabel(index)
    ensures c.amount == NO_PROFIT <==> !Js.Truthy(u.totalProfit)
    ensures Js.Truthy(u.totalProfit) ==> c.amount == Js.ToText(u.totalProfit) + "€"
  {
    var amount := if Js.Truthy(u.totalProfit) then Js.ToText(u.totalProfit) + "€" else NO_PROFIT;
    assert Js.Truthy(u.totalProfit) ==> amount[|amount| - 1] == '€';
    RankingCard(if Js.Truthy(u.username) then Js.ToText(u.username) else PlaceLabel(index), amount)
  }

  /** The ranking panel: "N/A" alone, or one card per top-3 row. */
  datatype RankingView = NoRanking | Cards(cards: seq<RankingCard>)

  function RankingOf(ranking: seq<RankedUser>): (v: RankingView)
    ensures v.NoRanking? <==> ranking == []
    ensures v.Cards? ==> |v.cards| == |Top3(ranking)| &&
                         (forall k :: 0 <= k < |v.cards| ==> v.cards[k] == CardOf(ranking[k], k))
  {
    var top := Top3(ranking);
    if |top| == 0 then NoRanking
    else Cards(seq(|top|, k requires 0 <= k < |top| => CardOf(top[k], k)))
  }

  /** A profit of zero is falsy and shows "N/A", like a missing one. */
  lemma ZeroProfitShowsNoProfit(username: Js.Value, index: nat)
    ensures CardOf(RankedUser(username, Js.Num(0)), index).amount == NO_PROFIT
    ensures CardOf(RankedUser(username, Js.Undefined), index).amount == NO_PROFIT
  {
  }

  lemma {:induction false} NatToStringInjective(a: nat, b: nat)
    requires Strings.NatToString(a) == Strings.NatToString(b)
    ensures a == b
  {
    Strings.NatToStringRoundTrip(a);
    Strings.NatToStringRoundTrip(b);
  }

  /** Two cards that fall back to a place label never share a title. */
  lemma FallbackTitlesDistinct(ranking: seq<RankedUser>, j: nat, k: nat)
    requires j < k < |ranking| && k < RANKING_SIZE
    requires !Js.Truthy(ranking[j].username) && !Js.Truthy(ranking[k].username)
    ensures RankingOf(ranking).Cards? && RankingOf(ranking).cards[j].title != RankingOf(ranking).cards[k].title
  {
    var v := RankingOf(ranking);
    if v.cards[j].title == v.cards[k].title {
      var num := |PLACE_PREFIX|;
      assert PlaceLabel(j)[num..] == Strings.NatToString(j + 1);
      assert PlaceLabel(k)[num..] == Strings.NatToString(k + 1);
      NatToStringInjective(j + 1, k + 1);
    }
  }

  // ---------------------------------------------------------------------
  // The screen's state

  /** The `data` state: the four responses, `null` until fetched. */
  datatype StatsData = StatsData(
    profitPerUser: Option<Js.Obj>,
    totalOrdersDMW: Option<Js.Obj>,
    ordersPerItem: Option<seq<ItemStat>>,
    rankingUsers: seq<RankedUser>)

  class Screen {
    var data: StatsData
    var loading: bool

    constructor ()
      ensures data == StatsData(None, None, None, []) && loading
    {
      data := StatsData(None, None, None, []);
      loading := true;
    }

    /** `fetchData`: `fetched` is the four results of `Promise.all`, or
        `None` when one of the requests threw. */
    method FetchData(fetched: Option<StatsData>)
      modifies this
      ensures !loading
      ensures fetched.Some? ==> data == fetched.value
      ensures fetched.None? ==> data == old(data)
    {
      if fetched.Some? {
        data := fetched.value;
      }
      loading := false;
    }
  }
}
