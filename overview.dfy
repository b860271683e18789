/**
 * The bookkeeping of the overview screen: the configured cards
 * (`configs`, in display order), the card contents (`items`, keyed by
 * configuration) and the screen state, and how each fetch completion
 * updates them.
 *
 * The two fetches are modelled as sequential state updates that receive
 * the API's answer as a parameter: `Success(None)` is an empty body,
 * `Failure` a thrown error. The card contents' own `set` operations are
 * not part of the source shown; they are modelled as plain assignments of
 * what they are given.
 */
module OverviewScreen {
  import opened Wrappers

  datatype ItemType =
    | Mrr | Subscriptions | Trials | Revenue | Users | Installs
    | Arr | Proceeds | NewUsers | ChurnRate | SubscriptionsLost

  /** The time periods the screen distinguishes; the others are told apart by name only. */
  datatype TimePeriod = Last28Days | AllTime | OtherPeriod(name: string)

  datatype ItemConfig = ItemConfig(itemType: ItemType, timePeriod: TimePeriod)

  /** A card's headline value, tagged with its kind. */
  datatype ItemValue = ItemValue(itemType: ItemType, amount: real)

  /** One chart point: a timestamp in seconds and a value. */
  datatype ChartPoint = ChartPoint(date: real, value: real)

  /** A card: its configuration, its value and its chart, each `None` until fetched. */
  datatype Item = Item(config: ItemConfig, value: Option<ItemValue>, chartValues: Option<seq<ChartPoint>>)

  /** The fields of the overview response that the screen reads. */
  datatype OverviewResponse = OverviewResponse(
    mrr: Option<real>,
    activeSubscribersCount: Option<int>,
    activeTrialsCount: Option<int>,
    revenue: Option<real>,
    activeUsersCount: Option<int>,
    installsCount: Option<int>)

  /** A chart response: rows of numbers, and a summary of named totals. */
  datatype ChartResponse = ChartResponse(
    values: Option<seq<seq<real>>>,
    summary: Option<map<string, map<string, real>>>)

  datatype ApiError = ApiError(description: string)

  datatype ViewState = Data | Error(error: ApiError)

  /** The card `addItem` inserts. */
  const AllTimeRevenue: ItemConfig := ItemConfig(Revenue, AllTime)

  function NewItem(config: ItemConfig): Item {
    Item(config, None, None)
  }

  /** One placeholder card per configuration. */
  function Placeholders(configs: seq<ItemConfig>): (items: map<ItemConfig, Item>)
    ensures forall c :: c in items <==> c in configs
    ensures forall c :: c in items ==> items[c] == NewItem(c)
  {
    map c | c in configs :: NewItem(c)
  }

  // ---------------------------------------------------------------------
  // Chart rows, safe indexing and defaults
  // ---------------------------------------------------------------------

  /** `row[safe: i]`: the element at `i`, or `None` when `i` is out of range. */
  function SafeIndex(row: seq<real>, i: int): (r: Option<real>)
    ensures r.Some? <==> 0 <= i < |row|
    ensures r.Some? ==> r.value == row[i]
  {
    if 0 <= i < |row| then Some(row[i]) else None
  }

  function RowToPoint(row: seq<real>, chartIndex: int): ChartPoint {
    ChartPoint(SafeIndex(row, 0).GetOr(0.0), SafeIndex(row, chartIndex).GetOr(0.0))
  }

  /** Row `i` becomes point `i`: its first element is the date, the one at `chartIndex` the value, 0 when missing. */
  function RowsToPoints(rows: seq<seq<real>>, chartIndex: int): (points: seq<ChartPoint>)
    ensures |points| == |rows|
    ensures forall i :: 0 <= i < |rows| ==>
      && points[i].date == (if |rows[i]| > 0 then rows[i][0] else 0.0)
      && points[i].value == (if 0 <= chartIndex < |rows[i]| then rows[i][chartIndex] else 0.0)
  {
    if rows == [] then []
    else [RowToPoint(rows[0], chartIndex)] + RowsToPoints(rows[1..], chartIndex)
  }

  /** The chart of a response: `nil` when there is no body or no `values`. */
  function ChartValues(data: Option<ChartResponse>, chartIndex: int): (chart: Option<seq<ChartPoint>>)
    ensures chart.None? <==> data.None? || data.value.values.None?
    ensures chart.Some? ==> chart.value == RowsToPoints(data.value.values.value, chartIndex)
  {
    if data.None? || data.value.values.None? then None
    else Some(RowsToPoints(data.value.values.value, chartIndex))
  }

  /** `chartValues?.last?.value ?? 0`. */
  function LastValueOrZero(chart: Option<seq<ChartPoint>>): (v: real)
    ensures chart.Some? && chart.value != [] ==> v == chart.value[|chart.value| - 1].value
    ensures chart.None? || chart.value == [] ==> v == 0.0
  {
    if chart.None? || chart.value == [] then 0.0 else chart.value[|chart.value| - 1].value
  }

  /** Whether every level of `data?.summary?["total"]?[key]` is present. */
  predicate HasSummaryTotal(data: Option<ChartResponse>, key: string) {
    data.Some? && data.value.summary.Some? && "total" in data.value.summary.value
    && key in data.value.summary.value["total"]
  }

  /** `data?.summary?["total"]?[key] ?? 0`. */
  function SummaryTotal(data: Option<ChartResponse>, key: string): (total: real)
    ensures HasSummaryTotal(data, key) ==> total == data.value.summary.value["total"][key]
    ensures !HasSummaryTotal(data, key) ==> total == 0.0
  {
    if data.Some? && data.value.summary.Some? && "total" in data.value.summary.value
       && key in data.value.summary.value["total"]
    then data.value.summary.value["total"][key]
    else 0.0
  }

  /** Swift's `Int(x)` on a finite double: truncation toward zero. */
  function TruncateTowardZero(x: real): (n: int)
    ensures 0.0 <= x ==> 0 <= n && n as real <= x < n as real + 1.0
    ensures x < 0.0 ==> n <= 0 && n as real - 1.0 < x <= n as real
  {
    if 0.0 <= x then x.Floor else -((-x).Floor)
  }

  // ---------------------------------------------------------------------
  // Updates of one card
  // ---------------------------------------------------------------------

  function SetValue(item: Item, value: ItemValue): Item {
    item.(value := Some(value))
  }

  function SetChart(item: Item, chart: Option<seq<ChartPoint>>): Item {
    item.(chartValues := chart)
  }

  function SetValueAndChart(item: Item, value: ItemValue, chart: Option<seq<ChartPoint>>): Item {
    item.(value := Some(value), chartValues := chart)
  }

  /** What a successful chart fetch does to the card of `config`. */
  function ApplyChart(item: Item, config: ItemConfig, data: Option<ChartResponse>, chartIndex: int): (r: Item)
    ensures r.config == item.config
    ensures r.chartValues == ChartValues(data, chartIndex)
  {
    var chart := ChartValues(data, chartIndex);
    match config.itemType
    case Mrr | Subscriptions | Trials | Users | Installs => SetChart(item, chart)
    case Revenue =>
      if config.timePeriod == Last28Days then SetChart(item, chart)
      else SetValueAndChart(item, ItemValue(Revenue, SummaryTotal(data, "Total Revenue")), chart)
    case Arr => SetValueAndChart(item, ItemValue(Arr, LastValueOrZero(chart)), chart)
    case Proceeds => SetValueAndChart(item, ItemValue(Proceeds, SummaryTotal(data, "Proceeds")), chart)
    case NewUsers =>
      SetValueAndChart(item, ItemValue(NewUsers, TruncateTowardZero(LastValueOrZero(chart)) as real), chart)
    case ChurnRate => SetValueAndChart(item, ItemValue(ChurnRate, LastValueOrZero(chart)), chart)
    case SubscriptionsLost =>
      SetValueAndChart(item, ItemValue(SubscriptionsLost, TruncateTowardZero(LastValueOrZero(chart)) as real), chart)
  }

  // ---------------------------------------------------------------------
  // The card map
  // ---------------------------------------------------------------------

  /** `items[config]?.set(...)`: update the card of `config` if there is one. */
  function UpdateIfPresent(items: map<ItemConfig, Item>, config: ItemConfig, f: Item -> Item)
    : (r: map<ItemConfig, Item>)
    ensures r.Keys == items.Keys
    ensures config in items ==> r[config] == f(items[config])
    ensures forall c :: c in items && c != config ==> r[c] == items[c]
  {
    if config in items then items[config := f(items[config])] else items
  }

  /** `configs.first(where: { $0.type == type })`. */
  function FirstOfType(configs: seq<ItemConfig>, t: ItemType): (r: Option<ItemConfig>)
    ensures r.None? <==> forall i :: 0 <= i < |configs| ==> configs[i].itemType != t
    ensures r.Some? ==> exists i :: 0 <= i < |configs| && configs[i] == r.value && r.value.itemType == t &&
                                    forall j :: 0 <= j < i ==> configs[j].itemType != t
  {
    if configs == [] then None
    else if configs[0].itemType == t then Some(configs[0])
    else
      var r := FirstOfType(configs[1..], t);
      if r.Some? then
        var i :| 0 <= i < |configs[1..]| && configs[1..][i] == r.value && r.value.itemType == t
          && forall j :: 0 <= j < i ==> configs[1..][j].itemType != t;
        assert configs[i + 1] == r.value;
        r
      else r
  }

  /** `configs.compactMap { items[$0] }`: the cards in display order, skipping configurations without one. */
  function ItemsInOrder(configs: seq<ItemConfig>, items: map<ItemConfig, Item>): (r: seq<Item>)
    ensures |r| <= |configs|
    ensures forall x :: x in r ==> exists c :: c in configs && c in items && items[c] == x
    ensures |configs| == 1 ==> r == if configs[0] in items then [items[configs[0]]] else []
  {
    if configs == [] then []
    else if configs[0] in items then [items[configs[0]]] + ItemsInOrder(configs[1..], items)
    else ItemsInOrder(configs[1..], items)
  }

  /**
   * The number an overview response gives a card of type `t`: the
   * matching field (`data?.field ?? 0`), or 0 when the body or the field is
   * missing, and 0 for the types the overview does not fill.
   */
  function OverviewAmount(data: Option<OverviewResponse>, t: ItemType): (a: real)
    ensures data.None? || t !in {Mrr, Subscriptions, Trials, Revenue, Users, Installs} ==> a == 0.0
    ensures data.Some? && t == Mrr ==> a == data.value.mrr.GetOr(0.0)
    ensures data.Some? && t == Subscriptions ==> a == data.value.activeSubscribersCount.GetOr(0) as real
    ensures data.Some? && t == Trials ==> a == data.value.activeTrialsCount.GetOr(0) as real
    ensures data.Some? && t == Revenue ==> a == data.value.revenue.GetOr(0.0)
    ensures data.Some? && t == Users ==> a == data.value.activeUsersCount.GetOr(0) as real
    ensures data.Some? && t == Installs ==> a == data.value.installsCount.GetOr(0) as real
  {
    if data.None? then 0.0
    else
      match t
      case Mrr => data.value.mrr.GetOr(0.0)
      case Subscriptions => data.value.activeSubscribersCount.GetOr(0) as real
      case Trials => data.value.activeTrialsCount.GetOr(0) as real
      case Revenue => data.value.revenue.GetOr(0.0)
      case Users => data.value.activeUsersCount.GetOr(0) as real
      case Installs => data.value.installsCount.GetOr(0) as real
      case _ => 0.0
  }

  /** The value card of type `t` receives from an overview response. */
  function OverviewValue(data: Option<OverviewResponse>, t: ItemType): ItemValue {
    ItemValue(t, OverviewAmount(data, t))
  }

  /** The card for the last 28 days of type `t`. */
  function Recent(t: ItemType): ItemConfig {
    ItemConfig(t, Last28Days)
  }

  /**
   * The six cards an overview response fills, in the source's order: the
   * first card of each of MRR, subscriptions and trials gets its value;
   * the last-28-days revenue, users and installs cards get their value and
   * no chart.
   */
  function ApplyOverview(configs: seq<ItemConfig>, items: map<ItemConfig, Item>, data: Option<OverviewResponse>)
    : (r: map<ItemConfig, Item>)
    ensures r.Keys == items.Keys
  {
    var m1 := SetValueOfType(configs, items, Mrr, OverviewValue(data, Mrr));
    var m2 := SetValueOfType(configs, m1, Subscriptions, OverviewValue(data, Subscriptions));
    var m3 := SetValueOfType(configs, m2, Trials, OverviewValue(data, Trials));
    var m4 := SetValueFor(m3, Recent(Revenue), Some(OverviewValue(data, Revenue)), None);
    var m5 := SetValueFor(m4, Recent(Users), Some(OverviewValue(data, Users)), None);
    SetValueFor(m5, Recent(Installs), Some(OverviewValue(data, Installs)), None)
  }

  /** Whether the overview writes the card of `c`: a first card of MRR, subscriptions or trials, or a last-28-days card. */
  predicate FilledByOverview(configs: seq<ItemConfig>, c: ItemConfig) {
    || Some(c) == FirstOfType(configs, Mrr)
    || Some(c) == FirstOfType(configs, Subscriptions)
    || Some(c) == FirstOfType(configs, Trials)
    || c == Recent(Revenue) || c == Recent(Users) || c == Recent(Installs)
  }

  /**
   * `setItem(type:value:)` on the card map: only the card of the first
   * configuration of type `t` gets the value, and nothing happens when no
   * configuration has that type.
   */
  function SetValueOfType(configs: seq<ItemConfig>, items: map<ItemConfig, Item>, t: ItemType, value: ItemValue)
    : (r: map<ItemConfig, Item>)
    ensures r.Keys == items.Keys
    ensures FirstOfType(configs, t).None? ==> r == items
    ensures forall c :: c in items && Some(c) != FirstOfType(configs, t) ==> r[c] == items[c]
    ensures FirstOfType(configs, t).Some? && FirstOfType(configs, t).value in items ==>
      r[FirstOfType(configs, t).value] == items[FirstOfType(configs, t).value].(value := Some(value))
  {
    match FirstOfType(configs, t)
    case None => items
    case Some(config) => UpdateIfPresent(items, config, item => SetValue(item, value))
  }

  /**
   * `setItem(config:value:chartValues:)` on the card map: the card of
   * `config`, if any, gets the chart, and the value when one is given.
   */
  function SetValueFor(items: map<ItemConfig, Item>, config: ItemConfig, value: Option<ItemValue>,
                       chart: Option<seq<ChartPoint>>): (r: map<ItemConfig, Item>)
    ensures r.Keys == items.Keys
    ensures forall c :: c in items && c != config ==> r[c] == items[c]
    ensures config in items ==>
      r[config] == items[config].(value := if value.Some? then value else items[config].value,
                                  chartValues := chart)
  {
    if value.Some? then UpdateIfPresent(items, config, item => SetValueAndChart(item, value.value, chart))
    else UpdateIfPresent(items, config, item => SetChart(item, chart))
  }

  // ---------------------------------------------------------------------
  // The view model
  // ---------------------------------------------------------------------

  class OverviewViewModel {
    var state: ViewState
    var configs: seq<ItemConfig>
    var items: map<ItemConfig, Item>

    /** Every configured card has its contents: the cards are created together with their configurations. */
    predicate Valid()
      reads this
    {
      forall c :: c in configs ==> c in items
    }

    /** A fresh screen over the saved card configurations, one placeholder card each. */
    constructor (savedConfigs: seq<ItemConfig>)
      ensures Valid()
      ensures state == Data && configs == savedConfigs && items == Placeholders(savedConfigs)
    {
      state := Data;
      configs := savedConfigs;
      items := Placeholders(savedConfigs);
    }

    /** The cards to show: the card of every configuration, in display order. */
    function GetItems(): (r: seq<Item>)
      reads this
      requires Valid()
      ensures |r| == |configs|
      ensures forall i :: 0 <= i < |configs| ==> r[i] == items[configs[i]]
    {
      CompleteItemsInOrder(configs, items);
      ItemsInOrder(configs, items)
    }

    /** `setItem(type:value:)`: set the value of the first card of type `t`, if it has a card. */
    method SetItemOfType(t: ItemType, value: ItemValue)
      modifies this
      requires Valid()
      ensures Valid()
      ensures state == old(state) && configs == old(configs)
      ensures items == SetValueOfType(old(configs), old(items), t, value)
    {
      var first := FirstOfType(configs, t);
      if first.Some? {
        items := UpdateIfPresent(items, first.value, item => SetValue(item, value));
      }
    }

    /** `setItem(config:value:chartValues:)`: update the card of `config`, if there is one. */
    method SetItem(config: ItemConfig, value: Option<ItemValue>, chart: Option<seq<ChartPoint>>)
      modifies this
      requires Valid()
      ensures Valid()
      ensures state == old(state) && configs == old(configs)
      ensures items == SetValueFor(old(items), config, value, chart)
    {
      if value.Some? {
        items := UpdateIfPresent(items, config, item => SetValueAndChart(item, value.value, chart));
      } else {
        items := UpdateIfPresent(items, config, item => SetChart(item, chart));
      }
    }

    /** `addItem`: an all-time revenue card goes first, with a fresh card behind it. */
    method AddItem()
      modifies this
      requires Valid()
      ensures Valid()
      ensures state == old(state)
      ensures configs == [AllTimeRevenue] + old(configs)
      ensures items == old(items)[AllTimeRevenue := NewItem(AllTimeRevenue)]
      ensures GetItems()[0] == NewItem(AllTimeRevenue)
    {
      configs := [AllTimeRevenue] + configs;
      items := items[AllTimeRevenue := NewItem(AllTimeRevenue)];
    }

    /** The completion of the overview fetch: an error goes to `state`, an answer to six cards. */
    method FetchOverview(response: Result<Option<OverviewResponse>, ApiError>)
      modifies this
      requires Valid()
      ensures Valid()
      ensures configs == old(configs)
      ensures response.Failure? ==> state == Error(response.error) && items == old(items)
      ensures response.Success? ==>
        state == old(state) && items == ApplyOverview(old(configs), old(items), response.value)
    {
      if response.Failure? {
        state := Error(response.error);
        return;
      }
      var data := response.value;
      SetItemOfType(Mrr, OverviewValue(data, Mrr));
      SetItemOfType(Subscriptions, OverviewValue(data, Subscriptions));
      SetItemOfType(Trials, OverviewValue(data, Trials));
      SetItem(Recent(Revenue), Some(OverviewValue(data, Revenue)), None);
      SetItem(Recent(Users), Some(OverviewValue(data, Users)), None);
      SetItem(Recent(Installs), Some(OverviewValue(data, Installs)), None);
    }

    /**
     * The completion of one card's chart fetch. Nothing happens for a type
     * without a chart name or index, nor on an error; otherwise only the
     * card of `config` changes.
     */
    method FetchChart(config: ItemConfig, chartName: Option<string>, chartIndex: Option<int>,
                      response: Result<Option<ChartResponse>, ApiError>)
      modifies this
      requires Valid()
      ensures Valid()
      ensures state == old(state) && configs == old(configs)
      ensures chartName.None? || chartIndex.None? || response.Failure? ==> items == old(items)
      ensures chartName.Some? && chartIndex.Some? && response.Success? ==>
        items == UpdateIfPresent(old(items), config,
                                 item => ApplyChart(item, config, response.value, chartIndex.value))
    {
      if chartName.None? || chartIndex.None? {
        return;
      }
      if response.Success? {
        var index := chartIndex.value;
        items := UpdateIfPresent(items, config, item => ApplyChart(item, config, response.value, index));
      }
    }
  }

  // ---------------------------------------------------------------------
  // Properties
  // ---------------------------------------------------------------------

  /** When every configuration has a card, `ItemsInOrder` lists exactly those cards, in order. */
  lemma {:induction false} CompleteItemsInOrder(configs: seq<ItemConfig>, items: map<ItemConfig, Item>)
    ensures (forall c :: c in configs ==> c in items) ==>
      |ItemsInOrder(configs, items)| == |configs| &&
      forall i :: 0 <= i < |configs| ==> ItemsInOrder(configs, items)[i] == items[configs[i]]
  {
    if configs != [] && (forall c :: c in configs ==> c in items) {
      CompleteItemsInOrder(configs[1..], items);
    }
  }

  /** The compact map works configuration by configuration: it distributes over concatenation. */
  lemma {:induction false} ItemsInOrderAppend(a: seq<ItemConfig>, b: seq<ItemConfig>, items: map<ItemConfig, Item>)
    ensures ItemsInOrder(a + b, items) == ItemsInOrder(a, items) + ItemsInOrder(b, items)
  {
    if a == [] {
      assert a + b == b;
    } else {
      assert (a + b)[0] == a[0];
      assert (a + b)[1..] == a[1..] + b;
      ItemsInOrderAppend(a[1..], b, items);
    }
  }

  /** The chart's last point carries the last row's value at `chartIndex`, or 0 when there is none. */
  lemma LastValueOfRows(data: Option<ChartResponse>, chartIndex: int)
    ensures LastValueOrZero(ChartValues(data, chartIndex)) ==
      if data.None? || data.value.values.None? || data.value.values.value == [] then 0.0
      else SafeIndex(data.value.values.value[|data.value.values.value| - 1], chartIndex).GetOr(0.0)
  {
  }

  /** Which value a chart fetch gives the card, type by type; last-28-days revenue keeps its value. */
  lemma ApplyChartValue(item: Item, config: ItemConfig, data: Option<ChartResponse>, chartIndex: int)
    ensures var v := ApplyChart(item, config, data, chartIndex).value;
      && (config.itemType in {Mrr, Subscriptions, Trials, Users, Installs} ==> v == item.value)
      && (config == ItemConfig(Revenue, Last28Days) ==> v == item.value)
      && (config.itemType == Revenue && config.timePeriod != Last28Days ==>
            v == Some(ItemValue(Revenue, SummaryTotal(data, "Total Revenue"))))
      && (config.itemType == Proceeds ==> v == Some(ItemValue(Proceeds, SummaryTotal(data, "Proceeds"))))
      && (config.itemType in {Arr, ChurnRate} ==>
            v == Some(ItemValue(config.itemType, LastValueOrZero(ChartValues(data, chartIndex)))))
      && (config.itemType in {NewUsers, SubscriptionsLost} ==>
            v == Some(ItemValue(config.itemType, TruncateTowardZero(LastValueOrZero(ChartValues(data, chartIndex))) as real)))
  {
  }

  /**
   * The overview gives the first card of MRR, subscriptions and trials the
   * response's number, 0 when missing, and keeps its chart.
   */
  lemma OverviewFillsFirstCardOfType(configs: seq<ItemConfig>, items: map<ItemConfig, Item>,
                                     data: Option<OverviewResponse>, t: ItemType)
    requires t in {Mrr, Subscriptions, Trials}
    requires FirstOfType(configs, t).Some? && FirstOfType(configs, t).value in items
    ensures var f := FirstOfType(configs, t).value;
      ApplyOverview(configs, items, data)[f] == items[f].(value := Some(OverviewValue(data, t)))
  {
    var f := FirstOfType(configs, t).value;
    assert f.itemType == t;
    var m1 := SetValueOfType(configs, items, Mrr, OverviewValue(data, Mrr));
    var m2 := SetValueOfType(configs, m1, Subscriptions, OverviewValue(data, Subscriptions));
    var m3 := SetValueOfType(configs, m2, Trials, OverviewValue(data, Trials));
    if t != Mrr {
      SetValueOfTypeUntouched(configs, items, Mrr, OverviewValue(data, Mrr), f);
    }
    if t != Subscriptions {
      SetValueOfTypeUntouched(configs, m1, Subscriptions, OverviewValue(data, Subscriptions), f);
    }
    if t != Trials {
      SetValueOfTypeUntouched(configs, m2, Trials, OverviewValue(data, Trials), f);
    }
    assert m3[f] == items[f].(value := Some(OverviewValue(data, t)));
    assert f != Recent(Revenue) && f != Recent(Users) && f != Recent(Installs);
  }

  /**
   * The overview gives each last-28-days card of revenue, users and
   * installs the response's number, 0 when missing, and, since it passes
   * no chart, clears the card's chart.
   */
  lemma OverviewFillsRecentCard(configs: seq<ItemConfig>, items: map<ItemConfig, Item>,
                                data: Option<OverviewResponse>, t: ItemType)
    requires t in {Revenue, Users, Installs} && Recent(t) in items
    ensures ApplyOverview(configs, items, data)[Recent(t)] ==
      items[Recent(t)].(value := Some(OverviewValue(data, t)), chartValues := None)
  {
    var c := Recent(t);
    var m1 := SetValueOfType(configs, items, Mrr, OverviewValue(data, Mrr));
    SetValueOfTypeUntouched(configs, items, Mrr, OverviewValue(data, Mrr), c);
    var m2 := SetValueOfType(configs, m1, Subscriptions, OverviewValue(data, Subscriptions));
    SetValueOfTypeUntouched(configs, m1, Subscriptions, OverviewValue(data, Subscriptions), c);
    var m3 := SetValueOfType(configs, m2, Trials, OverviewValue(data, Trials));
    SetValueOfTypeUntouched(configs, m2, Trials, OverviewValue(data, Trials), c);
    assert m3[c] == items[c];
  }

  /** The overview never adds or removes a card, and leaves every card it does not fill alone. */
  lemma OverviewTouchesOnlyItsCards(configs: seq<ItemConfig>, items: map<ItemConfig, Item>, data: Option<OverviewResponse>,
                                    c: ItemConfig)
    requires c in items && !FilledByOverview(configs, c)
    ensures ApplyOverview(configs, items, data).Keys == items.Keys
    ensures ApplyOverview(configs, items, data)[c] == items[c]
  {
    var m1 := SetValueOfType(configs, items, Mrr, OverviewValue(data, Mrr));
    var m2 := SetValueOfType(configs, m1, Subscriptions, OverviewValue(data, Subscriptions));
    var m3 := SetValueOfType(configs, m2, Trials, OverviewValue(data, Trials));
    assert m3[c] == items[c];
  }

  /** `setItem(type:value:)` leaves the card of a configuration of another type alone. */
  lemma SetValueOfTypeUntouched(configs: seq<ItemConfig>, items: map<ItemConfig, Item>, t: ItemType, value: ItemValue,
                                c: ItemConfig)
    requires c in items && c.itemType != t
    ensures SetValueOfType(configs, items, t, value).Keys == items.Keys
    ensures SetValueOfType(configs, items, t, value)[c] == items[c]
  {
    var first := FirstOfType(configs, t);
    assert first.Some? ==> first.value.itemType == t;
  }

  /** Adding a card when every configuration has one shows the new card first and then all the old ones. */
  lemma AddedItemLeadsTheList(configs: seq<ItemConfig>, items: map<ItemConfig, Item>)
    requires AllTimeRevenue !in configs
    requires forall c :: c in configs ==> c in items
    ensures ItemsInOrder([AllTimeRevenue] + configs, items[AllTimeRevenue := NewItem(AllTimeRevenue)]) ==
      [NewItem(AllTimeRevenue)] + ItemsInOrder(configs, items)
  {
    var items' := items[AllTimeRevenue := NewItem(AllTimeRevenue)];
    CompleteItemsInOrder(configs, items);
    CompleteItemsInOrder(configs, items');
    assert ([AllTimeRevenue] + configs)[1..] == configs;
    assert ItemsInOrder(configs, items') == ItemsInOrder(configs, items);
  }

  /**
   * Adding a card when an all-time revenue card already exists lists that
   * configuration twice, and both places show the fresh card: the old
   * card's contents are gone.
   */
  lemma AddedItemOverExistingCard(configs: seq<ItemConfig>, items: map<ItemConfig, Item>)
    requires AllTimeRevenue in configs
    requires forall c :: c in configs ==> c in items
    ensures var shown := ItemsInOrder([AllTimeRevenue] + configs, items[AllTimeRevenue := NewItem(AllTimeRevenue)]);
      && |shown| == |configs| + 1
      && shown[0] == NewItem(AllTimeRevenue)
      && exists i :: 1 <= i < |shown| && ([AllTimeRevenue] + configs)[i] == AllTimeRevenue && shown[i] == NewItem(AllTimeRevenue)
  {
    var configs' := [AllTimeRevenue] + configs;
    var items' := items[AllTimeRevenue := NewItem(AllTimeRevenue)];
    CompleteItemsInOrder(configs', items');
    var k :| 0 <= k < |configs| && configs[k] == AllTimeRevenue;
    assert configs'[k + 1] == AllTimeRevenue;
  }
}
