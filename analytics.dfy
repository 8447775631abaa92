/** The in-memory counters of src/logs/analytics.py: `MetricsCollector` and the counter updates the
    `AnalyticsManager.track_*` methods make. The event and error log files are not modelled. */
module Analytics {
  import opened Wrappers
  import CartStore

  /** A value in a category map: an integer counter, or one of the nested dictionaries
      `by_channel` and `by_type`. */
  datatype Counter = Count(n: int) | Table(entries: map<string, int>)

  type Category = map<string, Counter>

  /** `MetricsCollector.metrics`: the four category dictionaries. No operation adds or removes a
      category, so they are the fields of a record. */
  datatype Metrics = Metrics(messages: Category, products: Category, orders: Category, errors: Category)

  /** The exceptions `increment_metric` can raise: a missing metric name (`KeyError`), or `+=`
      applied to a nested dictionary (`TypeError`). */
  datatype MetricError = KeyError(key: string) | TypeError

  /** The counters a fresh collector starts with, all at zero. */
  const InitialMetrics: Metrics := Metrics(
    map["total" := Count(0), "by_channel" := Table(map[])],
    map["viewed" := Count(0), "added_to_cart" := Count(0)],
    map["started" := Count(0), "completed" := Count(0)],
    map["total" := Count(0), "by_type" := Table(map[])])

  /** `metrics[name]`, when `name` is one of the four categories. */
  function CategoryOf(m: Metrics, name: string): Option<Category>
  {
    if name == "messages" then Some(m.messages)
    else if name == "products" then Some(m.products)
    else if name == "orders" then Some(m.orders)
    else if name == "errors" then Some(m.errors)
    else None
  }

  /** `metrics[name] = cat`, for one of the four categories. */
  function WithCategory(m: Metrics, name: string, cat: Category): Metrics
  {
    if name == "messages" then m.(messages := cat)
    else if name == "products" then m.(products := cat)
    else if name == "orders" then m.(orders := cat)
    else if name == "errors" then m.(errors := cat)
    else m
  }

  lemma WithCategoryLookup(m: Metrics, name: string, cat: Category)
    requires CategoryOf(m, name).Some?
    ensures forall c :: CategoryOf(WithCategory(m, name, cat), c) == if c == name then Some(cat) else CategoryOf(m, c)
  {
  }

  /** `metrics[category][key]`, if both keys are present. */
  function Entry(m: Metrics, category: string, key: string): Option<Counter>
  {
    match CategoryOf(m, category)
    case Some(cat) => if key in cat then Some(cat[key]) else None
    case None => None
  }

  /** The integer counter at `metrics[category][key]`, if there is one. */
  function CountOf(m: Metrics, category: string, key: string): Option<int>
  {
    match Entry(m, category, key)
    case Some(Count(n)) => Some(n)
    case _ => None
  }

  /** Every entry of the category is an integer counter, except possibly the one named `table`. */
  predicate CountsExcept(cat: Category, table: Option<string>)
  {
    forall k :: k in cat && Some(k) != table ==> cat[k].Count?
  }

  /** The counters every collector keeps: the named integer counters of each category and the two
      nested dictionaries; every other entry is an integer counter. */
  predicate WellShaped(m: Metrics)
  {
    && "total" in m.messages && "by_channel" in m.messages && m.messages["by_channel"].Table?
    && "viewed" in m.products && "added_to_cart" in m.products
    && "started" in m.orders && "completed" in m.orders
    && "total" in m.errors && "by_type" in m.errors && m.errors["by_type"].Table?
    && CountsExcept(m.messages, Some("by_channel")) && CountsExcept(m.products, None)
    && CountsExcept(m.orders, None) && CountsExcept(m.errors, Some("by_type"))
  }

  /** `increment_metric` on the dictionary `m`: the new dictionary, or the exception raised
      (the dictionary is then left as it was). */
  function Incremented(m: Metrics, category: string, metric: string, value: int, subcategory: Option<string>)
    : (r: Result<Metrics, MetricError>)
    ensures r.Err? ==> CategoryOf(m, category).Some?
    ensures r.Err? ==> r.error == TypeError || r.error == KeyError(metric)
  {
    match CategoryOf(m, category)
    case None => Ok(m)
    case Some(cat) =>
      if subcategory.Some? && subcategory.value != "" then
        var key := subcategory.value;
        var base := if key in cat then cat[key] else Count(0);
        match base
        case Count(n) => Ok(WithCategory(m, category, cat[key := Count(n + value)]))
        case Table(_) => Err(TypeError)
      else if metric !in cat then Err(KeyError(metric))
      else
        match cat[metric]
        case Count(n) => Ok(WithCategory(m, category, cat[metric := Count(n + value)]))
        case Table(_) => Err(TypeError)
  }

  /** The counter `increment_metric` adds to: the subcategory when one is given and non-empty
      (directly in the category's map), the metric otherwise. */
  function Target(metric: string, subcategory: Option<string>): string
  {
    if subcategory.Some? && subcategory.value != "" then subcategory.value else metric
  }

  /** An unknown category changes nothing. */
  lemma IncrementUnknownCategory(m: Metrics, category: string, metric: string, value: int, subcategory: Option<string>)
    requires category != "messages" && category != "products" && category != "orders" && category != "errors"
    ensures Incremented(m, category, metric, value, subcategory) == Ok(m)
  {
  }

  /** A successful increment adds `value` to the target counter (created at zero when a missing
      subcategory is named), and every other entry of every category, nested dictionaries
      included, stays as it was. */
  lemma IncrementedCounts(m: Metrics, category: string, metric: string, value: int, subcategory: Option<string>)
    requires CategoryOf(m, category).Some?
    requires Incremented(m, category, metric, value, subcategory).Ok?
    ensures var r := Incremented(m, category, metric, value, subcategory).value;
            var t := Target(metric, subcategory);
            && CategoryOf(r, category).Some?
            && CategoryOf(r, category).value.Keys == CategoryOf(m, category).value.Keys + {t}
            && CountOf(r, category, t) == Some(match CountOf(m, category, t) case Some(n) => n + value case None => value)
            && (forall c, k :: (c, k) != (category, t) ==> Entry(r, c, k) == Entry(m, c, k))
  {
    var t := Target(metric, subcategory);
    var cat := CategoryOf(m, category).value;
    var cat' := cat[t := Count((if t in cat then cat[t].n else 0) + value)];
    assert Incremented(m, category, metric, value, subcategory).value == WithCategory(m, category, cat');
    WithCategoryLookup(m, category, cat');
  }

  /** The failures: a nested dictionary under the target name raises `TypeError`; without a
      subcategory a missing metric raises `KeyError`; a missing subcategory is created. */
  lemma IncrementFailures(m: Metrics, category: string, metric: string, value: int, subcategory: Option<string>)
    requires CategoryOf(m, category).Some?
    ensures var cat := CategoryOf(m, category).value;
            var t := Target(metric, subcategory);
            Incremented(m, category, metric, value, subcategory) == Err(TypeError) <==> t in cat && cat[t].Table?
    ensures var cat := CategoryOf(m, category).value;
            var t := Target(metric, subcategory);
            Incremented(m, category, metric, value, subcategory) == Err(KeyError(metric)) <==>
              t !in cat && (subcategory.None? || subcategory.value == "")
    ensures var cat := CategoryOf(m, category).value;
            var t := Target(metric, subcategory);
            Incremented(m, category, metric, value, subcategory).Err? <==>
              (t in cat && cat[t].Table?) || (t !in cat && (subcategory.None? || subcategory.value == ""))
  {
  }

  /** Increments never break the shape of the counters. */
  lemma IncrementKeepsShape(m: Metrics, category: string, metric: string, value: int, subcategory: Option<string>)
    requires WellShaped(m)
    ensures WellShaped(Step(m, category, metric, value, subcategory))
  {
    if CategoryOf(m, category).Some? && Incremented(m, category, metric, value, subcategory).Ok? {
      var t := Target(metric, subcategory);
      var cat := CategoryOf(m, category).value;
      var v := (if t in cat then cat[t].n else 0) + value;
      assert Step(m, category, metric, value, subcategory) == WithCategory(m, category, cat[t := Count(v)]);
      if category == "messages" {
        SetKeepsCounts(cat, Some("by_channel"), t, v);
      } else if category == "products" || category == "orders" {
        SetKeepsCounts(cat, None, t, v);
      } else {
        SetKeepsCounts(cat, Some("by_type"), t, v);
      }
    }
  }

  /** Setting an integer counter keeps a category's entries integer counters, and its table. */
  lemma SetKeepsCounts(cat: Category, table: Option<string>, t: string, v: int)
    requires CountsExcept(cat, table)
    requires table.Some? && table.value in cat ==> t != table.value
    ensures CountsExcept(cat[t := Count(v)], table)
    ensures forall k :: k in cat ==> k in cat[t := Count(v)]
    ensures table.Some? && table.value in cat ==> cat[t := Count(v)][table.value] == cat[table.value]
  {
  }

  lemma InitialWellShaped()
    ensures WellShaped(InitialMetrics)
    ensures forall c, k :: CountOf(InitialMetrics, c, k).Some? ==> CountOf(InitialMetrics, c, k) == Some(0)
  {
  }

  /** The state after an increment: the new dictionary, or the old one when it raised. */
  function Step(m: Metrics, category: string, metric: string, value: int, subcategory: Option<string>): Metrics
  {
    match Incremented(m, category, metric, value, subcategory)
    case Ok(r) => r
    case Err(_) => m
  }

  /** The outcome of an increment, as the caller sees it. */
  function Outcome(m: Metrics, category: string, metric: string, value: int, subcategory: Option<string>)
    : Result<(), MetricError>
  {
    match Incremented(m, category, metric, value, subcategory)
    case Ok(_) => Ok(())
    case Err(e) => Err(e)
  }

  /** A counter a fresh collector has (`products.viewed`, `orders.started`, ...). */
  predicate IsNamedCounter(category: string, metric: string)
  {
    || (category == "messages" && metric == "total")
    || (category == "products" && (metric == "viewed" || metric == "added_to_cart"))
    || (category == "orders" && (metric == "started" || metric == "completed"))
    || (category == "errors" && metric == "total")
  }

  /** Adding to a named counter always succeeds: that counter grows by `value` and nothing else
      changes. */
  lemma NamedCounterStep(m: Metrics, category: string, metric: string, value: int)
    requires WellShaped(m) && IsNamedCounter(category, metric)
    ensures Outcome(m, category, metric, value, None) == Ok(())
    ensures var r := Step(m, category, metric, value, None);
            && WellShaped(r)
            && CountOf(r, category, metric) == Some(CountOf(m, category, metric).value + value)
            && (forall c, k :: (c, k) != (category, metric) ==> Entry(r, c, k) == Entry(m, c, k))
  {
    assert CategoryOf(m, category).Some? && metric in CategoryOf(m, category).value;
    assert CategoryOf(m, category).value[metric].Count?;
    IncrementedCounts(m, category, metric, value, None);
    IncrementKeepsShape(m, category, metric, value, None);
  }

  /** The counters after `track_message` (category "messages", nested dictionary "by_channel",
      the channel as the name) or `track_error` ("errors", "by_type", the error type): one more in
      the category's `total`, then one more under the name as a subcategory. An exception from the
      first increment ends the call before the second one. Whatever the name, the counters keep
      their shape. */
  function Tracked(m: Metrics, category: string, table: string, name: string): (r: Metrics)
    ensures Outcome(m, category, "total", 1, None).Err? ==> r == m
    ensures WellShaped(m) ==> WellShaped(r)
  {
    var m1 := Step(m, category, "total", 1, None);
    if Outcome(m, category, "total", 1, None).Err? then m
    else if WellShaped(m) then
      IncrementKeepsShape(m, category, "total", 1, None);
      IncrementKeepsShape(m1, category, table, 1, Some(name));
      Step(m1, category, table, 1, Some(name))
    else Step(m1, category, table, 1, Some(name))
  }

  /** The exception `track_message` or `track_error` raises, if any: the first increment's, else
      the second's. On well-shaped counters the first increment never raises. */
  function TrackedOutcome(m: Metrics, category: string, table: string, name: string): (r: Result<(), MetricError>)
    ensures Outcome(m, category, "total", 1, None).Err? ==> r == Outcome(m, category, "total", 1, None)
    ensures WellShaped(m) && IsNamedCounter(category, "total") ==>
              r == Outcome(Step(m, category, "total", 1, None), category, table, 1, Some(name))
  {
    if Outcome(m, category, "total", 1, None).Err? then Outcome(m, category, "total", 1, None)
    else Outcome(Step(m, category, "total", 1, None), category, table, 1, Some(name))
  }

  /** One more in a category's `total`, then one more under a subcategory name that is neither
      `total` nor a nested dictionary: both counters grow by one and nothing else changes. */
  lemma TotalThenSubcategory(m: Metrics, category: string, metric: string, sub: string)
    requires WellShaped(m) && IsNamedCounter(category, "total")
    requires sub != "" && sub != "total"
    requires Entry(m, category, sub).None? || Entry(m, category, sub).value.Count?
    ensures var r := Step(Step(m, category, "total", 1, None), category, metric, 1, Some(sub));
            && CountOf(r, category, "total") == Some(CountOf(m, category, "total").value + 1)
            && CountOf(r, category, sub) == Some(match CountOf(m, category, sub) case Some(n) => n + 1 case None => 1)
            && (forall c, k :: (c, k) != (category, "total") && (c, k) != (category, sub) ==> Entry(r, c, k) == Entry(m, c, k))
  {
    var m1 := Step(m, category, "total", 1, None);
    NamedCounterStep(m, category, "total", 1);
    assert Entry(m1, category, sub) == Entry(m, category, sub);
    IncrementedCounts(m1, category, metric, 1, Some(sub));
  }

  /** For an ordinary channel name, `track_message` adds one to `messages.total` and one to the
      counter named after the channel, which sits beside `total` in the `messages` map; the
      `by_channel` dictionary and every other counter stay as they were. */
  lemma TrackMessageCounts(m: Metrics, channel: string)
    requires WellShaped(m)
    requires channel != "" && channel != "total" && channel != "by_channel"
    ensures var r := Tracked(m, "messages", "by_channel", channel);
            && CountOf(r, "messages", "total") == Some(CountOf(m, "messages", "total").value + 1)
            && CountOf(r, "messages", channel) == Some(match CountOf(m, "messages", channel) case Some(n) => n + 1 case None => 1)
            && Entry(r, "messages", "by_channel") == Entry(m, "messages", "by_channel")
            && (forall c, k :: (c, k) != ("messages", "total") && (c, k) != ("messages", channel) ==> Entry(r, c, k) == Entry(m, c, k))
  {
    TotalThenSubcategory(m, "messages", "by_channel", channel);
  }

  /** As written, a message on the channel named "total" adds two to `messages.total`. */
  lemma TrackMessageTotalChannel(m: Metrics)
    requires WellShaped(m)
    ensures CountOf(Tracked(m, "messages", "by_channel", "total"), "messages", "total") == Some(CountOf(m, "messages", "total").value + 2)
  {
    var m1 := Step(m, "messages", "total", 1, None);
    NamedCounterStep(m, "messages", "total", 1);
    IncrementedCounts(m1, "messages", "by_channel", 1, Some("total"));
  }

  /** As written, the empty channel and the channel named "by_channel" make the second increment
      raise `TypeError`, after `messages.total` has already been counted. */
  lemma TrackMessageRejects(m: Metrics, channel: string)
    requires WellShaped(m)
    requires channel == "" || channel == "by_channel"
    ensures var m1 := Step(m, "messages", "total", 1, None);
            && Outcome(m1, "messages", "by_channel", 1, Some(channel)) == Err(TypeError)
            && CountOf(Tracked(m, "messages", "by_channel", channel), "messages", "total") == Some(CountOf(m, "messages", "total").value + 1)
  {
    NamedCounterStep(m, "messages", "total", 1);
  }

  /** What `track_message` evidently means to count: for every channel name, "total" and the
      empty name included, exactly one more message in `messages.total` and one more for the
      channel inside the `by_channel` dictionary, and nothing else changes. */
  function MessageCountedByChannel(m: Metrics, channel: string): (r: Metrics)
    requires WellShaped(m)
    ensures var was := m.messages["by_channel"].entries;
            && WellShaped(r)
            && CountOf(r, "messages", "total") == Some(CountOf(m, "messages", "total").value + 1)
            && Entry(r, "messages", "by_channel") == Some(Table(was[channel := (if channel in was then was[channel] else 0) + 1]))
            && (forall c, k :: (c, k) != ("messages", "total") && (c, k) != ("messages", "by_channel") ==> Entry(r, c, k) == Entry(m, c, k))
  {
    var byChannel := m.messages["by_channel"].entries;
    var n := if channel in byChannel then byChannel[channel] else 0;
    m.(messages := m.messages["total" := Count(m.messages["total"].n + 1)]
                             ["by_channel" := Table(byChannel[channel := n + 1])])
  }

  /** `track_error` adds one to `errors.total` and one to the counter named after the error type
      (beside `total`, not inside `by_type`, which stays as it was); every other counter stays as
      it was. */
  lemma TrackErrorCounts(m: Metrics, errorType: string)
    requires WellShaped(m)
    requires errorType != "" && errorType != "total" && errorType != "by_type"
    ensures var r := Tracked(m, "errors", "by_type", errorType);
            && CountOf(r, "errors", "total") == Some(CountOf(m, "errors", "total").value + 1)
            && CountOf(r, "errors", errorType) == Some(match CountOf(m, "errors", errorType) case Some(n) => n + 1 case None => 1)
            && Entry(r, "errors", "by_type") == Entry(m, "errors", "by_type")
            && (forall c, k :: (c, k) != ("errors", "total") && (c, k) != ("errors", errorType) ==> Entry(r, c, k) == Entry(m, c, k))
  {
    TotalThenSubcategory(m, "errors", "by_type", errorType);
  }

  /** As written, an error whose type is named "total" adds two to `errors.total`. */
  lemma TrackErrorTotalType(m: Metrics)
    requires WellShaped(m)
    ensures CountOf(Tracked(m, "errors", "by_type", "total"), "errors", "total") == Some(CountOf(m, "errors", "total").value + 2)
  {
    var m1 := Step(m, "errors", "total", 1, None);
    NamedCounterStep(m, "errors", "total", 1);
    IncrementedCounts(m1, "errors", "by_type", 1, Some("total"));
  }

  /** As written, the empty error type and the type named "by_type" make the second increment
      raise `TypeError`, after `errors.total` has already been counted. */
  lemma TrackErrorRejects(m: Metrics, errorType: string)
    requires WellShaped(m)
    requires errorType == "" || errorType == "by_type"
    ensures var m1 := Step(m, "errors", "total", 1, None);
            && Outcome(m1, "errors", "by_type", 1, Some(errorType)) == Err(TypeError)
            && CountOf(Tracked(m, "errors", "by_type", errorType), "errors", "total") == Some(CountOf(m, "errors", "total").value + 1)
  {
    NamedCounterStep(m, "errors", "total", 1);
  }

  /** What `track_error` evidently means to count: for every type name, "total" included,
      exactly one more error in `errors.total` and one more for the type inside the `by_type`
      dictionary, and nothing else changes. */
  function ErrorCountedByType(m: Metrics, errorType: string): (r: Metrics)
    requires WellShaped(m)
    ensures var was := m.errors["by_type"].entries;
            && WellShaped(r)
            && CountOf(r, "errors", "total") == Some(CountOf(m, "errors", "total").value + 1)
            && Entry(r, "errors", "by_type") == Some(Table(was[errorType := (if errorType in was then was[errorType] else 0) + 1]))
            && (forall c, k :: (c, k) != ("errors", "total") && (c, k) != ("errors", "by_type") ==> Entry(r, c, k) == Entry(m, c, k))
  {
    var byType := m.errors["by_type"].entries;
    var n := if errorType in byType then byType[errorType] else 0;
    m.(errors := m.errors["total" := Count(m.errors["total"].n + 1)]
                         ["by_type" := Table(byType[errorType := n + 1])])
  }

  /** `len(cart_data.get("items", []))`: the number of items in the cart data, zero without any. */
  function ItemCount(items: Option<seq<CartStore.ItemDict>>): (r: nat)
    ensures r == 0 <==> items.None? || items.value == []
  {
    match items
    case Some(s) => |s|
    case None => 0
  }

  class MetricsCollector {
    var metrics: Metrics

    constructor()
      ensures metrics == InitialMetrics
    {
      metrics := InitialMetrics;
    }

    /** `increment_metric`: the counters change as `Incremented` says, or stay as they were when
        it raises. */
    method IncrementMetric(category: string, metric: string, value: int, subcategory: Option<string>)
      returns (outcome: Result<(), MetricError>)
      modifies this
      ensures metrics == Step(old(metrics), category, metric, value, subcategory)
      ensures outcome == Outcome(old(metrics), category, metric, value, subcategory)
    {
      var found := CategoryOf(metrics, category);
      if found.None? {
        return Ok(());
      }
      var cat := found.value;
      if subcategory.Some? && subcategory.value != "" {
        var key := subcategory.value;
        if key !in cat {
          cat := cat[key := Count(0)];
        }
        match cat[key]
        case Count(n) =>
          assert cat[key := Count(n + value)] == found.value[key := Count(n + value)];
          metrics := WithCategory(metrics, category, cat[key := Count(n + value)]);
          return Ok(());
        case Table(_) =>
          return Err(TypeError);
      } else {
        if metric !in cat {
          return Err(KeyError(metric));
        }
        match cat[metric]
        case Count(n) =>
          metrics := WithCategory(metrics, category, cat[metric := Count(n + value)]);
          return Ok(());
        case Table(_) =>
          return Err(TypeError);
      }
    }

    /** `get_metrics`: the counters as they stand. */
    method GetMetrics() returns (r: Metrics)
      ensures r == metrics
    {
      return metrics;
    }
  }

  class AnalyticsManager {
    const metrics: MetricsCollector

    constructor()
      ensures fresh(metrics) && metrics.metrics == InitialMetrics
    {
      metrics := new MetricsCollector();
    }

    /** `track_message`: one more message in total, then one more under the channel's name; the
        first exception raised reaches the caller and ends the call. */
    method TrackMessage(userId: string, message: string, channel: string, isIncoming: bool)
      returns (outcome: Result<(), MetricError>)
      modifies metrics
      ensures metrics.metrics == Tracked(old(metrics.metrics), "messages", "by_channel", channel)
      ensures outcome == TrackedOutcome(old(metrics.metrics), "messages", "by_channel", channel)
    {
      outcome := metrics.IncrementMetric("messages", "total", 1, None);
      if outcome.Err? {
        return;
      }
      outcome := metrics.IncrementMetric("messages", "by_channel", 1, Some(channel));
    }

    /** `track_product_view`: one more product view; the exception the increment raises (a
        missing counter) reaches the caller. On well-shaped counters it never raises. */
    method TrackProductView(userId: string, productId: string, channel: string)
      returns (outcome: Result<(), MetricError>)
      modifies metrics
      ensures metrics.metrics == Step(old(metrics.metrics), "products", "viewed", 1, None)
      ensures outcome == Outcome(old(metrics.metrics), "products", "viewed", 1, None)
      ensures WellShaped(old(metrics.metrics)) ==>
                && outcome == Ok(())
                && WellShaped(metrics.metrics)
                && CountOf(metrics.metrics, "products", "viewed") == Some(CountOf(old(metrics.metrics), "products", "viewed").value + 1)
    {
      if WellShaped(metrics.metrics) {
        NamedCounterStep(metrics.metrics, "products", "viewed", 1);
      }
      outcome := metrics.IncrementMetric("products", "viewed", 1, None);
    }

    /** `track_cart_update`: `added_to_cart` grows by the number of items in the cart data; the
        exception the increment raises reaches the caller. On well-shaped counters it never raises. */
    method TrackCartUpdate(userId: string, items: Option<seq<CartStore.ItemDict>>, channel: string)
      returns (outcome: Result<(), MetricError>)
      modifies metrics
      ensures metrics.metrics == Step(old(metrics.metrics), "products", "added_to_cart", ItemCount(items), None)
      ensures outcome == Outcome(old(metrics.metrics), "products", "added_to_cart", ItemCount(items), None)
      ensures WellShaped(old(metrics.metrics)) ==>
                && outcome == Ok(())
                && WellShaped(metrics.metrics)
                && CountOf(metrics.metrics, "products", "added_to_cart") == Some(CountOf(old(metrics.metrics), "products", "added_to_cart").value + ItemCount(items))
    {
      if WellShaped(metrics.metrics) {
        NamedCounterStep(metrics.metrics, "products", "added_to_cart", ItemCount(items));
      }
      outcome := metrics.IncrementMetric("products", "added_to_cart", ItemCount(items), None);
    }

    /** `track_checkout`: one more order started; the exception the increment raises reaches the
        caller. On well-shaped counters it never raises. */
    method TrackCheckout(userId: string, orderId: string, channel: string)
      returns (outcome: Result<(), MetricError>)
      modifies metrics
      ensures metrics.metrics == Step(old(metrics.metrics), "orders", "started", 1, None)
      ensures outcome == Outcome(old(metrics.metrics), "orders", "started", 1, None)
      ensures WellShaped(old(metrics.metrics)) ==>
                && outcome == Ok(())
                && WellShaped(metrics.metrics)
                && CountOf(metrics.metrics, "orders", "started") == Some(CountOf(old(metrics.metrics), "orders", "started").value + 1)
    {
      if WellShaped(metrics.metrics) {
        NamedCounterStep(metrics.metrics, "orders", "started", 1);
      }
      outcome := metrics.IncrementMetric("orders", "started", 1, None);
    }

    /** `track_order_completion`: one more order completed; the exception the increment raises
        reaches the caller. On well-shaped counters it never raises. */
    method TrackOrderCompletion(userId: string, orderId: string, channel: string)
      returns (outcome: Result<(), MetricError>)
      modifies metrics
      ensures metrics.metrics == Step(old(metrics.metrics), "orders", "completed", 1, None)
      ensures outcome == Outcome(old(metrics.metrics), "orders", "completed", 1, None)
      ensures WellShaped(old(metrics.metrics)) ==>
                && outcome == Ok(())
                && WellShaped(metrics.metrics)
                && CountOf(metrics.metrics, "orders", "completed") == Some(CountOf(old(metrics.metrics), "orders", "completed").value + 1)
    {
      if WellShaped(metrics.metrics) {
        NamedCounterStep(metrics.metrics, "orders", "completed", 1);
      }
      outcome := metrics.IncrementMetric("orders", "completed", 1, None);
    }

    /** `track_error`: one more error in total, then one more under the error type's name; the
        first exception raised reaches the caller and ends the call. */
    method TrackError(errorType: string, userId: Option<string>)
      returns (outcome: Result<(), MetricError>)
      modifies metrics
      ensures metrics.metrics == Tracked(old(metrics.metrics), "errors", "by_type", errorType)
      ensures outcome == TrackedOutcome(old(metrics.metrics), "errors", "by_type", errorType)
    {
      outcome := metrics.IncrementMetric("errors", "total", 1, None);
      if outcome.Err? {
        return;
      }
      outcome := metrics.IncrementMetric("errors", "by_type", 1, Some(errorType));
    }

    /** `get_metrics`: the collector's counters. */
    method GetMetrics() returns (r: Metrics)
      ensures r == metrics.metrics
    {
      r := metrics.GetMetrics();
    }
  }
}
