/** The daily forecast aggregation of the dashboard: one pass over the 3-hourly
    forecast list groups the samples by day label in an insertion-ordered
    dictionary, keeping the day's highest high, lowest low and the condition of
    the day's first sample, and the first five days in order of appearance are
    rendered. */
module Forecast {
  import Icons

  /** The label that groups samples into days. The dashboard uses the short
      weekday name of the timestamp in the browser's time zone; here it is an
      arbitrary function `dayOf` of the timestamp, passed to every member. */
  type DayKey = string

  /** One entry of the forecast list: timestamp in seconds, the entry's high and
      low, and the icon code and description of its first weather condition. */
  datatype Sample = Sample(dt: int, tempMax: real, tempMin: real, icon: string, description: string)

  /** The accumulator kept per day while the list is scanned. */
  datatype Day = Day(tempMax: real, tempMin: real, icon: string, description: string)

  /** One rendered forecast item: the day label, the name of the drawing
      shown for the day's icon code, and the high and low. The description is
      kept in the dictionary but not shown. */
  datatype DaySummary = DaySummary(day: DayKey, drawing: string, tempMax: real, tempMin: real)

  /** An insertion-ordered dictionary: the keys in the order they were first
      inserted, and the entry of each key. */
  datatype Table = Table(keys: seq<DayKey>, days: map<DayKey, Day>)

  /** How many days are shown. */
  const ShownDays: nat := 5

  predicate Distinct(keys: seq<DayKey>)
  {
    forall p, q :: 0 <= p < q < |keys| ==> keys[p] != keys[q]
  }

  /** Every key is listed exactly once, and the listed keys are the entries. */
  ghost predicate Valid(t: Table)
  {
    Distinct(t.keys) && forall k :: k in t.days <==> k in t.keys
  }

  /** A later sample of the same day raises the high and lowers the low and
      leaves the condition alone. */
  function Widen(d: Day, s: Sample): (e: Day)
    ensures e.tempMax >= d.tempMax && e.tempMax >= s.tempMax
    ensures e.tempMax == d.tempMax || e.tempMax == s.tempMax
    ensures e.tempMin <= d.tempMin && e.tempMin <= s.tempMin
    ensures e.tempMin == d.tempMin || e.tempMin == s.tempMin
    ensures e.icon == d.icon && e.description == d.description
  {
    Day(if s.tempMax > d.tempMax then s.tempMax else d.tempMax,
        if s.tempMin < d.tempMin then s.tempMin else d.tempMin,
        d.icon, d.description)
  }

  /** One step of the scan: a day seen for the first time is appended to the
      dictionary, a known day has its entry widened in place. */
  function Add(t: Table, k: DayKey, s: Sample): (u: Table)
    requires Valid(t)
    ensures Valid(u)
    ensures k in u.days
  {
    if k in t.days then Table(t.keys, t.days[k := Widen(t.days[k], s)])
    else Table(t.keys + [k], t.days[k := Day(s.tempMax, s.tempMin, s.icon, s.description)])
  }

  /** The dictionary after scanning all of `samples`, one step per sample in
      input order. */
  function Grouped(dayOf: int -> DayKey, samples: seq<Sample>): (t: Table)
    ensures Valid(t)
  {
    if samples == [] then Table([], map[])
    else
      var n := |samples| - 1;
      Add(Grouped(dayOf, samples[..n]), dayOf(samples[n].dt), samples[n])
  }

  /** One step of the scan, unfolded. */
  lemma GroupedStep(dayOf: int -> DayKey, samples: seq<Sample>, n: nat)
    requires 0 < n <= |samples|
    ensures Grouped(dayOf, samples[..n])
         == Add(Grouped(dayOf, samples[..n - 1]), dayOf(samples[n - 1].dt), samples[n - 1])
  {
    assert samples[..n][..n - 1] == samples[..n - 1];
  }

  /** The rendered item of day `k`: its label, the drawing its icon code
      selects, and its high and low. */
  function Summarize(k: DayKey, d: Day): (r: DaySummary)
    ensures r.day == k && r.tempMax == d.tempMax && r.tempMin == d.tempMin
    ensures r.drawing in Icons.IconNames
    ensures d.icon in Icons.WeatherIcons ==> r.drawing == Icons.WeatherIcons[d.icon]
    ensures d.icon !in Icons.WeatherIcons ==> r.drawing == "cloud"
  {
    Icons.IconForTotal(d.icon);
    DaySummary(k, Icons.IconFor(d.icon), d.tempMax, d.tempMin)
  }

  /** The first five entries of a dictionary, in insertion order. */
  function FirstDays(t: Table): (r: seq<DaySummary>)
    requires Valid(t)
    ensures |r| == if |t.keys| <= ShownDays then |t.keys| else ShownDays
    ensures forall p :: 0 <= p < |r| ==>
      t.keys[p] in t.days && r[p] == Summarize(t.keys[p], t.days[t.keys[p]])
  {
    var shown := if |t.keys| <= ShownDays then t.keys else t.keys[..ShownDays];
    seq(|shown|, p requires 0 <= p < |shown| => Summarize(shown[p], t.days[shown[p]]))
  }

  /** The rendered forecast. */
  function DailyForecast(dayOf: int -> DayKey, samples: seq<Sample>): (r: seq<DaySummary>)
    ensures |r| <= ShownDays
    ensures samples == [] ==> r == []
  {
    FirstDays(Grouped(dayOf, samples))
  }

  // ---------------------------------------------------------------------------
  // The scan as the page runs it

  /** The grouping pass: one step per sample, creating the day's entry or
      widening it in place. */
  method GroupByDay(dayOf: int -> DayKey, samples: seq<Sample>) returns (keys: seq<DayKey>, days: map<DayKey, Day>)
    ensures Table(keys, days) == Grouped(dayOf, samples)
  {
    keys, days := [], map[];
    var i := 0;
    while i < |samples|
      invariant 0 <= i <= |samples|
      invariant Table(keys, days) == Grouped(dayOf, samples[..i])
    {
      ghost var before := Table(keys, days);
      var item := samples[i];
      var day := dayOf(item.dt);
      if day !in days {
        days := days[day := Day(item.tempMax, item.tempMin, item.icon, item.description)];
        keys := keys + [day];
      } else {
        var entry := days[day];
        if item.tempMax > entry.tempMax {
          entry := entry.(tempMax := item.tempMax);
        }
        if item.tempMin < entry.tempMin {
          entry := entry.(tempMin := item.tempMin);
        }
        assert entry == Widen(before.days[day], item);
        days := days[day := entry];
      }
      assert Table(keys, days) == Add(before, dayOf(item.dt), item);
      GroupedStep(dayOf, samples, i + 1);
      i := i + 1;
    }
    assert samples[..i] == samples;
  }

  /** The rendering pass: the first five keys, each with its entry. */
  method ShowFirstDays(keys: seq<DayKey>, days: map<DayKey, Day>) returns (forecast: seq<DaySummary>)
    requires Valid(Table(keys, days))
    ensures forecast == FirstDays(Table(keys, days))
  {
    var shown := if |keys| <= ShownDays then keys else keys[..ShownDays];
    forecast := [];
    for p := 0 to |shown|
      invariant |forecast| == p
      invariant forall j :: 0 <= j < p ==> forecast[j] == Summarize(shown[j], days[shown[j]])
    {
      forecast := forecast + [Summarize(shown[p], days[shown[p]])];
    }
  }

  /** Groups the forecast list by day and renders the first five days. */
  method AggregateForecast(dayOf: int -> DayKey, samples: seq<Sample>) returns (forecast: seq<DaySummary>)
    ensures forecast == DailyForecast(dayOf, samples)
  {
    var keys, days := GroupByDay(dayOf, samples);
    forecast := ShowFirstDays(keys, days);
  }

  // ---------------------------------------------------------------------------
  // A reference description of the grouping, independent of the scan

  /** The distinct day keys of the input. */
  function KeySet(dayOf: int -> DayKey, samples: seq<Sample>): set<DayKey>
  {
    set i | 0 <= i < |samples| :: dayOf(samples[i].dt)
  }

  /** The position of the first sample of day `k`. */
  function FirstIndex(dayOf: int -> DayKey, samples: seq<Sample>, k: DayKey): (i: nat)
    requires k in KeySet(dayOf, samples)
    ensures i < |samples| && dayOf(samples[i].dt) == k
    ensures forall j :: 0 <= j < i ==> dayOf(samples[j].dt) != k
    decreases |samples|
  {
    var w :| 0 <= w < |samples| && dayOf(samples[w].dt) == k;
    if dayOf(samples[0].dt) == k then 0
    else
      assert samples[1..][w - 1] == samples[w];
      1 + FirstIndex(dayOf, samples[1..], k)
  }

  // ---------------------------------------------------------------------------
  // Facts about prefixes

  lemma KeySetSnoc(dayOf: int -> DayKey, samples: seq<Sample>)
    requires samples != []
    ensures KeySet(dayOf, samples)
         == KeySet(dayOf, samples[..|samples| - 1]) + {dayOf(samples[|samples| - 1].dt)}
  {
    var n := |samples| - 1;
    forall k | k in KeySet(dayOf, samples)
      ensures k in KeySet(dayOf, samples[..n]) + {dayOf(samples[n].dt)}
    {
      var i :| 0 <= i < |samples| && dayOf(samples[i].dt) == k;
      if i < n {
        assert samples[..n][i] == samples[i];
      }
    }
    forall k | k in KeySet(dayOf, samples[..n])
      ensures k in KeySet(dayOf, samples)
    {
      var i :| 0 <= i < n && dayOf(samples[..n][i].dt) == k;
      assert samples[i] == samples[..n][i];
    }
  }

  /** A day already present in a prefix has its first sample inside that
      prefix. */
  lemma FirstIndexInPrefix(dayOf: int -> DayKey, samples: seq<Sample>, n: nat, k: DayKey)
    requires n <= |samples| && k in KeySet(dayOf, samples[..n])
    ensures k in KeySet(dayOf, samples)
    ensures FirstIndex(dayOf, samples, k) == FirstIndex(dayOf, samples[..n], k)
  {
    var i := FirstIndex(dayOf, samples[..n], k);
    assert samples[i] == samples[..n][i];
    assert k in KeySet(dayOf, samples);
    var f := FirstIndex(dayOf, samples, k);
    assert f <= i;
    assert samples[..n][f] == samples[f];
  }

  /** A day that first appears at the last sample starts there. */
  lemma FirstIndexOfNewDay(dayOf: int -> DayKey, samples: seq<Sample>)
    requires samples != []
    requires dayOf(samples[|samples| - 1].dt) !in KeySet(dayOf, samples[..|samples| - 1])
    ensures dayOf(samples[|samples| - 1].dt) in KeySet(dayOf, samples)
    ensures FirstIndex(dayOf, samples, dayOf(samples[|samples| - 1].dt)) == |samples| - 1
  {
    var n := |samples| - 1;
    var k := dayOf(samples[n].dt);
    assert k in KeySet(dayOf, samples);
    forall j | 0 <= j < n
      ensures dayOf(samples[j].dt) != k
    {
      assert samples[..n][j] == samples[j];
    }
  }

  lemma {:induction false} DistinctCardinality(keys: seq<DayKey>)
    requires Distinct(keys)
    ensures |(set k | k in keys)| == |keys|
  {
    if keys != [] {
      var n := |keys| - 1;
      assert Distinct(keys[..n]);
      DistinctCardinality(keys[..n]);
      assert (set k | k in keys) == (set k | k in keys[..n]) + {keys[n]};
    }
  }

  // ---------------------------------------------------------------------------
  // What the scan computes

  /** The dictionary holds one entry per distinct day of the input, and no
      other. */
  lemma {:induction false} GroupedKeys(dayOf: int -> DayKey, samples: seq<Sample>)
    ensures Grouped(dayOf, samples).days.Keys == KeySet(dayOf, samples)
  {
    if samples != [] {
      var n := |samples| - 1;
      GroupedKeys(dayOf, samples[..n]);
      KeySetSnoc(dayOf, samples);
    }
  }

  /** Every sample is covered by its own day's entry: the entry's high is at
      least the sample's high and its low at most the sample's low. */
  lemma {:induction false} GroupedBounds(dayOf: int -> DayKey, samples: seq<Sample>)
    ensures forall i :: 0 <= i < |samples| ==>
      dayOf(samples[i].dt) in Grouped(dayOf, samples).days &&
      samples[i].tempMax <= Grouped(dayOf, samples).days[dayOf(samples[i].dt)].tempMax &&
      Grouped(dayOf, samples).days[dayOf(samples[i].dt)].tempMin <= samples[i].tempMin
  {
    if samples != [] {
      var n := |samples| - 1;
      var prefix := samples[..n];
      GroupedBounds(dayOf, prefix);
      var t, u := Grouped(dayOf, prefix), Grouped(dayOf, samples);
      forall i | 0 <= i < |samples|
        ensures dayOf(samples[i].dt) in u.days
        ensures samples[i].tempMax <= u.days[dayOf(samples[i].dt)].tempMax
        ensures u.days[dayOf(samples[i].dt)].tempMin <= samples[i].tempMin
      {
        if i < n {
          assert prefix[i] == samples[i];
        }
      }
    }
  }

  /** The high of every grouped day is the high of one of its samples. */
  lemma {:induction false} GroupedMaxAttained(dayOf: int -> DayKey, samples: seq<Sample>)
    ensures forall k :: k in Grouped(dayOf, samples).days ==>
      exists i :: 0 <= i < |samples| && dayOf(samples[i].dt) == k &&
        Grouped(dayOf, samples).days[k].tempMax == samples[i].tempMax
  {
    if samples != [] {
      var n := |samples| - 1;
      var prefix := samples[..n];
      GroupedMaxAttained(dayOf, prefix);
      var t, u := Grouped(dayOf, prefix), Grouped(dayOf, samples);
      forall k | k in u.days
        ensures exists i :: 0 <= i < |samples| && dayOf(samples[i].dt) == k && u.days[k].tempMax == samples[i].tempMax
      {
        if k in t.days {
          var a :| 0 <= a < n && dayOf(prefix[a].dt) == k && t.days[k].tempMax == prefix[a].tempMax;
          assert prefix[a] == samples[a];
          if u.days[k].tempMax != t.days[k].tempMax {
            assert u.days[k].tempMax == samples[n].tempMax;
          }
        } else {
          assert dayOf(samples[n].dt) == k;
        }
      }
    }
  }

  /** The low of every grouped day is the low of one of its samples. */
  lemma {:induction false} GroupedMinAttained(dayOf: int -> DayKey, samples: seq<Sample>)
    ensures forall k :: k in Grouped(dayOf, samples).days ==>
      exists i :: 0 <= i < |samples| && dayOf(samples[i].dt) == k &&
        Grouped(dayOf, samples).days[k].tempMin == samples[i].tempMin
  {
    if samples != [] {
      var n := |samples| - 1;
      var prefix := samples[..n];
      GroupedMinAttained(dayOf, prefix);
      var t, u := Grouped(dayOf, prefix), Grouped(dayOf, samples);
      forall k | k in u.days
        ensures exists i :: 0 <= i < |samples| && dayOf(samples[i].dt) == k && u.days[k].tempMin == samples[i].tempMin
      {
        if k in t.days {
          var b :| 0 <= b < n && dayOf(prefix[b].dt) == k && t.days[k].tempMin == prefix[b].tempMin;
          assert prefix[b] == samples[b];
          if u.days[k].tempMin != t.days[k].tempMin {
            assert u.days[k].tempMin == samples[n].tempMin;
          }
        } else {
          assert dayOf(samples[n].dt) == k;
        }
      }
    }
  }

  /** Each entry's icon and description are those of the day's first sample:
      later samples of the same day never change them. */
  lemma {:induction false} GroupedCondition(dayOf: int -> DayKey, samples: seq<Sample>)
    ensures forall k :: k in Grouped(dayOf, samples).days ==>
      k in KeySet(dayOf, samples) &&
      Grouped(dayOf, samples).days[k].icon == samples[FirstIndex(dayOf, samples, k)].icon &&
      Grouped(dayOf, samples).days[k].description == samples[FirstIndex(dayOf, samples, k)].description
  {
    GroupedKeys(dayOf, samples);
    if samples != [] {
      var n := |samples| - 1;
      var prefix := samples[..n];
      GroupedCondition(dayOf, prefix);
      GroupedKeys(dayOf, prefix);
      var t, u := Grouped(dayOf, prefix), Grouped(dayOf, samples);
      forall k | k in u.days
        ensures u.days[k].icon == samples[FirstIndex(dayOf, samples, k)].icon
        ensures u.days[k].description == samples[FirstIndex(dayOf, samples, k)].description
      {
        if k in t.days {
          FirstIndexInPrefix(dayOf, samples, n, k);
          var f := FirstIndex(dayOf, prefix, k);
          assert prefix[f] == samples[f];
        } else {
          FirstIndexOfNewDay(dayOf, samples);
        }
      }
    }
  }

  /** The dictionary lists the days in the order of their first samples. */
  lemma {:induction false} GroupedOrder(dayOf: int -> DayKey, samples: seq<Sample>)
    ensures Grouped(dayOf, samples).days.Keys == KeySet(dayOf, samples)
    ensures forall p, q :: 0 <= p < q < |Grouped(dayOf, samples).keys| ==>
      FirstIndex(dayOf, samples, Grouped(dayOf, samples).keys[p])
        < FirstIndex(dayOf, samples, Grouped(dayOf, samples).keys[q])
  {
    GroupedKeys(dayOf, samples);
    if samples != [] {
      var n := |samples| - 1;
      var prefix := samples[..n];
      GroupedOrder(dayOf, prefix);
      GroupedKeys(dayOf, prefix);
      var t, u := Grouped(dayOf, prefix), Grouped(dayOf, samples);
      var k := dayOf(samples[n].dt);
      assert u == Add(t, k, samples[n]);
      forall p | 0 <= p < |t.keys|
        ensures u.keys[p] == t.keys[p] && t.keys[p] in KeySet(dayOf, samples)
        ensures FirstIndex(dayOf, samples, t.keys[p]) == FirstIndex(dayOf, prefix, t.keys[p]) < n
      {
        assert t.keys[p] in t.days;
        FirstIndexInPrefix(dayOf, samples, n, t.keys[p]);
      }
      if k !in t.days {
        FirstIndexOfNewDay(dayOf, samples);
        assert u.keys[|t.keys|] == k;
      }
    }
  }

  // ---------------------------------------------------------------------------
  // What is rendered

  /** At most five days are rendered, fewer only when the input has fewer
      distinct days; an empty list renders nothing. */
  lemma DailyForecastLength(dayOf: int -> DayKey, samples: seq<Sample>)
    ensures |DailyForecast(dayOf, samples)|
         == if |KeySet(dayOf, samples)| <= ShownDays then |KeySet(dayOf, samples)| else ShownDays
    ensures samples == [] ==> DailyForecast(dayOf, samples) == []
  {
    var t := Grouped(dayOf, samples);
    GroupedKeys(dayOf, samples);
    assert t.days.Keys == (set k | k in t.keys);
    DistinctCardinality(t.keys);
  }

  /** Each rendered day is a day of the input, and its drawing is the one the
      icon code of the day's first sample selects. */
  lemma DailyForecastCondition(dayOf: int -> DayKey, samples: seq<Sample>)
    ensures forall p :: 0 <= p < |DailyForecast(dayOf, samples)| ==>
      DailyForecast(dayOf, samples)[p].day in KeySet(dayOf, samples) &&
      DailyForecast(dayOf, samples)[p].drawing
        == Icons.IconFor(samples[FirstIndex(dayOf, samples, DailyForecast(dayOf, samples)[p].day)].icon)
  {
    var t, r := Grouped(dayOf, samples), DailyForecast(dayOf, samples);
    GroupedCondition(dayOf, samples);
    forall p | 0 <= p < |r|
      ensures r[p].day in KeySet(dayOf, samples)
      ensures r[p].drawing == Icons.IconFor(samples[FirstIndex(dayOf, samples, r[p].day)].icon)
    {
      assert r[p].day == t.keys[p] && t.keys[p] in t.days;
    }
  }

  /** Each rendered high is at least the high of every sample of that day and
      each rendered low at most every such low. */
  lemma DailyForecastBounds(dayOf: int -> DayKey, samples: seq<Sample>)
    ensures forall p, i ::
      (0 <= p < |DailyForecast(dayOf, samples)| && 0 <= i < |samples| &&
       dayOf(samples[i].dt) == DailyForecast(dayOf, samples)[p].day) ==>
      samples[i].tempMax <= DailyForecast(dayOf, samples)[p].tempMax &&
      DailyForecast(dayOf, samples)[p].tempMin <= samples[i].tempMin
  {
    var t, r := Grouped(dayOf, samples), DailyForecast(dayOf, samples);
    GroupedBounds(dayOf, samples);
    forall p, i | 0 <= p < |r| && 0 <= i < |samples| && dayOf(samples[i].dt) == r[p].day
      ensures samples[i].tempMax <= r[p].tempMax && r[p].tempMin <= samples[i].tempMin
    {
      assert r[p] == Summarize(t.keys[p], t.days[t.keys[p]]);
    }
  }

  /** Each rendered high is the high of some sample of that day, and each
      rendered low the low of some sample of that day. */
  lemma DailyForecastAttained(dayOf: int -> DayKey, samples: seq<Sample>)
    ensures forall p :: 0 <= p < |DailyForecast(dayOf, samples)| ==>
      exists i :: 0 <= i < |samples| && dayOf(samples[i].dt) == DailyForecast(dayOf, samples)[p].day &&
        samples[i].tempMax == DailyForecast(dayOf, samples)[p].tempMax
    ensures forall p :: 0 <= p < |DailyForecast(dayOf, samples)| ==>
      exists i :: 0 <= i < |samples| && dayOf(samples[i].dt) == DailyForecast(dayOf, samples)[p].day &&
        samples[i].tempMin == DailyForecast(dayOf, samples)[p].tempMin
  {
    var t, r := Grouped(dayOf, samples), DailyForecast(dayOf, samples);
    GroupedMaxAttained(dayOf, samples);
    GroupedMinAttained(dayOf, samples);
    forall p | 0 <= p < |r|
      ensures exists i :: 0 <= i < |samples| && dayOf(samples[i].dt) == r[p].day && samples[i].tempMax == r[p].tempMax
      ensures exists i :: 0 <= i < |samples| && dayOf(samples[i].dt) == r[p].day && samples[i].tempMin == r[p].tempMin
    {
      assert r[p] == Summarize(t.keys[p], t.days[t.keys[p]]);
    }
  }

  /** The rendered days come in the order of their first samples. */
  lemma DailyForecastOrder(dayOf: int -> DayKey, samples: seq<Sample>)
    ensures forall p :: 0 <= p < |DailyForecast(dayOf, samples)| ==>
      DailyForecast(dayOf, samples)[p].day in KeySet(dayOf, samples)
    ensures forall p, q :: 0 <= p < q < |DailyForecast(dayOf, samples)| ==>
      FirstIndex(dayOf, samples, DailyForecast(dayOf, samples)[p].day)
        < FirstIndex(dayOf, samples, DailyForecast(dayOf, samples)[q].day)
  {
    var t, r := Grouped(dayOf, samples), DailyForecast(dayOf, samples);
    GroupedOrder(dayOf, samples);
    assert forall p :: 0 <= p < |r| ==> r[p].day == t.keys[p];
  }

  /** GroupedOrder for two given positions. */
  lemma GroupedOrderAt(dayOf: int -> DayKey, samples: seq<Sample>, a: nat, b: nat)
    requires a < |Grouped(dayOf, samples).keys| && b < |Grouped(dayOf, samples).keys|
    ensures Grouped(dayOf, samples).keys[a] in KeySet(dayOf, samples)
    ensures Grouped(dayOf, samples).keys[b] in KeySet(dayOf, samples)
    ensures a < b ==>
      FirstIndex(dayOf, samples, Grouped(dayOf, samples).keys[a])
        < FirstIndex(dayOf, samples, Grouped(dayOf, samples).keys[b])
  {
    GroupedOrder(dayOf, samples);
  }

  /** A day whose first sample comes before that of the dictionary's `p`-th
      day is listed ahead of it. */
  lemma GroupedEarlierListed(dayOf: int -> DayKey, samples: seq<Sample>, p: nat, k: DayKey)
    requires p < |Grouped(dayOf, samples).keys|
    requires k in KeySet(dayOf, samples) && Grouped(dayOf, samples).keys[p] in KeySet(dayOf, samples)
    requires FirstIndex(dayOf, samples, k) < FirstIndex(dayOf, samples, Grouped(dayOf, samples).keys[p])
    ensures exists q :: 0 <= q < p && Grouped(dayOf, samples).keys[q] == k
  {
    var t := Grouped(dayOf, samples);
    assert k in t.keys by {
      GroupedKeys(dayOf, samples);
    }
    var q :| 0 <= q < |t.keys| && t.keys[q] == k;
    assert q < p by {
      GroupedOrderAt(dayOf, samples, p, q);
    }
  }

  /** No day is skipped: a day whose first sample comes before that of a
      rendered day is rendered too, ahead of it. */
  lemma DailyForecastNoneSkipped(dayOf: int -> DayKey, samples: seq<Sample>)
    ensures forall p :: 0 <= p < |DailyForecast(dayOf, samples)| ==>
      DailyForecast(dayOf, samples)[p].day in KeySet(dayOf, samples)
    ensures forall p, k ::
      (0 <= p < |DailyForecast(dayOf, samples)| && k in KeySet(dayOf, samples) &&
       FirstIndex(dayOf, samples, k) < FirstIndex(dayOf, samples, DailyForecast(dayOf, samples)[p].day)) ==>
      exists q :: 0 <= q < p && DailyForecast(dayOf, samples)[q].day == k
  {
    var t, r := Grouped(dayOf, samples), DailyForecast(dayOf, samples);
    GroupedKeys(dayOf, samples);
    assert forall p :: 0 <= p < |r| ==> r[p].day == t.keys[p] && t.keys[p] in t.days;
    forall p, k | 0 <= p < |r| && k in KeySet(dayOf, samples) &&
      FirstIndex(dayOf, samples, k) < FirstIndex(dayOf, samples, r[p].day)
      ensures exists q :: 0 <= q < p && r[q].day == k
    {
      GroupedEarlierListed(dayOf, samples, p, k);
      var q :| 0 <= q < p && t.keys[q] == k;
      assert r[q].day == k;
    }
  }

  /** When the input has at most five days, every one of them is rendered. */
  lemma DailyForecastAllShown(dayOf: int -> DayKey, samples: seq<Sample>)
    requires |KeySet(dayOf, samples)| <= ShownDays
    ensures forall k :: k in KeySet(dayOf, samples) ==>
      exists p :: 0 <= p < |DailyForecast(dayOf, samples)| && DailyForecast(dayOf, samples)[p].day == k
  {
    var t, r := Grouped(dayOf, samples), DailyForecast(dayOf, samples);
    GroupedKeys(dayOf, samples);
    assert t.days.Keys == (set k | k in t.keys);
    DistinctCardinality(t.keys);
    assert |r| == |t.keys|;
    forall k | k in KeySet(dayOf, samples)
      ensures exists p :: 0 <= p < |r| && r[p].day == k
    {
      assert k in t.days;
      var p :| 0 <= p < |t.keys| && t.keys[p] == k;
      assert r[p].day == k;
    }
  }
}
