/**
 * Device metrics and the name-keyed merge that a DDATA message applies to a
 * device's cached metric list.
 */
module Metrics {

  /** A decoded metric value (numbers are modelled as integers). */
  datatype Value = Null | Boolean(b: bool) | Number(n: int) | Text(s: string)

  /**
   * A metric: its `name` identifies it within one device, `value` is what a
   * DDATA updates, and `rest` stands for every other field (type, alias,
   * timestamp, properties, ...), carried along untouched.
   */
  datatype Metric = Metric(name: string, value: Value, rest: map<string, Value>)

  /** The set of metric names occurring in `ms`. */
  function Names(ms: seq<Metric>): set<string>
  {
    set i | 0 <= i < |ms| :: ms[i].name
  }

  /** Entry `i` is the first metric of `c` that carries its name. */
  predicate IsFirstOfName(c: seq<Metric>, i: int)
    requires 0 <= i < |c|
  {
    forall k :: 0 <= k < i ==> c[k].name != c[i].name
  }

  /** `r` has at least the length of `c`, and the names and other fields of `c` at `c`'s positions. */
  predicate KeepsShape(c: seq<Metric>, r: seq<Metric>)
  {
    |c| <= |r| && forall i :: 0 <= i < |c| ==> r[i].name == c[i].name && r[i].rest == c[i].rest
  }

  lemma FirstOfNameUnique(c: seq<Metric>, i: int, j: int)
    requires 0 <= i < |c| && 0 <= j < |c|
    requires IsFirstOfName(c, i) && IsFirstOfName(c, j) && c[i].name == c[j].name
    ensures i == j
  {
  }

  lemma FirstOfNameKept(c: seq<Metric>, r: seq<Metric>, i: int)
    requires KeepsShape(c, r) && 0 <= i < |c|
    ensures IsFirstOfName(c, i) <==> IsFirstOfName(r, i)
  {
    assert forall k :: 0 <= k <= i ==> r[k].name == c[k].name;
  }

  lemma NamesSnoc(ms: seq<Metric>, m: Metric)
    ensures Names(ms + [m]) == Names(ms) + {m.name}
  {
    var s := ms + [m];
    assert s[|ms|].name == m.name;
    forall n | n in Names(ms) ensures n in Names(s) {
      var i :| 0 <= i < |ms| && ms[i].name == n;
      assert s[i].name == n;
    }
  }

  lemma NamesOfPrefix(ms: seq<Metric>)
    requires |ms| > 0
    ensures Names(ms) == Names(ms[..|ms| - 1]) + {ms[|ms| - 1].name}
  {
    assert ms == ms[..|ms| - 1] + [ms[|ms| - 1]];
    NamesSnoc(ms[..|ms| - 1], ms[|ms| - 1]);
  }

  lemma NamesKept(c: seq<Metric>, r: seq<Metric>)
    requires KeepsShape(c, r)
    ensures Names(c) <= Names(r)
    ensures |c| == |r| ==> Names(c) == Names(r)
  {
    forall n | n in Names(c) ensures n in Names(r) {
      var i :| 0 <= i < |c| && c[i].name == n;
      assert r[i].name == n;
    }
    if |c| == |r| {
      forall n | n in Names(r) ensures n in Names(c) {
        var i :| 0 <= i < |r| && r[i].name == n;
        assert c[i].name == n;
      }
    }
  }

  /** The position of the first metric of `c` named `n`. */
  function FirstIndex(c: seq<Metric>, n: string): (r: nat)
    requires n in Names(c)
    ensures r < |c| && c[r].name == n && IsFirstOfName(c, r)
  {
    if c[0].name == n then 0
    else
      assert n in Names(c[1..]) by {
        var i :| 0 <= i < |c| && c[i].name == n;
        assert c[1..][i - 1].name == n;
      }
      1 + FirstIndex(c[1..], n)
  }

  /**
   * `cached.some(cm => cm.name === n && (cm.value = v, true))`: the value of
   * the first metric named `n` becomes `v`; nothing else changes, and nothing
   * changes at all when no metric is named `n`.
   */
  function SetFirst(c: seq<Metric>, n: string, v: Value): (r: seq<Metric>)
    ensures n !in Names(c) ==> r == c
    ensures n in Names(c) ==>
      var j := FirstIndex(c, n); r == c[j := c[j].(value := v)]
  {
    if c == [] then []
    else if c[0].name == n then [c[0].(value := v)] + c[1..]
    else
      assert n in Names(c) ==> n in Names(c[1..]) by {
        if n in Names(c) {
          var i :| 0 <= i < |c| && c[i].name == n;
          assert c[1..][i - 1].name == n;
        }
      }
      assert n !in Names(c) ==> n !in Names(c[1..]) by {
        if n in Names(c[1..]) {
          var i :| 0 <= i < |c[1..]| && c[1..][i].name == n;
          assert c[i + 1].name == n;
        }
      }
      [c[0]] + SetFirst(c[1..], n, v)
  }

  /** The body of the DDATA loop for one incoming metric: update by name, or append. */
  function MergeMetric(c: seq<Metric>, m: Metric): seq<Metric>
  {
    if m.name in Names(c) then SetFirst(c, m.name, m.value) else c + [m]
  }

  lemma MergeMetricShape(c: seq<Metric>, m: Metric)
    ensures var r := MergeMetric(c, m);
      && |r| == |c| + (if m.name in Names(c) then 0 else 1)
      && KeepsShape(c, r)
      && Names(r) == Names(c) + {m.name}
      && (m.name !in Names(c) ==> r[|c|] == m)
  {
    var r := MergeMetric(c, m);
    if m.name in Names(c) {
      NamesKept(c, r);
    } else {
      NamesSnoc(c, m);
    }
  }

  /** One merge step changes only the first metric named like `m`, and sets its value. */
  lemma MergeMetricValues(p: seq<Metric>, m: Metric)
    ensures var r := MergeMetric(p, m);
      && (forall i :: 0 <= i < |p| && !(IsFirstOfName(p, i) && p[i].name == m.name) ==> r[i] == p[i])
      && (forall i :: 0 <= i < |r| && IsFirstOfName(r, i) && r[i].name == m.name ==> r[i].value == m.value)
  {
    var r := MergeMetric(p, m);
    MergeMetricShape(p, m);
    if m.name in Names(p) {
      var j := FirstIndex(p, m.name);
      forall i | 0 <= i < |r| && IsFirstOfName(r, i) && r[i].name == m.name
        ensures i == j
      {
        FirstOfNameKept(p, r, i);
        FirstOfNameUnique(p, i, j);
      }
    } else {
      forall i | 0 <= i < |p| ensures r[i].name != m.name {
        assert p[i].name in Names(p);
      }
    }
  }

  /**
   * The whole DDATA merge: every incoming metric of `ms`, in order, merged
   * into the cached list `c`.  Cached metrics keep their positions, names
   * and other fields; whatever is added is added at the end and carries a
   * name that is new to the cache.
   */
  function MergeAll(c: seq<Metric>, ms: seq<Metric>): (r: seq<Metric>)
    ensures KeepsShape(c, r)
    ensures Names(r) == Names(c) + Names(ms)
    ensures forall i :: |c| <= i < |r| ==> r[i].name in Names(ms) - Names(c)
  {
    if ms == [] then c
    else
      var p := MergeAll(c, ms[..|ms| - 1]);
      var m := ms[|ms| - 1];
      MergeMetricShape(p, m);
      NamesOfPrefix(ms);
      MergeMetric(p, m)
  }

  /** The value of the last metric of `ms` named `n`: the one a DDATA leaves in the cache. */
  function LastValue(ms: seq<Metric>, n: string): Value
    requires n in Names(ms)
  {
    NamesOfPrefix(ms);
    if ms[|ms| - 1].name == n then ms[|ms| - 1].value else LastValue(ms[..|ms| - 1], n)
  }

  /**
   * A DDATA merge changes a cached metric only if it is the first one
   * carrying the name of some incoming metric.
   */
  lemma {:induction false} MergeAllUntouched(c: seq<Metric>, ms: seq<Metric>)
    ensures var r := MergeAll(c, ms);
      forall i :: 0 <= i < |c| && !(IsFirstOfName(c, i) && c[i].name in Names(ms)) ==> r[i] == c[i]
  {
    var r := MergeAll(c, ms);
    if ms != [] {
      var ms' := ms[..|ms| - 1];
      var m := ms[|ms| - 1];
      var p := MergeAll(c, ms');
      MergeAllUntouched(c, ms');
      MergeMetricValues(p, m);
      NamesOfPrefix(ms);
      forall i | 0 <= i < |c| && !(IsFirstOfName(c, i) && c[i].name in Names(ms))
        ensures r[i] == c[i]
      {
        FirstOfNameKept(c, p, i);
      }
    }
  }

  /**
   * In `r`, the first metric carrying any name of `ms` holds the value of
   * the last metric of `ms` with that name.
   */
  predicate HoldsLatest(r: seq<Metric>, ms: seq<Metric>)
  {
    forall i :: 0 <= i < |r| && IsFirstOfName(r, i) && r[i].name in Names(ms) ==>
      r[i].value == LastValue(ms, r[i].name)
  }

  /** Merging the last incoming metric completes the latest-value property for the whole list. */
  lemma LatestAfterStep(p: seq<Metric>, ms: seq<Metric>)
    requires |ms| > 0 && HoldsLatest(p, ms[..|ms| - 1])
    ensures HoldsLatest(MergeMetric(p, ms[|ms| - 1]), ms)
  {
    var m := ms[|ms| - 1];
    var r := MergeMetric(p, m);
    MergeMetricValues(p, m);
    MergeMetricShape(p, m);
    NamesOfPrefix(ms);
    forall i | 0 <= i < |r| && IsFirstOfName(r, i) && r[i].name in Names(ms)
      ensures r[i].value == LastValue(ms, r[i].name)
    {
      if r[i].name != m.name && i < |p| {
        FirstOfNameKept(p, r, i);
      }
    }
  }

  /**
   * After a DDATA merge, the first metric carrying any incoming name holds
   * the value of the LAST incoming metric of that name.
   */
  lemma {:induction false} MergeAllLatest(c: seq<Metric>, ms: seq<Metric>)
    ensures HoldsLatest(MergeAll(c, ms), ms)
  {
    if ms == [] {
      assert Names(ms) == {};
    } else {
      MergeAllLatest(c, ms[..|ms| - 1]);
      LatestAfterStep(MergeAll(c, ms[..|ms| - 1]), ms);
    }
  }

  /**
   * The incoming metrics a DDATA merge appends to the cached list `c`: the
   * first incoming metric of each name that is not cached, in the order the
   * names first occur in `ms`.
   */
  function FirstNew(c: seq<Metric>, ms: seq<Metric>): (a: seq<Metric>)
    ensures forall i :: 0 <= i < |a| ==> a[i].name in Names(ms) && a[i].name !in Names(c)
    ensures forall i, j :: 0 <= i < j < |a| ==> a[i].name != a[j].name
  {
    if ms == [] then []
    else
      var ms' := ms[..|ms| - 1];
      var m := ms[|ms| - 1];
      NamesOfPrefix(ms);
      var a' := FirstNew(c, ms');
      if m.name in Names(c) || m.name in Names(ms') then a'
      else
        assert forall i :: 0 <= i < |a'| ==> a'[i].name != m.name;
        a' + [m]
  }

  /** The merge appends exactly `FirstNew(c, ms)`, keeping each appended metric's name and other fields. */
  lemma {:induction false} MergeAllAppendsShape(c: seq<Metric>, ms: seq<Metric>)
    ensures var r, a := MergeAll(c, ms), FirstNew(c, ms);
      && |r| == |c| + |a|
      && forall i :: 0 <= i < |a| ==> r[|c| + i].name == a[i].name && r[|c| + i].rest == a[i].rest
  {
    if ms != [] {
      var ms' := ms[..|ms| - 1];
      var m := ms[|ms| - 1];
      var p, a' := MergeAll(c, ms'), FirstNew(c, ms');
      MergeAllAppendsShape(c, ms');
      MergeMetricShape(p, m);
      NamesOfPrefix(ms);
      assert MergeAll(c, ms) == MergeMetric(p, m);
      assert m.name in Names(p) <==> m.name in Names(c) || m.name in Names(ms');
    }
  }

  /**
   * The metrics a DDATA merge appends are the first incoming metric of each
   * new name, in first-occurrence order, each holding the value of the LAST
   * incoming metric of its name.
   */
  lemma MergeAllAppends(c: seq<Metric>, ms: seq<Metric>)
    ensures var r, a := MergeAll(c, ms), FirstNew(c, ms);
      && |r| == |c| + |a|
      && forall i :: 0 <= i < |a| ==> r[|c| + i] == a[i].(value := LastValue(ms, a[i].name))
  {
    var r, a := MergeAll(c, ms), FirstNew(c, ms);
    MergeAllAppendsShape(c, ms);
    MergeAllLatest(c, ms);
    forall i | 0 <= i < |a| ensures r[|c| + i] == a[i].(value := LastValue(ms, a[i].name)) {
      forall k | 0 <= k < |c| + i ensures r[k].name != r[|c| + i].name {
        if k < |c| {
          assert c[k].name in Names(c);
        } else {
          assert r[k].name == a[k - |c|].name;
        }
      }
      assert IsFirstOfName(r, |c| + i);
    }
  }

  /** One more incoming name adds one new name exactly when it was neither cached nor seen. */
  lemma NewNamesStep(cachedNames: set<string>, earlier: set<string>, n: string)
    ensures |(earlier + {n}) - cachedNames| == |earlier - cachedNames| + (if n in cachedNames + earlier then 0 else 1)
  {
    if n !in cachedNames + earlier {
      assert (earlier + {n}) - cachedNames == (earlier - cachedNames) + {n};
    } else {
      assert (earlier + {n}) - cachedNames == earlier - cachedNames;
    }
  }

  /**
   * The cached list grows by exactly the number of distinct incoming names
   * that were not cached before (one warning is logged for each of them).
   */
  lemma {:induction false} MergeAllLength(c: seq<Metric>, ms: seq<Metric>)
    ensures |MergeAll(c, ms)| == |c| + |Names(ms) - Names(c)|
  {
    if ms != [] {
      var ms' := ms[..|ms| - 1];
      var m := ms[|ms| - 1];
      var p := MergeAll(c, ms');
      MergeAllLength(c, ms');
      MergeMetricShape(p, m);
      NamesOfPrefix(ms);
      assert MergeAll(c, ms) == MergeMetric(p, m);
      NewNamesStep(Names(c), Names(ms'), m.name);
    }
  }

  /**
   * A list that keeps the shape of `d`, has its length, holds the latest
   * incoming values and leaves every other metric of `d` alone is `d` itself
   * when `d` already holds the latest values.
   */
  lemma SameWhenLatest(d: seq<Metric>, r: seq<Metric>, ms: seq<Metric>)
    requires KeepsShape(d, r) && |r| == |d|
    requires HoldsLatest(d, ms) && HoldsLatest(r, ms)
    requires forall i :: 0 <= i < |d| && !(IsFirstOfName(d, i) && d[i].name in Names(ms)) ==> r[i] == d[i]
    ensures r == d
  {
    forall i | 0 <= i < |d| ensures r[i] == d[i] {
      FirstOfNameKept(d, r, i);
    }
  }

  /** Applying the same DDATA metric list twice leaves the cache as applying it once. */
  lemma MergeAllIdempotent(c: seq<Metric>, ms: seq<Metric>)
    ensures MergeAll(MergeAll(c, ms), ms) == MergeAll(c, ms)
  {
    var d := MergeAll(c, ms);
    var r := MergeAll(d, ms);
    MergeAllLatest(c, ms);
    MergeAllUntouched(d, ms);
    MergeAllLatest(d, ms);
    MergeAllLength(d, ms);
    assert Names(ms) - Names(d) == {};
    SameWhenLatest(d, r, ms);
  }

  /** Merging one more incoming metric extends the merge of the prefix before it. */
  lemma MergeAllPrefixStep(c: seq<Metric>, ms: seq<Metric>, i: nat)
    requires i < |ms|
    ensures MergeAll(c, ms[..i + 1]) == MergeMetric(MergeAll(c, ms[..i]), ms[i])
  {
    var s := ms[..i + 1];
    assert s[..|s| - 1] == ms[..i];
    assert s[|s| - 1] == ms[i];
  }

  /**
   * The `cachedMetrics.some(...)` scan of the DDATA handler: walks the cached
   * list and gives the first metric with the incoming name the incoming
   * value, reporting whether there was one.
   */
  method UpdateFirstByName(cached: seq<Metric>, metric: Metric) returns (updated: seq<Metric>, found: bool)
    ensures found <==> metric.name in Names(cached)
    ensures updated == SetFirst(cached, metric.name, metric.value)
  {
    var j := 0;
    while j < |cached|
      invariant 0 <= j <= |cached|
      invariant forall k :: 0 <= k < j ==> cached[k].name != metric.name
    {
      if cached[j].name == metric.name {
        assert metric.name in Names(cached);
        FirstOfNameUnique(cached, j, FirstIndex(cached, metric.name));
        return cached[j := cached[j].(value := metric.value)], true;
      }
      j := j + 1;
    }
    return cached, false;
  }

  /**
   * The `metrics.forEach(...)` loop of the DDATA handler: merges every
   * incoming metric into the cached list, in order, and counts the ones it
   * had to append (the handler logs one unknown-metric warning for each).
   */
  method MergeIncoming(cached: seq<Metric>, incoming: seq<Metric>) returns (merged: seq<Metric>, warnings: nat)
    ensures merged == MergeAll(cached, incoming)
    ensures warnings == |Names(incoming) - Names(cached)|
  {
    merged, warnings := cached, 0;
    var i := 0;
    while i < |incoming|
      invariant 0 <= i <= |incoming|
      invariant merged == MergeAll(cached, incoming[..i])
      invariant |cached| + warnings == |merged|
    {
      var metric := incoming[i];
      var updated, found := UpdateFirstByName(merged, metric);
      MergeAllPrefixStep(cached, incoming, i);
      MergeMetricShape(merged, metric);
      if found {
        merged := updated;
      } else {
        merged := merged + [metric];
        warnings := warnings + 1;
      }
      i := i + 1;
    }
    assert incoming[..i] == incoming;
    MergeAllLength(cached, incoming);
  }
}
