/**
 * The order fill detector. It keeps a table of pending checks keyed by an
 * order key; every price update re-evaluates each entry. A BUY is satisfied
 * while the price is at or below the order price, any other side while it is
 * at or above. The time at which the condition started to hold is recorded and
 * cleared when the condition lapses; once it has held for `confirmSeconds`,
 * the order counts as filled, its callback is invoked once and its entry is
 * removed.
 *
 * The checker is generic in the key type `K` and in the callback handle `C`.
 * Calling a callback is an effect outside this model: a sweep returns the
 * invocations it makes, in order. The clock is an argument `now`.
 */
module FillChecker {
  import opened Common

  const DefaultConfirmSeconds: int := 3

  /** Upper-casing of one character (ASCII letters only). */
  function UpperChar(c: char): char {
    if 'a' <= c <= 'z' then (c as int - 32) as char else c
  }

  /** `str.upper()` restricted to ASCII letters. */
  function Upper(s: string): (r: string)
    ensures |r| == |s|
    ensures forall i :: 0 <= i < |s| ==> r[i] == UpperChar(s[i])
  {
    if s == [] then [] else [UpperChar(s[0])] + Upper(s[1..])
  }

  /** One entry of the pending table. */
  datatype Check<C> = Check(
    side: string,
    orderPrice: real,
    conditionMetStart: Option<real>,
    callback: Option<C>,
    createdAt: real)

  /** The result record handed to a callback. */
  datatype FillResult<K> = FillResult(
    orderId: K,
    filled: bool,
    currentPrice: real,
    orderPrice: real,
    duration: real,
    filledAt: real)

  /** One call `callback(order_id, result)`. */
  datatype Invocation<K, C> = Invocation(callback: C, orderId: K, result: FillResult<K>)

  /** The price condition: a BUY fills at or below its price, every other side at or above. */
  predicate ConditionMet(side: string, price: real, orderPrice: real) {
    if side == "BUY" then price <= orderPrice else price >= orderPrice
  }

  /** The start of the confirmation window after one evaluation at `now`. */
  function Timer<C>(c: Check<C>, price: real, now: real): Option<real> {
    if !ConditionMet(c.side, price, c.orderPrice) then None
    else if c.conditionMetStart.None? then Some(now)
    else c.conditionMetStart
  }

  /** The entry as it stands after one evaluation. */
  function Advance<C>(c: Check<C>, price: real, now: real): Check<C> {
    c.(conditionMetStart := Timer(c, price, now))
  }

  /** Whether one evaluation at `now` declares the order filled. */
  predicate Fills<C>(c: Check<C>, price: real, now: real, confirm: int) {
    var t := Timer(c, price, now);
    t.Some? && now - t.value >= confirm as real
  }

  lemma {:induction false} FillsIff<C>(c: Check<C>, price: real, now: real, confirm: int)
    ensures Fills(c, price, now, confirm) <==>
      ConditionMet(c.side, price, c.orderPrice) &&
      now - c.conditionMetStart.GetOr(now) >= confirm as real
    ensures !ConditionMet(c.side, price, c.orderPrice) ==> Advance(c, price, now).conditionMetStart == None
    ensures ConditionMet(c.side, price, c.orderPrice) && c.conditionMetStart.None? ==>
      Advance(c, price, now).conditionMetStart == Some(now)
    ensures ConditionMet(c.side, price, c.orderPrice) && c.conditionMetStart.Some? ==>
      Advance(c, price, now) == c
  {
  }

  /** A price observation at a time. */
  datatype Tick = Tick(price: real, time: real)

  /** An entry after being evaluated at each tick in turn (as long as it stays in the table). */
  function AdvanceAll<C>(c: Check<C>, ticks: seq<Tick>): (r: Check<C>)
    ensures r.side == c.side && r.orderPrice == c.orderPrice && r.callback == c.callback
  {
    if ticks == [] then c
    else
      var last := ticks[|ticks| - 1];
      Advance(AdvanceAll(c, ticks[..|ticks| - 1]), last.price, last.time)
  }

  /**
   * A running timer always points at a tick from which the price condition
   * has held at every tick since.
   */
  lemma {:induction false} TimerMarksUnbrokenRun<C>(c: Check<C>, ticks: seq<Tick>)
    requires c.conditionMetStart.None?
    requires AdvanceAll(c, ticks).conditionMetStart.Some?
    ensures exists i :: 0 <= i < |ticks| && ticks[i].time == AdvanceAll(c, ticks).conditionMetStart.value &&
                        forall j :: i <= j < |ticks| ==> ConditionMet(c.side, ticks[j].price, c.orderPrice)
  {
    var init := ticks[..|ticks| - 1];
    var last := ticks[|ticks| - 1];
    var prev := AdvanceAll(c, init);
    assert ConditionMet(c.side, last.price, c.orderPrice);
    if prev.conditionMetStart.None? {
      var i := |ticks| - 1;
      assert ticks[i].time == AdvanceAll(c, ticks).conditionMetStart.value;
    } else {
      TimerMarksUnbrokenRun(c, init);
      var i :| 0 <= i < |init| && init[i].time == prev.conditionMetStart.value &&
               forall j :: i <= j < |init| ==> ConditionMet(c.side, init[j].price, c.orderPrice);
      assert ticks[i].time == AdvanceAll(c, ticks).conditionMetStart.value;
      forall j | i <= j < |ticks| ensures ConditionMet(c.side, ticks[j].price, c.orderPrice) {
        if j < |init| {
          assert ticks[j] == init[j];
        }
      }
    }
  }

  /**
   * An order fills at a tick only if the price condition has held at every
   * tick of a run that began at least `confirm` seconds earlier.
   */
  lemma {:induction false} FillNeedsSustainedCondition<C>(c: Check<C>, ticks: seq<Tick>, confirm: int)
    requires c.conditionMetStart.None? && ticks != []
    requires Fills(AdvanceAll(c, ticks[..|ticks| - 1]), ticks[|ticks| - 1].price, ticks[|ticks| - 1].time, confirm)
    ensures exists i :: 0 <= i < |ticks| && ticks[|ticks| - 1].time - ticks[i].time >= confirm as real &&
                        forall j :: i <= j < |ticks| ==> ConditionMet(c.side, ticks[j].price, c.orderPrice)
  {
    assert ticks[..|ticks| - 1] == ticks[..|ticks| - 1];
    TimerMarksUnbrokenRun(c, ticks);
  }

  /** While the condition holds at every tick, the timer stays at the first of them. */
  lemma {:induction false} TimerStartsAtFirstTick<C>(c: Check<C>, ticks: seq<Tick>)
    requires c.conditionMetStart.None? && ticks != []
    requires forall j :: 0 <= j < |ticks| ==> ConditionMet(c.side, ticks[j].price, c.orderPrice)
    ensures AdvanceAll(c, ticks).conditionMetStart == Some(ticks[0].time)
  {
    var init := ticks[..|ticks| - 1];
    if init != [] {
      TimerStartsAtFirstTick(c, init);
    }
  }

  /**
   * Conversely, an order whose condition holds at every tick fills at the
   * first tick that lies at least `confirm` seconds after the first one.
   */
  lemma {:induction false} SustainedConditionFills<C>(c: Check<C>, ticks: seq<Tick>, confirm: int)
    requires c.conditionMetStart.None? && ticks != []
    requires forall j :: 0 <= j < |ticks| ==> ConditionMet(c.side, ticks[j].price, c.orderPrice)
    ensures Fills(AdvanceAll(c, ticks[..|ticks| - 1]), ticks[|ticks| - 1].price, ticks[|ticks| - 1].time, confirm)
            <==> ticks[|ticks| - 1].time - ticks[0].time >= confirm as real
  {
    var init := ticks[..|ticks| - 1];
    if init != [] {
      TimerStartsAtFirstTick(c, init);
      assert init[0] == ticks[0];
    }
  }

  /** The keys of `ks` whose entries fill, in the order of `ks`. */
  function FilledKeys<K(!new), C>(ks: seq<K>, table: map<K, Check<C>>, price: real, now: real, confirm: int): seq<K>
    requires forall k :: k in ks ==> k in table
  {
    if ks == [] then []
    else
      var last := ks[|ks| - 1];
      FilledKeys(ks[..|ks| - 1], table, price, now, confirm) +
        (if Fills(table[last], price, now, confirm) then [last] else [])
  }

  lemma {:induction false} FilledKeysMembers<K(!new), C>(ks: seq<K>, table: map<K, Check<C>>, price: real, now: real, confirm: int)
    requires forall k :: k in ks ==> k in table
    ensures forall k :: k in FilledKeys(ks, table, price, now, confirm) <==> k in ks && Fills(table[k], price, now, confirm)
  {
    if ks != [] {
      var init := ks[..|ks| - 1];
      FilledKeysMembers(init, table, price, now, confirm);
      assert ks == init + [ks[|ks| - 1]];
    }
  }

  /** The callback invocation an evaluation makes for key `k`, if any. */
  function InvocationFor<K(!new), C>(k: K, c: Check<C>, price: real, now: real, confirm: int): seq<Invocation<K, C>> {
    if Fills(c, price, now, confirm) && c.callback.Some? then
      var t := Timer(c, price, now).value;
      [Invocation(c.callback.value, k, FillResult(k, true, price, c.orderPrice, now - t, now))]
    else []
  }

  /** The callback invocations of one sweep over `ks`, in the order of `ks`. */
  function Invocations<K(!new), C>(ks: seq<K>, table: map<K, Check<C>>, price: real, now: real, confirm: int): seq<Invocation<K, C>>
    requires forall k :: k in ks ==> k in table
  {
    if ks == [] then []
    else
      var last := ks[|ks| - 1];
      Invocations(ks[..|ks| - 1], table, price, now, confirm) + InvocationFor(last, table[last], price, now, confirm)
  }

  /**
   * Every invocation of a sweep is for a key of the table that filled and has
   * that callback, and hands over the current price, the order price, the fill
   * time and a duration of at least `confirm` seconds.
   */
  lemma {:induction false} InvocationsSound<K(!new), C>(ks: seq<K>, table: map<K, Check<C>>, price: real, now: real, confirm: int)
    requires forall k :: k in ks ==> k in table
    ensures var r := Invocations(ks, table, price, now, confirm);
      && |r| <= |ks|
      && forall inv :: inv in r ==>
        && inv.orderId in ks && Fills(table[inv.orderId], price, now, confirm)
        && table[inv.orderId].callback == Some(inv.callback)
        && inv.result.orderId == inv.orderId && inv.result.filled
        && inv.result.currentPrice == price && inv.result.orderPrice == table[inv.orderId].orderPrice
        && inv.result.filledAt == now && inv.result.duration >= confirm as real
  {
    if ks != [] {
      var init := ks[..|ks| - 1];
      InvocationsSound(init, table, price, now, confirm);
      assert forall k :: k in init ==> k in ks;
    }
  }

  /** Every filled entry that has a callback is invoked. */
  lemma {:induction false} InvocationsComplete<K(!new), C>(ks: seq<K>, table: map<K, Check<C>>, price: real, now: real, confirm: int, k: K)
    requires forall k :: k in ks ==> k in table
    requires k in ks && Fills(table[k], price, now, confirm) && table[k].callback.Some?
    ensures exists j :: 0 <= j < |Invocations(ks, table, price, now, confirm)| &&
                        Invocations(ks, table, price, now, confirm)[j].orderId == k
  {
    var init := ks[..|ks| - 1];
    var last := ks[|ks| - 1];
    var r := Invocations(ks, table, price, now, confirm);
    if k == last {
      assert r[|r| - 1].orderId == k;
    } else {
      assert k in init;
      InvocationsComplete(init, table, price, now, confirm, k);
      var j :| 0 <= j < |Invocations(init, table, price, now, confirm)| &&
               Invocations(init, table, price, now, confirm)[j].orderId == k;
      assert r[j] == Invocations(init, table, price, now, confirm)[j];
    }
  }

  /** No two invocations are for the same key. */
  ghost predicate OncePerKey<K, C>(r: seq<Invocation<K, C>>) {
    forall i, j :: 0 <= i < j < |r| ==> r[i].orderId != r[j].orderId
  }

  /** With distinct keys, no callback is invoked twice in one sweep. */
  lemma {:induction false} InvocationsOncePerKey<K(!new), C>(ks: seq<K>, table: map<K, Check<C>>, price: real, now: real, confirm: int)
    requires forall k :: k in ks ==> k in table
    requires Distinct(ks)
    ensures OncePerKey(Invocations(ks, table, price, now, confirm))
  {
    if ks != [] {
      var init := ks[..|ks| - 1];
      var last := ks[|ks| - 1];
      InvocationsOncePerKey(init, table, price, now, confirm);
      InvocationsSound(init, table, price, now, confirm);
      var prefix := Invocations(init, table, price, now, confirm);
      var tail := InvocationFor(last, table[last], price, now, confirm);
      var r := Invocations(ks, table, price, now, confirm);
      assert r == prefix + tail;
      assert last !in init by {
        forall m | 0 <= m < |init| ensures init[m] != last {
          assert init[m] == ks[m];
        }
      }
      forall i, j | 0 <= i < j < |r| ensures r[i].orderId != r[j].orderId {
        assert r[i] == prefix[i];
        if j >= |prefix| {
          assert r[j] == tail[0] && tail[0].orderId == last;
          assert prefix[i] in prefix;
        } else {
          assert r[j] == prefix[j];
        }
      }
    }
  }

  /** The keys of `ks` that are not in `drop`, in order. */
  function Without<K(!new)>(ks: seq<K>, drop: set<K>): seq<K> {
    if ks == [] then []
    else (if ks[0] in drop then [] else [ks[0]]) + Without(ks[1..], drop)
  }

  /** The key order after `d[k] = v`: a new key goes last, an existing one keeps its place. */
  function InsertKey<K(==)>(ks: seq<K>, k: K): seq<K> {
    if k in ks then ks else ks + [k]
  }

  lemma {:induction false} WithoutMembers<K(!new)>(ks: seq<K>, drop: set<K>)
    ensures forall k :: k in Without(ks, drop) <==> k in ks && k !in drop
  {
    if ks != [] {
      WithoutMembers(ks[1..], drop);
      assert forall k :: k in ks <==> k == ks[0] || k in ks[1..];
    }
  }

  lemma WithoutCons<K(!new)>(x: K, t: seq<K>, drop: set<K>)
    ensures Without([x] + t, drop) == (if x in drop then [] else [x]) + Without(t, drop)
  {
    assert ([x] + t)[1..] == t;
  }

  lemma {:induction false} WithoutDistinct<K(!new)>(ks: seq<K>, drop: set<K>)
    requires Distinct(ks)
    ensures Distinct(Without(ks, drop))
  {
    if ks != [] {
      var rest := ks[1..];
      WithoutDistinct(rest, drop);
      WithoutMembers(rest, drop);
      var tail := Without(rest, drop);
      assert ks[0] !in rest by {
        forall m | 0 <= m < |rest| ensures rest[m] != ks[0] {
          assert rest[m] == ks[m + 1];
        }
      }
      assert ks[0] !in tail;
      var r := Without(ks, drop);
      if ks[0] !in drop {
        assert r == [ks[0]] + tail;
        forall i, j | 0 <= i < j < |r| ensures r[i] != r[j] {
          if i == 0 {
            assert r[j] == tail[j - 1];
          } else {
            assert r[i] == tail[i - 1] && r[j] == tail[j - 1];
          }
        }
      } else {
        assert r == tail;
      }
    }
  }

  lemma {:induction false} WithoutTwice<K(!new)>(ks: seq<K>, a: set<K>, b: set<K>)
    ensures Without(Without(ks, a), b) == Without(ks, a + b)
  {
    if ks != [] {
      var x, t := ks[0], ks[1..];
      WithoutTwice(t, a, b);
      if x in a {
        assert Without(ks, a) == Without(t, a);
      } else {
        assert Without(ks, a) == [x] + Without(t, a);
        WithoutCons(x, Without(t, a), b);
      }
    }
  }

  lemma {:induction false} WithoutNothing<K(!new)>(ks: seq<K>, drop: set<K>)
    requires forall k :: k in ks ==> k !in drop
    ensures Without(ks, drop) == ks
  {
    if ks != [] {
      WithoutNothing(ks[1..], drop);
    }
  }

  /** The elements of a sequence, as a set. */
  function Elems<K(!new)>(s: seq<K>): set<K> {
    set k | k in s
  }

  /** The pending table after a sweep: filled entries gone, every other entry advanced. */
  function Swept<K(!new), C>(table: map<K, Check<C>>, price: real, now: real, confirm: int): (r: map<K, Check<C>>)
    ensures forall k :: k in r <==> k in table && !Fills(table[k], price, now, confirm)
  {
    map k | k in table && !Fills(table[k], price, now, confirm) :: Advance(table[k], price, now)
  }

  /** The keys a sweep removes. */
  function FilledSet<K(!new), C>(table: map<K, Check<C>>, price: real, now: real, confirm: int): set<K> {
    set k | k in table && Fills(table[k], price, now, confirm)
  }

  /**
   * One entry of a sweep: start the timer the first time the condition holds,
   * reset it when the condition fails, and report a fill (and the callback
   * invocation, when there is a callback) once the condition has held for
   * `confirmSeconds`.
   */
  method EvaluateEntry<K(!new), C>(orderId: K, state: Check<C>, price: real, now: real, confirmSeconds: int)
    returns (next: Check<C>, filled: bool, calls: seq<Invocation<K, C>>)
    ensures next == Advance(state, price, now)
    ensures filled == Fills(state, price, now, confirmSeconds)
    ensures calls == InvocationFor(orderId, state, price, now, confirmSeconds)
  {
    next, filled, calls := state, false, [];
    var conditionMet := if state.side == "BUY" then price <= state.orderPrice else price >= state.orderPrice;
    if conditionMet {
      if next.conditionMetStart.None? {
        next := next.(conditionMetStart := Some(now));
      }
      var duration := now - next.conditionMetStart.value;
      if duration >= confirmSeconds as real {
        var result := FillResult(orderId, true, price, state.orderPrice, duration, now);
        if state.callback.Some? {
          calls := [Invocation(state.callback.value, orderId, result)];
        }
        filled := true;
      }
    } else {
      if next.conditionMetStart.Some? {
        next := next.(conditionMetStart := None);
      }
    }
  }

  /** Sweeping one more key appends that key's fill and invocation. */
  lemma SweepStep<K(!new), C>(keys: seq<K>, table: map<K, Check<C>>, price: real, now: real, confirm: int, i: nat)
    requires i < |keys| && forall k :: k in keys ==> k in table
    ensures forall k :: k in keys[..i + 1] ==> k in table
    ensures FilledKeys(keys[..i + 1], table, price, now, confirm) ==
      FilledKeys(keys[..i], table, price, now, confirm) + (if Fills(table[keys[i]], price, now, confirm) then [keys[i]] else [])
    ensures Invocations(keys[..i + 1], table, price, now, confirm) ==
      Invocations(keys[..i], table, price, now, confirm) + InvocationFor(keys[i], table[keys[i]], price, now, confirm)
  {
    assert keys[..i + 1][..i] == keys[..i];
  }

  /**
   * The sweep's state after the first `i` keys: their entries advanced, the
   * rest untouched, their fills collected and their callbacks invoked.
   */
  ghost predicate SweptSoFar<K(!new), C>(keys: seq<K>, table: map<K, Check<C>>, price: real, now: real, confirm: int,
                                         i: nat, updated: map<K, Check<C>>, filledOrders: seq<K>,
                                         calls: seq<Invocation<K, C>>)
  {
    && i <= |keys|
    && (forall k :: k in table <==> k in keys)
    && (forall k :: k in keys[..i] ==> k in table)
    && (forall k :: k in updated <==> k in table)
    && (forall j :: 0 <= j < i ==> updated[keys[j]] == Advance(table[keys[j]], price, now))
    && (forall j :: i <= j < |keys| ==> updated[keys[j]] == table[keys[j]])
    && filledOrders == FilledKeys(keys[..i], table, price, now, confirm)
    && calls == Invocations(keys[..i], table, price, now, confirm)
  }

  /** One turn of the sweep: the entry of `keys[i]` is evaluated and updated. */
  method SweepOne<K(!new), C>(keys: seq<K>, table: map<K, Check<C>>, price: real, now: real, confirmSeconds: int,
                              i: nat, updated: map<K, Check<C>>, filledOrders: seq<K>, calls: seq<Invocation<K, C>>)
    returns (updated': map<K, Check<C>>, filledOrders': seq<K>, calls': seq<Invocation<K, C>>)
    requires Distinct(keys) && i < |keys|
    requires SweptSoFar(keys, table, price, now, confirmSeconds, i, updated, filledOrders, calls)
    ensures SweptSoFar(keys, table, price, now, confirmSeconds, i + 1, updated', filledOrders', calls')
  {
    var orderId := keys[i];
    var next, filled, invoked := EvaluateEntry(orderId, updated[orderId], price, now, confirmSeconds);
    updated' := updated[orderId := next];
    calls' := calls + invoked;
    filledOrders' := filledOrders;
    if filled {
      filledOrders' := filledOrders + [orderId];
    }
    SweepStep(keys, table, price, now, confirmSeconds, i);
  }

  /**
   * The loop of a sweep over the table in key order: each entry's timer is
   * started, kept or reset; the keys that fill are collected in order and
   * their callbacks invoked. Entries are updated, never added or removed.
   */
  method EvaluateAll<K(!new), C>(keys: seq<K>, table: map<K, Check<C>>, price: real, now: real, confirmSeconds: int)
    returns (updated: map<K, Check<C>>, filledOrders: seq<K>, calls: seq<Invocation<K, C>>)
    requires Distinct(keys) && forall k :: k in table <==> k in keys
    ensures forall k :: k in updated <==> k in table
    ensures forall k :: k in updated ==> updated[k] == Advance(table[k], price, now)
    ensures Elems(filledOrders) == FilledSet(table, price, now, confirmSeconds)
    ensures calls == Invocations(keys, table, price, now, confirmSeconds)
  {
    updated := table;
    filledOrders := [];
    calls := [];
    var i := 0;
    while i < |keys|
      invariant SweptSoFar(keys, table, price, now, confirmSeconds, i, updated, filledOrders, calls)
    {
      updated, filledOrders, calls := SweepOne(keys, table, price, now, confirmSeconds, i, updated, filledOrders, calls);
      i := i + 1;
    }
    assert keys[..i] == keys;
    FilledKeysMembers(keys, table, price, now, confirmSeconds);
    forall k | k in updated ensures updated[k] == Advance(table[k], price, now) {
      var m :| 0 <= m < |keys| && keys[m] == k;
    }
  }

  /** Advancing every entry and then deleting the filled ones is the sweep. */
  lemma AdvancedMinusFilled<K(!new), C>(table: map<K, Check<C>>, updated: map<K, Check<C>>, price: real, now: real,
                                        confirm: int)
    requires forall k :: k in updated <==> k in table
    requires forall k :: k in updated ==> updated[k] == Advance(table[k], price, now)
    ensures updated - FilledSet(table, price, now, confirm) == Swept(table, price, now, confirm)
  {
    var l, r := updated - FilledSet(table, price, now, confirm), Swept(table, price, now, confirm);
    assert l.Keys == r.Keys;
  }

  /** The table and its key order after deleting the first `j` filled keys. */
  ghost predicate RemovedSoFar<K(!new), C>(keys: seq<K>, table: map<K, Check<C>>, filledOrders: seq<K>, j: nat,
                                           table': map<K, Check<C>>, keys': seq<K>)
  {
    && j <= |filledOrders|
    && Distinct(keys') && (forall k :: k in table' <==> k in keys')
    && table' == table - Elems(filledOrders[..j])
    && keys' == Without(keys, Elems(filledOrders[..j]))
  }

  /** One deletion: `del pending_checks[filledOrders[j]]`. */
  method RemoveOne<K(!new), C>(keys: seq<K>, table: map<K, Check<C>>, filledOrders: seq<K>, j: nat,
                               table': map<K, Check<C>>, keys': seq<K>)
    returns (table'': map<K, Check<C>>, keys'': seq<K>)
    requires j < |filledOrders| && RemovedSoFar(keys, table, filledOrders, j, table', keys')
    ensures RemovedSoFar(keys, table, filledOrders, j + 1, table'', keys'')
  {
    var orderId := filledOrders[j];
    ghost var done := Elems(filledOrders[..j]);
    assert Elems(filledOrders[..j + 1]) == done + {orderId} by {
      assert filledOrders[..j + 1] == filledOrders[..j] + [orderId];
    }
    WithoutTwice(keys, done, {orderId});
    WithoutDistinct(keys', {orderId});
    WithoutMembers(keys', {orderId});
    table'' := table' - {orderId};
    keys'' := Without(keys', {orderId});
  }

  /** Deletes the filled keys from the table, one at a time, keeping the order of the others. */
  method RemoveFilled<K(!new), C>(keys: seq<K>, table: map<K, Check<C>>, filledOrders: seq<K>)
    returns (table': map<K, Check<C>>, keys': seq<K>)
    requires Distinct(keys) && forall k :: k in table <==> k in keys
    ensures Distinct(keys') && forall k :: k in table' <==> k in keys'
    ensures table' == table - Elems(filledOrders)
    ensures keys' == Without(keys, Elems(filledOrders))
  {
    table', keys' := table, keys;
    assert Elems(filledOrders[..0]) == {};
    WithoutNothing(keys, {});
    var j := 0;
    while j < |filledOrders|
      invariant RemovedSoFar(keys, table, filledOrders, j, table', keys')
    {
      table', keys' := RemoveOne(keys, table, filledOrders, j, table', keys');
      j := j + 1;
    }
    assert filledOrders[..j] == filledOrders;
  }

  class OrderFillChecker<K(==,!new), C> {
    const confirmSeconds: int
    var currentPrice: Option<real>
    var lastUpdateTime: Option<real>
    var pendingChecks: map<K, Check<C>>
    /** The keys of `pendingChecks` in insertion order (the iteration order of the dictionary). */
    var keys: seq<K>

    ghost predicate Valid()
      reads this
    {
      && Distinct(keys)
      && (forall k :: k in pendingChecks <==> k in keys)
    }

    constructor (confirmSeconds: int)
      ensures Valid()
      ensures this.confirmSeconds == confirmSeconds
      ensures currentPrice == None && lastUpdateTime == None
      ensures pendingChecks == map[] && keys == []
    {
      this.confirmSeconds := confirmSeconds;
      currentPrice, lastUpdateTime := None, None;
      pendingChecks, keys := map[], [];
    }

    /** A new price arrives at time `now`: store it and sweep the table. */
    method UpdatePrice(price: real, now: real) returns (calls: seq<Invocation<K, C>>)
      requires Valid()
      modifies this
      ensures Valid()
      ensures currentPrice == Some(price) && lastUpdateTime == Some(now)
      ensures pendingChecks == Swept(old(pendingChecks), price, now, confirmSeconds)
      ensures keys == Without(old(keys), FilledSet(old(pendingChecks), price, now, confirmSeconds))
      ensures calls == Invocations(old(keys), old(pendingChecks), price, now, confirmSeconds)
    {
      currentPrice := Some(price);
      lastUpdateTime := Some(now);
      calls := CheckAllPendingOrders(now);
    }

    /** Registers (or replaces) the check for `orderId`, with an unset timer. */
    method StartMonitoring(orderId: K, side: string, orderPrice: real, callback: Option<C>, now: real)
      requires Valid()
      modifies this
      ensures Valid()
      ensures pendingChecks == old(pendingChecks)[orderId := Check(Upper(side), orderPrice, None, callback, now)]
      ensures keys == InsertKey(old(keys), orderId)
      ensures currentPrice == old(currentPrice) && lastUpdateTime == old(lastUpdateTime)
    {
      pendingChecks := pendingChecks[orderId := Check(Upper(side), orderPrice, None, callback, now)];
      if orderId !in keys {
        keys := keys + [orderId];
      }
    }

    /** Evaluates every pending check against the current price at time `now`. */
    method CheckAllPendingOrders(now: real) returns (calls: seq<Invocation<K, C>>)
      requires Valid()
      modifies this
      ensures Valid()
      ensures currentPrice == old(currentPrice) && lastUpdateTime == old(lastUpdateTime)
      ensures old(currentPrice).None? ==>
        pendingChecks == old(pendingChecks) && keys == old(keys) && calls == []
      ensures old(currentPrice).Some? ==>
        var price := old(currentPrice).value;
        && pendingChecks == Swept(old(pendingChecks), price, now, confirmSeconds)
        && keys == Without(old(keys), FilledSet(old(pendingChecks), price, now, confirmSeconds))
        && calls == Invocations(old(keys), old(pendingChecks), price, now, confirmSeconds)
    {
      if currentPrice.None? {
        return [];
      }
      var price := currentPrice.value;
      var advanced, filledOrders;
      advanced, filledOrders, calls := EvaluateAll(keys, pendingChecks, price, now, confirmSeconds);
      pendingChecks := advanced;
      pendingChecks, keys := RemoveFilled(keys, pendingChecks, filledOrders);
      AdvancedMinusFilled(old(pendingChecks), advanced, price, now, confirmSeconds);
    }

    /** Stops monitoring `orderId`; a key that is not monitored is ignored. */
    method StopMonitoring(orderId: K)
      requires Valid()
      modifies this
      ensures Valid()
      ensures pendingChecks == old(pendingChecks) - {orderId}
      ensures keys == Without(old(keys), {orderId})
      ensures currentPrice == old(currentPrice) && lastUpdateTime == old(lastUpdateTime)
    {
      if orderId in pendingChecks {
        WithoutDistinct(keys, {orderId});
        WithoutMembers(keys, {orderId});
        pendingChecks := pendingChecks - {orderId};
        keys := Without(keys, {orderId});
      } else {
        WithoutNothing(keys, {orderId});
      }
    }

    /** The monitored keys, in insertion order. */
    function GetMonitoringOrders(): (r: seq<K>)
      reads this
      requires Valid()
      ensures forall k :: k in r <==> k in pendingChecks
      ensures Distinct(r)
    {
      keys
    }
  }
}
