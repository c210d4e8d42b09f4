/**
 Budgets over windows: entries that are held, spent or given back, what they commit in
 a window, and the bound that reserving against a limit keeps over any history.
 */
module Windows {

  // ----- Adding up a table -----

  ghost function Total<K, V>(rows: map<K, V>, f: V -> int): int {
    if rows == map[] then 0 else
      var k :| k in rows;
      f(rows[k]) + Total(rows - {k}, f)
  }

  lemma {:induction false} TotalRemove<K, V>(rows: map<K, V>, k: K, f: V -> int)
    requires k in rows
    ensures Total(rows, f) == f(rows[k]) + Total(rows - {k}, f)
    decreases |rows|
  {
    var t :| t in rows && Total(rows, f) == f(rows[t]) + Total(rows - {t}, f);
    if t != k {
      TotalRemove(rows - {t}, k, f);
      TotalRemove(rows - {k}, t, f);
      assert rows - {t} - {k} == rows - {k} - {t};
    }
  }

  lemma TotalUpdate<K, V>(rows: map<K, V>, k: K, v: V, f: V -> int)
    ensures Total(rows[k := v], f) == Total(rows, f) + f(v) - if k in rows then f(rows[k]) else 0
  {
    TotalRemove(rows[k := v], k, f);
    assert rows[k := v] - {k} == rows - {k};
    if k in rows {
      TotalRemove(rows, k, f);
    } else {
      assert rows - {k} == rows;
    }
  }

  lemma {:induction false} TotalNonNegative<K, V>(rows: map<K, V>, f: V -> int)
    requires forall v :: f(v) >= 0
    ensures Total(rows, f) >= 0
    decreases |rows|
  {
    if rows != map[] {
      var k :| k in rows;
      TotalRemove(rows, k, f);
      TotalNonNegative(rows - {k}, f);
    }
  }

  // ----- Entries -----

  datatype State = Held | Spent(actual: nat) | GivenBack

  datatype Entry<T> = Entry(tag: T, reserved: nat, state: State)

  /** What an entry counts against a budget. */
  function Cost<T>(e: Entry<T>): nat {
    match e.state
    case Held => e.reserved
    case Spent(actual) => actual
    case GivenBack => 0
  }

  /** By how much the actual cost exceeded what was reserved. */
  function Excess<T>(e: Entry<T>): nat {
    if e.state.Spent? && e.state.actual > e.reserved then e.state.actual - e.reserved else 0
  }

  function CostIn<T>(w: T -> bool): Entry<T> -> int {
    (e: Entry<T>) => if w(e.tag) then Cost(e) else 0
  }

  function ExcessIn<T>(w: T -> bool): Entry<T> -> int {
    (e: Entry<T>) => if w(e.tag) then Excess(e) else 0
  }

  function HeldIn<T>(w: T -> bool): Entry<T> -> int {
    (e: Entry<T>) => if w(e.tag) && e.state.Held? then 1 else 0
  }

  ghost function Committed<K, T>(rows: map<K, Entry<T>>, w: T -> bool): int {
    Total(rows, CostIn(w))
  }

  ghost function Overruns<K, T>(rows: map<K, Entry<T>>, w: T -> bool): int {
    Total(rows, ExcessIn(w))
  }

  ghost function InFlightCount<K, T>(rows: map<K, Entry<T>>, w: T -> bool): int {
    Total(rows, HeldIn(w))
  }

  // ----- The bound -----

  /** Commitments stay within the limit but for what was spent beyond its reservation. */
  ghost predicate Within<K, T>(rows: map<K, Entry<T>>, w: T -> bool, limit: int) {
    Committed(rows, w) <= limit + Overruns(rows, w)
  }

  lemma OverrunsNonNegative<K, T>(rows: map<K, Entry<T>>, w: T -> bool)
    ensures Overruns(rows, w) >= 0
  {
    forall e: Entry<T> ensures ExcessIn(w)(e) >= 0 {
      assert ExcessIn(w)(e) == if w(e.tag) then Excess(e) else 0;
    }
    TotalNonNegative(rows, ExcessIn(w));
  }

  /** A new reservation adds what it reserves, to the windows it falls in, and nothing else. */
  lemma ReserveCounts<K, T>(rows: map<K, Entry<T>>, k: K, e: Entry<T>, w: T -> bool)
    requires k !in rows && e.state == Held
    ensures Committed(rows[k := e], w) == Committed(rows, w) + if w(e.tag) then e.reserved else 0
    ensures Overruns(rows[k := e], w) == Overruns(rows, w)
    ensures InFlightCount(rows[k := e], w) == InFlightCount(rows, w) + if w(e.tag) then 1 else 0
  {
    TotalUpdate(rows, k, e, CostIn(w));
    TotalUpdate(rows, k, e, ExcessIn(w));
    TotalUpdate(rows, k, e, HeldIn(w));
  }

  /** Settling a held entry, either way, keeps every window within its limit and one reservation fewer in flight. */
  lemma SettleKeeps<K, T>(rows: map<K, Entry<T>>, k: K, state: State, w: T -> bool, limit: int)
    requires k in rows && rows[k].state == Held && state != Held
    ensures Within(rows, w, limit) ==> Within(rows[k := rows[k].(state := state)], w, limit)
    ensures InFlightCount(rows[k := rows[k].(state := state)], w)
            == InFlightCount(rows, w) - if w(rows[k].tag) then 1 else 0
  {
    var e := rows[k].(state := state);
    TotalUpdate(rows, k, e, CostIn(w));
    TotalUpdate(rows, k, e, ExcessIn(w));
    TotalUpdate(rows, k, e, HeldIn(w));
  }
}
