/** The effect log: one row per idempotency key. */
module EffectSink {
  import opened Ordering
  import opened StepModel
  import opened Wrappers

  predicate HasRow(sink: seq<EffectRow>, key: string)
  {
    exists row | row in sink :: row.idemKey == key
  }

  /** The unique index on idem_key. */
  ghost predicate KeysUnique(sink: seq<EffectRow>)
  {
    forall i, j | 0 <= i < j < |sink| :: sink[i].idemKey != sink[j].idemKey
  }

  /** Row ids grow in insertion order, though not by one: a deduped insert uses up an id too. */
  ghost predicate IdsAscending(sink: seq<EffectRow>)
  {
    forall i, j | 0 <= i < j < |sink| :: sink[i].id < sink[j].id
  }

  /** The table and its AUTOINCREMENT counter: the highest id handed out so far. */
  datatype EffectLog = EffectLog(rows: seq<EffectRow>, lastId: nat)

  ghost predicate IdsOk(log: EffectLog)
  {
    IdsAscending(log.rows) && forall i | 0 <= i < |log.rows| :: 1 <= log.rows[i].id <= log.lastId
  }

  /** SELECT id WHERE idem_key = key; 0 when there is none. */
  function RowId(sink: seq<EffectRow>, key: string): nat
  {
    if |sink| == 0 then 0
    else if sink[0].idemKey == key then sink[0].id
    else RowId(sink[1..], key)
  }

  datatype Effect = Effect(runId: RunId, trajectory: string, stepName: string, idemKey: string, payload: string)

  function NewRow(id: nat, e: Effect, firedAt: string, pid: nat): EffectRow
  {
    EffectRow(id, e.runId, e.trajectory, e.stepName, e.idemKey, e.payload, firedAt, pid)
  }

  /** INSERT OR IGNORE INTO effect_log. An ignored insert leaves the rows alone and moves the counter. */
  function Fire(log: EffectLog, e: Effect, firedAt: string, pid: nat): EffectLog
  {
    EffectLog(if HasRow(log.rows, e.idemKey) then log.rows else log.rows + [NewRow(log.lastId + 1, e, firedAt, pid)],
      log.lastId + 1)
  }

  /** SELECT … WHERE run_id = r ORDER BY id. */
  function EffectsFor(sink: seq<EffectRow>, r: RunId): seq<EffectRow>
  {
    Filter(sink, (row: EffectRow) => row.runId == r)
  }

  function CountEffects(sink: seq<EffectRow>, r: RunId, stepName: string): nat
  {
    |Filter(sink, (row: EffectRow) => row.runId == r && row.stepName == stepName)|
  }

  lemma {:induction false} RowIdAt(sink: seq<EffectRow>, i: nat)
    requires KeysUnique(sink) && i < |sink|
    ensures RowId(sink, sink[i].idemKey) == sink[i].id
  {
    if i > 0 {
      assert sink[0].idemKey != sink[i].idemKey;
      assert sink[1..][i - 1] == sink[i];
      RowIdAt(sink[1..], i - 1);
    }
  }

  /** The place of a key's row in the log; the length of the log when it has none. */
  function IndexOf(sink: seq<EffectRow>, key: string): nat
  {
    if |sink| == 0 || sink[0].idemKey == key then 0 else 1 + IndexOf(sink[1..], key)
  }

  lemma {:induction false} IndexOfAt(sink: seq<EffectRow>, i: nat)
    requires KeysUnique(sink) && i < |sink|
    ensures IndexOf(sink, sink[i].idemKey) == i
  {
    if i > 0 {
      assert sink[0].idemKey != sink[i].idemKey;
      assert sink[1..][i - 1] == sink[i];
      IndexOfAt(sink[1..], i - 1);
    }
  }

  lemma {:induction false} RowIdExtend(sink: seq<EffectRow>, more: seq<EffectRow>, key: string)
    requires HasRow(sink, key)
    ensures RowId(sink + more, key) == RowId(sink, key)
  {
    if sink[0].idemKey != key {
      assert HasRow(sink[1..], key);
      RowIdExtend(sink[1..], more, key);
      assert (sink + more)[1..] == sink[1..] + more;
    }
  }

  /** Whatever was fired before, a key that fires again keeps its one row, its id and its payload,
      and uses up an id. */
  lemma FireOnce(log: EffectLog, e: Effect, e': Effect, at: string, at': string, pid: nat, pid': nat)
    requires KeysUnique(log.rows) && e.idemKey == e'.idemKey
    ensures var once := Fire(log, e, at, pid);
      KeysUnique(once.rows) && HasRow(once.rows, e.idemKey)
        && Fire(once, e', at', pid') == once.(lastId := once.lastId + 1)
  {
    var once := Fire(log, e, at, pid);
    if !HasRow(log.rows, e.idemKey) { assert once.rows[|log.rows|] in once.rows; }
  }

  /** A key that has not fired gets the next id, in a row with what was fired, when and by whom. */
  lemma FirstFire(log: EffectLog, e: Effect, at: string, pid: nat)
    requires !HasRow(log.rows, e.idemKey)
    ensures var row := EffectRow(log.lastId + 1, e.runId, e.trajectory, e.stepName, e.idemKey, e.payload, at, pid);
      Fire(log, e, at, pid) == EffectLog(log.rows + [row], log.lastId + 1)
      && RowId(log.rows + [row], e.idemKey) == log.lastId + 1
  {
    var row := EffectRow(log.lastId + 1, e.runId, e.trajectory, e.stepName, e.idemKey, e.payload, at, pid);
    LastRowId(log.rows, row);
  }

  lemma {:induction false} LastRowId(rows: seq<EffectRow>, row: EffectRow)
    requires !HasRow(rows, row.idemKey)
    ensures RowId(rows + [row], row.idemKey) == row.id
  {
    if |rows| > 0 {
      assert rows[0] in rows;
      assert (rows + [row])[1..] == rows[1..] + [row];
      LastRowId(rows[1..], row);
    }
  }

  /** Firing keeps keys unique and ids in order, whether the insert is ignored or not. */
  lemma FireKeepsIds(log: EffectLog, e: Effect, firedAt: string, pid: nat)
    requires KeysUnique(log.rows) && IdsOk(log)
    ensures KeysUnique(Fire(log, e, firedAt, pid).rows) && IdsOk(Fire(log, e, firedAt, pid))
  {
  }

  /** A retry between two effects leaves a gap: the second effect's id is 3, not its place in the log. */
  lemma RetryLeavesGap(a: Effect, b: Effect, at: string, pid: nat)
    requires a.idemKey != b.idemKey
    ensures var log := Fire(Fire(Fire(EffectLog([], 0), a, at, pid), a, at, pid), b, at, pid);
      |log.rows| == 2 && RowId(log.rows, a.idemKey) == 1 && RowId(log.rows, b.idemKey) == 3
  {
    var once := Fire(EffectLog([], 0), a, at, pid);
    assert once.rows == [NewRow(1, a, at, pid)];
    assert once.rows[0] in once.rows;
    var log := Fire(Fire(once, a, at, pid), b, at, pid);
    assert log.rows == [NewRow(1, a, at, pid), NewRow(3, b, at, pid)];
    assert log.rows[1..] == [NewRow(3, b, at, pid)];
  }

  datatype FireResult = FireResult(id: nat, firedAt: string, deduped: bool)

  /** effects.db, written by fireEffect. */
  class Sink {
    var rows: seq<EffectRow>
    var lastId: nat

    function Contents(): EffectLog
      reads this
    {
      EffectLog(rows, lastId)
    }

    constructor ()
      ensures Valid() && Contents() == EffectLog([], 0)
    {
      rows, lastId := [], 0;
    }

    ghost predicate Valid()
      reads this
    {
      KeysUnique(rows) && IdsOk(Contents())
    }

    /** On a repeat the stored id comes back, with the time of the repeat. */
    method FireEffect(e: Effect, now: string, pid: nat) returns (r: FireResult)
      requires Valid()
      modifies this
      ensures Valid() && Contents() == Fire(old(Contents()), e, now, pid)
      ensures r == FireResult(RowId(rows, e.idemKey), now, HasRow(old(rows), e.idemKey))
      ensures exists i | 0 <= i < |rows| :: rows[i].idemKey == e.idemKey && r.id == rows[i].id
    {
      FireKeepsIds(Contents(), e, now, pid);
      hide RowId, IdsAscending;
      var deduped := HasRow(rows, e.idemKey);
      lastId := lastId + 1;
      if !deduped {
        rows := rows + [NewRow(lastId, e, now, pid)];
      }
      r := FireResult(RowId(rows, e.idemKey), now, deduped);
      ghost var i :| 0 <= i < |rows| && rows[i].idemKey == e.idemKey;
      RowIdAt(rows, i);
    }
  }
}
