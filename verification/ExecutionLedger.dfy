/**
 The table behind the tool execution ledger, one function per SQL statement. The key is unique; the
 account is a filter of the statements that read or update a row, not part of the key.

 The arguments digest is modelled by the canonical text it is computed from.
 */
module ExecutionLedger {
  import opened Options

  datatype Key = Key(trace: string, call: string)

  datatype RowStatus = Running | Completed | Failed

  datatype Row = Row(
    tool: string,
    digest: string,
    status: RowStatus,
    result: Option<string>,
    error: Option<string>,
    account: int)

  type Table = map<Key, Row>

  /** The three columns an outcome writes. */
  datatype Outcome = Outcome(status: RowStatus, result: Option<string>, error: Option<string>)

  function NewRow(tool: string, digest: string, account: int): Row {
    Row(tool, digest, Running, None, None, account)
  }

  /** `INSERT IGNORE ... 'running'`. */
  function InsertIgnore(t: Table, key: Key, row: Row): Table {
    if key in t then t else t[key := row]
  }

  /** Whether `UPDATE ... AND account_id = ? AND status = 'running'` changes a row. */
  predicate Updates(t: Table, key: Key, account: int) {
    key in t && t[key].account == account && t[key].status == Running
  }

  function Settle(t: Table, key: Key, account: int, o: Outcome): Table {
    if Updates(t, key, account)
    then t[key := t[key].(status := o.status, result := o.result, error := o.error)]
    else t
  }

  function Select(t: Table, key: Key, account: int): Option<Row> {
    if key in t && t[key].account == account then Some(t[key]) else None
  }

  /** What complete, fail and resolve write: content with a completion, an error text with a failure. */
  predicate GoodOutcome(o: Outcome) {
    && o.status != Running
    && (o.status == Completed ==> o.result.Some? && o.error.None?)
    && (o.status == Failed ==> o.result.None? && o.error.Some?)
  }

  ghost predicate GoodTable(t: Table) {
    forall k :: k in t ==>
                  && (t[k].status == Completed ==> t[k].result.Some?)
                  && (t[k].status == Failed ==> t[k].error.Some?)
  }

  /** How a table may develop: rows stay, keep their identity, and keep an outcome once they have one. */
  ghost predicate Grows(t: Table, t': Table) {
    forall k :: k in t ==>
                  && k in t'
                  && t'[k].tool == t[k].tool && t'[k].digest == t[k].digest && t'[k].account == t[k].account
                  && (t[k].status != Running ==> t'[k] == t[k])
  }

  lemma GrowsTransitive(t: Table, t': Table, t'': Table)
    requires Grows(t, t') && Grows(t', t'')
    ensures Grows(t, t'')
  {
    forall k | k in t
      ensures k in t'' && t''[k].tool == t[k].tool && t''[k].digest == t[k].digest && t''[k].account == t[k].account
      ensures t[k].status != Running ==> t''[k] == t[k]
    {
      assert k in t';
    }
  }
}
