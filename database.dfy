/** `DatabaseService`: the connection state, the statements the move issues,
    and transactions as a snapshot taken at BEGIN that COMMIT discards and
    ROLLBACK restores. The file I/O of opening and closing the database is
    replaced by its outcome, passed in as a parameter. */
module Store {
  import opened Common
  import opened Schema

  /** The error `ensureInitialized` throws (a plain `Error`, no code). */
  const NotInitialized := StoreError("Database service not initialized. Call initialize() first.", None)

  const NestedBegin := StoreError("SQLITE_ERROR: cannot start a transaction within a transaction", Some("SQLITE_ERROR"))
  const NoTransaction := StoreError("SQLITE_ERROR: cannot commit - no transaction is active", Some("SQLITE_ERROR"))
  const NoRollback := StoreError("SQLITE_ERROR: cannot rollback - no transaction is active", Some("SQLITE_ERROR"))

  /** The circuits `UPDATE circuits SET breaker_id = to WHERE id = ?` leaves
      after it has run once for every id in `ids`. */
  function AssignCircuits(circuits: map<int, Circuit>, ids: seq<int>, to: int): (r: map<int, Circuit>)
    ensures r.Keys == circuits.Keys
    ensures forall c :: c in circuits ==>
      r[c].breakerId == (if c in ids then to else circuits[c].breakerId) &&
      r[c] == circuits[c].(breakerId := r[c].breakerId)
  {
    map c | c in circuits :: if c in ids then circuits[c].(breakerId := to) else circuits[c]
  }

  /** One more UPDATE of the loop re-points one more listed circuit. */
  lemma AssignCircuitsStep(t: Tables, ids: seq<int>, id: int, to: int)
    requires to in t.breakers
    ensures Schema.SetCircuitBreaker(t.(circuits := AssignCircuits(t.circuits, ids, to)), id, to)
         == Ok(t.(circuits := AssignCircuits(t.circuits, ids + [id], to)))
  {
    var u := t.(circuits := AssignCircuits(t.circuits, ids, to));
    var r := Schema.SetCircuitBreaker(u, id, to);
    var want := AssignCircuits(t.circuits, ids + [id], to);
    assert forall c :: c in ids + [id] <==> c in ids || c == id;
    assert r.value.circuits == want;
  }

  class DatabaseService {
    /** `this.db !== null`. */
    var hasConnection: bool
    var isInitialized: bool
    /** The contents of the database file. */
    var tables: Tables
    /** The tables as they were at BEGIN, while a transaction is open. */
    var snapshot: Option<Tables>

    ghost predicate Valid()
      reads this
    {
      Schema.Valid(tables) && (snapshot.Some? ==> Schema.Valid(snapshot.value))
    }

    /** What `ensureInitialized` demands. */
    predicate Ready()
      reads this
    {
      isInitialized && hasConnection
    }

    /** A service over a database file holding `initial`. */
    constructor(initial: Tables)
      requires Schema.Valid(initial)
      ensures Valid() && !Ready() && !hasConnection && !isInitialized
      ensures tables == initial && snapshot == None
    {
      hasConnection := false;
      isInitialized := false;
      tables := initial;
      snapshot := None;
    }

    /** `initialize(dbPath)`: the permission check and the opening of the
        file are I/O, so their failures are parameters. `CREATE TABLE IF NOT
        EXISTS` keeps the rows already in the file. */
    method Initialize(permissionError: Option<StoreError>, openError: Option<StoreError>) returns (r: Result<()>)
      requires Valid()
      modifies this
      ensures Valid() && tables == old(tables) && snapshot == old(snapshot)
      ensures r.Ok? <==> permissionError.None? && openError.None?
      ensures r.Ok? ==> Ready()
      ensures permissionError.Some? ==> r == Err(permissionError.value) && unchanged(this)
      ensures permissionError.None? && openError.Some? ==>
        r == Err(openError.value) && hasConnection && isInitialized == old(isInitialized)
    {
      if permissionError.Some? {
        return Err(permissionError.value);
      }
      hasConnection := true;
      if openError.Some? {
        return Err(openError.value);
      }
      isInitialized := true;
      return Ok(());
    }

    /** `close()`: nothing to do without a connection; a successful close
        clears `isInitialized` but keeps the handle. */
    method Close(closeError: Option<StoreError>) returns (r: Result<()>)
      requires Valid()
      modifies this
      ensures Valid() && tables == old(tables) && snapshot == old(snapshot) && hasConnection == old(hasConnection)
      ensures r.Err? <==> old(hasConnection) && closeError.Some?
      ensures isInitialized == (old(isInitialized) && !(old(hasConnection) && closeError.None?))
      ensures !Ready() || r.Err?
    {
      if !hasConnection {
        return Ok(());
      }
      if closeError.Some? {
        return Err(closeError.value);
      }
      isInitialized := false;
      return Ok(());
    }

    /** `ensureInitialized()`. */
    method EnsureInitialized() returns (r: Result<()>)
      ensures r.Ok? <==> Ready()
      ensures r.Err? ==> r.error == NotInitialized
    {
      if !isInitialized || !hasConnection {
        return Err(NotInitialized);
      }
      return Ok(());
    }

    /** `get('SELECT * FROM breakers WHERE id = ?')`. */
    method GetBreaker(id: int) returns (r: Result<Option<Breaker>>)
      ensures r.Ok? <==> Ready()
      ensures r.Err? ==> r.error == NotInitialized
      ensures r.Ok? ==> (r.value.Some? <==> id in tables.breakers)
      ensures r.Ok? && r.value.Some? ==> r.value.value == tables.breakers[id]
    {
      var ok := EnsureInitialized();
      if ok.Err? {
        return Err(ok.error);
      }
      if id in tables.breakers {
        return Ok(Some(tables.breakers[id]));
      }
      return Ok(None);
    }

    /** `get('SELECT * FROM breakers WHERE panel_id = ? AND position = ? AND
        slot_position = ?')`: the id of the row at that address. */
    method FindBreakerAt(panelId: int, position: int, slotText: string) returns (r: Result<Option<int>>)
      requires Valid()
      ensures r.Ok? <==> Ready()
      ensures r.Err? ==> r.error == NotInitialized
      ensures r.Ok? && r.value.Some? ==>
        r.value.value in tables.breakers && AtAddress(tables.breakers[r.value.value], panelId, position, slotText)
      ensures r.Ok? && r.value.None? ==>
        forall id :: id in tables.breakers ==> !AtAddress(tables.breakers[id], panelId, position, slotText)
    {
      var ok := EnsureInitialized();
      if ok.Err? {
        return Err(ok.error);
      }
      var id := 1;
      while id < tables.nextBreakerId
        invariant 1 <= id <= tables.nextBreakerId
        invariant forall b :: b in tables.breakers && b < id ==>
          !AtAddress(tables.breakers[b], panelId, position, slotText)
      {
        if id in tables.breakers && AtAddress(tables.breakers[id], panelId, position, slotText) {
          return Ok(Some(id));
        }
        id := id + 1;
      }
      return Ok(None);
    }

    /** `all('SELECT * FROM circuits WHERE breaker_id = ?')`, as the ids of
        the rows in the order of the table scan. */
    method CircuitIdsOf(breakerId: int) returns (r: Result<seq<int>>)
      requires Valid()
      ensures r.Ok? <==> Ready()
      ensures r.Err? ==> r.error == NotInitialized
      ensures r.Ok? ==> forall c :: c in r.value <==> c in CircuitsOf(tables.circuits, breakerId)
      ensures r.Ok? ==> forall i, j :: 0 <= i < j < |r.value| ==> r.value[i] < r.value[j]
    {
      var ok := EnsureInitialized();
      if ok.Err? {
        return Err(ok.error);
      }
      var ids: seq<int> := [];
      var id := 1;
      while id < tables.nextCircuitId
        invariant 1 <= id <= tables.nextCircuitId
        invariant forall c :: c in ids <==> c in CircuitsOf(tables.circuits, breakerId) && c < id
        invariant forall i, j :: 0 <= i < j < |ids| ==> ids[i] < ids[j]
        invariant forall i :: 0 <= i < |ids| ==> ids[i] < id
      {
        if id in tables.circuits && tables.circuits[id].breakerId == breakerId {
          ids := ids + [id];
        }
        id := id + 1;
      }
      return Ok(ids);
    }

    /** `run('INSERT INTO breakers ...')`: the new row's id on success; a
        refused row leaves the tables as they were. */
    method InsertBreaker(row: BreakerInsert) returns (r: Result<int>)
      requires Valid()
      modifies this
      ensures Valid() && snapshot == old(snapshot) && Ready() == old(Ready())
      ensures hasConnection == old(hasConnection) && isInitialized == old(isInitialized)
      ensures !old(Ready()) ==> r == Err(NotInitialized) && tables == old(tables)
      ensures old(Ready()) && Schema.InsertBreaker(old(tables), row).Err? ==>
        r == Err(Schema.InsertBreaker(old(tables), row).error) && tables == old(tables)
      ensures old(Ready()) && Schema.InsertBreaker(old(tables), row).Ok? ==>
        r == Ok(old(tables).nextBreakerId) && tables == Schema.InsertBreaker(old(tables), row).value
    {
      var ok := EnsureInitialized();
      if ok.Err? {
        return Err(ok.error);
      }
      var next := Schema.InsertBreaker(tables, row);
      if next.Err? {
        return Err(next.error);
      }
      InsertBreakerKeepsValid(tables, row);
      r := Ok(tables.nextBreakerId);
      tables := next.value;
    }

    /** `run('UPDATE circuits SET breaker_id = ? WHERE id = ?')`. */
    method SetCircuitBreaker(circuitId: int, breakerId: int) returns (r: Result<()>)
      requires Valid()
      modifies this
      ensures Valid() && snapshot == old(snapshot)
      ensures hasConnection == old(hasConnection) && isInitialized == old(isInitialized)
      ensures !old(Ready()) ==> r == Err(NotInitialized) && tables == old(tables)
      ensures old(Ready()) && Schema.SetCircuitBreaker(old(tables), circuitId, breakerId).Err? ==>
        r == Err(Schema.SetCircuitBreaker(old(tables), circuitId, breakerId).error) && tables == old(tables)
      ensures old(Ready()) && Schema.SetCircuitBreaker(old(tables), circuitId, breakerId).Ok? ==>
        r == Ok(()) && tables == Schema.SetCircuitBreaker(old(tables), circuitId, breakerId).value
    {
      var ok := EnsureInitialized();
      if ok.Err? {
        return Err(ok.error);
      }
      var next := Schema.SetCircuitBreaker(tables, circuitId, breakerId);
      if next.Err? {
        return Err(next.error);
      }
      SetCircuitBreakerKeepsValid(tables, circuitId, breakerId);
      tables := next.value;
      return Ok(());
    }

    /** The `for (const circuit of ...)` loops of the move: one UPDATE per
        circuit id, each to a breaker that exists, so none is refused. */
    method ReassignCircuits(ids: seq<int>, to: int)
      requires Valid() && Ready() && to in tables.breakers
      modifies this
      ensures Valid() && Ready() && snapshot == old(snapshot)
      ensures hasConnection == old(hasConnection) && isInitialized == old(isInitialized)
      ensures tables == old(tables).(circuits := AssignCircuits(old(tables).circuits, ids, to))
    {
      for k := 0 to |ids|
        invariant Valid() && Ready() && snapshot == old(snapshot)
        invariant hasConnection == old(hasConnection) && isInitialized == old(isInitialized)
        invariant tables == old(tables).(circuits := AssignCircuits(old(tables).circuits, ids[..k], to))
      {
        AssignCircuitsStep(old(tables), ids[..k], ids[k], to);
        var _ := SetCircuitBreaker(ids[k], to);
        assert ids[..k + 1] == ids[..k] + [ids[k]];
      }
      assert ids[..|ids|] == ids;
    }

    /** `run('DELETE FROM breakers WHERE id = ?')`, with the cascade. */
    method DeleteBreaker(id: int) returns (r: Result<()>)
      requires Valid()
      modifies this
      ensures Valid() && snapshot == old(snapshot)
      ensures hasConnection == old(hasConnection) && isInitialized == old(isInitialized)
      ensures r.Ok? <==> old(Ready())
      ensures r.Err? ==> r.error == NotInitialized && tables == old(tables)
      ensures r.Ok? ==> tables == Schema.DeleteBreaker(old(tables), id)
    {
      var ok := EnsureInitialized();
      if ok.Err? {
        return Err(ok.error);
      }
      DeleteBreakerKeepsValid(tables, id);
      tables := Schema.DeleteBreaker(tables, id);
      return Ok(());
    }

    /** `run('BEGIN TRANSACTION')`: remember the tables as they are now. */
    method Begin() returns (r: Result<()>)
      requires Valid()
      modifies this
      ensures Valid() && tables == old(tables)
      ensures hasConnection == old(hasConnection) && isInitialized == old(isInitialized)
      ensures !old(Ready()) ==> r == Err(NotInitialized) && snapshot == old(snapshot)
      ensures old(Ready()) && old(snapshot).Some? ==> r == Err(NestedBegin) && snapshot == old(snapshot)
      ensures old(Ready()) && old(snapshot).None? ==> r == Ok(()) && snapshot == Some(tables)
    {
      var ok := EnsureInitialized();
      if ok.Err? {
        return Err(ok.error);
      }
      if snapshot.Some? {
        return Err(NestedBegin);
      }
      snapshot := Some(tables);
      return Ok(());
    }

    /** `run('COMMIT')`: keep the tables, forget the snapshot. */
    method Commit() returns (r: Result<()>)
      requires Valid()
      modifies this
      ensures Valid() && tables == old(tables)
      ensures hasConnection == old(hasConnection) && isInitialized == old(isInitialized)
      ensures !old(Ready()) ==> r == Err(NotInitialized) && snapshot == old(snapshot)
      ensures old(Ready()) && old(snapshot).None? ==> r == Err(NoTransaction) && snapshot == None
      ensures old(Ready()) && old(snapshot).Some? ==> r == Ok(()) && snapshot == None
    {
      var ok := EnsureInitialized();
      if ok.Err? {
        return Err(ok.error);
      }
      if snapshot.None? {
        return Err(NoTransaction);
      }
      snapshot := None;
      return Ok(());
    }

    /** `run('ROLLBACK')`: put back the tables of BEGIN. */
    method Rollback() returns (r: Result<()>)
      requires Valid()
      modifies this
      ensures Valid()
      ensures hasConnection == old(hasConnection) && isInitialized == old(isInitialized)
      ensures !old(Ready()) ==> r == Err(NotInitialized) && snapshot == old(snapshot) && tables == old(tables)
      ensures old(Ready()) && old(snapshot).None? ==> r == Err(NoRollback) && snapshot == None && tables == old(tables)
      ensures old(Ready()) && old(snapshot).Some? ==> r == Ok(()) && snapshot == None && tables == old(snapshot).value
    {
      var ok := EnsureInitialized();
      if ok.Err? {
        return Err(ok.error);
      }
      if snapshot.None? {
        return Err(NoRollback);
      }
      tables := snapshot.value;
      snapshot := None;
      return Ok(());
    }
  }
}
