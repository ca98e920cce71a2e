/**
  TestBase's cleanup ledger: the lazily created delete data set that the
  delete helpers fill with (table, select) entries, and the teardown that
  hands it to the data store and drops it. The store is a record of the
  teardowns it was given; what DbUnit then does with each is not modelled.
 */
module Ledger {
  import opened Wrappers
  import opened JavaText
  import opened Queries
  import Fixtures

  /** DbUnit's DatabaseOperation constants. */
  datatype DatabaseOperation =
    | Delete | DeleteAll | Insert | CleanInsert | Refresh | Update | TruncateTable | NoOperation

  /** Why recording an entry fails: the data set already has a table of that
      name, or the query template could not be formatted. */
  datatype LedgerError = AmbiguousTableName(table: string) | IllegalFormat(cause: FormatError)

  /** One teardown the data store was asked to perform. */
  datatype StoreEvent = TornDown(dataSet: seq<Entry>, op: DatabaseOperation)

  /** DbUnit's QueryDataSet, reduced to its ordered list of tables. */
  class QueryDataSet {
    var tables: seq<Entry>

    constructor ()
      ensures tables == []
    {
      tables := [];
    }

    /** addTable: appends the table, refusing a name it already holds. */
    method AddTable(name: string, query: string) returns (r: Outcome<LedgerError>)
      modifies this
      ensures name in TableNames(old(tables)) ==> r == Fail(AmbiguousTableName(name)) && tables == old(tables)
      ensures name !in TableNames(old(tables)) ==> r == Pass && tables == old(tables) + [Entry(name, query)]
    {
      if name in TableNames(tables) {
        r := Fail(AmbiguousTableName(name));
      } else {
        tables := tables + [Entry(name, query)];
        r := Pass;
      }
    }
  }

  /** addSimpleQuery: records table with the select keyed on column = id. */
  method AddSimpleQuery(ds: QueryDataSet, table: string, column: string, id: string)
    returns (r: Outcome<LedgerError>)
    modifies ds
    ensures SimpleSelect(table, column, id).Err? ==>
      r == Fail(IllegalFormat(SimpleSelect(table, column, id).error)) && ds.tables == old(ds.tables)
    ensures SimpleSelect(table, column, id).Ok? && table in TableNames(old(ds.tables)) ==>
      r == Fail(AmbiguousTableName(table)) && ds.tables == old(ds.tables)
    ensures SimpleSelect(table, column, id).Ok? && table !in TableNames(old(ds.tables)) ==>
      r == Pass && ds.tables == old(ds.tables) + [Entry(table, SimpleSelect(table, column, id).value)]
  {
    var query := FormatQuery(SimpleQuery(table, column), id);
    if query.Err? {
      r := Fail(IllegalFormat(query.error));
      return;
    }
    r := ds.AddTable(table, query.value);
  }

  /** Bookkeeping for a run of additions expected to end in goal: while
      they succeed, what is left of the run still leads to goal; once one
      fails, goal is that failure. */
  ghost predicate Tracks(goal: AddResult, tables: seq<Entry>, todo: seq<Entry>, r: Outcome<LedgerError>) {
    if r.Pass? then goal == AddTables(tables, todo)
    else goal.Ambiguous? && goal.entries == tables && r == Fail(AmbiguousTableName(goal.table))
  }

  /** One addTable of a run expected to end in goal, adds[k] being the
      entry it records. */
  method AddTableNext(ds: QueryDataSet, table: string, query: string,
                      ghost goal: AddResult, ghost adds: seq<Entry>, ghost k: nat)
    returns (r: Outcome<LedgerError>)
    requires k < |adds| && adds[k] == Entry(table, query)
    requires goal == AddTables(ds.tables, adds[k..])
    modifies ds
    ensures Tracks(goal, ds.tables, adds[k + 1..], r)
  {
    assert adds[k..][0] == adds[k] && adds[k..][1..] == adds[k + 1..];
    r := ds.AddTable(table, query);
  }

  /** One addSimpleQuery of a run expected to end in goal, adds[k] being
      the entry its select yields. */
  method AddSimpleQueryNext(ds: QueryDataSet, table: string, column: string, id: string,
                            ghost goal: AddResult, ghost adds: seq<Entry>, ghost k: nat)
    returns (r: Outcome<LedgerError>)
    requires k < |adds| && adds[k].table == table && SimpleSelect(table, column, id) == Ok(adds[k].query)
    requires goal == AddTables(ds.tables, adds[k..])
    modifies ds
    ensures Tracks(goal, ds.tables, adds[k + 1..], r)
  {
    assert adds[k..][0] == adds[k] && adds[k..][1..] == adds[k + 1..];
    r := AddSimpleQuery(ds, table, column, id);
  }

  /** The six additions of deleteUser for the person, in order: they leave
      what AddTables says, stopping at the first table already held. */
  method AddPersonTables(ds: QueryDataSet, personId: string) returns (r: Outcome<LedgerError>)
    modifies ds
    ensures Tracks(AddTables(old(ds.tables), PersonObligations(personId)), ds.tables, [], r)
  {
    ghost var adds := PersonObligations(personId);
    ghost var goal := AddTables(ds.tables, adds);
    PersonSelectsText(personId);
    PhoneticsSelectText(personId);
    r := AddSimpleQueryNext(ds, "person", PERSON_KEY, personId, goal, adds, 0);
    if r.Fail? { return; }
    r := AddSimpleQueryNext(ds, "provider", PERSON_KEY, personId, goal, adds, 1);
    if r.Fail? { return; }
    r := AddSimpleQueryNext(ds, "person_name", PERSON_KEY, personId, goal, adds, 2);
    if r.Fail? { return; }
    r := AddSimpleQueryNext(ds, "person_address", PERSON_KEY, personId, goal, adds, 3);
    if r.Fail? { return; }
    var phonetics := FormatQuery(PHONETICS_TEMPLATE, personId);
    r := AddTableNext(ds, "name_phonetics", phonetics.value, goal, adds, 4);
    if r.Fail? { return; }
    r := AddSimpleQueryNext(ds, "person_attribute", PERSON_KEY, personId, goal, adds, 5);
    if r.Fail? { return; }
    assert adds[6..] == [];
  }

  /** The three additions of deleteUser for the user account, in order. */
  method AddAccountTables(ds: QueryDataSet, userId: string) returns (r: Outcome<LedgerError>)
    modifies ds
    ensures Tracks(AddTables(old(ds.tables), AccountObligations(userId)), ds.tables, [], r)
  {
    ghost var adds := AccountObligations(userId);
    ghost var goal := AddTables(ds.tables, adds);
    AccountSelectsText(userId);
    r := AddSimpleQueryNext(ds, "users", USER_KEY, userId, goal, adds, 0);
    if r.Fail? { return; }
    r := AddSimpleQueryNext(ds, "user_role", USER_KEY, userId, goal, adds, 1);
    if r.Fail? { return; }
    r := AddSimpleQueryNext(ds, "user_property", USER_KEY, userId, goal, adds, 2);
    if r.Fail? { return; }
    assert adds[3..] == [];
  }

  /** The static state of TestBase that the cleanup helpers share. */
  class CleanupLedger {
    var deleteDataSet: QueryDataSet?
    var checkDataSet: QueryDataSet?
    /** The teardowns handed to the data store, oldest first. */
    var store: seq<StoreEvent>

    /** The entries a teardown would now hand over; none while the delete
        data set is absent. */
    ghost function Pending(): seq<Entry>
      reads this, deleteDataSet
    {
      if deleteDataSet == null then [] else deleteDataSet.tables
    }

    constructor ()
      ensures deleteDataSet == null && checkDataSet == null && store == []
    {
      deleteDataSet := null;
      checkDataSet := null;
      store := [];
    }

    /** getDeleteDataSet: creates an empty data set only when there is none,
        otherwise hands back the one that exists, so that successive
        additions accumulate in one data set. */
    method GetDeleteDataSet() returns (ds: QueryDataSet)
      modifies this
      ensures old(deleteDataSet) == null ==> fresh(ds) && ds.tables == []
      ensures old(deleteDataSet) != null ==> ds == old(deleteDataSet)
      ensures deleteDataSet == ds && checkDataSet == old(checkDataSet) && store == old(store)
    {
      if deleteDataSet == null {
        deleteDataSet := new QueryDataSet();
      }
      ds := deleteDataSet;
    }

    /** getCheckDataSet: the same lazy creation for the check data set. */
    method GetCheckDataSet() returns (ds: QueryDataSet)
      modifies this
      ensures old(checkDataSet) == null ==> fresh(ds) && ds.tables == []
      ensures old(checkDataSet) != null ==> ds == old(checkDataSet)
      ensures checkDataSet == ds && deleteDataSet == old(deleteDataSet) && store == old(store)
    {
      if checkDataSet == null {
        checkDataSet := new QueryDataSet();
      }
      ds := checkDataSet;
    }

    /** dbUnitTearDownStatic(op): without a delete data set, nothing happens;
        otherwise the store is handed its entries with op, and the data set
        is dropped. In both cases the ledger is absent afterwards. */
    method DbUnitTearDownStatic(op: DatabaseOperation)
      modifies this
      ensures deleteDataSet == null && checkDataSet == old(checkDataSet)
      ensures old(deleteDataSet) == null ==> store == old(store)
      ensures old(deleteDataSet) != null ==> store == old(store) + [TornDown(old(deleteDataSet.tables), op)]
    {
      if deleteDataSet == null {
        return;
      }
      store := store + [TornDown(deleteDataSet.tables, op)];
      deleteDataSet := null;
    }

    /** The argument-less dbUnitTearDownStatic: a teardown with DELETE. */
    method DbUnitTearDown()
      modifies this
      ensures deleteDataSet == null && checkDataSet == old(checkDataSet)
      ensures store == old(store) + (if old(deleteDataSet) == null then [] else [TornDown(old(deleteDataSet.tables), Delete)])
    {
      DbUnitTearDownStatic(Delete);
    }

    /** Two teardowns with nothing recorded in between: the second hands
        nothing to the store. */
    method TearDownTwice(op1: DatabaseOperation, op2: DatabaseOperation)
      modifies this
      ensures deleteDataSet == null
      ensures store == old(store) + (if old(deleteDataSet) == null then [] else [TornDown(old(deleteDataSet.tables), op1)])
    {
      DbUnitTearDownStatic(op1);
      DbUnitTearDownStatic(op2);
    }

    /** deleteUser: records the nine cleanup entries of a user and the person
        behind it, then tears down with DELETE. Recording stops, without a
        teardown, at the first table the data set already holds. */
    method DeleteUser(personId: string, userId: string) returns (r: Outcome<LedgerError>)
      modifies this, deleteDataSet
      ensures checkDataSet == old(checkDataSet)
      ensures match AddTables(old(Pending()), UserObligations(personId, userId))
        case Added(es) =>
          r == Pass && deleteDataSet == null && store == old(store) + [TornDown(es, Delete)]
        case Ambiguous(t, es) =>
          r == Fail(AmbiguousTableName(t)) && deleteDataSet != null && deleteDataSet.tables == es &&
          (old(deleteDataSet) != null ==> deleteDataSet == old(deleteDataSet)) && store == old(store)
    {
      var ds := GetDeleteDataSet();
      AddTablesAppend(ds.tables, PersonObligations(personId), AccountObligations(userId));
      r := AddPersonTables(ds, personId);
      if r.Fail? { return; }
      r := AddAccountTables(ds, userId);
      if r.Fail? { return; }
      DbUnitTearDown();
    }

    /** deleteRole: a role this framework did not create is left alone, with
        the ledger and the store untouched; a created one is recorded by its
        double-quoted uuid and torn down with DELETE. */
    method DeleteRole(role: Fixtures.RoleInfo) returns (r: Outcome<LedgerError>)
      modifies this, deleteDataSet
      ensures checkDataSet == old(checkDataSet)
      ensures !role.created ==>
        r == Pass && deleteDataSet == old(deleteDataSet) && Pending() == old(Pending()) && store == old(store)
      ensures role.created ==> match AddTables(old(Pending()), [RoleObligation(role.uuid)])
        case Added(es) =>
          r == Pass && deleteDataSet == null && store == old(store) + [TornDown(es, Delete)]
        case Ambiguous(t, es) =>
          r == Fail(AmbiguousTableName(t)) && deleteDataSet != null && deleteDataSet.tables == es &&
          (old(deleteDataSet) != null ==> deleteDataSet == old(deleteDataSet)) && store == old(store)
    {
      if !role.created {
        return Pass;
      }
      var ds := GetDeleteDataSet();
      SimpleSelectText("role", "uuid", QuotedUuid(role.uuid));
      r := AddSimpleQuery(ds, "role", "uuid", QuotedUuid(role.uuid));
      if r.Fail? { return; }
      DbUnitTearDown();
    }
  }
}
