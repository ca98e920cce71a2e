/**
  The text of the cleanup selects TestBase records, and what recording a
  run of them in one QueryDataSet yields.
 */
module Queries {
  import opened Wrappers
  import opened JavaText

  /** One table of a QueryDataSet: its name and the select that picks the
      rows a teardown operation applies to. */
  datatype Entry = Entry(table: string, query: string)

  /** simpleQuery: a format template with one %s for the key value. */
  function SimpleQuery(table: string, column: string): string {
    "select * from " + table + " where " + column + " = %s"
  }

  /** formatQuery: String.format(query, id). */
  function FormatQuery(query: string, id: string): Result<string, FormatError> {
    Format(query, id)
  }

  /** The select addSimpleQuery builds. */
  function SimpleSelect(table: string, column: string, id: string): Result<string, FormatError> {
    FormatQuery(SimpleQuery(table, column), id)
  }

  /** The select that picks the rows of table whose column equals id. */
  function KeyedSelect(table: string, column: string, id: string): string {
    "select * from " + table + " where " + column + " = " + id
  }

  /** The template deleteUser formats for name_phonetics, up to its %s:
      "select * from name_phonetics where person_name_id in (select
      person_name_id from person_name where person_id = ". */
  const PHONETICS_PREFIX: string :=
    "select * from name_phonetics" + " where person_name_id in (" + "select person_name_id"
    + " from person_name" + " where person_id = "

  /** The whole name_phonetics template. */
  const PHONETICS_TEMPLATE: string := PHONETICS_PREFIX + "%s)"

  /** The name_phonetics select for one person, as text. */
  function PhoneticsSelect(personId: string): string {
    PHONETICS_PREFIX + personId + ")"
  }

  /** For table and column names without '%', addSimpleQuery's select is
      exactly the keyed select with the id in place of the %s, whatever the
      id contains. */
  lemma SimpleSelectText(table: string, column: string, id: string)
    requires NoPercent(table) && NoPercent(column)
    ensures SimpleSelect(table, column, id) == Ok(KeyedSelect(table, column, id))
  {
    var a := "select * from " + table + " where " + column + " = ";
    assert NoPercent(a);
    assert SimpleQuery(table, column) == a + "%s" + "";
    FormatOneSlot(a, "", id);
    assert a + id + "" == KeyedSelect(table, column, id);
  }

  /** The name_phonetics template formats to the subquery on person_id. */
  lemma PhoneticsSelectText(personId: string)
    ensures FormatQuery(PHONETICS_TEMPLATE, personId) == Ok(PhoneticsSelect(personId))
  {
    var a1, a2, a3 := "select * from name_phonetics", " where person_name_id in (", "select person_name_id";
    var a4, a5 := " from person_name", " where person_id = ";
    assert NoPercent(a1) && NoPercent(a2) && NoPercent(a3) && NoPercent(a4) && NoPercent(a5);
    assert PHONETICS_PREFIX == a1 + a2 + a3 + a4 + a5;
    assert NoPercent(PHONETICS_PREFIX);
    assert PHONETICS_TEMPLATE == PHONETICS_PREFIX + "%s" + ")";
    FormatOneSlot(PHONETICS_PREFIX, ")", personId);
  }

  const PERSON_KEY := "person_id"
  const USER_KEY := "user_id"

  /** The entries deleteUser records for the person, in order. */
  function PersonObligations(personId: string): seq<Entry> {
    [ Entry("person", KeyedSelect("person", PERSON_KEY, personId)),
      Entry("provider", KeyedSelect("provider", PERSON_KEY, personId)),
      Entry("person_name", KeyedSelect("person_name", PERSON_KEY, personId)),
      Entry("person_address", KeyedSelect("person_address", PERSON_KEY, personId)),
      Entry("name_phonetics", PhoneticsSelect(personId)),
      Entry("person_attribute", KeyedSelect("person_attribute", PERSON_KEY, personId)) ]
  }

  /** The entries deleteUser records for the user account, in order. */
  function AccountObligations(userId: string): seq<Entry> {
    [ Entry("users", KeyedSelect("users", USER_KEY, userId)),
      Entry("user_role", KeyedSelect("user_role", USER_KEY, userId)),
      Entry("user_property", KeyedSelect("user_property", USER_KEY, userId)) ]
  }

  /** The nine entries deleteUser records, in order. */
  function UserObligations(personId: string, userId: string): seq<Entry> {
    PersonObligations(personId) + AccountObligations(userId)
  }

  /** Each of deleteUser's simple selects on the person formats to its
      keyed select. */
  lemma PersonSelectsText(personId: string)
    ensures SimpleSelect("person", PERSON_KEY, personId) == Ok(KeyedSelect("person", PERSON_KEY, personId))
    ensures SimpleSelect("provider", PERSON_KEY, personId) == Ok(KeyedSelect("provider", PERSON_KEY, personId))
    ensures SimpleSelect("person_name", PERSON_KEY, personId) == Ok(KeyedSelect("person_name", PERSON_KEY, personId))
    ensures SimpleSelect("person_address", PERSON_KEY, personId) == Ok(KeyedSelect("person_address", PERSON_KEY, personId))
    ensures SimpleSelect("person_attribute", PERSON_KEY, personId) == Ok(KeyedSelect("person_attribute", PERSON_KEY, personId))
  {
    SimpleSelectText("person", PERSON_KEY, personId);
    SimpleSelectText("provider", PERSON_KEY, personId);
    SimpleSelectText("person_name", PERSON_KEY, personId);
    SimpleSelectText("person_address", PERSON_KEY, personId);
    SimpleSelectText("person_attribute", PERSON_KEY, personId);
  }

  /** Each of deleteUser's simple selects on the account formats to its
      keyed select. */
  lemma AccountSelectsText(userId: string)
    ensures SimpleSelect("users", USER_KEY, userId) == Ok(KeyedSelect("users", USER_KEY, userId))
    ensures SimpleSelect("user_role", USER_KEY, userId) == Ok(KeyedSelect("user_role", USER_KEY, userId))
    ensures SimpleSelect("user_property", USER_KEY, userId) == Ok(KeyedSelect("user_property", USER_KEY, userId))
  {
    SimpleSelectText("users", USER_KEY, userId);
    SimpleSelectText("user_role", USER_KEY, userId);
    SimpleSelectText("user_property", USER_KEY, userId);
  }

  /** The value deleteRole matches the role's uuid column against: the uuid
      in double quotes, or "null" in them when the uuid was never set. */
  function QuotedUuid(uuid: Option<string>): string {
    "\"" + (match uuid case Some(u) => u case None => "null") + "\""
  }

  /** The one entry deleteRole records. */
  function RoleObligation(uuid: Option<string>): Entry {
    Entry("role", KeyedSelect("role", "uuid", QuotedUuid(uuid)))
  }

  function TableNames(entries: seq<Entry>): set<string> {
    set e | e in entries :: e.table
  }

  predicate DistinctTables(entries: seq<Entry>) {
    forall i, j :: 0 <= i < j < |entries| ==> entries[i].table != entries[j].table
  }

  /** What a run of addTable calls leaves: all entries added, or the name
      of the first table already present and the entries recorded before it. */
  datatype AddResult = Added(entries: seq<Entry>) | Ambiguous(table: string, entries: seq<Entry>)

  /** addTable applied to each of adds in turn, stopping at the first one
      whose table name the data set already holds. */
  function AddTables(entries: seq<Entry>, adds: seq<Entry>): AddResult
    decreases |adds|
  {
    if adds == [] then Added(entries)
    else if adds[0].table in TableNames(entries) then Ambiguous(adds[0].table, entries)
    else AddTables(entries + [adds[0]], adds[1..])
  }

  /** Appending an entry whose table is new keeps table names distinct. */
  lemma DistinctSnoc(entries: seq<Entry>, e: Entry)
    requires DistinctTables(entries) && e.table !in TableNames(entries)
    ensures DistinctTables(entries + [e])
  {
    var next := entries + [e];
    forall i, j | 0 <= i < j < |next| ensures next[i].table != next[j].table {
      if j == |entries| {
        assert entries[i] in entries;
      }
    }
  }

  /** A run of additions never records a table twice. */
  lemma {:induction false} AddTablesDistinct(entries: seq<Entry>, adds: seq<Entry>)
    requires DistinctTables(entries)
    ensures DistinctTables(AddTables(entries, adds).entries)
    decreases |adds|
  {
    if adds != [] && adds[0].table !in TableNames(entries) {
      DistinctSnoc(entries, adds[0]);
      AddTablesDistinct(entries + [adds[0]], adds[1..]);
    }
  }

  /** A run of additions only ever appends a prefix of adds, in order; it
      completes exactly when it appends all of them, and it stops only at
      a table that is already present. */
  lemma {:induction false} AddTablesShape(entries: seq<Entry>, adds: seq<Entry>)
    ensures var r := AddTables(entries, adds);
      (r.Added? ==> r.entries == entries + adds) &&
      (r.Ambiguous? ==>
         r.table in TableNames(r.entries) &&
         exists k :: 0 <= k < |adds| && r.entries == entries + adds[..k] && r.table == adds[k].table)
    decreases |adds|
  {
    if adds == [] {
      assert entries + adds == entries;
    } else if adds[0].table in TableNames(entries) {
      assert entries + adds[..0] == entries;
    } else {
      var next := entries + [adds[0]];
      AddTablesShape(next, adds[1..]);
      var r := AddTables(next, adds[1..]);
      assert next + adds[1..] == entries + adds;
      if r.Ambiguous? {
        var k :| 0 <= k < |adds[1..]| && r.entries == next + adds[1..][..k] && r.table == adds[1..][k].table;
        assert next + adds[1..][..k] == entries + adds[..k + 1];
      }
    }
  }

  /** Both of the above for one run on distinct entries. */
  lemma AddTablesPrefix(entries: seq<Entry>, adds: seq<Entry>)
    requires DistinctTables(entries)
    ensures var r := AddTables(entries, adds);
      DistinctTables(r.entries) &&
      (r.Added? ==> r.entries == entries + adds) &&
      (r.Ambiguous? ==>
         r.table in TableNames(r.entries) &&
         exists k :: 0 <= k < |adds| && r.entries == entries + adds[..k] && r.table == adds[k].table)
  {
    AddTablesDistinct(entries, adds);
    AddTablesShape(entries, adds);
  }

  /** A run of additions over a + b is the run over a, continued over b
      when it completed. */
  lemma {:induction false} AddTablesAppend(entries: seq<Entry>, a: seq<Entry>, b: seq<Entry>)
    ensures AddTables(entries, a + b) ==
            match AddTables(entries, a)
            case Added(es) => AddTables(es, b)
            case Ambiguous(t, es) => Ambiguous(t, es)
    decreases |a|
  {
    if a == [] {
      assert a + b == b;
    } else {
      assert (a + b)[0] == a[0] && (a + b)[1..] == a[1..] + b;
      if a[0].table !in TableNames(entries) {
        AddTablesAppend(entries + [a[0]], a[1..], b);
      }
    }
  }

  /** Entries with distinct tables, none already present, are all added. */
  lemma {:induction false} AddTablesDisjoint(entries: seq<Entry>, adds: seq<Entry>)
    requires DistinctTables(adds)
    requires forall e :: e in adds ==> e.table !in TableNames(entries)
    ensures AddTables(entries, adds) == Added(entries + adds)
    decreases |adds|
  {
    if adds == [] {
      assert entries + adds == entries;
    } else {
      var next := entries + [adds[0]];
      assert adds[0] in adds;
      forall e | e in adds[1..] ensures e.table !in TableNames(next) {
        var k :| 0 <= k < |adds[1..]| && adds[1..][k] == e;
        assert adds[k + 1] == e;
        assert e.table != adds[0].table;
        assert e in adds;
      }
      assert DistinctTables(adds[1..]) by {
        forall i, j | 0 <= i < j < |adds[1..]| ensures adds[1..][i].table != adds[1..][j].table {
          assert adds[1..][i] == adds[i + 1] && adds[1..][j] == adds[j + 1];
        }
      }
      AddTablesDisjoint(next, adds[1..]);
      assert next + adds[1..] == entries + adds;
    }
  }

  /** deleteUser's nine entries name nine different tables. */
  lemma UserObligationsDistinct(personId: string, userId: string)
    ensures |UserObligations(personId, userId)| == 9
    ensures DistinctTables(UserObligations(personId, userId))
  {
  }

  /** When the ledger holds none of deleteUser's tables (in particular
      when it is empty), all nine entries are added after what it holds. */
  lemma UserObligationsAdded(entries: seq<Entry>, personId: string, userId: string)
    requires forall e :: e in UserObligations(personId, userId) ==> e.table !in TableNames(entries)
    ensures AddTables(entries, UserObligations(personId, userId)) ==
            Added(entries + UserObligations(personId, userId))
  {
    UserObligationsDistinct(personId, userId);
    AddTablesDisjoint(entries, UserObligations(personId, userId));
  }
}
