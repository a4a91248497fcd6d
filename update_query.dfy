/** The partial-update helper of the backend (`prepareUpdateQuery`): it turns
    the fields a caller wants changed into the SET fragment of a
    parameterised SQL UPDATE and the list of values for its placeholders. */
module UpdateQuery {
  import opened Wrappers
  import opened Strings
  import opened ExpressErrors

  /** `dataToUpdate`: its own enumerable keys, in key order, with their
      values. Nothing here depends on the keys being distinct. */
  type Payload<V> = seq<(string, V)>

  /** `jsToSql`: JavaScript field name to database column name. */
  type ColumnTable = map<string, string>

  /** What the helper returns: `{ setColumns, values }`. */
  datatype UpdateQuery<V> = UpdateQuery(setColumns: string, values: seq<V>)

  /** `jsToSql[key] || key`: a missing entry and an empty column name (the only
      falsy string) both fall back to the key itself. */
  function ColumnName(jsToSql: ColumnTable, key: string): (column: string)
    ensures column == key || (key in jsToSql && column == jsToSql[key])
    ensures column == "" ==> key == ""
  {
    if key in jsToSql && jsToSql[key] != "" then jsToSql[key] else key
  }

  /** The clause for the key at 0-based position `idx`: `"<column>"=$<idx+1>`.
      The column sits verbatim right after the opening quote, and the clause
      holds a comma only if the column does. */
  function Clause(column: string, idx: nat): (c: string)
    ensures |c| > |column| + 4 && c[0] == '"' && c[1..|column| + 1] == column
    ensures ',' !in column ==> ',' !in c
  {
    "\"" + column + "\"=$" + NatToString(idx + 1)
  }

  /** `Object.keys(dataToUpdate)`: every key once per entry, in key order;
      no keys exactly when the payload is empty. */
  function Keys<V>(data: Payload<V>): (keys: seq<string>)
    ensures |keys| == |data|
    ensures forall i :: 0 <= i < |data| ==> keys[i] == data[i].0
    ensures keys == [] <==> data == []
  {
    seq(|data|, i requires 0 <= i < |data| => data[i].0)
  }

  /** `Object.values(dataToUpdate)`, in the same order as the keys: the i-th
      value is the one stored under the i-th key. */
  function Values<V>(data: Payload<V>): (values: seq<V>)
    ensures |values| == |Keys(data)|
    ensures forall i :: 0 <= i < |values| ==> (Keys(data)[i], values[i]) == data[i]
  {
    seq(|data|, i requires 0 <= i < |data| => data[i].1)
  }

  /** `keys.map((columnName, idx) => ...)`: one clause per key, in key order,
      each quoting the column its key resolves to. */
  function Clauses<V>(data: Payload<V>, jsToSql: ColumnTable): (clauses: seq<string>)
    ensures |clauses| == |Keys(data)|
    ensures forall i :: 0 <= i < |clauses| ==>
              var column := ColumnName(jsToSql, Keys(data)[i]);
              |clauses[i]| > |column| + 4 && clauses[i][1..|column| + 1] == column
              && (PlainColumn(column) ==> ',' !in clauses[i])
  {
    seq(|data|, i requires 0 <= i < |data| => Clause(ColumnName(jsToSql, data[i].0), i))
  }

  /** `prepareUpdateQuery(dataToUpdate, jsToSql)`; the thrown error is the
      `Failure` branch. */
  function PrepareUpdateQuery<V>(data: Payload<V>, jsToSql: ColumnTable): (r: Result<UpdateQuery<V>, ExpressError>)
    ensures r.Failure? <==> |data| == 0
    ensures r.Failure? ==> r.error == NoData
    ensures r.Success? ==> |r.value.values| == |Keys(data)| == |data|
    ensures r.Success? ==> forall i :: 0 <= i < |data| ==> r.value.values[i] == data[i].1
  {
    var keys := Keys(data);
    if |keys| == 0 then Failure(NoData)
    else Success(UpdateQuery(Join(Clauses(data, jsToSql), ", "), Values(data)))
  }

  /** A column name the fragment can be read back from: no double quote
      (which ends the quoted name) and no comma (which separates clauses). */
  predicate PlainColumn(column: string) {
    '"' !in column && ',' !in column
  }

  /** Reads one clause `"<column>"=$<n>` back into `(column, n)`. */
  function ParseClause(c: string): Option<(string, nat)> {
    if |c| == 0 || c[0] != '"' then None
    else
      var rest := c[1..];
      var j := FindSep(rest, "\"=$");
      if j == |rest| then None
      else
        var digits := rest[j + 3..];
        if |digits| == 0 || !AllDigits(digits) then None
        else Some((rest[..j], DigitsValue(digits)))
  }

  /** Reads a whole SET fragment back into its clauses. */
  function ParseSetColumns(setColumns: string): seq<Option<(string, nat)>> {
    var parts := Split(setColumns, ", ");
    seq(|parts|, i requires 0 <= i < |parts| => ParseClause(parts[i]))
  }

  /** Each clause reads back as its column and its 1-based placeholder. */
  lemma ClauseRoundTrip(column: string, idx: nat)
    requires '"' !in column
    ensures ParseClause(Clause(column, idx)) == Some((column, idx + 1))
  {
    var digits := NatToString(idx + 1);
    var c := Clause(column, idx);
    assert c == "\"" + (column + "\"=$" + digits);
    var rest := c[1..];
    assert rest == column + "\"=$" + digits;
    FindSepAfter(column, "\"=$", digits);
    assert rest[..|column|] == column;
    assert rest[|column| + 3..] == digits;
    DigitsValueOfNatToString(idx + 1);
  }

  /** The SET fragment is exactly the clauses for the keys in key order:
      reading it back yields, for the i-th key, the column it resolves to
      and the placeholder `$i+1`, so the placeholders run 1..n without gaps
      and line up with `values`. */
  lemma SetColumnsReadBack<V>(data: Payload<V>, jsToSql: ColumnTable)
    requires |data| > 0
    requires forall i :: 0 <= i < |data| ==> PlainColumn(ColumnName(jsToSql, data[i].0))
    ensures PrepareUpdateQuery(data, jsToSql).Success?
    ensures var q := PrepareUpdateQuery(data, jsToSql).value;
            var parsed := ParseSetColumns(q.setColumns);
            && |parsed| == |q.values| == |data|
            && forall i :: 0 <= i < |data| ==>
                 parsed[i] == Some((ColumnName(jsToSql, data[i].0), i + 1)) && q.values[i] == data[i].1
  {
    var clauses := Clauses(data, jsToSql);
    SplitJoin(clauses, ", ");
    forall i | 0 <= i < |data|
      ensures ParseClause(clauses[i]) == Some((ColumnName(jsToSql, data[i].0), i + 1))
    {
      ClauseRoundTrip(ColumnName(jsToSql, data[i].0), i);
    }
  }

  /** The column is the table's entry when it is present and non-empty. */
  lemma ColumnFromTable<V>(data: Payload<V>, jsToSql: ColumnTable, i: nat)
    requires i < |data| && data[i].0 in jsToSql && jsToSql[data[i].0] != ""
    ensures Clauses(data, jsToSql)[i] == Clause(jsToSql[data[i].0], i)
  {
  }

  /** Otherwise the key itself is the column. */
  lemma ColumnFallsBackToKey<V>(data: Payload<V>, jsToSql: ColumnTable, i: nat)
    requires i < |data| && (data[i].0 !in jsToSql || jsToSql[data[i].0] == "")
    ensures Clauses(data, jsToSql)[i] == Clause(data[i].0, i)
  {
  }

  /** A one-key payload gives a single clause with no separator. */
  lemma SingleKeyExample()
    ensures PrepareUpdateQuery([("firstName", "Jo")], map["firstName" := "first_name"])
            == Success(UpdateQuery("\"first_name\"=$1", ["Jo"]))
  {
    var table := map["firstName" := "first_name"];
    assert NatToString(1) == "1";
    assert ColumnName(table, "firstName") == "first_name";
    assert Clause("first_name", 0) == "\"first_name\"=$1";
    var clauses := Clauses([("firstName", "Jo")], table);
    assert |clauses| == 1 && clauses[0] == "\"first_name\"=$1";
    assert clauses == ["\"first_name\"=$1"];
    assert Values([("firstName", "Jo")]) == ["Jo"];
  }

  /** With an empty table every key is its own column. */
  lemma FallbackExample()
    ensures PrepareUpdateQuery([("a", 1), ("b", 2)], map[])
            == Success(UpdateQuery("\"a\"=$1, \"b\"=$2", [1, 2]))
  {
    assert NatToString(1) == "1";
    assert NatToString(2) == "2";
    assert Clause("a", 0) == "\"a\"=$1";
    assert Clause("b", 1) == "\"b\"=$2";
    var clauses := Clauses([("a", 1), ("b", 2)], map[]);
    assert |clauses| == 2 && clauses[0] == "\"a\"=$1" && clauses[1] == "\"b\"=$2";
    assert clauses == ["\"a\"=$1", "\"b\"=$2"];
    assert clauses[1..] == ["\"b\"=$2"];
    assert Join(clauses, ", ") == "\"a\"=$1" + ", " + "\"b\"=$2";
    var r := PrepareUpdateQuery([("a", 1), ("b", 2)], map[]);
    assert r.Success?;
    assert r.value.setColumns == "\"a\"=$1, \"b\"=$2";
    assert r.value.values == [1, 2];
    assert Values([("a", 1), ("b", 2)]) == [1, 2];
  }
}
