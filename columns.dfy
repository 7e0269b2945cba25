/**
 * `map_columns` (utils.py): translates a column name of the regional
 * sensor/measurement exports into the model's field name. As written,
 * every branch after the first tests a non-empty string literal, which is
 * always true; the table the branches spell out is kept here as the
 * intended mapping.
 */
module Columns {
  import opened PyStr

  /** The pairs the branches of `map_columns` list, in order. */
  const ColumnTable: seq<(string, string)> := [
    ("IdSensore", "sensor_id"),
    ("NomeTipoSensore", "sensor_type"),
    ("UnitaMisura", "measurement_unit"),
    ("Idstazione", "station_id"),
    ("NomeStazione", "station_name"),
    ("Quota", "altitude"),
    ("Provincia", "province"),
    ("Comune", "comune"),
    ("Storico", "is_historical"),
    ("DataStart", "date_start"),
    ("DataStop", "date_stop"),
    ("Utm_Nord", "utm_north"),
    ("UTM_Est", "utm_east"),
    ("lat", "latitude"),
    ("lng", "longitude"),
    ("Data", "date"),
    ("Valore", "value")
  ]

  /** `map_columns` as written: only the first comparison looks at the name. */
  function MapColumnsAsWritten(columnName: string): Option<string>
  {
    if columnName == "IdSensore" then Some("sensor_id")
    else if "NomeTipoSensore" != "" then Some("sensor_type")
    else None
  }

  /** The first table entry with this name, if any. */
  function LookupColumn(table: seq<(string, string)>, columnName: string): (r: Option<string>)
    ensures r.Some? <==> exists i :: 0 <= i < |table| && table[i].0 == columnName
    ensures r.Some? ==> (columnName, r.value) in table
  {
    if table == [] then None
    else if table[0].0 == columnName then Some(table[0].1)
    else
      var rest := LookupColumn(table[1..], columnName);
      assert forall i :: 1 <= i < |table| ==> table[i] == table[1..][i - 1];
      rest
  }

  /** `map_columns` as its branches intend: the table, None for any other name. */
  function MapColumns(columnName: string): (r: Option<string>)
    ensures r.Some? <==> exists i :: 0 <= i < |ColumnTable| && ColumnTable[i].0 == columnName
    ensures r.Some? ==> (columnName, r.value) in ColumnTable
  {
    LookupColumn(ColumnTable, columnName)
  }

  /** Two names of the table are never mapped to the same field. */
  lemma MapColumnsInjective(a: string, b: string)
    requires MapColumns(a).Some? && MapColumns(a) == MapColumns(b)
    ensures a == b
  {
    var i :| 0 <= i < |ColumnTable| && ColumnTable[i] == (a, MapColumns(a).value);
    var j :| 0 <= j < |ColumnTable| && ColumnTable[j] == (b, MapColumns(b).value);
    DistinctFields(i, j);
  }

  lemma DistinctFields(i: int, j: int)
    requires 0 <= i < |ColumnTable| && 0 <= j < |ColumnTable|
    requires ColumnTable[i].1 == ColumnTable[j].1
    ensures i == j
  {
  }

  /**
   * The code as written agrees with the intended mapping on exactly the
   * first two names of the table; every other name, listed or not, comes
   * out as `sensor_type`.
   */
  lemma AsWrittenAgreesOnlyOnFirstTwo(columnName: string)
    ensures MapColumnsAsWritten(columnName) == MapColumns(columnName)
      <==> columnName == "IdSensore" || columnName == "NomeTipoSensore"
    ensures columnName != "IdSensore" ==> MapColumnsAsWritten(columnName) == Some("sensor_type")
  {
    if MapColumns(columnName) == Some("sensor_type") {
      MapColumnsInjective(columnName, "NomeTipoSensore");
    }
  }

  /** The concrete case: the measurement column "Valore" should map to "value". */
  lemma ValoreMisread()
    ensures MapColumnsAsWritten("Valore") == Some("sensor_type")
    ensures MapColumns("Valore") == Some("value")
  {
    assert ColumnTable[16] == ("Valore", "value");
    DistinctNames(16);
    LookupFirst(ColumnTable, 16);
  }

  /** Each name of the table is listed once. */
  lemma DistinctNames(i: int)
    requires 0 <= i < |ColumnTable|
    ensures forall j :: 0 <= j < |ColumnTable| && ColumnTable[j].0 == ColumnTable[i].0 ==> i == j
  {
  }

  /** Looking up an entry's name with no earlier entry so named finds that entry. */
  lemma {:induction false} LookupFirst(table: seq<(string, string)>, i: int)
    requires 0 <= i < |table|
    requires forall k :: 0 <= k < i ==> table[k].0 != table[i].0
    ensures LookupColumn(table, table[i].0) == Some(table[i].1)
  {
    if i > 0 {
      assert table[i] == table[1..][i - 1];
      LookupFirst(table[1..], i - 1);
    }
  }
}
