/** The generic single-table statement builders of `MyAccessBDD`
    (`selectTuplesOneTable`, `insertOneTupleOneTable`, `updateOneTupleOneTable`,
    `deleteTuplesOneTable`): the text they assemble, the parameters they bind,
    and the guards that keep an empty field map from reaching the connection. */
module Builders {
  import opened PhpArray
  import opened SqlText
  import opened Connection

  /** `k=:k`: a column compared with (or set to) the parameter of the same name. */
  function Assignment(k: string): string {
    k + "=:" + k
  }

  function Assignments(ks: seq<string>): (r: seq<string>)
    ensures |r| == |ks|
    ensures forall i :: 0 <= i < |ks| ==> r[i] == Assignment(ks[i])
    decreases |ks|
  {
    if ks == [] then [] else [Assignment(ks[0])] + Assignments(ks[1..])
  }

  function Markers(ks: seq<string>): (r: seq<string>)
    ensures |r| == |ks|
    ensures forall i :: 0 <= i < |ks| ==> r[i] == Marker(ks[i])
    decreases |ks|
  {
    if ks == [] then [] else [Marker(ks[0])] + Markers(ks[1..])
  }

  // The texts, in the shape the builders produce them.

  function SelectAllText(table: string): string {
    "select * from " + table + ";"
  }

  function SelectText(table: string, ks: seq<string>): string {
    "select * from " + table + " where " + Join(Assignments(ks), " and ")
  }

  function InsertText(table: string, ks: seq<string>): string {
    "insert into " + table + " (" + Join(ks, ",") + ") values (" + Join(Markers(ks), ",") + ");"
  }

  function UpdateText(table: string, ks: seq<string>): string {
    "update " + table + " set " + Join(Assignments(ks), ",") + " where id=:id;"
  }

  function DeleteText(table: string, ks: seq<string>): string {
    "delete from " + table + " where " + Join(Assignments(ks), " and ")
  }

  // The builder loops: `.=` inside `foreach`, then the last separator cut off with `substr`.

  /** `$requete = prefix; foreach (...) $requete .= "$key=:$key and ";` and the
      trailing `" and "` removed (shared by the select and delete builders). */
  method BuildConjunction(prefix: string, champs: seq<(string, Value)>) returns (requete: string)
    requires |champs| > 0
    ensures requete == prefix + Join(Assignments(Keys(champs)), " and ")
  {
    ghost var items := Assignments(Keys(champs));
    requete := prefix;
    var i := 0;
    while i < |champs|
      invariant 0 <= i <= |champs|
      invariant requete == prefix + Terminated(items[..i], " and ")
    {
      var key := champs[i].0;
      var item := key + "=:" + key;
      assert item == items[i];
      TerminatedStep(requete, prefix, items, i, " and ");
      requete := requete + (item + " and ");
      i := i + 1;
    }
    assert items[..|champs|] == items;
    TrimTerminated(prefix, items, " and ");
    requete := requete[..|requete| - 5];
  }

  /** The first loop of `insertOneTupleOneTable`: `"$key,"` for every key
      appended to `requete`, then the last comma cut off. */
  method AppendColumns(start: string, champs: seq<(string, Value)>) returns (requete: string)
    requires |champs| > 0
    ensures requete == start + Join(Keys(champs), ",")
  {
    ghost var ks := Keys(champs);
    requete := start;
    var i := 0;
    while i < |champs|
      invariant 0 <= i <= |champs|
      invariant requete == start + Terminated(ks[..i], ",")
    {
      var key := champs[i].0;
      assert ks[i] == key;
      TerminatedStep(requete, start, ks, i, ",");
      requete := requete + (key + ",");
      i := i + 1;
    }
    assert ks[..|champs|] == ks;
    TrimTerminated(start, ks, ",");
    requete := requete[..|requete| - 1];
  }

  /** The second loop of `insertOneTupleOneTable`: `":$key,"` for every key
      appended to `requete`, then the last comma cut off. */
  method AppendPlaceholders(start: string, champs: seq<(string, Value)>) returns (requete: string)
    requires |champs| > 0
    ensures requete == start + Join(Markers(Keys(champs)), ",")
  {
    ghost var marks := Markers(Keys(champs));
    requete := start;
    var i := 0;
    while i < |champs|
      invariant 0 <= i <= |champs|
      invariant requete == start + Terminated(marks[..i], ",")
    {
      var key := champs[i].0;
      var item := ":" + key;
      assert item == marks[i];
      TerminatedStep(requete, start, marks, i, ",");
      requete := requete + (item + ",");
      i := i + 1;
    }
    assert marks[..|champs|] == marks;
    TrimTerminated(start, marks, ",");
    requete := requete[..|requete| - 1];
  }

  /** `insertOneTupleOneTable`'s text: the column list and the placeholder list,
      each built by its own loop. */
  method BuildInsert(table: string, champs: FieldMap) returns (requete: string)
    requires |champs| > 0
    ensures requete == InsertText(table, Keys(champs))
  {
    requete := "insert into " + table + " (";
    requete := AppendColumns(requete, champs);
    requete := requete + ") values (";
    requete := AppendPlaceholders(requete, champs);
    requete := requete + ");";
  }

  /** The loop of `updateOneTupleOneTable`: `"$key=:$key,"` for every key
      appended to `requete`, then the last comma cut off. */
  method AppendSetList(start: string, champs: seq<(string, Value)>) returns (requete: string)
    requires |champs| > 0
    ensures requete == start + Join(Assignments(Keys(champs)), ",")
  {
    ghost var items := Assignments(Keys(champs));
    requete := start;
    var i := 0;
    while i < |champs|
      invariant 0 <= i <= |champs|
      invariant requete == start + Terminated(items[..i], ",")
    {
      var key := champs[i].0;
      var item := key + "=:" + key;
      assert item == items[i];
      TerminatedStep(requete, start, items, i, ",");
      requete := requete + (item + ",");
      i := i + 1;
    }
    assert items[..|champs|] == items;
    TrimTerminated(start, items, ",");
    requete := requete[..|requete| - 1];
  }

  /** `updateOneTupleOneTable`'s text: the set list, then the `id` predicate. */
  method BuildUpdate(table: string, champs: FieldMap) returns (requete: string)
    requires |champs| > 0
    ensures requete == UpdateText(table, Keys(champs))
  {
    requete := "update " + table + " set ";
    requete := AppendSetList(requete, champs);
    requete := requete + " where id=:id;";
  }

  // The statements the builders send.

  function SelectStatement(table: string, champs: FieldMap): Statement {
    Statement(SelectText(table, Keys(champs)), champs)
  }

  function InsertStatement(table: string, champs: FieldMap): Statement {
    Statement(InsertText(table, Keys(champs)), champs)
  }

  /** The update binds the map with `$champs["id"] = $id` applied: the separate
      identifier wins over any `id` the map holds, every other entry is bound
      unchanged, and `id` is added at the end when the map had none. */
  function UpdateStatement(table: string, id: string, champs: FieldMap): (st: Statement)
    ensures st.sql == UpdateText(table, Keys(champs))
    ensures Get(st.params, "id") == Text(id)
    ensures forall k :: k != "id" ==> Get(st.params, k) == Get(champs, k)
    ensures Keys(st.params) == if "id" in Keys(champs) then Keys(champs) else Keys(champs) + ["id"]
  {
    PutIdentifier(champs, id);
    Statement(UpdateText(table, Keys(champs)), Put(champs, "id", Text(id)))
  }

  lemma PutIdentifier(champs: FieldMap, id: string)
    ensures Get(Put(champs, "id", Text(id)), "id") == Text(id)
    ensures forall k :: k != "id" ==> Get(Put(champs, "id", Text(id)), k) == Get(champs, k)
    ensures Keys(Put(champs, "id", Text(id))) == if "id" in Keys(champs) then Keys(champs) else Keys(champs) + ["id"]
  {
    PutValues(champs, "id", Text(id));
    PutKeys(champs, "id", Text(id));
  }

  function DeleteStatement(table: string, champs: FieldMap): Statement {
    Statement(DeleteText(table, Keys(champs)), champs)
  }

  // What each builder does, as events and a reply.

  /** `selectTuplesOneTable`: all rows when the map is empty, otherwise the rows
      matching every entry; the connection's answer is returned as is. */
  function SelectOneTableRun(q: QueryOracle, at: nat, table: string, champs: Option<FieldMap>): Run<seq<Row>> {
    if IsEmpty(champs) then Ask(q, at, Statement(SelectAllText(table), []))
    else Ask(q, at, SelectStatement(table, champs.value))
  }

  /** `insertOneTupleOneTable`: null for an empty map, otherwise one insert. */
  function InsertOneTableRun(u: UpdateOracle, at: nat, table: string, champs: Option<FieldMap>): Run<int> {
    if IsEmpty(champs) then Refused() else Tell(u, at, InsertStatement(table, champs.value))
  }

  /** `updateOneTupleOneTable`: null for an empty map or a null id, otherwise one update. */
  function UpdateOneTableRun(u: UpdateOracle, at: nat, table: string, id: Option<string>, champs: Option<FieldMap>): Run<int> {
    if IsEmpty(champs) then Refused()
    else if id.None? then Refused()
    else Tell(u, at, UpdateStatement(table, id.value, champs.value))
  }

  /** `deleteTuplesOneTable`: null for an empty map, otherwise one delete. */
  function DeleteOneTableRun(u: UpdateOracle, at: nat, table: string, champs: Option<FieldMap>): Run<int> {
    if IsEmpty(champs) then Refused() else Tell(u, at, DeleteStatement(table, champs.value))
  }

  // Properties of the builders.

  /** No write statement without the input it needs: the insert, update and
      delete builders reach the connection exactly when the map is non-empty
      (and, for the update, the id is not null); in particular an empty map
      never produces an unconditional delete. */
  lemma GenericWriteGuards(u: UpdateOracle, at: nat, table: string, id: Option<string>, champs: Option<FieldMap>)
    ensures InsertOneTableRun(u, at, table, champs).events == [] <==> IsEmpty(champs)
    ensures IsEmpty(champs) ==> InsertOneTableRun(u, at, table, champs).reply == ReturnedNull
    ensures UpdateOneTableRun(u, at, table, id, champs).events == [] <==> IsEmpty(champs) || id.None?
    ensures IsEmpty(champs) || id.None? ==> UpdateOneTableRun(u, at, table, id, champs).reply == ReturnedNull
    ensures DeleteOneTableRun(u, at, table, champs).events == [] <==> IsEmpty(champs)
    ensures IsEmpty(champs) ==> DeleteOneTableRun(u, at, table, champs).reply == ReturnedNull
    ensures forall e :: e in DeleteOneTableRun(u, at, table, champs).events ==>
      e.Update? && |e.st.params| > 0 && e.st.sql == DeleteText(table, Keys(e.st.params))
  {
  }

  /** The generic select always issues exactly one query: `select * from T;`
      with no parameters for an empty map, otherwise the conjunction over the
      map, which is bound as given. */
  lemma GenericSelectShape(q: QueryOracle, at: nat, table: string, champs: Option<FieldMap>)
    ensures var run := SelectOneTableRun(q, at, table, champs);
      |run.events| == 1 && run.events[0].Query? && run.reply == run.events[0].rows
    ensures IsEmpty(champs) ==>
      SelectOneTableRun(q, at, table, champs).events[0].st == Statement("select * from " + table + ";", [])
    ensures !IsEmpty(champs) ==>
      SelectOneTableRun(q, at, table, champs).events[0].st.params == champs.value
  {
  }

  predicate AllNames(ks: seq<string>) {
    forall i :: 0 <= i < |ks| ==> IsName(ks[i])
  }

  /** `k=:k` refers to the parameter `k` only. */
  lemma AssignmentPlaceholders(k: string)
    requires IsName(k)
    ensures Placeholders(Assignment(k)) == [k]
  {
    NameHasNoColon(k);
    assert Assignment(k) == (k + "=") + (":" + k);
    PlaceholdersNone(k + "=");
    PlaceholdersOfMarker(k);
    PlaceholdersAppend(k + "=", ":" + k);
  }

  lemma PlaceholdersOfAssignments(ks: seq<string>)
    requires AllNames(ks)
    ensures PlaceholdersOfAll(Assignments(ks)) == ks
  {
    var items := Assignments(ks);
    forall i | 0 <= i < |items| ensures Placeholders(items[i]) == [ks[i]] {
      AssignmentPlaceholders(ks[i]);
    }
    PlaceholdersOfSingles(items, ks);
  }

  lemma PlaceholdersOfMarkers(ks: seq<string>)
    requires AllNames(ks)
    ensures PlaceholdersOfAll(Markers(ks)) == ks
  {
    var items := Markers(ks);
    forall i | 0 <= i < |items| ensures Placeholders(items[i]) == [ks[i]] {
      PlaceholdersOfMarker(ks[i]);
    }
    PlaceholdersOfSingles(items, ks);
  }

  lemma PlaceholdersOfNames(ks: seq<string>)
    requires AllNames(ks)
    ensures PlaceholdersOfAll(ks) == []
  {
    forall i | 0 <= i < |ks| ensures Placeholders(ks[i]) == [] {
      NameHasNoColon(ks[i]);
      PlaceholdersNone(ks[i]);
    }
    PlaceholdersOfBlanks(ks);
  }

  lemma NeutralSeparators()
    ensures IsNeutralSeparator(" and ") && IsNeutralSeparator(",")
  {
  }

  /** Literal text around a table name, without colons. */
  lemma PrefixHasNoColon(lead: string, table: string, tail: string)
    requires IsName(table) && ':' !in lead && ':' !in tail
    ensures ':' !in lead + table + tail
  {
    NameHasNoColon(table);
  }

  /** The select and delete texts refer to the map's keys, in map order. */
  lemma ConjunctionPlaceholders(lead: string, table: string, ks: seq<string>)
    requires IsName(table) && AllNames(ks) && ':' !in lead
    ensures Placeholders(lead + table + " where " + Join(Assignments(ks), " and ")) == ks
  {
    var head := lead + table + " where ";
    var conj := Join(Assignments(ks), " and ");
    PrefixHasNoColon(lead, table, " where ");
    Enclosed(head, conj, "");
    assert head + conj + "" == head + conj;
    NeutralSeparators();
    PlaceholdersOfJoin(Assignments(ks), " and ");
    PlaceholdersOfAssignments(ks);
  }

  lemma SelectPlaceholders(table: string, ks: seq<string>)
    requires IsName(table) && AllNames(ks)
    ensures Placeholders(SelectText(table, ks)) == ks
  {
    ConjunctionPlaceholders("select * from ", table, ks);
  }

  lemma DeletePlaceholders(table: string, ks: seq<string>)
    requires IsName(table) && AllNames(ks)
    ensures Placeholders(DeleteText(table, ks)) == ks
  {
    ConjunctionPlaceholders("delete from ", table, ks);
  }

  /** The column list of the insert refers to no parameter. */
  lemma InsertColumnsPlaceholders(table: string, ks: seq<string>)
    requires IsName(table) && AllNames(ks)
    ensures Placeholders("insert into " + table + " (" + Join(ks, ",")) == []
  {
    var head := "insert into " + table + " (";
    PrefixHasNoColon("insert into ", table, " (");
    Enclosed(head, Join(ks, ","), "");
    assert head + Join(ks, ",") + "" == head + Join(ks, ",");
    NeutralSeparators();
    PlaceholdersOfJoin(ks, ",");
    PlaceholdersOfNames(ks);
  }

  /** The value list of the insert refers to the keys, in order. */
  lemma InsertValuesPlaceholders(ks: seq<string>)
    requires AllNames(ks)
    ensures Placeholders(") values (" + Join(Markers(ks), ",") + ");") == ks
  {
    Enclosed(") values (", Join(Markers(ks), ","), ");");
    NeutralSeparators();
    PlaceholdersOfJoin(Markers(ks), ",");
    PlaceholdersOfMarkers(ks);
  }

  /** The insert refers to the keys once each, in map order, through its value list. */
  lemma InsertPlaceholders(table: string, ks: seq<string>)
    requires IsName(table) && AllNames(ks)
    ensures Placeholders(InsertText(table, ks)) == ks
  {
    var cols := "insert into " + table + " (" + Join(ks, ",");
    var vals := ") values (" + Join(Markers(ks), ",") + ");";
    assert InsertText(table, ks) == cols + vals;
    InsertColumnsPlaceholders(table, ks);
    InsertValuesPlaceholders(ks);
    PlaceholdersAppend(cols, vals);
  }

  /** The set list of the update refers to the keys, in map order. */
  lemma UpdateSetPlaceholders(table: string, ks: seq<string>)
    requires IsName(table) && AllNames(ks)
    ensures Placeholders("update " + table + " set " + Join(Assignments(ks), ",")) == ks
  {
    var a := "update " + table + " set ";
    var sets := Join(Assignments(ks), ",");
    PrefixHasNoColon("update ", table, " set ");
    Enclosed(a, sets, "");
    assert a + sets + "" == a + sets;
    NeutralSeparators();
    PlaceholdersOfJoin(Assignments(ks), ",");
    PlaceholdersOfAssignments(ks);
  }

  /** The update refers to the keys in map order, then to `id`. */
  lemma UpdatePlaceholders(table: string, ks: seq<string>)
    requires IsName(table) && AllNames(ks)
    ensures Placeholders(UpdateText(table, ks)) == ks + ["id"]
  {
    var head := "update " + table + " set " + Join(Assignments(ks), ",");
    var c := " where id=" + Marker("id") + ";";
    assert UpdateText(table, ks) == head + c;
    UpdateSetPlaceholders(table, ks);
    PlaceholdersAppend(head, c);
    LoneMarker(" where id=", "id", ";");
  }

  // Whatever the map, the statement each builder sends binds exactly the
  // parameters its text refers to, provided table and column names are plain
  // names, as the callers are expected to ensure.

  lemma SelectWellBound(table: string, champs: FieldMap)
    requires IsName(table) && AllNames(Keys(champs))
    ensures Placeholders(SelectStatement(table, champs).sql) == Keys(champs)
    ensures WellBound(SelectStatement(table, champs))
  {
    SelectPlaceholders(table, Keys(champs));
    InOrderIsWellBound(SelectStatement(table, champs));
  }

  lemma InsertWellBound(table: string, champs: FieldMap)
    requires IsName(table) && AllNames(Keys(champs))
    ensures Placeholders(InsertStatement(table, champs).sql) == Keys(champs)
    ensures WellBound(InsertStatement(table, champs))
  {
    var st := InsertStatement(table, champs);
    InsertPlaceholders(table, Keys(champs));
    assert Placeholders(st.sql) == Keys(st.params);
    InOrderIsWellBound(st);
  }

  lemma DeleteWellBound(table: string, champs: FieldMap)
    requires IsName(table) && AllNames(Keys(champs))
    ensures Placeholders(DeleteStatement(table, champs).sql) == Keys(champs)
    ensures WellBound(DeleteStatement(table, champs))
  {
    DeletePlaceholders(table, Keys(champs));
    InOrderIsWellBound(DeleteStatement(table, champs));
  }

  /** The update binds `id` last, after the map's own keys. When the map
      already binds `id`, the text refers to `:id` twice, once in the `set`
      list and once in the `where` clause: the placeholder sequence then holds
      `id` twice, and `WellBound`, which compares sets, does not tell. */
  lemma UpdateWellBound(table: string, id: string, champs: FieldMap)
    requires IsName(table) && AllNames(Keys(champs))
    ensures Placeholders(UpdateStatement(table, id, champs).sql) == Keys(champs) + ["id"]
    ensures WellBound(UpdateStatement(table, id, champs))
  {
    var ks := Keys(champs);
    UpdatePlaceholders(table, ks);
    var up := UpdateStatement(table, id, champs);
    forall k ensures k in Placeholders(up.sql) <==> k in Keys(up.params) {
      assert k in ks + ["id"] <==> k in ks || k == "id";
    }
  }
}
