/** Properties relating the projections of `Fields` to the schema and to each other. */
module FieldProperties {
  import opened Schema
  import opened Fields

  /** A column reaches the create DTO exactly when its name is not a create
      special field or is always included; an absent list counts as empty. */
  lemma CreateFieldsMembership(s: TableSchema, c: TableColumn)
    requires c in s.columns
    ensures var r := CreateFields(s);
      (exists i :: 0 <= i < |r| && r[i].name == c.name)
        <==> c.name !in Members(s.createSpecialFields) || c.name in Members(s.alwaysIncludeInDto)
  {
    var skip, always := Members(s.createSpecialFields), Members(s.alwaysIncludeInDto);
    var r, kept := CreateFields(s), CreateColumns(s);
    FilterColumnsMembers(s.columns, skip, always, c);
    if Kept(c.name, skip, always) {
      var i :| 0 <= i < |kept| && kept[i] == c;
      assert r[i].name == c.name;
    } else {
      forall i | 0 <= i < |r|
        ensures r[i].name != c.name
      {
        assert Kept(kept[i].name, skip, always);
      }
    }
  }

  /** A column reaches the update DTO exactly when its name is not an update
      special field or is always included. */
  lemma DtoUpdateFieldsMembership(s: TableSchema, c: TableColumn)
    requires c in s.columns
    ensures var r := DtoUpdateFields(s);
      (exists i :: 0 <= i < |r| && r[i].name == c.name)
        <==> c.name !in Members(s.updateSpecialFields) || c.name in Members(s.alwaysIncludeInDto)
  {
    var skip, always := Members(s.updateSpecialFields), Members(s.alwaysIncludeInDto);
    var r, kept := DtoUpdateFields(s), DtoUpdateColumns(s);
    FilterColumnsMembers(s.columns, skip, always, c);
    if Kept(c.name, skip, always) {
      var i :| 0 <= i < |kept| && kept[i] == c;
      assert r[i].name == c.name;
    } else {
      forall i | 0 <= i < |r|
        ensures r[i].name != c.name
      {
        assert Kept(kept[i].name, skip, always);
      }
    }
  }

  /** A column reaches the INSERT statement exactly when its name is not a
      create special field; always-included names are not reinstated. */
  lemma InsertFieldsMembership(s: TableSchema, c: TableColumn)
    requires c in s.columns
    ensures c.name in InsertFields(s) <==> c.name !in Members(s.createSpecialFields)
  {
    KeptNameIff(s.columns, Members(s.createSpecialFields), [], c);
    var r := InsertFields(s);
    assert c.name in r <==> exists i :: 0 <= i < |r| && r[i] == c.name;
  }

  /** A column reaches the UPDATE statement exactly when its name is not an
      update special field; always-included names are not reinstated. */
  lemma QueryUpdateFieldsMembership(s: TableSchema, c: TableColumn)
    requires c in s.columns
    ensures var r := QueryUpdateFields(s);
      (exists i :: 0 <= i < |r| && r[i].name == c.name) <==> c.name !in Members(s.updateSpecialFields)
  {
    KeptNameIff(s.columns, Members(s.updateSpecialFields), [], c);
    var r, kept := QueryUpdateFields(s), QueryUpdateColumns(s);
    assert forall i :: 0 <= i < |r| ==> r[i].name == kept[i].name;
  }

  /** The DTO and the statement policies are independent: a name that is both
      a create special field and always included is in the create DTO but
      not in the INSERT statement. */
  lemma ReinstatedOnlyInCreateDto(s: TableSchema, c: TableColumn)
    requires c in s.columns
    requires c.name in Members(s.createSpecialFields) && c.name in Members(s.alwaysIncludeInDto)
    ensures var r := CreateFields(s);
      exists i :: 0 <= i < |r| && r[i].name == c.name
    ensures c.name !in InsertFields(s)
  {
    CreateFieldsMembership(s, c);
    InsertFieldsMembership(s, c);
  }

  /** Without create special fields, the create DTO is the full DTO and the
      INSERT statement names every column. */
  lemma NoCreateRulesKeepsEveryColumn(s: TableSchema)
    requires Members(s.createSpecialFields) == []
    ensures CreateFields(s) == DtoFields(s)
    ensures InsertFields(s) == SelectFields(s)
  {
    FilterColumnsNothingSkipped(s.columns, Members(s.alwaysIncludeInDto));
    FilterColumnsNothingSkipped(s.columns, []);
    var r := CreateFields(s);
    var d := DtoFields(s);
    forall i | 0 <= i < |r|
      ensures r[i] == d[i]
    {
      assert r[i] == CreateEntry(s.columns[i]);
      assert d[i] == FullEntry(s.columns[i]);
    }
  }

  /** The create DTO entry and the full DTO entry of a column coincide,
      although the two generators compute `is_optional` differently. */
  lemma CreateEntryIsFullEntry(c: TableColumn)
    ensures CreateEntry(c) == FullEntry(c)
  {
  }
}
