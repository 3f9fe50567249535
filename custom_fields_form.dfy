/**
  The custom-fields settings form: for each Recurly entity section it shows one
  fieldset per configured custom field (id and replacement pattern), lets the
  user add or remove fieldsets through a per-section counter kept in the form
  state, and saves the submitted rows as the `custom_fields` setting that the
  gateway reads when it creates an account.
*/
module CustomFieldsForm {
  import opened Php

  // ---------------------------------------------------------------------------
  // Section ids

  /** `strtolower` on one character: ASCII letters only. */
  function LowerChar(c: char): char {
    if 'A' <= c <= 'Z' then (c as int + 32) as char else c
  }

  /** The section id: the name lower-cased, spaces replaced by '_'. */
  function SectionId(sectionName: string): (id: string)
    ensures |id| == |sectionName|
  {
    seq(|sectionName|, i requires 0 <= i < |sectionName| =>
      if LowerChar(sectionName[i]) == ' ' then '_' else LowerChar(sectionName[i]))
  }

  /** The HTML id of the section's wrapper: the section id with '_' replaced by '-'. */
  function KebabId(sectionId: string): (kebab: string)
    ensures |kebab| == |sectionId|
  {
    seq(|sectionId|, i requires 0 <= i < |sectionId| => if sectionId[i] == '_' then '-' else sectionId[i])
  }

  /** A section id has the name's length, no spaces and no upper-case ASCII letters. */
  lemma SectionIdShape(sectionName: string)
    ensures |SectionId(sectionName)| == |sectionName|
    ensures forall i :: 0 <= i < |sectionName| ==> SectionId(sectionName)[i] != ' ' && !('A' <= SectionId(sectionName)[i] <= 'Z')
  {
  }

  /** Deriving the id twice changes nothing. */
  lemma SectionIdIdempotent(sectionName: string)
    ensures SectionId(SectionId(sectionName)) == SectionId(sectionName)
  {
  }

  /** The wrapper id has no underscores and no spaces, and differs from the section id only where it had '_'. */
  lemma KebabIdShape(sectionName: string)
    ensures var id := SectionId(sectionName);
      && |KebabId(id)| == |id|
      && (forall i :: 0 <= i < |id| ==> KebabId(id)[i] != '_' && KebabId(id)[i] != ' ')
      && (forall i :: 0 <= i < |id| && id[i] != '_' ==> KebabId(id)[i] == id[i])
  {
  }

  /** The one section the form builds. */
  lemma AccountSectionIds()
    ensures SectionId("Account") == "account" && KebabId("account") == "account"
  {
  }

  /** The form-state key of a section's fieldset counter. */
  function CountKey(sectionId: string): string {
    sectionId + "_count"
  }

  // ---------------------------------------------------------------------------
  // The fieldset counter

  /**
    The counter after the add/remove handler: 'add' adds one, 'remove'
    subtracts one from a positive count, anything else keeps it. An unset
    counter counts as 0, except that adding to it gives 1.
  */
  function NextCount(variant: string, current: Option<int>): (next: int)
    ensures variant == "add" ==> next == IntCast(current) + 1
    ensures variant == "remove" ==> next == if IntCast(current) > 0 then IntCast(current) - 1 else IntCast(current)
    ensures variant != "add" && variant != "remove" ==> next == IntCast(current)
  {
    var count := if current.Some? then current.value else 0;
    if variant == "add" then count + 1
    else if variant == "remove" && count > 0 then count - 1
    else count
  }

  /** The counter never goes negative. */
  lemma NextCountNonNegative(variant: string, current: Option<int>)
    requires current.None? || current.value >= 0
    ensures NextCount(variant, current) >= 0
  {
  }

  /** Removing right after adding restores the count; removing at zero keeps it at zero. */
  lemma AddThenRemove(count: nat)
    ensures NextCount("remove", Some(NextCount("add", Some(count)))) == count
    ensures NextCount("remove", Some(0)) == 0
    ensures NextCount("remove", None) == 0 && NextCount("add", None) == 1
  {
  }

  /** The form state of one request: its counters, the rebuild flag, the submitted values and the button pressed. */
  class FormState {
    var storage: map<string, int>
    var rebuild: bool
    /** Submitted values by section: each row's key and value, in order. */
    const values: map<string, seq<(RowKey, RowValue)>>
    /** The section of the triggering button (first of its array parents). */
    const triggerSection: string

    constructor (storage: map<string, int>, values: map<string, seq<(RowKey, RowValue)>>, triggerSection: string)
      ensures this.storage == storage && !rebuild && this.values == values && this.triggerSection == triggerSection
    {
      this.storage := storage;
      rebuild := false;
      this.values := values;
      this.triggerSection := triggerSection;
    }
  }

  // ---------------------------------------------------------------------------
  // Building a section

  /** The default values of one fieldset. */
  datatype Fieldset = Fieldset(fieldId: string, fieldPattern: string)

  /** The parts of a built section that the module decides. */
  datatype Section = Section(
    id: string,
    wrapperId: string,
    fieldsets: seq<Fieldset>,
    addButtonName: string,
    removeButtonName: Option<string>)

  /** `count` fieldsets, the i-th defaulting to the i-th configured entry, or to empty values past the end. */
  function DefaultFieldsets(config: Assoc, count: int): (fieldsets: seq<Fieldset>)
    ensures |fieldsets| == if count > 0 then count else 0
    ensures forall i :: 0 <= i < |fieldsets| && i < |config| ==> fieldsets[i] == Fieldset(config[i].0, config[i].1)
    ensures forall i :: |config| <= i < |fieldsets| ==> fieldsets[i] == Fieldset("", "")
  {
    seq(if count > 0 then count else 0, i requires 0 <= i =>
      if i < |config| then Fieldset(config[i].0, config[i].1) else Fieldset("", ""))
  }

  /** The saved configuration of a section; missing reads as empty. */
  function SectionConfig(customFields: map<string, Assoc>, sectionId: string): Assoc {
    if sectionId + "_fields" in customFields then customFields[sectionId + "_fields"] else []
  }

  // ---------------------------------------------------------------------------
  // Saving

  /** A submitted row's key: the fieldsets are numbered, the actions are named. */
  datatype RowKey = IntKey(i: int) | StrKey(s: string)

  /** A submitted row's value: a fieldset's two textfields, or anything else (the buttons). */
  datatype RowValue = FieldRow(fieldId: string, fieldPattern: string) | OtherRow

  /** A row that is stored: a numbered fieldset whose id and pattern are both non-empty. */
  predicate StoredRow(row: (RowKey, RowValue)) {
    row.0.IntKey? && row.1.FieldRow? && Truthy(row.1.fieldId) && Truthy(row.1.fieldPattern)
  }

  /** The saved fields of one section: each stored row in order sets its id to its pattern. */
  function SectionFields(rows: seq<(RowKey, RowValue)>): (fields: Assoc)
    ensures |fields| <= |rows|
  {
    if rows == [] then []
    else
      var last := rows[|rows| - 1];
      var fields := SectionFields(rows[..|rows| - 1]);
      if StoredRow(last) then Put(fields, last.1.fieldId, last.1.fieldPattern) else fields
  }

  /** The submitted rows of a section; a section with no values has none. */
  function SubmittedRows(values: map<string, seq<(RowKey, RowValue)>>, sectionName: string): seq<(RowKey, RowValue)> {
    if sectionName in values then values[sectionName] else []
  }

  const SectionNames: seq<string> := ["account", "subscription", "item"]

  /** The saved setting after the sections `names` have been processed in turn. */
  function SavedSections(names: seq<string>, values: map<string, seq<(RowKey, RowValue)>>): map<string, Assoc> {
    if names == [] then map[]
    else
      var last := names[|names| - 1];
      SavedSections(names[..|names| - 1], values)[last + "_fields" := SectionFields(SubmittedRows(values, last))]
  }

  /**
    The stored fields have distinct ids; an id is stored exactly when some
    stored row carries it; and every stored id and pattern is non-empty.
  */
  lemma {:induction false} SectionFieldsKeys(rows: seq<(RowKey, RowValue)>, k: string)
    ensures DistinctKeys(SectionFields(rows))
    ensures k in Keys(SectionFields(rows)) <==> exists j :: 0 <= j < |rows| && StoredRow(rows[j]) && rows[j].1.fieldId == k
  {
    if rows != [] {
      var init, last := rows[..|rows| - 1], rows[|rows| - 1];
      SectionFieldsKeys(init, k);
      var fields := SectionFields(init);
      if StoredRow(last) {
        PutKeys(fields, last.1.fieldId, last.1.fieldPattern);
      }
      if exists j :: 0 <= j < |init| && StoredRow(init[j]) && init[j].1.fieldId == k {
        var j :| 0 <= j < |init| && StoredRow(init[j]) && init[j].1.fieldId == k;
        assert rows[j] == init[j];
      }
      if exists j :: 0 <= j < |rows| && StoredRow(rows[j]) && rows[j].1.fieldId == k {
        var j :| 0 <= j < |rows| && StoredRow(rows[j]) && rows[j].1.fieldId == k;
        if j < |init| {
          assert init[j] == rows[j];
        }
      }
    }
  }

  /** When two stored rows share an id, the later one's pattern is the one saved. */
  lemma {:induction false} SectionFieldsLastWins(rows: seq<(RowKey, RowValue)>, j: nat)
    requires j < |rows| && StoredRow(rows[j])
    requires forall m :: j < m < |rows| && StoredRow(rows[m]) ==> rows[m].1.fieldId != rows[j].1.fieldId
    ensures Get(SectionFields(rows), rows[j].1.fieldId) == Some(rows[j].1.fieldPattern)
  {
    var init, last := rows[..|rows| - 1], rows[|rows| - 1];
    if j == |rows| - 1 {
      PutGet(SectionFields(init), last.1.fieldId, last.1.fieldPattern, last.1.fieldId);
    } else {
      assert init[j] == rows[j];
      SectionFieldsLastWins(init, j);
      if StoredRow(last) {
        PutGet(SectionFields(init), last.1.fieldId, last.1.fieldPattern, rows[j].1.fieldId);
      }
    }
  }

  /** Every stored id and pattern is non-empty and not "0". */
  lemma {:induction false} SectionFieldsTruthy(rows: seq<(RowKey, RowValue)>)
    ensures forall i :: 0 <= i < |SectionFields(rows)| ==> Truthy(SectionFields(rows)[i].0) && Truthy(SectionFields(rows)[i].1)
  {
    if rows != [] {
      var init, last := rows[..|rows| - 1], rows[|rows| - 1];
      SectionFieldsTruthy(init);
      if StoredRow(last) {
        PutTruthy(SectionFields(init), last.1.fieldId, last.1.fieldPattern);
      }
    }
  }

  lemma {:induction false} PutTruthy(a: Assoc, k: string, v: string)
    requires Truthy(k) && Truthy(v)
    requires forall i :: 0 <= i < |a| ==> Truthy(a[i].0) && Truthy(a[i].1)
    ensures forall i :: 0 <= i < |Put(a, k, v)| ==> Truthy(Put(a, k, v)[i].0) && Truthy(Put(a, k, v)[i].1)
  {
    if a != [] && a[0].0 != k {
      PutTruthy(a[1..], k, v);
      assert Put(a, k, v) == [a[0]] + Put(a[1..], k, v);
    }
  }

  /** Rows without a stored entry (the actions, empty fieldsets) change nothing. */
  lemma UnstoredRowsIgnored(rows: seq<(RowKey, RowValue)>, row: (RowKey, RowValue))
    requires !StoredRow(row)
    ensures SectionFields(rows + [row]) == SectionFields(rows)
  {
    assert (rows + [row])[..|rows|] == rows;
  }

  /** The saved setting always holds exactly the three section keys; a section with no values saves no fields. */
  lemma SavedSectionsKeys(values: map<string, seq<(RowKey, RowValue)>>)
    ensures var saved := SavedSections(SectionNames, values);
      && saved.Keys == {"account_fields", "subscription_fields", "item_fields"}
      && saved["account_fields"] == SectionFields(SubmittedRows(values, "account"))
      && saved["subscription_fields"] == SectionFields(SubmittedRows(values, "subscription"))
      && saved["item_fields"] == SectionFields(SubmittedRows(values, "item"))
      && ("item" !in values ==> saved["item_fields"] == [])
  {
    assert "account" + "_fields" == "account_fields";
    assert "subscription" + "_fields" == "subscription_fields";
    assert "item" + "_fields" == "item_fields";
    assert SectionNames[..2] == ["account", "subscription"];
    assert ["account", "subscription"][..1] == ["account"];
    assert ["account"][..0] == [];
    assert SavedSections([], values) == map[];
    var one := SavedSections(["account"], values);
    assert one == SavedSections([], values)["account" + "_fields" := SectionFields(SubmittedRows(values, "account"))];
    assert one == map["account_fields" := SectionFields(SubmittedRows(values, "account"))];
    var two := SavedSections(["account", "subscription"], values);
    assert two == one["subscription_fields" := SectionFields(SubmittedRows(values, "subscription"))];
  }

  // ---------------------------------------------------------------------------
  // Build, then save unchanged

  /** The rows a built section submits when the user changes nothing. */
  function Resubmitted(fieldsets: seq<Fieldset>): seq<(RowKey, RowValue)> {
    seq(|fieldsets|, i requires 0 <= i < |fieldsets| => (IntKey(i), FieldRow(fieldsets[i].fieldId, fieldsets[i].fieldPattern)))
      + [(StrKey("actions"), OtherRow)]
  }

  /**
    A saved configuration with distinct, non-empty ids and patterns survives
    a round trip: building the section from it and saving it unchanged gives
    the same configuration back.
  */
  lemma {:induction false} BuildThenSaveRoundTrip(config: Assoc)
    requires DistinctKeys(config)
    requires forall i :: 0 <= i < |config| ==> Truthy(config[i].0) && Truthy(config[i].1)
    ensures SectionFields(Resubmitted(DefaultFieldsets(config, |config|))) == config
  {
    var fieldsets := DefaultFieldsets(config, |config|);
    var rows := Resubmitted(fieldsets);
    var numbered := rows[..|config|];
    assert rows == numbered + [(StrKey("actions"), OtherRow)];
    UnstoredRowsIgnored(numbered, (StrKey("actions"), OtherRow));
    for k := 0 to |config|
      invariant SectionFields(numbered[..k]) == config[..k]
    {
      assert numbered[..k + 1][..k] == numbered[..k];
      assert numbered[..k + 1][k] == (IntKey(k), FieldRow(config[k].0, config[k].1));
      DistinctKeysFresh(config, k);
      PutNewKey(config[..k], config[k].0, config[k].1);
      assert config[..k + 1] == config[..k] + [config[k]];
    }
    assert numbered[..|config|] == numbered;
    assert config[..|config|] == config;
  }


  // ---------------------------------------------------------------------------
  // The form

  /** The settings form; `customFields` is the saved `custom_fields` setting it edits. */
  class CustomFieldsSettingsForm {
    var customFields: map<string, Assoc>

    constructor (customFields: map<string, Assoc>)
      ensures this.customFields == customFields
    {
      this.customFields := customFields;
    }

    /**
      Builds a section: its ids, the counter (set to the number of configured
      fields when the form state has none), that many fieldsets defaulting to
      the configured fields in order, the add button, and the remove button
      when the count is positive.
    */
    method BuildSection(sectionName: string, formState: FormState) returns (section: Section)
      modifies formState`storage
      ensures section.id == SectionId(sectionName) && section.wrapperId == KebabId(section.id)
      ensures var key := CountKey(section.id);
        var config := SectionConfig(customFields, section.id);
        && (key in old(formState.storage) ==> formState.storage == old(formState.storage))
        && (key !in old(formState.storage) ==> formState.storage == old(formState.storage)[key := |config|])
        && section.fieldsets == DefaultFieldsets(config, formState.storage[key])
        && section.addButtonName == "add-" + section.wrapperId
        && (section.removeButtonName.Some? <==> formState.storage[key] > 0)
        && (section.removeButtonName.Some? ==> section.removeButtonName.value == "remove-" + section.wrapperId)
    {
      var sectionId := SectionId(sectionName);
      var sectionIdKebab := KebabId(sectionId);

      var thisFieldsConfig := SectionConfig(customFields, sectionId);
      var indexed: seq<Fieldset> := [];
      for k := 0 to |thisFieldsConfig|
        invariant |indexed| == k
        invariant forall m :: 0 <= m < k ==> indexed[m] == Fieldset(thisFieldsConfig[m].0, thisFieldsConfig[m].1)
      {
        indexed := indexed + [Fieldset(thisFieldsConfig[k].0, thisFieldsConfig[k].1)];
      }

      var countKey := CountKey(sectionId);
      var sectionCount;
      if countKey !in formState.storage {
        sectionCount := |indexed|;
        formState.storage := formState.storage[countKey := sectionCount];
      } else {
        sectionCount := formState.storage[countKey];
      }

      var fieldsets: seq<Fieldset> := [];
      var i := 0;
      while i < sectionCount
        invariant 0 <= i && (sectionCount > 0 ==> i <= sectionCount) && (sectionCount <= 0 ==> i == 0)
        invariant fieldsets == DefaultFieldsets(thisFieldsConfig, i)
      {
        var fieldset := if i < |indexed| then indexed[i] else Fieldset("", "");
        fieldsets := fieldsets + [fieldset];
        i := i + 1;
      }
      assert i == (if sectionCount > 0 then sectionCount else 0);

      var removeButtonName := None;
      if sectionCount > 0 {
        removeButtonName := Some("remove-" + sectionIdKebab);
      }
      section := Section(sectionId, sectionIdKebab, fieldsets, "add-" + sectionIdKebab, removeButtonName);
    }

    /**
      The add and remove buttons' handler: updates the pressed section's
      counter and asks for a rebuild.
    */
    method AddRemoveHandler(variant: string, formState: FormState)
      modifies formState`storage, formState`rebuild
      ensures var key := CountKey(formState.triggerSection);
        var current := if key in old(formState.storage) then Some(old(formState.storage)[key]) else None;
        formState.storage == old(formState.storage)[key := NextCount(variant, current)]
      ensures formState.rebuild
    {
      var countKey := CountKey(formState.triggerSection);
      var sectionCount := if countKey in formState.storage then formState.storage[countKey] else 0;
      if variant == "add" {
        sectionCount := sectionCount + 1;
      } else if variant == "remove" {
        if sectionCount > 0 {
          sectionCount := sectionCount - 1;
        }
      }
      formState.storage := formState.storage[countKey := sectionCount];
      formState.rebuild := true;
    }

    /**
      Saves the form: for each of the three sections an entry, each stored
      row (numbered, with non-empty id and pattern) setting its id to its
      pattern.
    */
    method SubmitForm(formState: FormState)
      modifies this`customFields
      ensures customFields == SavedSections(SectionNames, formState.values)
    {
      var customFieldsData: map<string, Assoc> := map[];
      for n := 0 to |SectionNames|
        invariant customFieldsData == SavedSections(SectionNames[..n], formState.values)
      {
        var sectionName := SectionNames[n];
        var sectionId := sectionName + "_fields";
        customFieldsData := customFieldsData[sectionId := []];
        var before := customFieldsData;
        assert SectionNames[..n + 1][..n] == SectionNames[..n];
        var values := SubmittedRows(formState.values, sectionName);
        for j := 0 to |values|
          invariant customFieldsData == before[sectionId := SectionFields(values[..j])]
        {
          assert values[..j + 1][..j] == values[..j];
          var (k, fieldInfo) := values[j];
          if !k.IntKey? {
            continue;
          }
          if !fieldInfo.FieldRow? || !Truthy(fieldInfo.fieldId) || !Truthy(fieldInfo.fieldPattern) {
            continue;
          }
          customFieldsData := customFieldsData[sectionId := Put(customFieldsData[sectionId], fieldInfo.fieldId, fieldInfo.fieldPattern)];
        }
        assert values[..|values|] == values;
      }
      assert SectionNames[..|SectionNames|] == SectionNames;
      customFields := customFieldsData;
    }
  }
}
