/** The parts of `database.py` that decide something without the database:
    the Chinese/English names of the grid columns, the panel search query,
    batching, the scheme exclusion list and the grid-score counters. */
module Database {
  import opened Wrappers
  import opened Text
  import opened Sql

  // ---------------------------------------------------------------------------
  // Grid column names
  // ---------------------------------------------------------------------------

  /** `GRID_FIELD_MAPPING`: each Chinese grid column name to its English one. */
  const GridFieldMapping: map<string, string> := map[
    "网格ID_不缓冲" := "grid_id_no_buffer",
    "网格名_不缓冲" := "grid_name_no_buffer",
    "网格标签_不缓冲" := "grid_label_no_buffer",
    "网格ID_缓冲500米" := "grid_id_buffer_500m",
    "网格名_缓冲500米" := "grid_name_buffer_500m",
    "网格标签_缓冲500米" := "grid_label_buffer_500m"]

  predicate Injective(m: map<string, string>) {
    forall a, b :: a in m && b in m && a != b ==> m[a] != m[b]
  }

  /** `{v: k for k, v in m.items()}` for a map without shared values. */
  function Invert(m: map<string, string>): (r: map<string, string>)
    requires Injective(m)
    ensures r.Keys == m.Values
    ensures forall k :: k in m ==> r[m[k]] == k
    ensures forall v :: v in r ==> r[v] in m && m[r[v]] == v
  {
    map k | k in m :: m[k] := k
  }

  lemma MappingInjective()
    ensures Injective(GridFieldMapping)
  {
  }

  /** `GRID_FIELD_REVERSE_MAPPING`. */
  function GridFieldReverseMapping(): (r: map<string, string>)
    ensures r.Keys == GridFieldMapping.Values
    ensures forall k :: k in GridFieldMapping ==> r[GridFieldMapping[k]] == k
    ensures forall v :: v in r ==> r[v] in GridFieldMapping && GridFieldMapping[r[v]] == v
  {
    MappingInjective();
    Invert(GridFieldMapping)
  }

  /** `ALLOWED_GRID_COLUMNS`: the only columns an update may name. */
  const AllowedGridColumns: set<string> := {
    "网格ID_不缓冲", "网格名_不缓冲", "网格标签_不缓冲",
    "网格ID_缓冲500米", "网格名_缓冲500米", "网格标签_缓冲500米",
    "grid_id_no_buffer", "grid_name_no_buffer", "grid_label_no_buffer",
    "grid_id_buffer_500m", "grid_name_buffer_500m", "grid_label_buffer_500m"}

  /** The English grid column names, listed. */
  lemma MappingValues()
    ensures GridFieldMapping.Values == {"grid_id_no_buffer", "grid_name_no_buffer", "grid_label_no_buffer",
      "grid_id_buffer_500m", "grid_name_buffer_500m", "grid_label_buffer_500m"}
  {
    assert GridFieldMapping["网格ID_不缓冲"] == "grid_id_no_buffer";
    assert GridFieldMapping["网格名_不缓冲"] == "grid_name_no_buffer";
    assert GridFieldMapping["网格标签_不缓冲"] == "grid_label_no_buffer";
    assert GridFieldMapping["网格ID_缓冲500米"] == "grid_id_buffer_500m";
    assert GridFieldMapping["网格名_缓冲500米"] == "grid_name_buffer_500m";
    assert GridFieldMapping["网格标签_缓冲500米"] == "grid_label_buffer_500m";
  }

  /** The whitelist is exactly the names on both sides of the mapping. */
  lemma AllowedAreMappedNames()
    ensures AllowedGridColumns == GridFieldMapping.Keys + GridFieldMapping.Values
  {
    MappingValues();
  }

  /** `get_field_name`: a Chinese grid name becomes English when English is
      preferred, an English one Chinese when it is not, anything else is
      returned as it is. */
  function GetFieldName(fieldKey: string, preferEnglish: bool): (r: string)
    ensures fieldKey in GridFieldMapping && preferEnglish ==> r == GridFieldMapping[fieldKey]
    ensures fieldKey in GridFieldMapping.Values && !preferEnglish ==>
      r in GridFieldMapping && GridFieldMapping[r] == fieldKey
    ensures (preferEnglish && fieldKey !in GridFieldMapping) || (!preferEnglish && fieldKey !in GridFieldMapping.Values) ==>
      r == fieldKey
  {
    var reverse := GridFieldReverseMapping();
    if fieldKey in GridFieldMapping && preferEnglish then GridFieldMapping[fieldKey]
    else if fieldKey in reverse && !preferEnglish then reverse[fieldKey]
    else fieldKey
  }

  /** Asking for a name in one language and back gives the name again. */
  lemma FieldNameRoundTrip(chinese: string)
    requires chinese in GridFieldMapping
    ensures GetFieldName(GetFieldName(chinese, true), false) == chinese
  {
    MappingInjective();
  }

  /** The columns `update_grid_field_with_mapping` names: the key and, when
      both are wanted, its counterpart. */
  function FieldsToUpdate(fieldKey: string, updateBoth: bool): (r: seq<string>)
    ensures |r| >= 1 && r[0] == fieldKey
    ensures fieldKey !in GridFieldMapping && fieldKey !in GridFieldMapping.Values ==> r == [fieldKey]
  {
    var reverse := GridFieldReverseMapping();
    if fieldKey in GridFieldMapping then [fieldKey] + if updateBoth then [GridFieldMapping[fieldKey]] else []
    else if fieldKey in reverse then [fieldKey] + if updateBoth then [reverse[fieldKey]] else []
    else [fieldKey]
  }

  /** The names of `fields` on the whitelist, in order. */
  function Whitelisted(fields: seq<string>): (r: seq<string>)
    ensures forall c :: c in r <==> c in fields && c in AllowedGridColumns
    ensures |r| <= |fields|
  {
    if |fields| == 0 then []
    else Whitelisted(fields[..|fields| - 1]) + if fields[|fields| - 1] in AllowedGridColumns then [fields[|fields| - 1]] else []
  }

  /** The update loop of `update_grid_field_with_mapping`: the columns an
      `UPDATE` statement is run for, in order. */
  method UpdateGridFieldWithMapping(fieldKey: string, updateBoth: bool) returns (updated: seq<string>)
    ensures updated == Whitelisted(FieldsToUpdate(fieldKey, updateBoth))
  {
    var fields := FieldsToUpdate(fieldKey, updateBoth);
    updated := [];
    var i := 0;
    while i < |fields|
      invariant 0 <= i <= |fields|
      invariant updated == Whitelisted(fields[..i])
    {
      assert fields[..i + 1][..i] == fields[..i];
      if fields[i] in AllowedGridColumns {
        updated := updated + [fields[i]];
      }
      i := i + 1;
    }
    assert fields[..i] == fields;
  }

  /** Only a grid column is ever updated: something is updated exactly
      when the key is one of the whitelisted names. */
  lemma UpdatesOnlyGridColumns(fieldKey: string, updateBoth: bool)
    ensures |Whitelisted(FieldsToUpdate(fieldKey, updateBoth))| > 0 <==> fieldKey in AllowedGridColumns
  {
    var fields := FieldsToUpdate(fieldKey, updateBoth);
    if fieldKey in AllowedGridColumns {
      assert fieldKey in Whitelisted(fields);
    } else {
      AllowedAreMappedNames();
      assert fields == [fieldKey];
      assert Whitelisted(fields) == Whitelisted([]) + [];
    }
  }

  lemma WhitelistedPair(a: string, b: string)
    requires a in AllowedGridColumns && b in AllowedGridColumns
    ensures Whitelisted([a, b]) == [a, b]
  {
    assert [a, b][..1] == [a];
    assert [a][..0] == [];
  }

  /** Asking for both names of a Chinese grid column updates it under both. */
  lemma UpdatesBothNames(fieldKey: string)
    requires fieldKey in GridFieldMapping
    ensures Whitelisted(FieldsToUpdate(fieldKey, true)) == [fieldKey, GridFieldMapping[fieldKey]]
  {
    var english := GridFieldMapping[fieldKey];
    assert FieldsToUpdate(fieldKey, true) == [fieldKey, english];
    assert fieldKey in AllowedGridColumns && english in AllowedGridColumns by {
      AllowedAreMappedNames();
    }
    WhitelistedPair(fieldKey, english);
  }

  /** No name is both a Chinese and an English grid column name. */
  lemma NamesDisjoint(name: string)
    requires name in GridFieldMapping.Values
    ensures name !in GridFieldMapping
  {
    MappingValues();
    assert name[0] == 'g';
  }

  /** Asking for both names of an English grid column updates it under both. */
  lemma UpdatesBothNamesFromEnglish(fieldKey: string)
    requires fieldKey in GridFieldMapping.Values
    ensures var updated := Whitelisted(FieldsToUpdate(fieldKey, true));
      |updated| == 2 && updated[0] == fieldKey && updated[1] in GridFieldMapping && GridFieldMapping[updated[1]] == fieldKey
  {
    var chinese := GridFieldReverseMapping()[fieldKey];
    NamesDisjoint(fieldKey);
    assert FieldsToUpdate(fieldKey, true) == [fieldKey, chinese];
    assert fieldKey in AllowedGridColumns && chinese in AllowedGridColumns by {
      AllowedAreMappedNames();
    }
    WhitelistedPair(fieldKey, chinese);
  }

  // ---------------------------------------------------------------------------
  // Panel search (`search_panel_data`)
  // ---------------------------------------------------------------------------

  /** A filter value as the search form supplies it; Python's truth value
      decides whether it applies. */
  datatype FilterValue = Text(s: string) | Flag(b: bool) | Number(n: int)

  predicate Truthy(v: FilterValue) {
    match v
    case Text(s) => s != ""
    case Flag(b) => b
    case Number(n) => n != 0
  }

  /** `filters.get(key)` is truthy. */
  predicate Given(filters: map<string, FilterValue>, key: string) {
    key in filters && Truthy(filters[key])
  }

  /** `str(v)`. */
  function TextOf(v: FilterValue): string {
    match v
    case Text(s) => s
    case Flag(b) => if b then "True" else "False"
    case Number(n) => IntToString(n)
  }

  /** The placeholders of a list of conditions. */
  function Placeholders(clauses: seq<string>): nat {
    if |clauses| == 0 then 0 else Count(clauses[0], '?') + Placeholders(clauses[1..])
  }

  lemma {:induction false} PlaceholdersSnoc(clauses: seq<string>, c: string)
    ensures Placeholders(clauses + [c]) == Placeholders(clauses) + Count(c, '?')
  {
    if |clauses| > 0 {
      assert (clauses + [c])[1..] == clauses[1..] + [c];
      PlaceholdersSnoc(clauses[1..], c);
    }
  }

  /** Joining conditions with a placeholder-free separator keeps their
      placeholders. */
  lemma {:induction false} JoinPlaceholders(clauses: seq<string>, sep: string)
    requires '?' !in sep
    ensures Count(Join(clauses, sep), '?') == Placeholders(clauses)
  {
    if |clauses| == 1 {
      assert clauses[1..] == [];
    } else if |clauses| > 1 {
      JoinPlaceholders(clauses[1..], sep);
      CountAbsent(sep, '?');
      CountConcat(clauses[0], sep, '?');
      CountConcat(clauses[0] + sep, Join(clauses[1..], sep), '?');
    }
  }

  const BatchEquals: string := "p.import_" + "batch_id = "
  const CityEquals: string := "p.city = "
  const GridCodeEquals: string := "p.grid_code = "
  const SchemeTypeEquals: string := "p.scheme_" + "type = "
  const ImplementEquals: string := "p.implement_" + "results = "
  const LabelLike: string := "p.label LIKE "
  const CreatedFrom: string := "p.created_at " + ">= "
  const CreatedTo: string := "p.created_at " + "<= "
  const ObjectNameEquals: string := "p.vcoptimize_" + "object_name = "
  const VcisvailEquals: string := "p.vcisvail = "
  const MeasureCodeEquals: string := "p.vcmeasure_" + "code = "
  const ActNameEquals: string := "p.current_" + "act_name = "
  const ImplementResultsIsNull: string :=
    "(p.implement_" + "results " + "IS NULL OR " + "p.implement_" + "results " + "= '')"
  const VcisvailIsNull: string := "(p.vcisvail " + "IS NULL OR " + "p.vcisvail " + "= '')"

  lemma FirstClausesHaveNoPlaceholder()
    ensures '?' !in BatchEquals && '?' !in CityEquals && '?' !in GridCodeEquals
    ensures '?' !in SchemeTypeEquals && '?' !in ImplementEquals && '?' !in LabelLike
  {
  }

  lemma LaterClausesHaveNoPlaceholder()
    ensures '?' !in CreatedFrom && '?' !in CreatedTo && '?' !in ObjectNameEquals
    ensures '?' !in VcisvailEquals && '?' !in MeasureCodeEquals && '?' !in ActNameEquals
  {
  }

  lemma NullClausesHaveNoPlaceholder()
    ensures '?' !in ImplementResultsIsNull && '?' !in VcisvailIsNull
    ensures ImplementResultsIsNull != VcisvailIsNull
  {
    assert |ImplementResultsIsNull| != |VcisvailIsNull|;
  }

  lemma {:induction false} PlaceholdersAppend(a: seq<string>, b: seq<string>)
    ensures Placeholders(a + b) == Placeholders(a) + Placeholders(b)
  {
    if |a| > 0 {
      assert (a + b)[1..] == a[1..] + b;
      PlaceholdersAppend(a[1..], b);
    } else {
      assert a + b == b;
    }
  }

  /** The condition `text?` when `key` is given. */
  function Cond(filters: map<string, FilterValue>, key: string, text: string): seq<string> {
    if Given(filters, key) then [text + "?"] else []
  }

  /** The condition `text?` when `key` is given, else `nullText` when
      `nullKey` is. */
  function CondOrNull(filters: map<string, FilterValue>, key: string, text: string,
                      nullKey: string, nullText: string): seq<string> {
    if Given(filters, key) then [text + "?"] else if Given(filters, nullKey) then [nullText] else []
  }

  /** The value of a filter, when given. */
  function ValueOf(filters: map<string, FilterValue>, key: string): FilterValue {
    if key in filters then filters[key] else Flag(false)
  }

  /** The parameter `value` when `key` is given. */
  function Param(filters: map<string, FilterValue>, key: string, value: FilterValue): seq<FilterValue> {
    if Given(filters, key) then [value] else []
  }

  function BatchCond(batchId: string): seq<string> {
    if batchId != "" then [BatchEquals + "?"] else []
  }

  function BatchParam(batchId: string): seq<FilterValue> {
    if batchId != "" then [Text(batchId)] else []
  }

  /** The label filter is bound as a `%label%` pattern. */
  function LabelPattern(filters: map<string, FilterValue>): FilterValue {
    Text(Like(TextOf(ValueOf(filters, "label_pattern"))))
  }

  /** The conditions of `search_panel_data`, in the order they are built. */
  function PanelClauses(filters: map<string, FilterValue>, batchId: string): seq<string> {
    BatchCond(batchId)
    + Cond(filters, "city", CityEquals)
    + Cond(filters, "grid_code", GridCodeEquals)
    + Cond(filters, "scheme_type", SchemeTypeEquals)
    + CondOrNull(filters, "implement_results", ImplementEquals, "implement_results_is_null", ImplementResultsIsNull)
    + Cond(filters, "label_pattern", LabelLike)
    + Cond(filters, "date_from", CreatedFrom)
    + Cond(filters, "date_to", CreatedTo)
    + Cond(filters, "vcoptimize_object_name", ObjectNameEquals)
    + CondOrNull(filters, "vcisvail", VcisvailEquals, "vcisvail_is_null", VcisvailIsNull)
    + Cond(filters, "vcmeasure_code", MeasureCodeEquals)
    + Cond(filters, "current_act_name", ActNameEquals)
  }

  /** The parameters of those conditions, in the same order. */
  function PanelParams(filters: map<string, FilterValue>, batchId: string): seq<FilterValue> {
    BatchParam(batchId)
    + Param(filters, "city", ValueOf(filters, "city"))
    + Param(filters, "grid_code", ValueOf(filters, "grid_code"))
    + Param(filters, "scheme_type", ValueOf(filters, "scheme_type"))
    + Param(filters, "implement_results", ValueOf(filters, "implement_results"))
    + Param(filters, "label_pattern", LabelPattern(filters))
    + Param(filters, "date_from", ValueOf(filters, "date_from"))
    + Param(filters, "date_to", ValueOf(filters, "date_to"))
    + Param(filters, "vcoptimize_object_name", ValueOf(filters, "vcoptimize_object_name"))
    + Param(filters, "vcisvail", ValueOf(filters, "vcisvail"))
    + Param(filters, "vcmeasure_code", ValueOf(filters, "vcmeasure_code"))
    + Param(filters, "current_act_name", ValueOf(filters, "current_act_name"))
  }

  /** `if filters.get(key): conditions.append(text + "?"); params.append(value)`. */
  method AppendIfGiven(conditions: seq<string>, params: seq<FilterValue>, filters: map<string, FilterValue>,
                       key: string, text: string, value: FilterValue)
    returns (conditions': seq<string>, params': seq<FilterValue>)
    ensures conditions' == conditions + Cond(filters, key, text)
    ensures params' == params + Param(filters, key, value)
  {
    conditions', params' := conditions, params;
    if Given(filters, key) {
      conditions' := conditions' + [text + "?"];
      params' := params' + [value];
    }
  }

  /** The same with an `elif filters.get(nullKey): conditions.append(nullText)`. */
  method AppendIfGivenOrNull(conditions: seq<string>, params: seq<FilterValue>, filters: map<string, FilterValue>,
                             key: string, text: string, value: FilterValue, nullKey: string, nullText: string)
    returns (conditions': seq<string>, params': seq<FilterValue>)
    ensures conditions' == conditions + CondOrNull(filters, key, text, nullKey, nullText)
    ensures params' == params + Param(filters, key, value)
  {
    conditions', params' := conditions, params;
    if Given(filters, key) {
      conditions' := conditions' + [text + "?"];
      params' := params' + [value];
    } else if Given(filters, nullKey) {
      conditions' := conditions' + [nullText];
    }
  }

  /** The condition list of `search_panel_data`, block by block. */
  method PanelConditions(filters: map<string, FilterValue>, batchId: string)
    returns (conditions: seq<string>, params: seq<FilterValue>)
    ensures conditions == PanelClauses(filters, batchId) && params == PanelParams(filters, batchId)
    ensures Placeholders(conditions) == |params|
  {
    conditions, params := [], [];
    if batchId != "" {
      conditions, params := conditions + [BatchEquals + "?"], params + [Text(batchId)];
    }
    assert conditions == BatchCond(batchId) && params == BatchParam(batchId);
    conditions, params := AppendIfGiven(conditions, params, filters, "city", CityEquals, ValueOf(filters, "city"));
    conditions, params := AppendIfGiven(conditions, params, filters, "grid_code", GridCodeEquals, ValueOf(filters, "grid_code"));
    conditions, params := AppendIfGiven(conditions, params, filters, "scheme_type", SchemeTypeEquals, ValueOf(filters, "scheme_type"));
    conditions, params := AppendIfGivenOrNull(conditions, params, filters, "implement_results", ImplementEquals, ValueOf(filters, "implement_results"),
                                              "implement_results_is_null", ImplementResultsIsNull);
    conditions, params := AppendIfGiven(conditions, params, filters, "label_pattern", LabelLike, LabelPattern(filters));
    conditions, params := AppendIfGiven(conditions, params, filters, "date_from", CreatedFrom, ValueOf(filters, "date_from"));
    conditions, params := AppendIfGiven(conditions, params, filters, "date_to", CreatedTo, ValueOf(filters, "date_to"));
    conditions, params := AppendIfGiven(conditions, params, filters, "vcoptimize_object_name", ObjectNameEquals, ValueOf(filters, "vcoptimize_object_name"));
    conditions, params := AppendIfGivenOrNull(conditions, params, filters, "vcisvail", VcisvailEquals, ValueOf(filters, "vcisvail"),
                                              "vcisvail_is_null", VcisvailIsNull);
    conditions, params := AppendIfGiven(conditions, params, filters, "vcmeasure_code", MeasureCodeEquals, ValueOf(filters, "vcmeasure_code"));
    conditions, params := AppendIfGiven(conditions, params, filters, "current_act_name", ActNameEquals, ValueOf(filters, "current_act_name"));
    PanelBalanced(filters, batchId);
  }

  /** One condition piece has as many placeholders as its parameter piece. */
  lemma CondBalanced(filters: map<string, FilterValue>, key: string, text: string, nullKey: string, nullText: string)
    requires '?' !in text && '?' !in nullText
    ensures forall v :: Placeholders(Cond(filters, key, text)) == |Param(filters, key, v)|
    ensures forall v :: Placeholders(CondOrNull(filters, key, text, nullKey, nullText)) == |Param(filters, key, v)|
  {
    OnePlaceholder(text);
    CountAbsent(nullText, '?');
    assert [text + "?"][1..] == [];
    assert [nullText][1..] == [];
  }

  /** Appending balanced pieces keeps a condition list balanced. */
  lemma AppendPiece(cs: seq<string>, ps: seq<FilterValue>, c: seq<string>, p: seq<FilterValue>)
    requires Placeholders(cs) == |ps| && Placeholders(c) == |p|
    ensures Placeholders(cs + c) == |ps + p|
  {
    PlaceholdersAppend(cs, c);
  }

  /** Every placeholder of the panel conditions has its parameter: the
      `IS NULL` conditions bring none, each other condition exactly one. */
  lemma {:induction false} PanelBalanced(filters: map<string, FilterValue>, batchId: string)
    ensures Placeholders(PanelClauses(filters, batchId)) == |PanelParams(filters, batchId)|
  {
    FirstClausesHaveNoPlaceholder();
    LaterClausesHaveNoPlaceholder();
    NullClausesHaveNoPlaceholder();
    var f := filters;
    assert Placeholders(BatchCond(batchId)) == |BatchParam(batchId)| by {
      if batchId != "" {
        OnePlaceholder(BatchEquals);
        assert [BatchEquals + "?"][1..] == [];
      }
    }
    var cs := BatchCond(batchId);
    var ps := BatchParam(batchId);
    CondBalanced(f, "city", CityEquals, "", "");
    AppendPiece(cs, ps, Cond(f, "city", CityEquals), Param(f, "city", ValueOf(f, "city")));
    cs, ps := cs + Cond(f, "city", CityEquals), ps + Param(f, "city", ValueOf(f, "city"));
    CondBalanced(f, "grid_code", GridCodeEquals, "", "");
    AppendPiece(cs, ps, Cond(f, "grid_code", GridCodeEquals), Param(f, "grid_code", ValueOf(f, "grid_code")));
    cs, ps := cs + Cond(f, "grid_code", GridCodeEquals), ps + Param(f, "grid_code", ValueOf(f, "grid_code"));
    CondBalanced(f, "scheme_type", SchemeTypeEquals, "", "");
    AppendPiece(cs, ps, Cond(f, "scheme_type", SchemeTypeEquals), Param(f, "scheme_type", ValueOf(f, "scheme_type")));
    cs, ps := cs + Cond(f, "scheme_type", SchemeTypeEquals), ps + Param(f, "scheme_type", ValueOf(f, "scheme_type"));
    var implement := CondOrNull(f, "implement_results", ImplementEquals, "implement_results_is_null", ImplementResultsIsNull);
    CondBalanced(f, "implement_results", ImplementEquals, "implement_results_is_null", ImplementResultsIsNull);
    AppendPiece(cs, ps, implement, Param(f, "implement_results", ValueOf(f, "implement_results")));
    cs, ps := cs + implement, ps + Param(f, "implement_results", ValueOf(f, "implement_results"));
    CondBalanced(f, "label_pattern", LabelLike, "", "");
    AppendPiece(cs, ps, Cond(f, "label_pattern", LabelLike), Param(f, "label_pattern", LabelPattern(f)));
    cs, ps := cs + Cond(f, "label_pattern", LabelLike), ps + Param(f, "label_pattern", LabelPattern(f));
    CondBalanced(f, "date_from", CreatedFrom, "", "");
    AppendPiece(cs, ps, Cond(f, "date_from", CreatedFrom), Param(f, "date_from", ValueOf(f, "date_from")));
    cs, ps := cs + Cond(f, "date_from", CreatedFrom), ps + Param(f, "date_from", ValueOf(f, "date_from"));
    CondBalanced(f, "date_to", CreatedTo, "", "");
    AppendPiece(cs, ps, Cond(f, "date_to", CreatedTo), Param(f, "date_to", ValueOf(f, "date_to")));
    cs, ps := cs + Cond(f, "date_to", CreatedTo), ps + Param(f, "date_to", ValueOf(f, "date_to"));
    CondBalanced(f, "vcoptimize_object_name", ObjectNameEquals, "", "");
    AppendPiece(cs, ps, Cond(f, "vcoptimize_object_name", ObjectNameEquals), Param(f, "vcoptimize_object_name", ValueOf(f, "vcoptimize_object_name")));
    cs, ps := cs + Cond(f, "vcoptimize_object_name", ObjectNameEquals), ps + Param(f, "vcoptimize_object_name", ValueOf(f, "vcoptimize_object_name"));
    var vcisvail := CondOrNull(f, "vcisvail", VcisvailEquals, "vcisvail_is_null", VcisvailIsNull);
    CondBalanced(f, "vcisvail", VcisvailEquals, "vcisvail_is_null", VcisvailIsNull);
    AppendPiece(cs, ps, vcisvail, Param(f, "vcisvail", ValueOf(f, "vcisvail")));
    cs, ps := cs + vcisvail, ps + Param(f, "vcisvail", ValueOf(f, "vcisvail"));
    CondBalanced(f, "vcmeasure_code", MeasureCodeEquals, "", "");
    AppendPiece(cs, ps, Cond(f, "vcmeasure_code", MeasureCodeEquals), Param(f, "vcmeasure_code", ValueOf(f, "vcmeasure_code")));
    cs, ps := cs + Cond(f, "vcmeasure_code", MeasureCodeEquals), ps + Param(f, "vcmeasure_code", ValueOf(f, "vcmeasure_code"));
    CondBalanced(f, "current_act_name", ActNameEquals, "", "");
    AppendPiece(cs, ps, Cond(f, "current_act_name", ActNameEquals), Param(f, "current_act_name", ValueOf(f, "current_act_name")));
  }

  /** A piece made of `text?` conditions holds no placeholder-free text. */
  lemma CondExcludes(filters: map<string, FilterValue>, key: string, text: string, other: string)
    requires '?' !in other
    ensures other !in Cond(filters, key, text)
  {
    assert (text + "?")[|text|] == '?';
  }

  /** The `IS NULL` condition for `implement_results` is there exactly when
      its flag is given and the value filter is not: a value overrides it. */
  lemma ImplementNullOverridden(filters: map<string, FilterValue>, batchId: string)
    ensures ImplementResultsIsNull in PanelClauses(filters, batchId) <==>
      !Given(filters, "implement_results") && Given(filters, "implement_results_is_null")
  {
    NullClausesHaveNoPlaceholder();
    var f := filters;
    var x := ImplementResultsIsNull;
    assert x !in BatchCond(batchId) by {
      if batchId != "" { CondExcludes(map["" := Flag(true)], "", BatchEquals, x); assert BatchCond(batchId) == Cond(map["" := Flag(true)], "", BatchEquals); }
    }
    CondExcludes(f, "city", CityEquals, x);
    CondExcludes(f, "grid_code", GridCodeEquals, x);
    CondExcludes(f, "scheme_type", SchemeTypeEquals, x);
    CondExcludes(f, "implement_results", ImplementEquals, x);
    CondExcludes(f, "label_pattern", LabelLike, x);
    CondExcludes(f, "date_from", CreatedFrom, x);
    CondExcludes(f, "date_to", CreatedTo, x);
    CondExcludes(f, "vcoptimize_object_name", ObjectNameEquals, x);
    CondExcludes(f, "vcisvail", VcisvailEquals, x);
    CondExcludes(f, "vcmeasure_code", MeasureCodeEquals, x);
    CondExcludes(f, "current_act_name", ActNameEquals, x);
  }

  /** Likewise for `vcisvail`. */
  lemma VcisvailNullOverridden(filters: map<string, FilterValue>, batchId: string)
    ensures VcisvailIsNull in PanelClauses(filters, batchId) <==>
      !Given(filters, "vcisvail") && Given(filters, "vcisvail_is_null")
  {
    NullClausesHaveNoPlaceholder();
    var f := filters;
    var x := VcisvailIsNull;
    assert x !in BatchCond(batchId) by {
      if batchId != "" { CondExcludes(map["" := Flag(true)], "", BatchEquals, x); assert BatchCond(batchId) == Cond(map["" := Flag(true)], "", BatchEquals); }
    }
    CondExcludes(f, "city", CityEquals, x);
    CondExcludes(f, "grid_code", GridCodeEquals, x);
    CondExcludes(f, "scheme_type", SchemeTypeEquals, x);
    CondExcludes(f, "implement_results", ImplementEquals, x);
    CondExcludes(f, "label_pattern", LabelLike, x);
    CondExcludes(f, "date_from", CreatedFrom, x);
    CondExcludes(f, "date_to", CreatedTo, x);
    CondExcludes(f, "vcoptimize_object_name", ObjectNameEquals, x);
    CondExcludes(f, "vcisvail", VcisvailEquals, x);
    CondExcludes(f, "vcmeasure_code", MeasureCodeEquals, x);
    CondExcludes(f, "current_act_name", ActNameEquals, x);
  }

  const PanelWhere: string := " WHERE "
  const PanelAnd: string := " AND "
  const PanelOrder: string := " ORDER BY " + "p.city, " + "p.grid_code"
  const PanelLimit: string := " LIMIT "

  lemma PanelTextsHaveNoPlaceholder()
    ensures '?' !in PanelWhere && '?' !in PanelAnd && '?' !in PanelOrder && '?' !in PanelLimit
  {
  }

  /** `sql += " WHERE " + " AND ".join(conditions)` when there are any. */
  function AndWhere(q: Query<FilterValue>, conditions: seq<string>, params: seq<FilterValue>): (r: Query<FilterValue>)
    requires Balanced(q) && Placeholders(conditions) == |params|
    ensures Balanced(r) && r.params == q.params + params
    ensures |conditions| == 0 ==> r.sql == q.sql
  {
    PanelTextsHaveNoPlaceholder();
    if |conditions| == 0 then
      assert q.params + params == q.params;
      q
    else
      var whereClause := PanelWhere + Join(conditions, PanelAnd);
      JoinPlaceholders(conditions, PanelAnd);
      CountAbsent(PanelWhere, '?');
      CountConcat(PanelWhere, Join(conditions, PanelAnd), '?');
      AppendBalanced(q, whereClause, params);
      Query(q.sql + whereClause, q.params + params)
  }

  /** `search_panel_data`: `select` is the statement's column list and join,
      which holds no placeholder; the conditions follow `WHERE`, joined by
      `AND`, and a given `limit` adds a last parameter. */
  method SearchPanelData(select: string, filters: map<string, FilterValue>, batchId: string)
    returns (q: Query<FilterValue>)
    requires '?' !in select
    ensures Balanced(q)
    ensures q.params == PanelParams(filters, batchId) + Param(filters, "limit", ValueOf(filters, "limit"))
  {
    var conditions, params := PanelConditions(filters, batchId);
    PanelTextsHaveNoPlaceholder();
    q := Plain(select);
    q := AndWhere(q, conditions, params);
    q := AndText(q, PanelOrder);
    if Given(filters, "limit") {
      q := AndParam(q, PanelLimit, filters["limit"]);
    }
  }

  // ---------------------------------------------------------------------------
  // Batches (`execute_many`)
  // ---------------------------------------------------------------------------

  function Flatten<T>(chunks: seq<seq<T>>): seq<T> {
    if |chunks| == 0 then [] else Flatten(chunks[..|chunks| - 1]) + chunks[|chunks| - 1]
  }

  /** `execute_many`: nothing is run for an empty list; a list longer than a
      positive chunk size is sent in consecutive slices of at most that
      size, otherwise at once. `dbOk` is whether the database accepted the
      statements. */
  method ExecuteMany<T>(paramsList: seq<T>, chunkSize: nat, dbOk: bool) returns (ok: bool, batches: seq<seq<T>>)
    ensures ok <==> |paramsList| == 0 || dbOk
    ensures |paramsList| == 0 ==> batches == []
    ensures Flatten(batches) == paramsList
    ensures forall b :: b in batches ==> |b| > 0
    ensures chunkSize > 0 && |paramsList| > chunkSize ==> forall b :: b in batches ==> |b| <= chunkSize
  {
    if |paramsList| == 0 {
      return true, [];
    }
    if chunkSize > 0 && |paramsList| > chunkSize {
      batches := [];
      var i := 0;
      while i < |paramsList|
        invariant 0 <= i <= |paramsList|
        invariant Flatten(batches) == paramsList[..i]
        invariant forall b :: b in batches ==> 0 < |b| <= chunkSize
        decreases |paramsList| - i
      {
        var end := if i + chunkSize < |paramsList| then i + chunkSize else |paramsList|;
        var chunk := paramsList[i..end];
        assert paramsList[..i] + chunk == paramsList[..end];
        batches := batches + [chunk];
        i := end;
      }
      assert paramsList[..i] == paramsList;
    } else {
      batches := [paramsList];
      assert Flatten(batches) == Flatten(batches[..0]) + paramsList;
    }
    ok := dbOk;
  }

  // ---------------------------------------------------------------------------
  // Scheme exclusion list
  // ---------------------------------------------------------------------------

  /** `is_scheme_excluded`: an empty id is never excluded; otherwise the id is
      excluded when it is on the stored list `excluded`. */
  function IsSchemeExcluded(schemeId: string, excluded: set<string>): (r: bool)
    ensures r <==> schemeId != "" && schemeId in excluded
  {
    if schemeId == "" then false else schemeId in excluded
  }

  const HeaderName: string := "vcscheme_id"

  /** The ids the lines contribute, in order. */
  function IdsFrom(lines: seq<string>): (r: seq<string>)
    ensures forall id :: id in r ==> id != "" && id != HeaderName
  {
    if |lines| == 0 then []
    else
      var id := Strip(lines[|lines| - 1]);
      IdsFrom(lines[..|lines| - 1]) + if id != "" && id != HeaderName then [id] else []
  }

  /** Every id read is already stripped. */
  lemma {:induction false} IdsAreStripped(lines: seq<string>)
    ensures forall id :: id in IdsFrom(lines) ==> Strip(id) == id
  {
    if |lines| > 0 {
      IdsAreStripped(lines[..|lines| - 1]);
      StripIdempotent(lines[|lines| - 1]);
    }
  }

  /** Every id read is the stripped text of one of the lines. */
  lemma {:induction false} IdsComeFromLines(lines: seq<string>)
    ensures forall id :: id in IdsFrom(lines) ==> exists i :: 0 <= i < |lines| && Strip(lines[i]) == id
  {
    if |lines| > 0 {
      var init := lines[..|lines| - 1];
      IdsComeFromLines(init);
      forall id | id in IdsFrom(lines)
        ensures exists i :: 0 <= i < |lines| && Strip(lines[i]) == id
      {
        if id in IdsFrom(init) {
          var i :| 0 <= i < |init| && Strip(init[i]) == id;
          assert lines[i] == init[i];
        } else {
          assert Strip(lines[|lines| - 1]) == id;
        }
      }
    }
  }

  /** The exclusion-file parse: a first line holding `vcscheme_id` is a
      header and skipped; every other line is stripped and kept unless it is
      empty or the header name. */
  method ParseExclusionList(lines: seq<string>) returns (schemeIds: seq<string>)
    ensures schemeIds == IdsFrom(lines[if |lines| > 0 && Contains(lines[0], HeaderName) then 1 else 0..])
  {
    var startIdx := 0;
    if |lines| > 0 && Contains(lines[0], HeaderName) {
      startIdx := 1;
    }
    var rest := lines[startIdx..];
    schemeIds := [];
    var i := 0;
    while i < |rest|
      invariant 0 <= i <= |rest|
      invariant schemeIds == IdsFrom(rest[..i])
    {
      assert rest[..i + 1][..i] == rest[..i];
      var schemeId := Strip(rest[i]);
      if schemeId != "" && schemeId != HeaderName {
        schemeIds := schemeIds + [schemeId];
      }
      i := i + 1;
    }
    assert rest[..i] == rest;
  }

  // ---------------------------------------------------------------------------
  // Grid result scores (`insert_grid_result_scores`)
  // ---------------------------------------------------------------------------

  /** What happened to one row: a new record, a replaced existing record, a
      uniqueness conflict resolved by an update (or not), or an error. */
  datatype RowOutcome = Inserted | Replaced | ConflictUpdated | ConflictFailed | Failed

  predicate Updates(o: RowOutcome) {
    o == Replaced || o == ConflictUpdated
  }

  function CountWhere(outcomes: seq<RowOutcome>, p: RowOutcome -> bool): (n: nat)
    ensures n <= |outcomes|
  {
    if |outcomes| == 0 then 0
    else CountWhere(outcomes[..|outcomes| - 1], p) + if p(outcomes[|outcomes| - 1]) then 1 else 0
  }

  lemma {:induction false} CountWhereMonotone(outcomes: seq<RowOutcome>, p: RowOutcome -> bool, q: RowOutcome -> bool)
    requires forall o :: p(o) ==> q(o)
    ensures CountWhere(outcomes, p) <= CountWhere(outcomes, q)
  {
    if |outcomes| > 0 {
      CountWhereMonotone(outcomes[..|outcomes| - 1], p, q);
    }
  }

  /** The counters: `(inserted + updated, updated)`, `(0, 0)` for no rows or
      when the connection fails (`connected` false). */
  method InsertGridResultScores(outcomes: seq<RowOutcome>, connected: bool) returns (total: nat, updated: nat)
    ensures |outcomes| == 0 || !connected ==> total == 0 && updated == 0
    ensures |outcomes| > 0 && connected ==>
      total == CountWhere(outcomes, o => o == Inserted || Updates(o)) && updated == CountWhere(outcomes, Updates)
    ensures updated <= total <= |outcomes|
  {
    if |outcomes| == 0 || !connected {
      return 0, 0;
    }
    var insertCount, updateCount := 0, 0;
    var i := 0;
    while i < |outcomes|
      invariant 0 <= i <= |outcomes|
      invariant insertCount + updateCount == CountWhere(outcomes[..i], o => o == Inserted || Updates(o))
      invariant updateCount == CountWhere(outcomes[..i], Updates)
    {
      assert outcomes[..i + 1][..i] == outcomes[..i];
      match outcomes[i] {
        case Inserted => insertCount := insertCount + 1;
        case Replaced => updateCount := updateCount + 1;
        case ConflictUpdated => updateCount := updateCount + 1;
        case ConflictFailed =>
        case Failed =>
      }
      i := i + 1;
    }
    assert outcomes[..i] == outcomes;
    total, updated := insertCount + updateCount, updateCount;
  }
}
