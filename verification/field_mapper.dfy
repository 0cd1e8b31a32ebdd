/** `utils/field_mapper.py`: the class-level helpers that translate the six
    grid column names between their Chinese and English forms. */
module FieldMapper {
  import opened Wrappers
  import opened Database

  /** `FIELD_DESCRIPTIONS`, keyed by the English names. */
  const FieldDescriptions: map<string, string> := map[
    "grid_id_no_buffer" := "网格ID（不缓冲）",
    "grid_name_no_buffer" := "网格名称（不缓冲）",
    "grid_label_no_buffer" := "网格标签（不缓冲）",
    "grid_id_buffer_500m" := "网格ID（500米缓冲）",
    "grid_name_buffer_500m" := "网格名称（500米缓冲）",
    "grid_label_buffer_500m" := "网格标签（500米缓冲）"]

  /** `chinese_to_english`: the English name, or `None` for a name that is
      not a Chinese grid column. */
  function ChineseToEnglish(chinese: string): (r: Option<string>)
    ensures r.None? <==> chinese !in GridFieldMapping
    ensures r.Some? ==> r.value == GridFieldMapping[chinese] && r.value in GridFieldMapping.Values
  {
    if chinese in GridFieldMapping then Some(GridFieldMapping[chinese]) else None
  }

  /** `english_to_chinese`: the Chinese name, or `None` for a name that is
      not an English grid column. */
  function EnglishToChinese(english: string): (r: Option<string>)
    ensures r.None? <==> english !in GridFieldMapping.Values
    ensures r.Some? ==> r.value in GridFieldMapping && GridFieldMapping[r.value] == english
  {
    var reverse := GridFieldReverseMapping();
    if english in reverse then Some(reverse[english]) else None
  }

  /** The two translations undo each other, in both directions. */
  lemma TranslationsRoundTrip(chinese: string, english: string)
    ensures ChineseToEnglish(chinese) == Some(english) <==> EnglishToChinese(english) == Some(chinese)
  {
    MappingInjective();
  }

  /** `get_field_description`: the description of an English name, the
      description of a Chinese name's English form, or the name itself. */
  function GetFieldDescription(fieldName: string): (r: string)
    ensures fieldName in FieldDescriptions ==> r == FieldDescriptions[fieldName]
    ensures fieldName !in FieldDescriptions && fieldName in GridFieldMapping
            && GridFieldMapping[fieldName] in FieldDescriptions ==>
      r == FieldDescriptions[GridFieldMapping[fieldName]]
    ensures fieldName !in FieldDescriptions && fieldName !in GridFieldMapping ==> r == fieldName
  {
    if fieldName in FieldDescriptions then FieldDescriptions[fieldName]
    else
      var english := ChineseToEnglish(fieldName);
      if english.Some? && english.value != "" && english.value in FieldDescriptions then FieldDescriptions[english.value]
      else fieldName
  }

  /** The descriptions cover the English names. */
  lemma DescriptionsCoverEnglishNames()
    ensures FieldDescriptions.Keys == GridFieldMapping.Values
  {
    MappingValues();
  }

  /** Both names of a grid column are described alike. */
  lemma SameDescriptionForBothNames(chinese: string)
    requires chinese in GridFieldMapping
    ensures GetFieldDescription(chinese) == GetFieldDescription(GridFieldMapping[chinese])
  {
    DescriptionsCoverEnglishNames();
    var english := GridFieldMapping[chinese];
    assert english in FieldDescriptions;
    if chinese in GridFieldMapping.Values {
      NamesDisjoint(chinese);
    }
    assert chinese !in FieldDescriptions;
  }

  /** `is_valid_chinese_field`. */
  predicate IsValidChineseField(fieldName: string) {
    fieldName in GridFieldMapping
  }

  /** `is_valid_english_field`. */
  predicate IsValidEnglishField(fieldName: string) {
    EnglishToChinese(fieldName).Some?
  }

  /** `is_grid_field`: a name from either side of the mapping, which is
      exactly a whitelisted grid column. */
  function IsGridField(fieldName: string): (r: bool)
    ensures r <==> IsValidChineseField(fieldName) || IsValidEnglishField(fieldName)
    ensures r <==> fieldName in AllowedGridColumns
  {
    AllowedAreMappedNames();
    fieldName in GridFieldMapping || fieldName in GridFieldReverseMapping()
  }

  /** `get_all_chinese_fields`, `get_all_english_fields` and
      `get_mapping_pairs`, as sets. */
  function AllChineseFields(): (r: set<string>)
    ensures forall f :: f in r <==> ChineseToEnglish(f).Some?
  {
    GridFieldMapping.Keys
  }

  function AllEnglishFields(): (r: set<string>)
    ensures forall f :: f in r <==> EnglishToChinese(f).Some?
  {
    GridFieldReverseMapping().Keys
  }

  function MappingPairs(): (r: set<(string, string)>)
    ensures forall c, e :: (c, e) in r <==> ChineseToEnglish(c) == Some(e)
  {
    set c | c in GridFieldMapping :: (c, GridFieldMapping[c])
  }

  /** `get_preferred_field_name`: only a name of the other language is
      translated; every other name is returned unchanged. */
  function GetPreferredFieldName(fieldName: string, preferEnglish: bool): (r: string)
    ensures preferEnglish ==> r == if fieldName in GridFieldMapping then GridFieldMapping[fieldName] else fieldName
    ensures !preferEnglish && fieldName !in GridFieldMapping.Values ==> r == fieldName
    ensures !preferEnglish && fieldName in GridFieldMapping.Values ==>
      r in GridFieldMapping && GridFieldMapping[r] == fieldName
  {
    if preferEnglish then
      if fieldName in GridFieldMapping then GridFieldMapping[fieldName] else fieldName
    else
      var reverse := GridFieldReverseMapping();
      if fieldName in reverse then reverse[fieldName] else fieldName
  }

  /** The preferred name is already preferred, and the class helper agrees
      with the database's `get_field_name`. */
  lemma PreferredNameStable(fieldName: string, preferEnglish: bool)
    ensures GetPreferredFieldName(GetPreferredFieldName(fieldName, preferEnglish), preferEnglish)
            == GetPreferredFieldName(fieldName, preferEnglish)
    ensures GetPreferredFieldName(fieldName, preferEnglish) == GetFieldName(fieldName, preferEnglish)
  {
    var r := GetPreferredFieldName(fieldName, preferEnglish);
    if preferEnglish && fieldName in GridFieldMapping {
      NamesDisjoint(r);
    }
    if !preferEnglish && fieldName in GridFieldMapping.Values {
      if r in GridFieldMapping.Values {
        NamesDisjoint(r);
      }
    }
  }

  // ---------------------------------------------------------------------------
  // Key conversion (`convert_dict_keys`)
  // ---------------------------------------------------------------------------

  /** `chinese_to_english(key) or key` (or the Chinese direction). */
  function NewKey(key: string, toEnglish: bool): (r: string)
    ensures toEnglish && key in GridFieldMapping ==> r == GridFieldMapping[key]
    ensures !toEnglish && key in GridFieldMapping.Values ==> r in GridFieldMapping && GridFieldMapping[r] == key
    ensures (if toEnglish then key !in GridFieldMapping else key !in GridFieldMapping.Values) ==> r == key
  {
    var translated := if toEnglish then ChineseToEnglish(key) else EnglishToChinese(key);
    NonEmptyNames(key, toEnglish);
    if translated.Some? && translated.value != "" then translated.value else key
  }

  lemma NonEmptyNames(key: string, toEnglish: bool)
    ensures toEnglish && key in GridFieldMapping ==> GridFieldMapping[key] != ""
    ensures !toEnglish && key in GridFieldMapping.Values ==> EnglishToChinese(key).value != ""
  {
    if toEnglish && key in GridFieldMapping {
      MappingValues();
      assert GridFieldMapping[key] in GridFieldMapping.Values;
    }
    if !toEnglish && key in GridFieldMapping.Values {
      var c := EnglishToChinese(key).value;
      assert c in GridFieldMapping;
      assert c[0] == '网';
    }
  }

  /** The dictionary the loop builds from the items in order: each value
      under its converted key, a later item overwriting an earlier one. */
  function Converted<V>(items: seq<(string, V)>, toEnglish: bool): (r: map<string, V>)
    ensures forall k :: k in r <==> exists i :: 0 <= i < |items| && NewKey(items[i].0, toEnglish) == k
  {
    if |items| == 0 then map[]
    else
      var init := items[..|items| - 1];
      var last := items[|items| - 1];
      var r := Converted(init, toEnglish)[NewKey(last.0, toEnglish) := last.1];
      assert forall i :: 0 <= i < |init| ==> init[i] == items[i];
      r
  }

  /** `convert_dict_keys` over the dictionary's items in insertion order. */
  method ConvertDictKeys<V>(items: seq<(string, V)>, toEnglish: bool) returns (converted: map<string, V>)
    ensures converted == Converted(items, toEnglish)
    ensures |items| == 0 ==> converted == map[]
  {
    if |items| == 0 {
      return map[];
    }
    converted := map[];
    var i := 0;
    while i < |items|
      invariant 0 <= i <= |items|
      invariant converted == Converted(items[..i], toEnglish)
    {
      assert items[..i + 1][..i] == items[..i];
      var (key, value) := items[i];
      converted := converted[NewKey(key, toEnglish) := value];
      i := i + 1;
    }
    assert items[..i] == items;
  }

  /** Every value survives under its converted key unless a later item has
      the same converted key. */
  lemma {:induction false} ConvertedKeepsValues<V>(items: seq<(string, V)>, toEnglish: bool, i: nat)
    requires i < |items|
    requires forall j :: i < j < |items| ==> NewKey(items[j].0, toEnglish) != NewKey(items[i].0, toEnglish)
    ensures Converted(items, toEnglish)[NewKey(items[i].0, toEnglish)] == items[i].1
  {
    if i < |items| - 1 {
      var init := items[..|items| - 1];
      assert init[i] == items[i];
      forall j | i < j < |init| ensures NewKey(init[j].0, toEnglish) != NewKey(init[i].0, toEnglish) {
        assert init[j] == items[j];
      }
      ConvertedKeepsValues(init, toEnglish, i);
    }
  }

  /** Two different keys collide only when they are the two names of one
      grid column. */
  lemma KeysCollideOnlyForOneColumn(a: string, b: string, toEnglish: bool)
    requires a != b && NewKey(a, toEnglish) == NewKey(b, toEnglish)
    ensures (a in GridFieldMapping && GridFieldMapping[a] == b) || (b in GridFieldMapping && GridFieldMapping[b] == a)
  {
    MappingInjective();
    if toEnglish {
      if a in GridFieldMapping && b in GridFieldMapping {
      } else if a in GridFieldMapping {
        assert NewKey(b, true) == b;
      } else if b in GridFieldMapping {
        assert NewKey(a, true) == a;
      }
    } else {
      if a in GridFieldMapping.Values && b in GridFieldMapping.Values {
      } else if a in GridFieldMapping.Values {
        assert NewKey(b, false) == b;
      } else if b in GridFieldMapping.Values {
        assert NewKey(a, false) == a;
      }
    }
  }

  // ---------------------------------------------------------------------------
  // Self-check (`validate_field_mapping`)
  // ---------------------------------------------------------------------------

  /** The four flags of `validate_field_mapping`. */
  datatype Validation = Validation(mappingComplete: bool, reverseMappingComplete: bool,
                                   descriptionsComplete: bool, noConflicts: bool)

  /** The checks over the given mapping, its reverse and the descriptions,
      each loop stopping at the first failure. */
  method ValidateFieldMapping(mapping: map<string, string>, reverse: map<string, string>,
                              descriptions: map<string, string>)
    returns (v: Validation)
    ensures v.mappingComplete <==> forall c :: c in mapping ==> mapping[c] in reverse
    ensures v.reverseMappingComplete <==> forall e :: e in reverse ==> reverse[e] in mapping
    ensures v.descriptionsComplete <==> forall e :: e in reverse ==> e in descriptions
    ensures v.noConflicts <==> |mapping| == |reverse|
  {
    var mappingComplete := ValuesCovered(mapping, reverse);
    var reverseComplete := ValuesCovered(reverse, mapping);
    var descriptionsComplete := KeysCovered(reverse, descriptions);
    v := Validation(mappingComplete, reverseComplete, descriptionsComplete, |mapping| == |reverse|);
  }

  /** One loop of the check: whether every value of `m` is a key of `other`,
      stopping at the first that is not. */
  method ValuesCovered(m: map<string, string>, other: map<string, string>) returns (complete: bool)
    ensures complete <==> forall c :: c in m ==> m[c] in other
  {
    complete := true;
    var todo := m.Keys;
    while todo != {}
      invariant todo <= m.Keys
      invariant complete <==> forall c :: c in m && c !in todo ==> m[c] in other
      decreases |todo|
    {
      var c :| c in todo;
      if m[c] !in other {
        complete := false;
        break;
      }
      todo := todo - {c};
    }
  }

  /** One loop of the check: whether every key of `m` is a key of `other`,
      stopping at the first that is not. */
  method KeysCovered(m: map<string, string>, other: map<string, string>) returns (complete: bool)
    ensures complete <==> forall e :: e in m ==> e in other
  {
    complete := true;
    var todo := m.Keys;
    while todo != {}
      invariant todo <= m.Keys
      invariant complete <==> forall e :: e in m && e !in todo ==> e in other
      decreases |todo|
    {
      var e :| e in todo;
      if e !in other {
        complete := false;
        break;
      }
      todo := todo - {e};
    }
  }

  /** The inverse of a mapping without shared values has as many entries. */
  lemma InvertSameSize(m: map<string, string>)
    requires Injective(m)
    ensures |Invert(m)| == |m|
  {
    var r := Invert(m);
    assert r.Keys == m.Values;
    var f := (k: string) requires k in m => m[k];
    ImageSize(m.Keys, m);
    assert m.Values == set k | k in m.Keys :: m[k];
  }

  lemma {:induction false} ImageSize(keys: set<string>, m: map<string, string>)
    requires keys <= m.Keys && Injective(m)
    ensures |set k | k in keys :: m[k]| == |keys|
    decreases |keys|
  {
    if keys != {} {
      var k :| k in keys;
      var rest := keys - {k};
      ImageSize(rest, m);
      var image := set x | x in keys :: m[x];
      var restImage := set x | x in rest :: m[x];
      assert image == restImage + {m[k]};
      assert m[k] !in restImage;
    }
  }

  /** The shipped mapping passes all four checks. */
  lemma ShippedMappingValid()
    ensures forall c :: c in GridFieldMapping ==> GridFieldMapping[c] in GridFieldReverseMapping()
    ensures forall e :: e in GridFieldReverseMapping() ==> GridFieldReverseMapping()[e] in GridFieldMapping
    ensures forall e :: e in GridFieldReverseMapping() ==> e in FieldDescriptions
    ensures |GridFieldMapping| == |GridFieldReverseMapping()|
  {
    DescriptionsCoverEnglishNames();
    MappingInjective();
    InvertSameSize(GridFieldMapping);
  }
}
