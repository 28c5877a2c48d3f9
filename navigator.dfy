/**
 * `nav_json` without the file write: the heatmap layer for the ATT&CK Navigator, one
 * entry per technique with its score, colour and rule-id comment, plus fixed metadata.
 */
module Navigator {
  import opened Lists
  import opened ListDicts
  import opened Colors
  import opened Rules
  import opened Extraction

  datatype NavEntry = NavEntry(techniqueId: string, score: nat, comment: string, enabled: bool, color: string)

  datatype Versions = Versions(attack: string, navigator: string, layer: string)

  datatype Layout = Layout(layout: string, showName: bool, showId: bool, showAggregateScores: bool,
                           countUnscored: bool, aggregateFunction: string)

  datatype GradientSpec = GradientSpec(colors: seq<string>, maxValue: nat, minValue: nat)

  datatype Layer = Layer(name: string, versions: Versions, layout: Layout, domain: string,
                         description: string, sorting: int, viewMode: int, hideDisabled: bool,
                         techniques: seq<NavEntry>, gradient: GradientSpec, legendItems: seq<string>)

  const LayerName: string := "ACE Rules MITRE Heatmap"
  const LayerVersions: Versions := Versions("16", "4.4.4", "4.5")
  const LayerLayout: Layout := Layout("side", true, false, true, true, "average")
  const Domain: string := "mitre-enterprise"
  const Description: string := "ACE mitre heatmap"
  const CommentPrefix: string := "Rule ID's: "

  /** The largest length of a list under `keys`, or 0 when there are no keys. */
  function MaxLength(keys: seq<string>, lists: map<string, seq<string>>): (m: nat)
    requires forall k :: k in keys ==> k in lists
    ensures forall k :: k in keys ==> |lists[k]| <= m
    ensures keys == [] ==> m == 0
    ensures keys != [] ==> exists k :: k in keys && |lists[k]| == m
  {
    if keys == [] then 0
    else
      var p, last := keys[..|keys| - 1], keys[|keys| - 1];
      DropLast(keys);
      var rest := MaxLength(p, lists);
      if rest < |lists[last]| then |lists[last]| else rest
  }

  /**
   * `max(len(ids) for ids in techniques.values()) if techniques else 0`: every list is at
   * most this long and, when there is a list, one is exactly this long; it is 0 exactly
   * when the table is empty, since no list in it is empty.
   */
  function MaxValue(d: ListDict): (m: nat)
    requires d.Valid()
    ensures forall k :: k in d.lists ==> |d.lists[k]| <= m
    ensures d.keys != [] ==> exists k :: k in d.lists && |d.lists[k]| == m
    ensures m == 0 <==> d.keys == []
  {
    MaxLength(d.keys, d.lists)
  }

  /** The heatmap entry for technique `techniqueId` whose rule ids are `fileIds`. */
  predicate IsEntryFor(e: NavEntry, techniqueId: string, fileIds: seq<string>, maxValue: nat) {
    && e.techniqueId == techniqueId
    && e.score == |fileIds|
    && e.comment == CommentPrefix + Join(", ", fileIds)
    && e.enabled
    && e.color == CalculateColor(|fileIds|, maxValue)
  }

  /** The loop of `nav_json`: one entry per technique, in the table's insertion order. */
  method TechniqueEntries(techniques: ListDict, maxValue: nat) returns (navTech: seq<NavEntry>)
    requires techniques.Valid()
    ensures |navTech| == |techniques.keys|
    ensures forall p :: 0 <= p < |navTech| ==>
      IsEntryFor(navTech[p], techniques.keys[p], techniques.lists[techniques.keys[p]], maxValue)
  {
    navTech := [];
    for i := 0 to |techniques.keys|
      invariant |navTech| == i
      invariant forall p :: 0 <= p < i ==>
        IsEntryFor(navTech[p], techniques.keys[p], techniques.lists[techniques.keys[p]], maxValue)
    {
      var techniqueId := techniques.keys[i];
      var fileIds := techniques.lists[techniqueId];
      var score := |fileIds|;
      var color := CalculateColor(score, maxValue);
      navTech := navTech + [NavEntry(techniqueId, score, CommentPrefix + Join(", ", fileIds), true, color)];
    }
  }

  /**
   * Entries built for every technique of the table against its largest score: none
   * scores above it, and the technique attaining it gets the top colour.
   */
  lemma EntriesScoredAgainstMax(techniques: ListDict, entries: seq<NavEntry>, maxValue: nat)
    requires techniques.Valid() && maxValue == MaxValue(techniques)
    requires |entries| == |techniques.keys|
    requires forall i :: 0 <= i < |entries| ==>
      IsEntryFor(entries[i], techniques.keys[i], techniques.lists[techniques.keys[i]], maxValue)
    ensures forall e :: e in entries ==> e.score <= maxValue
    ensures entries != [] ==> exists e :: e in entries && e.color == Green
  {
    forall e | e in entries ensures e.score <= maxValue {
      var p :| 0 <= p < |entries| && entries[p] == e;
      assert techniques.keys[p] in techniques.lists;
    }
    if entries != [] {
      var k :| k in techniques.lists && |techniques.lists[k]| == maxValue;
      var p :| 0 <= p < |techniques.keys| && techniques.keys[p] == k;
      assert entries[p].color == Green;
    }
  }

  /**
   * The layer document: one entry per technique, in the table's insertion order, each
   * scored by its number of rule ids and coloured against the largest score; at least
   * one entry is in the top tier whenever there is an entry at all.
   */
  method NavJson(techniques: ListDict) returns (layer: Layer)
    requires techniques.Valid()
    ensures layer.gradient.maxValue == MaxValue(techniques)
    ensures |layer.techniques| == |techniques.keys|
    ensures forall i :: 0 <= i < |techniques.keys| ==>
      IsEntryFor(layer.techniques[i], techniques.keys[i], techniques.lists[techniques.keys[i]], layer.gradient.maxValue)
    ensures forall e :: e in layer.techniques ==> e.score <= layer.gradient.maxValue
    ensures layer.gradient.maxValue == 0 <==> layer.techniques == []
    ensures layer.techniques != [] ==> exists e :: e in layer.techniques && e.color == Green
    ensures layer.name == LayerName && layer.versions == LayerVersions && layer.layout == LayerLayout
    ensures layer.domain == Domain && layer.description == Description
    ensures layer.sorting == 0 && layer.viewMode == 0 && !layer.hideDisabled
    ensures layer.gradient.colors == Gradient && layer.gradient.minValue == 0 && layer.legendItems == []
  {
    var maxValue := MaxValue(techniques);
    var navTech := TechniqueEntries(techniques, maxValue);
    EntriesScoredAgainstMax(techniques, navTech, maxValue);
    layer := Layer(LayerName, LayerVersions, LayerLayout, Domain, Description, 0, 0, false,
                   navTech, GradientSpec(Gradient, maxValue, 0), []);
  }

  /** The technique table is empty exactly when no attack carries a `technique` key. */
  lemma NoTechniquesIffNoReferences(records: seq<RuleRecord>)
    ensures Group(TechniqueRefs(records)).keys == [] <==> AllTechniqueAttacks(records) == 0
  {
    var refs := TechniqueRefs(records);
    GroupContents(refs);
    RefsLength(records);
    if refs != [] {
      assert refs[|refs| - 1].0 in KeysOf(refs);
    }
  }

  /**
   * The `nav` mode end to end (`extract_mitre_ids` then `nav_json`): one entry per
   * technique id referenced by some attack, in order of first reference; each scored by
   * the number of attacks referring to it, with the ids of those attacks' rules.
   */
  method RunNav(records: seq<RuleRecord>) returns (layer: Layer)
    ensures |layer.techniques| == |Dedup(KeysOf(TechniqueRefs(records)))|
    ensures forall i :: 0 <= i < |layer.techniques| ==>
      var e := layer.techniques[i];
      && e.techniqueId == Dedup(KeysOf(TechniqueRefs(records)))[i]
      && e.score == TechniqueOccurrences(records, e.techniqueId) > 0
      && e.comment == CommentPrefix + Join(", ", RuleIdsFor(records, e.techniqueId))
    ensures layer.gradient.maxValue == 0 <==> AllTechniqueAttacks(records) == 0
  {
    var summary := ExtractMitreIds(records);
    var techniques := summary.techniques;
    layer := NavJson(techniques);
    GroupContents(TechniqueRefs(records));
    forall i | 0 <= i < |layer.techniques|
      ensures var e := layer.techniques[i];
        && e.score == TechniqueOccurrences(records, e.techniqueId) > 0
        && e.comment == CommentPrefix + Join(", ", RuleIdsFor(records, e.techniqueId))
    {
      TechniqueListsExact(records, techniques.keys[i]);
    }
    NoTechniquesIffNoReferences(records);
  }
}
