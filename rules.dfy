/**
 * A parsed `rule.yaml` record, with the optional keys the extractor looks at, and the
 * defaults it substitutes for the missing ones.
 */
module Rules {
  import opened Wrappers

  /** Rule id used when a record has no `id` key. */
  const NoId: string := "No ID"
  /** Tactic name, tactic uid or technique uid used when the key is missing. */
  const Unknown: string := "Unknown"

  /** An entry of an attack's `tactics` list: `{name?, uid?}`. */
  datatype Tactic = Tactic(name: Option<string>, uid: Option<string>)

  /** An attack's `technique`: `{uid?}`. */
  datatype Technique = Technique(uid: Option<string>)

  /** An entry of `metadata.attacks`. */
  datatype Attack = Attack(tactics: Option<seq<Tactic>>, technique: Option<Technique>)

  /** A record's `metadata`, which may hold an `attacks` list. */
  datatype Metadata = Metadata(attacks: Option<seq<Attack>>)

  /** One `rule.yaml` file: the path it was found at, its `id?` and `metadata?`. */
  datatype RuleRecord = RuleRecord(path: string, id: Option<string>, metadata: Option<Metadata>)

  /** `data.get('id', 'No ID')` */
  function FileId(r: RuleRecord): (id: string)
    ensures r.id.Some? ==> id == r.id.value
    ensures r.id.None? ==> id == NoId
  {
    r.id.GetOr(NoId)
  }

  /** `'metadata' in data and 'attacks' in data['metadata']`: present even if the list is empty. */
  predicate HasAttacks(r: RuleRecord): (b: bool)
    ensures r.metadata.None? ==> !b
    ensures r.metadata.Some? ==> (b <==> r.metadata.value.attacks.Some?)
  {
    r.metadata.Some? && r.metadata.value.attacks.Some?
  }

  /** `data['metadata']['attacks']` */
  function AttacksOf(r: RuleRecord): seq<Attack>
    requires HasAttacks(r)
  {
    r.metadata.value.attacks.value
  }

  /** The tactic name, or "Unknown". */
  function TacticName(t: Tactic): (name: string)
    ensures t.name.Some? ==> name == t.name.value
    ensures t.name.None? ==> name == Unknown
  {
    t.name.GetOr(Unknown)
  }

  /** The tactic uid, or "Unknown". */
  function TacticUid(t: Tactic): (uid: string)
    ensures t.uid.Some? ==> uid == t.uid.value
    ensures t.uid.None? ==> uid == Unknown
  {
    t.uid.GetOr(Unknown)
  }

  /** `f"{name} (UID: {uid})"` with both defaults applied. */
  function TacticEntry(t: Tactic): (e: string)
    ensures var n, u := TacticName(t), TacticUid(t);
      && |e| == |n| + 8 + |u|
      && e[..|n|] == n && e[|n|..|n| + 7] == " (UID: " && e[|n| + 7..|e| - 1] == u && e[|e| - 1] == ')'
  {
    var n, u := TacticName(t), TacticUid(t);
    var e := n + " (UID: " + u + ")";
    assert e[..|n|] == n;
    assert e[|n|..|n| + 7] == " (UID: ";
    assert e[|n| + 7..|e| - 1] == u;
    e
  }

  /** `technique.get('uid', 'Unknown')` */
  function TechniqueId(t: Technique): (id: string)
    ensures t.uid.Some? ==> id == t.uid.value
    ensures t.uid.None? ==> id == Unknown
  {
    t.uid.GetOr(Unknown)
  }

  /**
   * Tactics whose names contain no '(' have equal entry strings only when their names
   * and uids agree, so deduplicating entry strings deduplicates (name, uid) pairs.
   */
  lemma TacticEntryInjective(t1: Tactic, t2: Tactic)
    requires '(' !in TacticName(t1) && '(' !in TacticName(t2)
    requires TacticEntry(t1) == TacticEntry(t2)
    ensures TacticName(t1) == TacticName(t2) && TacticUid(t1) == TacticUid(t2)
  {
    var n1, n2 := TacticName(t1), TacticName(t2);
    var e := TacticEntry(t1);
    assert e[|n1| + 1] == '(' by { assert e == n1 + " (UID: " + TacticUid(t1) + ")"; }
    assert TacticEntry(t2)[|n2| + 1] == '(' by { assert TacticEntry(t2) == n2 + " (UID: " + TacticUid(t2) + ")"; }
    assert |n1| == |n2|;
    assert n1 == e[..|n1|];
    assert n2 == e[..|n2|];
    var u1, u2 := TacticUid(t1), TacticUid(t2);
    assert u1 == e[|n1| + 7..|e| - 1];
    assert u2 == TacticEntry(t2)[|n2| + 7..|e| - 1];
  }

  /**
   * Without that condition two different tactics can share an entry string. Only the
   * first of them is then listed (`Extraction.CollidingTacticsListedOnce`).
   */
  lemma TacticEntryCollision()
    ensures var t1, t2 := Tactic(Some("a (UID: b)"), Some("c")), Tactic(Some("a"), Some("b) (UID: c"));
      t1 != t2 && TacticEntry(t1) == TacticEntry(t2)
  {
    var t1, t2 := Tactic(Some("a (UID: b)"), Some("c")), Tactic(Some("a"), Some("b) (UID: c"));
    assert TacticEntry(t1) == "a (UID: b) (UID: c)";
    assert TacticEntry(t2) == "a (UID: b) (UID: c)";
  }
}
