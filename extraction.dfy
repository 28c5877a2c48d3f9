/**
 * `extract_mitre_ids`: one pass over the rule records in walk order that counts them,
 * splits their ids by whether they carry attack metadata, collects the distinct tactic
 * entries, groups rule ids by technique id and records per-file stats.
 *
 * The reference definitions below are folds over the records, each written by recursion
 * on the last record so that the loop's prefixes line up with them.
 */
module Extraction {
  import opened Wrappers
  import opened Lists
  import opened ListDicts
  import opened Rules

  /** An entry of `file_stats`; `hasAttacks` is "Yes" or "No". */
  datatype FileStat = FileStat(filePath: string, id: string, hasAttacks: string)

  /** The stats entry recorded for one record. */
  function Stat(r: RuleRecord): (s: FileStat)
    ensures s.filePath == r.path && s.id == FileId(r)
    ensures s.hasAttacks == "Yes" || s.hasAttacks == "No"
    ensures s.hasAttacks == "Yes" <==> HasAttacks(r)
  {
    FileStat(r.path, FileId(r), if HasAttacks(r) then "Yes" else "No")
  }

  /** The ids of all records, in order. */
  function AllIds(rs: seq<RuleRecord>): seq<string> {
    if rs == [] then [] else AllIds(rs[..|rs| - 1]) + [FileId(rs[|rs| - 1])]
  }

  /** The ids of the records with attack metadata, in order. */
  function IdsWithAttacks(rs: seq<RuleRecord>): seq<string> {
    if rs == [] then []
    else
      var r := rs[|rs| - 1];
      IdsWithAttacks(rs[..|rs| - 1]) + (if HasAttacks(r) then [FileId(r)] else [])
  }

  /** The ids of the records without attack metadata, in order. */
  function IdsWithoutAttacks(rs: seq<RuleRecord>): seq<string> {
    if rs == [] then []
    else
      var r := rs[|rs| - 1];
      IdsWithoutAttacks(rs[..|rs| - 1]) + (if HasAttacks(r) then [] else [FileId(r)])
  }

  /** One stats entry per record, in order. */
  function FileStats(rs: seq<RuleRecord>): seq<FileStat> {
    if rs == [] then [] else FileStats(rs[..|rs| - 1]) + [Stat(rs[|rs| - 1])]
  }

  /** The ids of the stats entries marked "Yes" (`want`) or not "Yes" (`!want`). */
  function StatIds(stats: seq<FileStat>, want: bool): seq<string> {
    if stats == [] then []
    else
      var s := stats[|stats| - 1];
      StatIds(stats[..|stats| - 1], want) + (if (s.hasAttacks == "Yes") == want then [s.id] else [])
  }

  // Tactic entries, in the order the loops meet them.

  /** The entry strings of a `tactics` list. */
  function TacticEntriesOf(ts: seq<Tactic>): seq<string> {
    if ts == [] then [] else TacticEntriesOf(ts[..|ts| - 1]) + [TacticEntry(ts[|ts| - 1])]
  }

  /** The entry strings of one attack (none without a `tactics` key). */
  function AttackTacticEntries(a: Attack): seq<string> {
    match a.tactics
    case None => []
    case Some(ts) => TacticEntriesOf(ts)
  }

  /** The entry strings of a list of attacks. */
  function AttacksTacticEntries(attacks: seq<Attack>): seq<string> {
    if attacks == [] then []
    else AttacksTacticEntries(attacks[..|attacks| - 1]) + AttackTacticEntries(attacks[|attacks| - 1])
  }

  /** The entry strings of one record (none without attack metadata). */
  function RecordTacticEntries(r: RuleRecord): seq<string> {
    if HasAttacks(r) then AttacksTacticEntries(AttacksOf(r)) else []
  }

  /** Every tactic entry string met, duplicates included. */
  function TacticEntries(rs: seq<RuleRecord>): seq<string> {
    if rs == [] then [] else TacticEntries(rs[..|rs| - 1]) + RecordTacticEntries(rs[|rs| - 1])
  }

  // Technique references: (technique id, rule id), one per attack with a `technique` key.

  /** The reference one attack of rule `id` makes, if it has a `technique` key. */
  function AttackTechniqueRefs(id: string, a: Attack): seq<(string, string)> {
    match a.technique
    case None => []
    case Some(t) => [(TechniqueId(t), id)]
  }

  /** The references a list of attacks of rule `id` makes. */
  function AttacksTechniqueRefs(id: string, attacks: seq<Attack>): seq<(string, string)> {
    if attacks == [] then []
    else AttacksTechniqueRefs(id, attacks[..|attacks| - 1]) + AttackTechniqueRefs(id, attacks[|attacks| - 1])
  }

  /** The references one record makes (none without attack metadata). */
  function RecordTechniqueRefs(r: RuleRecord): seq<(string, string)> {
    if HasAttacks(r) then AttacksTechniqueRefs(FileId(r), AttacksOf(r)) else []
  }

  /** Every technique reference, in the order `techniques[...].append` meets them. */
  function TechniqueRefs(rs: seq<RuleRecord>): seq<(string, string)> {
    if rs == [] then [] else TechniqueRefs(rs[..|rs| - 1]) + RecordTechniqueRefs(rs[|rs| - 1])
  }

  /** One more attack adds its entries and references to those of the ones before it. */
  lemma AttacksPrefixStep(id: string, attacks: seq<Attack>, j: nat)
    requires j < |attacks|
    ensures AttacksTacticEntries(attacks[..j + 1]) == AttacksTacticEntries(attacks[..j]) + AttackTacticEntries(attacks[j])
    ensures AttacksTechniqueRefs(id, attacks[..j + 1]) == AttacksTechniqueRefs(id, attacks[..j]) + AttackTechniqueRefs(id, attacks[j])
  {
    TakePrefix(attacks, j, j + 1);
  }

  /** One more append extends the grouped table by it. */
  lemma GroupSnoc(pairs: seq<(string, string)>, k: string, v: string)
    ensures Group(pairs + [(k, v)]) == Group(pairs).Append(k, v)
  {
    TakeAppend(pairs, [(k, v)]);
  }

  /**
   * The innermost loop: each entry of a `tactics` list is appended to `tactics` (and
   * counted in `ctactics`) unless already there. `seen` is every entry met so far.
   */
  method AddTactics(tactics: seq<string>, ctactics: nat, ts: seq<Tactic>, ghost seen: seq<string>)
    returns (newTactics: seq<string>, newCtactics: nat)
    requires tactics == Dedup(seen) && ctactics == |tactics|
    ensures newTactics == Dedup(seen + TacticEntriesOf(ts)) && newCtactics == |newTactics|
  {
    newTactics, newCtactics := tactics, ctactics;
    ghost var entries := seen;
    for k := 0 to |ts|
      invariant entries == seen + TacticEntriesOf(ts[..k])
      invariant newTactics == Dedup(entries) && newCtactics == |newTactics|
    {
      TakePrefix(ts, k, k + 1);
      var entry := TacticEntry(ts[k]);
      if entry !in newTactics {
        newCtactics := newCtactics + 1;
        newTactics := newTactics + [entry];
      }
      TakeAppend(entries, [entry]);
      entries := entries + [entry];
    }
    TakeAll(ts);
  }

  /**
   * The body of the loop over attacks, for one attack of rule `fileId`: its tactic
   * entries are collected, and `techniques[technique_id].append(file_id)` runs if it has
   * a `technique` key. `seen` and `refs` are the entries and references met so far.
   */
  method ScanAttack(fileId: string, attack: Attack,
                    tactics: seq<string>, ctactics: nat, techniques: ListDict,
                    ghost seen: seq<string>, ghost refs: seq<(string, string)>)
    returns (newTactics: seq<string>, newCtactics: nat, newTechniques: ListDict)
    requires tactics == Dedup(seen) && ctactics == |tactics|
    requires techniques == Group(refs)
    ensures newTactics == Dedup(seen + AttackTacticEntries(attack)) && newCtactics == |newTactics|
    ensures newTechniques == Group(refs + AttackTechniqueRefs(fileId, attack))
  {
    newTactics, newCtactics, newTechniques := tactics, ctactics, techniques;
    if attack.tactics.Some? {
      newTactics, newCtactics := AddTactics(tactics, ctactics, attack.tactics.value, seen);
    } else {
      assert AttackTacticEntries(attack) == [];
      AppendEmpty(seen);
    }
    if attack.technique.Some? {
      var techniqueId := attack.technique.value.uid.GetOr(Unknown);
      GroupSnoc(refs, techniqueId, fileId);
      newTechniques := techniques.Append(techniqueId, fileId);
    } else {
      assert AttackTechniqueRefs(fileId, attack) == [];
      AppendEmpty(refs);
    }
  }

  /**
   * The loop over the attacks of one record with attack metadata, in order.
   */
  method ScanAttacks(fileId: string, attacks: seq<Attack>,
                     tactics: seq<string>, ctactics: nat, techniques: ListDict,
                     ghost seen: seq<string>, ghost refs: seq<(string, string)>)
    returns (newTactics: seq<string>, newCtactics: nat, newTechniques: ListDict)
    requires tactics == Dedup(seen) && ctactics == |tactics|
    requires techniques == Group(refs)
    ensures newTactics == Dedup(seen + AttacksTacticEntries(attacks)) && newCtactics == |newTactics|
    ensures newTechniques == Group(refs + AttacksTechniqueRefs(fileId, attacks))
  {
    newTactics, newCtactics, newTechniques := tactics, ctactics, techniques;
    ghost var entries, pairs := seen, refs;
    for j := 0 to |attacks|
      invariant entries == seen + AttacksTacticEntries(attacks[..j])
      invariant newTactics == Dedup(entries) && newCtactics == |newTactics|
      invariant pairs == refs + AttacksTechniqueRefs(fileId, attacks[..j])
      invariant newTechniques == Group(pairs)
    {
      newTactics, newCtactics, newTechniques :=
        ScanAttack(fileId, attacks[j], newTactics, newCtactics, newTechniques, entries, pairs);
      AttacksPrefixStep(fileId, attacks, j);
      ConcatAssoc(seen, AttacksTacticEntries(attacks[..j]), AttackTacticEntries(attacks[j]));
      ConcatAssoc(refs, AttacksTechniqueRefs(fileId, attacks[..j]), AttackTechniqueRefs(fileId, attacks[j]));
      entries := entries + AttackTacticEntries(attacks[j]);
      pairs := pairs + AttackTechniqueRefs(fileId, attacks[j]);
    }
    TakeAll(attacks);
  }

  /** The result tuple of `extract_mitre_ids`, field by field in its order. */
  datatype Summary = Summary(totalFiles: nat, filesWithAttacks: nat, filesWithoutAttacks: nat,
                             tactics: seq<string>, ctactics: nat, techniques: ListDict,
                             fileStats: seq<FileStat>, idsWithAttacks: seq<string>,
                             idsWithoutAttacks: seq<string>)

  /** The aggregation before any record: all counters 0, all lists empty. */
  const Initial: Summary := Summary(0, 0, 0, [], 0, Empty, [], [], [])

  /** The reference folds over one more record. */
  lemma RecordStep(done: seq<RuleRecord>, r: RuleRecord)
    ensures var q := done + [r];
      && IdsWithAttacks(q) == IdsWithAttacks(done) + (if HasAttacks(r) then [FileId(r)] else [])
      && IdsWithoutAttacks(q) == IdsWithoutAttacks(done) + (if HasAttacks(r) then [] else [FileId(r)])
      && TacticEntries(q) == TacticEntries(done) + RecordTacticEntries(r)
      && TechniqueRefs(q) == TechniqueRefs(done) + RecordTechniqueRefs(r)
      && FileStats(q) == FileStats(done) + [Stat(r)]
  {
    TakeAppend(done, [r]);
  }

  /**
   * The part of the loop body that reads the record: its id (or "No ID"), whether it
   * carries attack metadata, and, if so, the loop over its attacks.
   */
  method ScanRecord(data: RuleRecord, tactics: seq<string>, ctactics: nat, techniques: ListDict,
                    ghost seen: seq<string>, ghost refs: seq<(string, string)>)
    returns (hasAttacks: bool, fileId: string,
             newTactics: seq<string>, newCtactics: nat, newTechniques: ListDict)
    requires tactics == Dedup(seen) && ctactics == |tactics|
    requires techniques == Group(refs)
    ensures hasAttacks == HasAttacks(data) && fileId == FileId(data)
    ensures newTactics == Dedup(seen + RecordTacticEntries(data)) && newCtactics == |newTactics|
    ensures newTechniques == Group(refs + RecordTechniqueRefs(data))
  {
    fileId := data.id.GetOr(NoId);
    hasAttacks := data.metadata.Some? && data.metadata.value.attacks.Some?;
    if hasAttacks {
      newTactics, newCtactics, newTechniques :=
        ScanAttacks(fileId, data.metadata.value.attacks.value, tactics, ctactics, techniques, seen, refs);
    } else {
      newTactics, newCtactics, newTechniques := tactics, ctactics, techniques;
      AppendEmpty(seen);
      AppendEmpty(refs);
    }
  }

  /**
   * The body of the loop over records, for one record `data` after the records `done`:
   * it is counted, its id (or "No ID") goes to one of the two partitions, its attacks
   * (when it has attack metadata) are scanned, and its stats entry is added.
   */
  method AddRecord(s: Summary, data: RuleRecord, ghost done: seq<RuleRecord>) returns (t: Summary)
    requires s.totalFiles == |done| == s.filesWithAttacks + s.filesWithoutAttacks
    requires s.filesWithAttacks == |s.idsWithAttacks| && s.filesWithoutAttacks == |s.idsWithoutAttacks|
    requires s.idsWithAttacks == IdsWithAttacks(done)
    requires s.idsWithoutAttacks == IdsWithoutAttacks(done)
    requires s.tactics == Dedup(TacticEntries(done)) && s.ctactics == |s.tactics|
    requires s.techniques == Group(TechniqueRefs(done))
    requires s.fileStats == FileStats(done)
    ensures t.totalFiles == |done| + 1 == t.filesWithAttacks + t.filesWithoutAttacks
    ensures t.filesWithAttacks == |t.idsWithAttacks| && t.filesWithoutAttacks == |t.idsWithoutAttacks|
    ensures t.idsWithAttacks == IdsWithAttacks(done + [data])
    ensures t.idsWithoutAttacks == IdsWithoutAttacks(done + [data])
    ensures t.tactics == Dedup(TacticEntries(done + [data])) && t.ctactics == |t.tactics|
    ensures t.techniques == Group(TechniqueRefs(done + [data]))
    ensures t.fileStats == FileStats(done + [data])
  {
    RecordStep(done, data);
    var hasAttacks, fileId, tactics, ctactics, techniques :=
      ScanRecord(data, s.tactics, s.ctactics, s.techniques, TacticEntries(done), TechniqueRefs(done));
    var filesWithAttacks, filesWithoutAttacks := s.filesWithAttacks, s.filesWithoutAttacks;
    var idsWithAttacks, idsWithoutAttacks := s.idsWithAttacks, s.idsWithoutAttacks;
    if hasAttacks {
      filesWithAttacks, idsWithAttacks := filesWithAttacks + 1, idsWithAttacks + [fileId];
      AppendEmpty(IdsWithoutAttacks(done));
    } else {
      filesWithoutAttacks, idsWithoutAttacks := filesWithoutAttacks + 1, idsWithoutAttacks + [fileId];
      AppendEmpty(IdsWithAttacks(done));
    }
    var fileStats := s.fileStats + [FileStat(data.path, fileId, if hasAttacks then "Yes" else "No")];
    t := Summary(s.totalFiles + 1, filesWithAttacks, filesWithoutAttacks, tactics, ctactics, techniques,
                 fileStats, idsWithAttacks, idsWithoutAttacks);
  }

  /**
   * The aggregation, one record at a time in walk order. Each field of the result is the
   * reference fold of the whole input, and the counters agree with the lists.
   */
  method ExtractMitreIds(records: seq<RuleRecord>) returns (s: Summary)
    ensures s.totalFiles == |records| == s.filesWithAttacks + s.filesWithoutAttacks
    ensures s.filesWithAttacks == |s.idsWithAttacks| && s.filesWithoutAttacks == |s.idsWithoutAttacks|
    ensures s.idsWithAttacks == IdsWithAttacks(records)
    ensures s.idsWithoutAttacks == IdsWithoutAttacks(records)
    ensures s.tactics == Dedup(TacticEntries(records)) && s.ctactics == |s.tactics|
    ensures NoDuplicates(s.tactics)
    ensures s.techniques == Group(TechniqueRefs(records)) && s.techniques.Valid()
    ensures s.fileStats == FileStats(records)
  {
    s := Initial;
    for i := 0 to |records|
      invariant s.totalFiles == i == s.filesWithAttacks + s.filesWithoutAttacks
      invariant s.filesWithAttacks == |s.idsWithAttacks| && s.filesWithoutAttacks == |s.idsWithoutAttacks|
      invariant s.idsWithAttacks == IdsWithAttacks(records[..i])
      invariant s.idsWithoutAttacks == IdsWithoutAttacks(records[..i])
      invariant s.tactics == Dedup(TacticEntries(records[..i])) && s.ctactics == |s.tactics|
      invariant s.techniques == Group(TechniqueRefs(records[..i]))
      invariant s.fileStats == FileStats(records[..i])
    {
      TakeSnoc(records, i);
      s := AddRecord(s, records[i], records[..i]);
    }
    TakeAll(records);
  }

  // Properties of the reference folds.

  /** Every record's id lands in exactly one of the two partitions. */
  lemma {:induction false} PartitionIsExact(rs: seq<RuleRecord>)
    ensures |IdsWithAttacks(rs)| + |IdsWithoutAttacks(rs)| == |rs|
    ensures multiset(IdsWithAttacks(rs)) + multiset(IdsWithoutAttacks(rs)) == multiset(AllIds(rs))
  {
    if rs != [] {
      PartitionIsExact(rs[..|rs| - 1]);
    }
  }

  /** `file_stats` has one entry per record, in order. */
  lemma {:induction false} FileStatsPerRecord(rs: seq<RuleRecord>)
    ensures |FileStats(rs)| == |rs|
    ensures forall i :: 0 <= i < |rs| ==> FileStats(rs)[i] == Stat(rs[i])
  {
    if rs != [] {
      var p := rs[..|rs| - 1];
      FileStatsPerRecord(p);
      assert FileStats(rs) == FileStats(p) + [Stat(rs[|rs| - 1])];
      forall i | 0 <= i < |rs| ensures FileStats(rs)[i] == Stat(rs[i]) {
        if i < |p| {
          assert FileStats(rs)[i] == FileStats(p)[i] && p[i] == rs[i];
        }
      }
    }
  }

  /**
   * `file_stats` has one entry per record, in order, marked "Yes" exactly for the records
   * with attack metadata; its "Yes" and "No" ids are the two partitions, in order.
   */
  lemma {:induction false} FileStatsMatchPartitions(rs: seq<RuleRecord>)
    ensures |FileStats(rs)| == |rs|
    ensures forall i :: 0 <= i < |rs| ==>
      FileStats(rs)[i].filePath == rs[i].path && FileStats(rs)[i].id == FileId(rs[i]) &&
      (FileStats(rs)[i].hasAttacks == "Yes" <==> HasAttacks(rs[i]))
    ensures StatIds(FileStats(rs), true) == IdsWithAttacks(rs)
    ensures StatIds(FileStats(rs), false) == IdsWithoutAttacks(rs)
  {
    FileStatsPerRecord(rs);
    assert "No" != "Yes";
    StatIdsPartition(rs);
  }

  lemma {:induction false} StatIdsPartition(rs: seq<RuleRecord>)
    ensures StatIds(FileStats(rs), true) == IdsWithAttacks(rs)
    ensures StatIds(FileStats(rs), false) == IdsWithoutAttacks(rs)
  {
    if rs != [] {
      var p, r := rs[..|rs| - 1], rs[|rs| - 1];
      StatIdsPartition(p);
      var stats := FileStats(rs);
      assert stats == FileStats(p) + [Stat(r)];
      TakeAppend(FileStats(p), [Stat(r)]);
      assert "No" != "Yes";
    }
  }

  /**
   * A record whose `attacks` list is empty still counts as one with attack metadata,
   * and contributes no tactic entries and no technique references.
   */
  lemma EmptyAttackListCounts(rs: seq<RuleRecord>, r: RuleRecord)
    requires r.metadata == Some(Metadata(Some([])))
    ensures IdsWithAttacks(rs + [r]) == IdsWithAttacks(rs) + [FileId(r)]
    ensures IdsWithoutAttacks(rs + [r]) == IdsWithoutAttacks(rs)
    ensures TacticEntries(rs + [r]) == TacticEntries(rs)
    ensures TechniqueRefs(rs + [r]) == TechniqueRefs(rs)
  {
    TakeAppend(rs, [r]);
    assert RecordTacticEntries(r) == [];
    AppendEmpty(TacticEntries(rs));
    AppendEmpty(TechniqueRefs(rs));
    AppendEmpty(IdsWithoutAttacks(rs));
  }

  lemma {:induction false} InTacticEntriesOf(ts: seq<Tactic>, k: nat)
    requires k < |ts|
    ensures TacticEntry(ts[k]) in TacticEntriesOf(ts)
  {
    if k < |ts| - 1 {
      InTacticEntriesOf(ts[..|ts| - 1], k);
    }
  }

  lemma {:induction false} InAttacksTacticEntries(attacks: seq<Attack>, j: nat, e: string)
    requires j < |attacks| && e in AttackTacticEntries(attacks[j])
    ensures e in AttacksTacticEntries(attacks)
  {
    if j < |attacks| - 1 {
      InAttacksTacticEntries(attacks[..|attacks| - 1], j, e);
    }
  }

  lemma {:induction false} InTacticEntries(rs: seq<RuleRecord>, i: nat, e: string)
    requires i < |rs| && e in RecordTacticEntries(rs[i])
    ensures e in TacticEntries(rs)
  {
    if i < |rs| - 1 {
      InTacticEntries(rs[..|rs| - 1], i, e);
    }
  }

  /**
   * Every tactic of every attack of every record with attack metadata has its entry
   * string in the deduplicated tactic list.
   */
  lemma TacticsComplete(rs: seq<RuleRecord>, i: nat, j: nat, k: nat)
    requires i < |rs| && HasAttacks(rs[i])
    requires j < |AttacksOf(rs[i])| && AttacksOf(rs[i])[j].tactics.Some?
    requires k < |AttacksOf(rs[i])[j].tactics.value|
    ensures TacticEntry(AttacksOf(rs[i])[j].tactics.value[k]) in Dedup(TacticEntries(rs))
  {
    var attacks := AttacksOf(rs[i]);
    var ts := attacks[j].tactics.value;
    InTacticEntriesOf(ts, k);
    InAttacksTacticEntries(attacks, j, TacticEntry(ts[k]));
    InTacticEntries(rs, i, TacticEntry(ts[k]));
    DedupSameElements(TacticEntries(rs));
  }

  // Technique occurrences, counted directly on the records.

  /** `n` copies of `x`. */
  function Repeat(x: string, n: nat): (r: seq<string>)
    ensures |r| == n && forall i :: 0 <= i < n ==> r[i] == x
  {
    seq(n, _ => x)
  }

  /** Does attack `a` carry a `technique` key whose id (default "Unknown") is `t`? */
  predicate RefersTo(a: Attack, t: string) {
    a.technique.Some? && TechniqueId(a.technique.value) == t
  }

  /** The number of attacks in `attacks` that refer to technique `t`. */
  function TechniqueCount(attacks: seq<Attack>, t: string): nat {
    if attacks == [] then 0
    else TechniqueCount(attacks[..|attacks| - 1], t) + (if RefersTo(attacks[|attacks| - 1], t) then 1 else 0)
  }

  /** The number of attacks of record `r` that refer to `t` (none without attack metadata). */
  function RecordTechniqueCount(r: RuleRecord, t: string): nat {
    if HasAttacks(r) then TechniqueCount(AttacksOf(r), t) else 0
  }

  /** The number of attacks across all records with attack metadata that refer to `t`. */
  function TechniqueOccurrences(rs: seq<RuleRecord>, t: string): nat {
    if rs == [] then 0
    else TechniqueOccurrences(rs[..|rs| - 1], t) + RecordTechniqueCount(rs[|rs| - 1], t)
  }

  /** Each record's id, once per attack of it that refers to `t`, records in order. */
  function RuleIdsFor(rs: seq<RuleRecord>, t: string): seq<string> {
    if rs == [] then []
    else
      var r := rs[|rs| - 1];
      RuleIdsFor(rs[..|rs| - 1], t) + Repeat(FileId(r), RecordTechniqueCount(r, t))
  }

  /** The number of attacks that carry a `technique` key, over a list of attacks. */
  function TechniqueAttacks(attacks: seq<Attack>): nat {
    if attacks == [] then 0
    else TechniqueAttacks(attacks[..|attacks| - 1]) + (if attacks[|attacks| - 1].technique.Some? then 1 else 0)
  }

  /** The number of attacks carrying a `technique` key across all records with attack metadata. */
  function AllTechniqueAttacks(rs: seq<RuleRecord>): nat {
    if rs == [] then 0
    else
      var r := rs[|rs| - 1];
      AllTechniqueAttacks(rs[..|rs| - 1]) + (if HasAttacks(r) then TechniqueAttacks(AttacksOf(r)) else 0)
  }

  lemma {:induction false} AttacksValuesFor(id: string, attacks: seq<Attack>, t: string)
    ensures ValuesFor(AttacksTechniqueRefs(id, attacks), t) == Repeat(id, TechniqueCount(attacks, t))
  {
    if attacks != [] {
      var p, a := attacks[..|attacks| - 1], attacks[|attacks| - 1];
      AttacksValuesFor(id, p, t);
      ValuesForConcat(AttacksTechniqueRefs(id, p), AttackTechniqueRefs(id, a), t);
      if a.technique.Some? {
        assert [(TechniqueId(a.technique.value), id)][..0] == [];
      }
    }
  }

  lemma {:induction false} RefsValuesFor(rs: seq<RuleRecord>, t: string)
    ensures ValuesFor(TechniqueRefs(rs), t) == RuleIdsFor(rs, t)
  {
    if rs != [] {
      var p, r := rs[..|rs| - 1], rs[|rs| - 1];
      RefsValuesFor(p, t);
      ValuesForConcat(TechniqueRefs(p), RecordTechniqueRefs(r), t);
      if HasAttacks(r) {
        AttacksValuesFor(FileId(r), AttacksOf(r), t);
      }
    }
  }

  lemma {:induction false} RuleIdsForLength(rs: seq<RuleRecord>, t: string)
    ensures |RuleIdsFor(rs, t)| == TechniqueOccurrences(rs, t)
  {
    if rs != [] {
      RuleIdsForLength(rs[..|rs| - 1], t);
    }
  }

  /**
   * The technique table has a key `t` exactly when some attack refers to `t`, and then
   * its list holds each record's id once per attack of that record referring to `t`,
   * records in walk order; its length is the number of such attacks.
   */
  lemma TechniqueListsExact(rs: seq<RuleRecord>, t: string)
    ensures var d := Group(TechniqueRefs(rs));
      && (t in d.lists <==> TechniqueOccurrences(rs, t) > 0)
      && (t in d.lists ==> d.lists[t] == RuleIdsFor(rs, t) && |d.lists[t]| == TechniqueOccurrences(rs, t))
  {
    GroupContents(TechniqueRefs(rs));
    KeysOfValuesFor(TechniqueRefs(rs), t);
    RefsValuesFor(rs, t);
    RuleIdsForLength(rs, t);
  }

  lemma {:induction false} AttacksRefsLength(id: string, attacks: seq<Attack>)
    ensures |AttacksTechniqueRefs(id, attacks)| == TechniqueAttacks(attacks)
  {
    if attacks != [] {
      AttacksRefsLength(id, attacks[..|attacks| - 1]);
    }
  }

  lemma {:induction false} RefsLength(rs: seq<RuleRecord>)
    ensures |TechniqueRefs(rs)| == AllTechniqueAttacks(rs)
  {
    if rs != [] {
      var r := rs[|rs| - 1];
      RefsLength(rs[..|rs| - 1]);
      if HasAttacks(r) {
        AttacksRefsLength(FileId(r), AttacksOf(r));
      }
    }
  }

  /** The lists of the technique table hold, together, one id per attack with a `technique` key. */
  lemma TechniqueTotal(rs: seq<RuleRecord>)
    ensures TotalLength(Group(TechniqueRefs(rs))) == AllTechniqueAttacks(rs)
  {
    GroupTotalLength(TechniqueRefs(rs));
    RefsLength(rs);
  }

  // A worked example: two records, one whose attacks refer to T1059 (with a tactic) and
  // to a technique without a uid (with a tactic without a name), and one with no id and
  // no metadata. The defaults show up as "No ID" and "Unknown".

  const ExampleTactic1: Tactic := Tactic(Some("Execution"), Some("TA0002"))
  const ExampleTactic2: Tactic := Tactic(None, Some("TA0002"))
  const ExampleAttacks: seq<Attack> := [
    Attack(Some([ExampleTactic1]), Some(Technique(Some("T1059")))),
    Attack(Some([ExampleTactic2]), Some(Technique(None)))]
  const ExampleRules: seq<RuleRecord> := [
    RuleRecord("a/rule.yaml", Some("R1"), Some(Metadata(Some(ExampleAttacks)))),
    RuleRecord("b/rule.yaml", None, None)]

  lemma ExamplePartitions()
    ensures IdsWithAttacks(ExampleRules) == ["R1"]
    ensures IdsWithoutAttacks(ExampleRules) == [NoId]
  {
    var rs := ExampleRules;
    var r1, r2 := rs[0], rs[1];
    assert rs[..1] == [r1] && rs[..1][..0] == [];
    assert HasAttacks(r1) && FileId(r1) == "R1";
    assert !HasAttacks(r2) && FileId(r2) == NoId;
    assert IdsWithAttacks(rs[..1]) == ["R1"];
    assert IdsWithoutAttacks(rs[..1]) == [];
  }

  lemma ExampleAttackEntries()
    ensures AttacksTacticEntries(ExampleAttacks) == ["Execution (UID: TA0002)", "Unknown (UID: TA0002)"]
  {
    var ts1, ts2: seq<Tactic> := [ExampleTactic1], [ExampleTactic2];
    assert ts1[..0] == [] && ts2[..0] == [];
    assert TacticEntriesOf(ts1) == TacticEntriesOf([]) + [TacticEntry(ExampleTactic1)];
    assert TacticEntriesOf(ts2) == TacticEntriesOf([]) + [TacticEntry(ExampleTactic2)];
    assert TacticEntry(ExampleTactic1) == "Execution (UID: TA0002)";
    assert TacticEntry(ExampleTactic2) == "Unknown (UID: TA0002)";
    var attacks := ExampleAttacks;
    assert attacks[..1] == [attacks[0]] && attacks[..1][..0] == [];
    assert AttackTacticEntries(attacks[0]) == TacticEntriesOf(ts1);
    assert AttackTacticEntries(attacks[1]) == TacticEntriesOf(ts2);
    assert AttacksTacticEntries(attacks[..1]) == AttacksTacticEntries([]) + AttackTacticEntries(attacks[0]);
    assert AttacksTacticEntries(attacks) == AttacksTacticEntries(attacks[..1]) + AttackTacticEntries(attacks[1]);
  }

  lemma ExampleAttackRefs()
    ensures AttacksTechniqueRefs("R1", ExampleAttacks) == [("T1059", "R1"), (Unknown, "R1")]
  {
    var attacks := ExampleAttacks;
    assert attacks[..1] == [attacks[0]] && attacks[..1][..0] == [];
    assert AttackTechniqueRefs("R1", attacks[0]) == [("T1059", "R1")];
    assert AttackTechniqueRefs("R1", attacks[1]) == [(Unknown, "R1")];
    assert AttacksTechniqueRefs("R1", attacks[..1]) == AttacksTechniqueRefs("R1", []) + AttackTechniqueRefs("R1", attacks[0]);
    assert AttacksTechniqueRefs("R1", attacks) == AttacksTechniqueRefs("R1", attacks[..1]) + AttackTechniqueRefs("R1", attacks[1]);
  }

  lemma ExampleTactics()
    ensures Dedup(TacticEntries(ExampleRules)) == ["Execution (UID: TA0002)", "Unknown (UID: TA0002)"]
  {
    var e1, e2 := "Execution (UID: TA0002)", "Unknown (UID: TA0002)";
    ExampleAttackEntries();
    var rs := ExampleRules;
    assert rs[..1][..0] == [];
    assert TacticEntries(rs[..1]) == [e1, e2];
    assert TacticEntries(rs) == [e1, e2];
    assert e1[0] != e2[0];
    DedupOfTwo(e1, e2);
  }

  lemma ExampleTechniques()
    ensures Group(TechniqueRefs(ExampleRules)).keys == ["T1059", Unknown]
    ensures Group(TechniqueRefs(ExampleRules)).lists == map["T1059" := ["R1"], Unknown := ["R1"]]
  {
    var p1, p2 := ("T1059", "R1"), (Unknown, "R1");
    ExampleAttackRefs();
    var rs := ExampleRules;
    assert rs[..1][..0] == [];
    assert TechniqueRefs(rs[..1]) == [p1, p2];
    assert TechniqueRefs(rs) == [p1, p2];
    assert "T1059"[0] != Unknown[0];
    GroupOfTwo(p1, p2);
  }

  /**
   * Whatever was listed before, a tactic whose entry string equals an earlier tactic's in
   * the same list adds nothing: two tactics that collide, as in
   * `Rules.TacticEntryCollision`, are listed once, under the first one's entry.
   */
  lemma {:induction false} CollidingTacticsListedOnce(seen: seq<string>, t1: Tactic, t2: Tactic)
    requires TacticEntry(t1) == TacticEntry(t2)
    ensures Dedup(seen + TacticEntriesOf([t1, t2])) == Dedup(seen + [TacticEntry(t1)])
    ensures Dedup(TacticEntriesOf([t1, t2])) == [TacticEntry(t1)]
  {
    var e := TacticEntry(t1);
    var ts: seq<Tactic> := [t1, t2];
    assert ts[..1] == [t1] && ts[..1][..0] == [];
    assert TacticEntriesOf([t1]) == TacticEntriesOf([]) + [e];
    assert TacticEntriesOf(ts) == TacticEntriesOf([t1]) + [TacticEntry(t2)];
    PairOf(e, e);
    var s := seen + [e, e];
    assert s[..|s| - 1] == seen + [e];
    DedupSameElements(seen + [e]);
    assert Dedup(s) == AddNew(Dedup(seen + [e]), e);
    var pair := [e, e];
    assert pair[..1] == [e] && [e][..0] == [];
    assert Dedup([e]) == AddNew(Dedup([]), e) == [e];
    assert Dedup(pair) == AddNew(Dedup([e]), e) == [e];
  }

  lemma {:induction false} DedupOfTwo(a: string, b: string)
    requires a != b
    ensures Dedup([a, b]) == [a, b]
  {
    var s: seq<string> := [a, b];
    assert s[..1] == [a] && s[..1][..0] == [];
    assert Dedup(s[..1]) == AddNew(Dedup([]), a) == [a];
    assert Dedup(s) == AddNew([a], b);
  }

  lemma {:induction false} GroupOfOne(p1: (string, string))
    ensures Group([p1]) == ListDict([p1.0], map[p1.0 := [p1.1]])
  {
    var none: seq<(string, string)> := [];
    GroupSnoc(none, p1.0, p1.1);
    AppendEmptyLeft([p1]);
  }

  lemma {:induction false} GroupOfTwo(p1: (string, string), p2: (string, string))
    requires p1.0 != p2.0
    ensures Group([p1, p2]).keys == [p1.0, p2.0]
    ensures Group([p1, p2]).lists == map[p1.0 := [p1.1], p2.0 := [p2.1]]
  {
    var one: seq<(string, string)> := [p1];
    GroupOfOne(p1);
    GroupSnoc(one, p2.0, p2.1);
    PairOf(p1, p2);
    AppendNewKey(Group(one), p2.0, p2.1);
    PairOf(p1.0, p2.0);
  }
}
