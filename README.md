# ACE MITRE rule aggregation, modelled in Dafny

`ace_m.py` walks a directory of detection rules (`rule.yaml` files) and aggregates
their MITRE ATT&CK metadata. It counts the rules and splits their ids by whether they
carry attack metadata. It collects the distinct tactic entries and groups rule ids by
technique id. From that grouping it builds a heatmap layer for the ATT&CK Navigator,
where each technique is scored by its number of rule references and coloured against
the largest score. A small command line chooses which reports to produce.

This project models:
- the aggregation `extract_mitre_ids`, with its loops as methods proved against
  reference folds over the records;
- the colour banding `calculate_color`, as a function;
- the layer construction `nav_json`, without its file write, as a method over the
  technique table;
- the argument checks of the entry point, as a function from the argument list to a
  decision.

Modules, one per file:

- `Wrappers` (`wrappers.dfy`): `Option`, for the keys a record may lack.
- `Lists` (`lists.dfy`): first-occurrence deduplication, which is the `if x not in l:
  l.append(x)` idiom; `sep.join`; and small sequence identities.
- `ListDicts` (`list_dicts.dfy`): the `defaultdict(list)` of technique ids. It is a
  value that keeps its keys in insertion order beside the map, as Python dictionaries
  do. `Group` is the table after a sequence of `d[k].append(v)` calls.
- `Rules` (`rules.dfy`): a parsed rule record with its optional keys, and the defaults
  `"No ID"` and `"Unknown"`.
- `Extraction` (`extraction.dfy`): the aggregation.
  - Each loop is its own method:
    - `AddTactics` is the loop over tactics;
    - `ScanAttack` and `ScanAttacks` are the loop over attacks;
    - `ScanRecord` and `AddRecord` are the loop body over records;
    - `ExtractMitreIds` is the loop over records.
  - The nine-part result tuple is the datatype `Summary`.
  - Each method is proved against reference functions over the records already
    processed: `IdsWithAttacks`, `TacticEntries`, `TechniqueRefs`, `FileStats`, and so on.
  - Lemmas relate those functions to direct counts on the records:
    `TechniqueOccurrences`, `RuleIdsFor` and `AllTechniqueAttacks`.
- `Colors` (`colors.dfy`): `calculate_color` and its four bands.
- `Navigator` (`navigator.dfy`): `nav_json`'s layer document. `RunNav` is the `nav`
  mode end to end.
- `Cli` (`cli.dfy`): the help, invalid-argument and no-argument checks. They map to a
  `Decision` and its exit status.

The tactic list is deduplicated by its entry string `"<name> (UID: <uid>)"`, as the code
does. It is not deduplicated by the (name, uid) pair. The two agree when no tactic name
contains `(`, as `Rules.TacticEntryInjective` shows. `Rules.TacticEntryCollision` gives
two different tactics whose entry strings coincide. `Extraction.CollidingTacticsListedOnce`
shows that when two such tactics follow each other, only the first one's entry is listed.

## Model

| member | source | states |
|---|---|---|
| Lists.Dedup | ace_m.py:38-40 | The list built by "append if not already present" never holds a value twice. |
| Lists.DedupSameElements | ace_m.py:38-40 | A value is in the deduplicated list exactly when it occurs in the input. |
| Lists.DedupFirstOccurrenceOrder | ace_m.py:38-40 | The deduplicated list keeps values in the order of their first occurrence in the input. |
| Lists.Join | ace_m.py:78 | Joining no strings gives the empty string, and joining one gives that string. Otherwise the result starts with the first string and a separator, and ends with a separator and the last string. |
| ListDicts.ListDict.Append | ace_m.py:48 | `d[k].append(v)` keeps the table well formed: keys distinct and in insertion order, exactly the map's domain, no empty list. A new key goes last with `[v]`; an existing key's list gets `v` at its end. |
| ListDicts.Group | ace_m.py:45-48 | The table after any sequence of appends is well formed. |
| ListDicts.GroupContents | ace_m.py:45-48 | The table's keys are the distinct keys of the appends, in first-occurrence order. A key is present exactly when some append used it. Its list holds the values appended under it, in order. |
| ListDicts.AppendTotalLength | ace_m.py:48 | Each append adds exactly one value to the table. |
| ListDicts.GroupTotalLength | ace_m.py:45-48 | The lists of the table hold, together, exactly one value per append. |
| Rules.TacticEntryInjective | ace_m.py:37-38 | For tactic names without `(`, equal entry strings imply equal names and equal uids, after the "Unknown" defaults. |
| Rules.FileId | ace_m.py:26 | A record's id is its `id` value, or "No ID" when the key is missing. |
| Rules.HasAttacks | ace_m.py:28 | A record has attack metadata exactly when it has a `metadata` key whose value has an `attacks` key. |
| Rules.TacticName | ace_m.py:37 | A tactic's name is its `name` value, or "Unknown" when the key is missing. |
| Rules.TacticUid | ace_m.py:37 | A tactic's uid is its `uid` value, or "Unknown" when the key is missing. |
| Rules.TacticEntry | ace_m.py:37 | The entry string is the name, then ` (UID: `, then the uid, then `)`, and nothing else. |
| Rules.TechniqueId | ace_m.py:47 | A technique's id is its `uid` value, or "Unknown" when the key is missing. |
| Rules.TacticEntryCollision | ace_m.py:37-38 | Two different tactics can produce the same entry string. |
| Extraction.CollidingTacticsListedOnce | ace_m.py:36-40 | When two tactics with the same entry string follow each other, the second adds nothing to `tactics`, whatever was listed before. Alone, the two give a one-entry list. |
| Extraction.Stat | ace_m.py:53-55 | A record's stat entry has its path and id. It is marked "Yes" exactly when the record has attack metadata, and "No" otherwise. |
| Extraction.AddTactics | ace_m.py:36-40 | The tactics loop leaves `tactics` equal to the distinct entries seen so far, in first-occurrence order, with `ctactics` equal to its length. |
| Extraction.ScanAttack | ace_m.py:33-48 | One attack adds its tactic entries (none without a `tactics` key) and one technique reference (none without a `technique` key; uid defaults to "Unknown"). |
| Extraction.ScanAttacks | ace_m.py:31-48 | The loop over a record's attacks extends tactics and techniques by the entries and references of all its attacks, in order. |
| Extraction.ScanRecord | ace_m.py:26-48 | A record's id defaults to "No ID". Attack metadata means a `metadata` key holding an `attacks` key. Only records with attack metadata have their attacks scanned. |
| Extraction.AddRecord | ace_m.py:21-55 | The loop body over one record turns the aggregation of the records before it into the aggregation of those records plus this one. It maintains every counter, list and table. |
| Extraction.ExtractMitreIds | ace_m.py:7-57 | The returned tuple holds the following. `total_files` is the number of records and is the sum of the two counters. Each counter is the length of its id list. The id lists are the partition of record ids by attack metadata, in order. `tactics` is the distinct entry strings in first-occurrence order, with `ctactics` its length and no duplicates. `techniques` is the grouped table of all technique references and is well formed. `file_stats` has one entry per record. |
| Extraction.PartitionIsExact | ace_m.py:28-51 | Every record's id lands in exactly one partition: the lengths add up to the number of records, and the union of the two multisets is the multiset of all ids. |
| Extraction.FileStatsPerRecord | ace_m.py:53-55 | `file_stats` has one entry per record, in record order, with that record's path, id and "Yes"/"No". |
| Extraction.FileStatsMatchPartitions | ace_m.py:53-55 | An entry is marked "Yes" exactly when its record carries attack metadata. The ids marked "Yes" are `ids_with_attacks`, and the others are `ids_without_attacks`, in order. |
| Extraction.EmptyAttackListCounts | ace_m.py:28-31 | A record whose `attacks` list is empty still counts as one with attack metadata. It adds no tactic entry and no technique reference. |
| Extraction.TacticsComplete | ace_m.py:31-40 | Every tactic of every attack of every record with attack metadata has its entry string in `tactics`. |
| Extraction.TechniqueListsExact | ace_m.py:45-48 | Technique `t` is a key exactly when some attack refers to it. Its list then holds each record's id once per attack of that record that refers to `t`, in record order. The list's length is the number of those attacks. |
| Extraction.TechniqueTotal | ace_m.py:45-48 | All technique lists together hold one id per attack carrying a `technique` key. |
| Extraction.ExamplePartitions | ace_m.py:26-51 | For a two-record example, the rule with attacks goes to `ids_with_attacks`. The rule with neither id nor metadata goes to `ids_without_attacks` as "No ID". |
| Extraction.ExampleAttackEntries | ace_m.py:36-37 | The example's tactic entries, with the missing name shown as "Unknown". |
| Extraction.ExampleAttackRefs | ace_m.py:45-48 | The example's technique references, with the missing uid shown as "Unknown". |
| Extraction.ExampleTactics | ace_m.py:34-40 | The example's `tactics` list is the two distinct entries, in order. |
| Extraction.ExampleTechniques | ace_m.py:45-48 | The example's technique table maps "T1059" and "Unknown" to `["R1"]` each, in that key order. |
| Extraction.DedupOfTwo | ace_m.py:38-40 | Two distinct values dedup to themselves, in order. |
| Extraction.GroupOfOne | ace_m.py:48 | One append into the empty table creates a one-key table. |
| Extraction.GroupOfTwo | ace_m.py:48 | Two appends under distinct keys create a two-key table in insertion order. |
| Colors.CalculateColor | ace_m.py:59-67 | The colour is always one of the layer's four gradient colours. |
| Colors.ColorBands | ace_m.py:59-67 | For a non-negative maximum, green means exactly the maximum. Yellow means a score other than the maximum that is at least 60% of it, including a score above the maximum; orange, below 60% but at least 40%; red, below 40%. |
| Colors.ColorMonotone | ace_m.py:59-67 | For scores between 0 and the maximum, a higher score never gets a lower tier. |
| Colors.BelowMaxNotTop | ace_m.py:60-63 | A score below the maximum is never green. |
| Colors.TierIsGradientPosition | ace_m.py:105-110 | Each colour's tier is its index in the layer's gradient list, lowest first. |
| Cli.InvalidTokens | ace_m.py:139-140 | The invalid-token list holds exactly the arguments outside the valid set. |
| Cli.NamedModes | ace_m.py:157-172 | A mode is selected exactly when its token is among the arguments. |
| Cli.Decide | ace_m.py:125-147 | Help is shown exactly when `-h` or `--help` appears. Otherwise the invalid-argument exit happens exactly when some token is invalid, and the no-argument exit exactly when the list is empty. A run has only valid tokens and at least one named mode, and runs a mode exactly when its token appears. |
| Cli.ExitCode | ace_m.py:137-147 | Help exits with 0; an invalid or empty argument list exits with 1; a run does not exit here. |
| Cli.DecideIgnoresOrder | ace_m.py:125-147 | The decision depends only on which tokens appear, not on their order or repetition. |
| Cli.HelpWins | ace_m.py:125-137 | A help flag anywhere wins over every other token, valid or invalid, and exits with 0. |
| Cli.InvalidTokenFails | ace_m.py:139-143 | Without a help flag, any invalid token makes the run exit with 1. |
| Navigator.MaxValue | ace_m.py:70 | `max_value` bounds every list length and is attained by some list when the table is non-empty. It is 0 exactly when the table is empty. |
| Navigator.TechniqueEntries | ace_m.py:71-81 | One entry per technique, in insertion order. Each entry has the technique id, score = number of rule ids, comment `"Rule ID's: "` + the ids joined by `", "`, enabled, and the colour of that score. |
| Navigator.EntriesScoredAgainstMax | ace_m.py:70-81 | No entry scores above `max_value`, and when there is an entry, some entry is green. |
| Navigator.NavJson | ace_m.py:69-115 | The layer's entries are exactly `TechniqueEntries`' entries. `gradient.maxValue` is the largest score, is 0 exactly when there are no entries, and some entry is green when there is one. The name, versions ("16", "4.4.4", "4.5"), layout, domain, description, sorting, view mode, gradient colours, minimum and legend are the fixed values of the source. |
| Navigator.NoTechniquesIffNoReferences | ace_m.py:70 | The technique table is empty exactly when no attack carries a `technique` key. |
| Navigator.RunNav | ace_m.py:171-172 | The `nav` mode end to end. The layer has one entry per referenced technique id, in order of first reference. Each entry's score is the number of attacks referring to that technique, and is positive. Its comment lists the ids of the rules of those attacks. The maximum is 0 exactly when no attack has a technique. |

## Left out

- The directory walk, opening files and YAML parsing (source lines 18-24) are not modelled. The input is the sequence
  of parsed `rule.yaml` records in the walk order, with the path each was found at. The
  walk order itself depends on the file system and is not modelled.
- The datatypes admit only records whose `metadata` and attacks are mappings, whose
  `attacks` and `tactics` are lists, and whose tactics are mappings. Some other shapes
  behave like a modelled record, because the code only tests keys with `in`. A `metadata`
  string or list without an `attacks` element acts like `Metadata(None)`. A string attack
  without the substrings `tactics` and `technique` acts like `Attack(None, None)`. A
  string `attacks` value is iterated character by character, and each character acts like
  `Attack(None, None)`. Those inputs are not modelled as such. Neither are the shapes that
  make the source raise, such as an empty file (`None`), a null `attacks` or `tactics`
  value, a string attack that contains `tactics` or `technique`, or a tactic that is not a
  mapping.
- Non-string ids, names and uids are not modelled. `", ".join` would reject some of them and
  the f-string would format others, so every such value is a string in the model.
- Colors.CalculateColor: the thresholds `max_value * 0.60` and `max_value * 0.40` are
  compared exactly, as `5 * score >= 3 * max_value` and `5 * score >= 2 * max_value`. The
  IEEE double rounding of the source is not modelled. No rounding difference shows for
  maxima of realistic size.
- The JSON file write, all `print` output, the `input()` prompt and `os.path.isdir` are
  left out, since they are I/O. The same goes for the summary, stats, tac and tec reports (source lines 149-170):
  those only print fields of the result tuple that `ExtractMitreIds` specifies.
  `sys.exit` is modelled by `Cli.ExitCode`. The invalid-path exit after the prompt is left out.
- The output file name parameter of `nav_json` is left out, because the model does not write files.
