# diff_stix in Dafny

A verified model of the core of `scripts/diff_stix.py`. The script compares two
releases of the MITRE ATT&CK STIX data. For each object type (technique,
software, group, mitigation) and each domain (enterprise, PRE-ATT&CK, mobile),
it sorts the object ids into six sections:

- additions;
- deletions;
- changes (higher `x_mitre_version`);
- minor changes (same or lower version, later `modified` date);
- revocations;
- deprecations.

For each newly revoked object it records the object that revoked it. It can
then render the technique sections of each domain as an ATT&CK Navigator layer.

The model is split by the structure of the program:

- `wrappers.dfy`: `Option`.
- `stix.dfy`: the STIX records as the script reads them, snapshots keyed by
  id, and the domain tables.
- `classify.dfy`: the comparison of one (type, domain) pair, covering the
  per-key decision, the loop over the common keys, the `revoked_by`
  attachment and the assembly of the result dictionary.
- `layers.dfy`: the nested loops that build a layer's `techniques` list and
  `used_statuses`, and the legend.
- `urls.dfy`: `getUrlFromStix` with `str.split` and `str.join`.
- `diffstix.dfy`: the `DiffStix` object. `load_data` fills `data` over all
  pairs, and `get_layers_dict` builds one layer per domain.

Methods are proved against specification functions:

- `ClassifyCommon` against `DiffOf`, `WithRevokers` and `FaultAt`;
- `BuildTechniques` against `Techniques` and `UsedStatuses`;
- `Assemble` against `Reports`.

The properties the script relies on are lemmas about those functions.

## Model

| member | source | states |
|---|---|---|
| Classify.Decide | scripts/diff_stix.py:222-258 | The per-key verdict. Revoked means revoked-true now and not before. Deprecated means not revoked-true, deprecated-true, and no `x_mitre_deprecated` key in the old record. Changed means neither flag and a higher version. A minor change means neither flag, a version that did not rise, and a later `modified` date. A missing date is reported only for a key with neither flag. |
| Classify.RevocationFirst | scripts/diff_stix.py:222-233 | A common key goes to revocations exactly when it is revoked in the new release and not in the old one. Deprecation, version and date do not matter. |
| Classify.AlreadyRevoked | scripts/diff_stix.py:222-233 | A key revoked in both releases lands in no section and is not skipped. |
| Classify.DeprecationSecond | scripts/diff_stix.py:234-236 | A key goes to deprecations exactly when it is not newly revoked-true, is deprecated in the new release, and the old record has no `x_mitre_deprecated` key at all. |
| Classify.DeprecatedKeyInOld | scripts/diff_stix.py:234-236 | If the old record carries `x_mitre_deprecated`, even as false, a deprecated key lands in no section. |
| Classify.VersionBumpIsChange | scripts/diff_stix.py:240-252 | A key is a change exactly when it is neither revoked nor deprecated in the new release and both versions exist, the new one higher. |
| Classify.LaterDateIsMinorChange | scripts/diff_stix.py:249-258 | A key is a minor change exactly when it is neither revoked nor deprecated, both versions exist, the version did not increase, and both dates exist with the new one later. |
| Classify.MissingDateRaises | scripts/diff_stix.py:253-256 | Reaching the date comparison with `modified` missing raises. The old record is read first. |
| Classify.FirstRevoking | scripts/diff_stix.py:225-229 | The query's first result is the first `revoked-by` relationship out of the key, in store order. Nothing earlier matches, and the index is past the end when nothing matches. |
| Classify.RevokerOf | scripts/diff_stix.py:225-229 | There is no target iff no relationship is a `revoked-by` out of the key. Otherwise the target is that of a matching relationship with no match before it. |
| Classify.WithRevokers | scripts/diff_stix.py:221-232 | The map keeps its keys. A revoked key's record has `revoked_by` set to its revoker, and every other field of every record is unchanged. |
| Classify.AttachRevoker | scripts/diff_stix.py:225-232 | Fails with a missing relationship or a target absent from the new map, exactly as `FaultAt` says. Otherwise the new map gains the revoker on that key only. |
| Classify.ClassifyKey | scripts/diff_stix.py:221-258 | One loop turn adds the key to the set its verdict names and to no other. On a revocation it sets `revoked_by`. It raises exactly the key's fault. |
| Classify.ClassifyCommon | scripts/diff_stix.py:210-258 | Raises iff some common key raises, and the error is that key's. Otherwise the sets equal `DiffOf`, and the new map is the input with `revoked_by` set on exactly the revoked keys. |
| Classify.DiffWithinKeys | scripts/diff_stix.py:210-218 | Additions are new minus old and deletions are old minus new. The other four sets and the skipped keys lie in the intersection. |
| Classify.SectionsDisjoint | scripts/diff_stix.py:210-258 | Any two different sections are disjoint, and no section meets the skipped keys. |
| Classify.EveryKeyPlaced | scripts/diff_stix.py:210-258 | Every key of either release is in a section or skipped. Otherwise it is a common key that the decision leaves unchanged or that raises. |
| Classify.RevokerAttached | scripts/diff_stix.py:222-232 | After a run that does not raise, a revoked key's record names the target of the first matching relationship, and that target is loaded. Every other record is unchanged. |
| Classify.ListRecords | scripts/diff_stix.py:263-273 | The list holds the record of each id in the set once, taken from the given map, in some order. |
| Classify.Assemble | scripts/diff_stix.py:261-273 | additions, changes, revocations and deprecations are always present. minor_changes is present iff the option is set, and deletions iff some key was deleted. Deletions come from the old map, the rest from the new one. |
| Classify.CompareSnapshots | scripts/diff_stix.py:210-273 | One pair: raises iff some common key raises. Otherwise the result dictionary reports `DiffOf` over the new map with revokers attached. |
| Layers.AddTechniqueEntries | scripts/diff_stix.py:373-381 | Appends one entry per kill-chain phase of the technique, and marks the status used iff it appended any. |
| Layers.AddStatusEntries | scripts/diff_stix.py:372-381 | Appends the entries of every technique of one section in list order, and marks the status used iff it appended any. |
| Layers.BuildTechniques | scripts/diff_stix.py:368-381 | The list is `Techniques(sec)`, the sections' blocks in insertion order with revocations and deprecations skipped. The used statuses are exactly the drawn sections with at least one entry. |
| Layers.ListEntriesCount | scripts/diff_stix.py:372-380 | A section yields as many entries as its techniques have kill-chain phases. |
| Layers.ListEntryAt | scripts/diff_stix.py:372-380 | Technique i's phase p yields the entry at position `PhaseTotal(i) + p`. It carries the technique's external id, the phase name, enabled, the section's colour and its comment. |
| Layers.ListEntriesColoured | scripts/diff_stix.py:374-380 | Every entry of a section is enabled and carries that section's colour and comment. |
| Layers.LayerEntryFrom | scripts/diff_stix.py:370-381 | Every layer entry comes from a present, drawn, non-empty section and has its colour. |
| Layers.NoRevokedOrDeprecatedEntries | scripts/diff_stix.py:371 | No entry has the revocation or deprecation colour. |
| Layers.UsedIffColoured | scripts/diff_stix.py:368-384 | A status is used iff some entry of the layer has its colour. |
| Layers.ColorsDistinct | scripts/diff_stix.py:49-56 | The six statuses have six different colours. |
| Layers.CommentDropsLastLetter | scripts/diff_stix.py:379 | The comment is the status name without its final "s". |
| Layers.BuildLegend | scripts/diff_stix.py:384 | The legend holds one item per used status, with its colour and label `status: description`, each once, in some order. |
| Urls.Split | scripts/diff_stix.py:138 | Splitting yields at least one part, no part holds the separator, and joining the parts gives back the string. |
| Urls.SplitJoin | scripts/diff_stix.py:138-139 | Splitting a join of separator-free parts gives back the parts. |
| Urls.JoinCount | scripts/diff_stix.py:139 | Joining n separator-free parts puts exactly n - 1 separators in the result. |
| Urls.UrlTail | scripts/diff_stix.py:138-139 | The link is a suffix of the url with one `/` if the url has any and none otherwise. When it is shorter than the url, a `/` precedes it. This is the part after the second-to-last `/`. |
| Urls.ShortUrlUnchanged | scripts/diff_stix.py:138-139 | A url with at most one `/` is its own link. |
| Urls.GetUrlFromStix | scripts/diff_stix.py:137-140 | The link of the first external reference's url has the shape above. |
| Report.Store | scripts/diff_stix.py:261-262 | The type's dictionary is created only when missing. Afterwards the types are the old ones plus this one, this type's domains are its old ones plus this one, this domain holds the new result, and every other type is unchanged. |
| Report.DiffStix.constructor | scripts/diff_stix.py:99-124 | Sets domains, types and the minor-changes option, with `data` empty. |
| Report.DiffStix.Default | scripts/diff_stix.py:70-83 | The default arguments: all three domains, all four types, minor changes off, and `data` empty. |
| Report.DiffStix.LoadPair | scripts/diff_stix.py:210-273 | Compares one pair. On success it stores the result dictionary and changes nothing else. When it raises, `data` is as before. |
| Report.DiffStix.LoadTypeAt | scripts/diff_stix.py:173-273 | One turn of the outer loop loads every domain of one type, keeping the loop facts of `LoadData`. Otherwise it raises the error of one of that type's pairs. |
| Report.DiffStix.LoadDomainAt | scripts/diff_stix.py:174-273 | One turn of the inner loop compares one pair and stores its result, keeping the loop facts below. Otherwise it raises that pair's error. |
| Report.DiffStix.LoadDomains | scripts/diff_stix.py:174-273 | Every domain of one type gets its result. The types become the old ones plus this one (none added when there are no domains), this type's domains become its old ones plus all listed domains, and every other type and every other domain of this type is unchanged. Otherwise it raises the error of one of those pairs. |
| Report.DiffStix.LoadData | scripts/diff_stix.py:167-273 | Without an error, every (type, domain) pair has no raising key and holds its comparison result. The types become the old ones plus the listed ones, each listed type's domains become its old ones plus the listed domains, every other type is unchanged, and every stored result outside the listed types and domains keeps its value. Otherwise the error is one raised by some pair. |
| Report.DiffStix.GetLayersDict | scripts/diff_stix.py:356-409 | One layer per domain: version 2.2, the dated name and description, the layer-file domain, `Techniques`, a legend for exactly the used statuses, the fixed display settings, and the `prepare` stage filter only for PRE-ATT&CK. |

## Left out

- Loading and I/O are not modelled: the MemoryStore and the TAXII collection, the json files, argparse, tqdm and the verbose prints. Each pair's two snapshots and the new release's relationships are parameters (`Inputs`).
- `deep_copy_stix` is not modelled. Records are values, so copying changes nothing.
- Parsing is not modelled: `float(x_mitre_version)` becomes `Option<real>` and `dateparser.parse(modified)` becomes `Option<int>`. Both are already ordered values, with `None` where the key is missing.
- Duplicate ids in a store are not modelled. A snapshot is a map, so the last record per id wins, as in the dictionary comprehension.
- The markdown output is not modelled: `get_md_key`, `get_markdown_string`, the section headers and file writing. The same goes for the date behind the layer name, which is passed in as `thedate`.
- Classify.ClassifyKey: a record without `x_mitre_version` is recorded in `skipped` and put in no section. The script instead catches the error with a bare `except`, prints, and goes on to compare an unbound or stale version variable.
- Classify.ClassifyCommon: keys are visited in an unspecified order, like Python set iteration. When several keys would raise, the model only says that the error belongs to one of them.
- Classify.FirstRevoking: the store query's result order is taken to be the relationships' sequence order.
- Classify.AttachRevoker: `revoked_by` holds the revoker's id, a reference into the new map, rather than a copy of the revoking record's dictionary.
- Classify.ListRecords: the list order is unspecified, so the contract fixes the contents and not the order.
- Layers.BuildTechniques: the sections are iterated in the order the result dictionary was filled (`StatusOrder`), as Python dictionaries keep it. A section without `kill_chain_phases`, or a phase without an external id, is excluded by a precondition instead of raising KeyError or IndexError. A phase is modelled by its `phase_name` only, so a phase without `phase_name`, which raises KeyError in the script, cannot be expressed.
- Layers.BuildLegend: the order of the legend follows the set iteration, which is unspecified.
- Urls.GetUrlFromStix: a record with no external reference or no `url` is excluded by a precondition instead of raising.
- Report.DiffStix.constructor: the script calls `load_data` from `__init__`. Here `LoadData` is a separate call, so its error can be returned.
- Report.DiffStix.LoadData: the error reported is the one of the first raising pair in loop order. The contract only says that some pair raises it.
- Report.DiffStix.GetLayersDict: a missing `technique` entry or domain in `data` is excluded by a precondition instead of raising KeyError.
