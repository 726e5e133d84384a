# Builtin dataset registration (WSL), modelled in Dafny

This project models the builtin dataset registration module of WSL,
`WSL/wsl/data/datasets/builtin.py`. At import time the module:

- registers a fixed set of Pascal VOC, web (Flickr), VOC pseudo-ground-truth,
  VOC SBD (instance and panoptic) and VOC-json detection datasets;
- registers each under a dataset root, read from an environment variable
  that defaults to `datasets`;
- records metadata for them in the process-wide metadata catalog.

The model has six modules:

- `Strings`: Python's `sub in s` and `s.replace(pat, rep)`.
  - Each is a recursive definition.
  - Lemmas tie each one to its slice-based meaning.
- `Paths`: `os.path.join` for two arguments, and the annotation-path rule.
  - An annotation path containing `://` is passed through verbatim.
  - Any other annotation path is joined under the root.
- `Tables`: the five split tables, transcribed in dictionary order.
  - Proves that the 22 dataset names they register are pairwise distinct.
- `Registrations`: what each routine does, as pure functions of the root and
  the metadata store.
  - The routine's sequence of registration calls (the "plan").
  - How each routine changes the metadata store.
  - The panoptic loop, with the run that stops at the first panoptic split
    whose paired instance metadata is missing.
- `Bootstrap`: properties of the whole sequence.
  - The fixed routine order.
  - The names registered.
  - Each panoptic split pairing with the right instance split.
  - Concrete scenarios.
- `Catalog`: a `Registry` class that holds the two pieces of state the
  routines change.
  - `calls`: the registration calls made so far.
  - `metadata`: dataset name to attribute record.
  - Its methods are the routines' `for` loops, proved against the plans
    above. `RunBootstrap` is the module-load sequence.

`MetadataCatalog.get(name)` is modelled as get-or-create: a read creates an
empty record. A missing `image_root` or `json_file` attribute on the paired
instance record ends the SBD routine with `MissingPairedMetadata`. In Python
that is the attribute read raising. The record created by the read stays in
the store.

The instance entry point `register_coco_instances` is a foreign helper. It is
modelled by what the panoptic loop relies on: it records `json_file` and
`image_root` in the dataset's metadata.

## Model

| member | source | states |
|---|---|---|
| Strings.ContainsIff | WSL/wsl/data/datasets/builtin.py:56 | Python's `sub in s` holds exactly when `sub` occurs in `s` at some index |
| Strings.ReplaceWithoutOccurrence | WSL/wsl/data/datasets/builtin.py:158 | `str.replace` leaves a string in which the pattern does not occur unchanged |
| Strings.ReplaceFromLastOccurrence | WSL/wsl/data/datasets/builtin.py:158 | when the pattern's only occurrence is the suffix, `str.replace` swaps exactly that suffix and keeps the rest |
| Paths.Join | WSL/wsl/data/datasets/builtin.py:57 | `os.path.join(root, frag)`: an absolute fragment replaces the root. Otherwise the root is a prefix and the fragment a suffix of the result. Exactly one `/` separates them unless the root is empty or already ends in `/` |
| Paths.ResolveAnnotation | WSL/wsl/data/datasets/builtin.py:77 | a path in which `://` occurs is returned verbatim; any other is joined under the root |
| Tables.VocNamesAre | WSL/wsl/data/datasets/builtin.py:45-54 | the Pascal VOC table registers these eight names in this order |
| Tables.FamilyKeysAre | WSL/wsl/data/datasets/builtin.py:63-94 | the web and PGT tables register these split keys in dictionary order |
| Tables.FlatKeysAre | WSL/wsl/data/datasets/builtin.py:111-207 | the SBD-instance and VOC-json tables register these keys in dictionary order |
| Tables.TableNamesDistinct | WSL/wsl/data/datasets/builtin.py:45-207 | the tables name 22 datasets, pairwise distinct |
| Registrations.DatasetRoot | WSL/wsl/data/datasets/builtin.py:225 | the root is the environment value when set, `datasets` otherwise |
| Registrations.VocYear | WSL/wsl/data/datasets/builtin.py:56 | the year is 2007 or 2012, and 2007 exactly when "2007" occurs in the name |
| Registrations.VocPlanArguments | WSL/wsl/data/datasets/builtin.py:55-57 | one Pascal VOC call per split, in table order, with the split's name, its directory joined under the root, its split and the year rule |
| Registrations.VocMetadataEffect | WSL/wsl/data/datasets/builtin.py:58 | after the routine, every Pascal VOC name's record is its old record with `evaluator_type` set to `pascal_voc`. No other name's record changes |
| Registrations.InstancePlanArguments | WSL/wsl/data/datasets/builtin.py:145-152 | one instance call per split, in table order. The image root is always joined, trailing slash kept. The annotation path follows the `://` rule. The metadata key follows the family's rule |
| Registrations.FamilyMetadataKeys | WSL/wsl/data/datasets/builtin.py:70-218 | metadata keys per family: a web split passes its own key, a PGT split its family `voc_2007_pgt`, SBD `voc_sbd`, VOC-json `voc_json` |
| Registrations.LastInstances | WSL/wsl/data/datasets/builtin.py:159 | the instance registration whose record a later read of that name sees, if there is one |
| Registrations.RecordAllReadsLast | WSL/wsl/data/datasets/builtin.py:159-160 | after a run of calls, a name's record holds the image root and annotation file of its last instance registration. A name never registered as instances keeps its record |
| Registrations.PairedInstanceNameOfSuffix | WSL/wsl/data/datasets/builtin.py:158 | a prefix ending in `_panoptic`, with no earlier occurrence, pairs with the same name ending in `_instance` |
| Registrations.PanopticPlanStep | WSL/wsl/data/datasets/builtin.py:158-181 | each panoptic split either adds a separated and a standard call over its paired record's paths, or stops the loop at the paired name |
| Registrations.PanopticPlanKeepsStop | WSL/wsl/data/datasets/builtin.py:159-160 | once the loop has stopped, later splits add no calls |
| Registrations.PanopticPlanOutcome | WSL/wsl/data/datasets/builtin.py:154-160 | the panoptic loop completes iff every split's paired record holds `image_root` and `json_file`. Otherwise it stops at the first split whose record does not |
| Registrations.PanopticPlanReadsInstances | WSL/wsl/data/datasets/builtin.py:144-181 | after the instance registrations have recorded their metadata, the panoptic loop completes with the calls built from those registrations, whatever the store held before |
| Registrations.PairedPlanArguments | WSL/wsl/data/datasets/builtin.py:163-181 | each panoptic split yields a separated call, then a standard call. Both carry the paired registration's image root and annotation file, and the panoptic root and JSON joined under the root. Only the separated call carries the semantic root |
| Bootstrap.PanopticPairingHitsInstanceTable | WSL/wsl/data/datasets/builtin.py:111-158 | the i-th panoptic prefix, rewritten `_panoptic` to `_instance`, is the i-th SBD instance key |
| Bootstrap.VocSbdPairsFound | WSL/wsl/data/datasets/builtin.py:144-160 | within the SBD instance calls, the one the i-th panoptic split reads is the i-th, and no later call shadows it |
| Bootstrap.VocSbdPanopticCompletes | WSL/wsl/data/datasets/builtin.py:144-181 | the SBD panoptic loop never stops after the SBD instance loop, whatever the store held before |
| Bootstrap.VocPlanNames | WSL/wsl/data/datasets/builtin.py:55-57 | the Pascal VOC calls register exactly the table's names, in order |
| Bootstrap.InstancePlanNames | WSL/wsl/data/datasets/builtin.py:145-152 | the instance calls of a flat table register exactly its keys, in order |
| Bootstrap.FamiliesPlanNames | WSL/wsl/data/datasets/builtin.py:71-79 | the calls of a two-level table register exactly its split keys, family by family |
| Bootstrap.PairedPlanNames | WSL/wsl/data/datasets/builtin.py:163-181 | the panoptic calls add no name to the Pascal VOC or instance entry points |
| Bootstrap.BootstrapNamesAreTableNames | WSL/wsl/data/datasets/builtin.py:226-230 | the bootstrap's Pascal VOC and instance names are the table names, in table order and routine order |
| Bootstrap.BootstrapRegistersEachNameOnce | WSL/wsl/data/datasets/builtin.py:226-230 | the bootstrap passes 22 names to those entry points, none twice |
| Bootstrap.BootstrapMetadataSteps | WSL/wsl/data/datasets/builtin.py:226-230 | the final metadata is built in this order: the Pascal VOC tags, then the web, PGT, SBD-instance and VOC-json records. The panoptic calls record nothing further |
| Bootstrap.VocTrainval2007Scenario | WSL/wsl/data/datasets/builtin.py:46-58 | `voc_2007_trainval` is registered from `root/VOC2007`, split `trainval`, year 2007, and tagged `pascal_voc` |
| Bootstrap.VocYearScenarios | WSL/wsl/data/datasets/builtin.py:56 | `voc_2012_test` gives 2012 and `voc_2007_train` 2007 |
| Bootstrap.VocTableYears | WSL/wsl/data/datasets/builtin.py:45-57 | the first four Pascal VOC splits get 2007, the other four 2012 |
| Bootstrap.UriPathScenario | WSL/wsl/data/datasets/builtin.py:77 | `s3://bucket/file.json` is passed through verbatim |
| Bootstrap.PathScenarios | WSL/wsl/data/datasets/builtin.py:104 | a path without `://` is joined: `datasets/VOC2007/JPEGImages` under the default root |
| Bootstrap.ImageRootScenarios | WSL/wsl/data/datasets/builtin.py:186-217 | the `voc_2007_train_json` image root keeps its trailing slash when joined |
| Bootstrap.VocTrainInstanceScenario | WSL/wsl/data/datasets/builtin.py:111-152 | `voc_2012_train_instance` is registered with key `voc_sbd`, its annotation file joined and the SBD image root |
| Bootstrap.VocTrainPanopticScenario | WSL/wsl/data/datasets/builtin.py:125-181 | `voc_2012_train_panoptic` yields the separated call, then the standard call, over the train instance split's images and annotations |
| Catalog.Registry.RegisterPascalVoc | WSL/wsl/data/datasets/builtin.py:57 | the call is appended; metadata is unchanged |
| Catalog.Registry.GetMetadata | WSL/wsl/data/datasets/builtin.py:159 | returns the name's record, creating an empty one if absent |
| Catalog.Registry.SetMetadata | WSL/wsl/data/datasets/builtin.py:58 | sets one attribute of the name's record; nothing else changes |
| Catalog.Registry.RegisterCocoInstances | WSL/wsl/data/datasets/builtin.py:74-79 | the call is appended, and the name's record then holds the given `json_file` and `image_root` |
| Catalog.Registry.RegisterCocoPanopticSeparated | WSL/wsl/data/datasets/builtin.py:163-171 | the call is appended; metadata is unchanged |
| Catalog.Registry.RegisterCocoPanoptic | WSL/wsl/data/datasets/builtin.py:174-181 | the call is appended; metadata is unchanged |
| Catalog.Registry.RegisterAllPascalVoc | WSL/wsl/data/datasets/builtin.py:44-58 | the loop appends exactly the Pascal VOC plan and leaves the store as the Pascal VOC tagging gives it |
| Catalog.Registry.RegisterInstanceTable | WSL/wsl/data/datasets/builtin.py:145-152 | the loop appends exactly the flat table's instance plan and records each call's metadata |
| Catalog.Registry.RegisterFamilyTable | WSL/wsl/data/datasets/builtin.py:71-79 | the nested loops append exactly the two-level table's plan and record each call's metadata |
| Catalog.Registry.RegisterAllWeb | WSL/wsl/data/datasets/builtin.py:70-79 | appends the web plan (metadata key per split) and records it |
| Catalog.Registry.RegisterAllVocPgt | WSL/wsl/data/datasets/builtin.py:97-106 | appends the PGT plan (metadata key per family) and records it |
| Catalog.Registry.RegisterPanopticTable | WSL/wsl/data/datasets/builtin.py:154-181 | the loop appends the panoptic run's calls over the current store. It passes on completion, leaving metadata unchanged. When stopped it reports the missing paired name, and that name's record has been created |
| Catalog.Registry.RegisterAllVocSbd | WSL/wsl/data/datasets/builtin.py:144-181 | the SBD instance calls, then the panoptic run over the store they leave |
| Catalog.Registry.RegisterAllVocJson | WSL/wsl/data/datasets/builtin.py:210-218 | appends the VOC-json plan and records it |
| Catalog.Registry.RunBootstrap | WSL/wsl/data/datasets/builtin.py:225-230 | with the root from the environment, the five routines in order make exactly the bootstrap's calls, never stop, and leave the bootstrap's metadata |

## Left out

- The import guard (line 223) is not modelled. `RunBootstrap` receives the environment variable's value as a parameter rather than reading it.
- The catalogs' internal checks are not part of this model. These are duplicate dataset names in `DatasetCatalog` and conflicting writes to a `MetadataCatalog` attribute. The model neither raises those errors nor proves their absence. `BootstrapRegistersEachNameOnce` shows that the bootstrap itself never passes a name twice.
- The foreign helpers are modelled only by the call descriptor each one receives: `register_pascal_voc`, `register_coco_instances`, `register_coco_panoptic` and `register_coco_panoptic_separated`. The dataset names the panoptic helpers derive for themselves are not modelled.
- Catalog.Registry.RegisterCocoInstances: records only `json_file` and `image_root`. These are the two attributes this module reads back. The helper's other metadata, such as its evaluator type and the builtin-metadata dictionary, is not recorded.
- `_get_builtin_metadata` (another file) is modelled by the key it is called with, kept as an opaque string.
- `CLASS_NAMES` and the LVIS and `load_coco_json` imports (lines 23, 28, 35-39) are not used by the registration routines.
- Dataset loading, file access and lazy loader closures are not modelled. The model only records which calls are made, with which arguments.
- Paths.Join: models POSIX `os.path.join` for exactly two arguments. It does not normalise `..`: the PGT annotation paths keep `VOC2007/../results/...` as written.
- Strings.Replace: defined for a non-empty pattern only. The module's only pattern is the fixed `_panoptic`.
- Exceptions other than the attribute read of line 160 are not modelled. That read is the `MissingPairedMetadata` outcome.
