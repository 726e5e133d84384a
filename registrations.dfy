/** What the builtin registration routines hand to the catalogs, as pure
    functions of the dataset root and the metadata store: the sequence of
    registration calls each routine makes, and how the metadata store changes.
    The registry class in module Catalog is proved to follow these. */
module Registrations {
  import opened Strings
  import opened Paths
  import opened Tables

  datatype Option<T> = None | Some(value: T)

  /** One call into a registration entry point, with its arguments. */
  datatype Registration =
    | PascalVoc(name: string, dirRoot: string, split: string, year: int)
    | CocoInstances(name: string, metadataKey: string, jsonFile: string, imageRoot: string)
    | CocoPanopticSeparated(name: string, metadataKey: string, imageRoot: string, panopticRoot: string,
                            panopticJson: string, semanticRoot: string, instancesJson: string)
    | CocoPanoptic(name: string, metadataKey: string, imageRoot: string, panopticRoot: string,
                   panopticJson: string, instancesJson: string)

  /** How a routine ends: normally, or with the paired instance metadata of
      a panoptic split missing (the attribute read raises). */
  datatype Outcome = Pass | MissingPairedMetadata(name: string)

  /** The attributes of one dataset's metadata record, and all records by name. */
  type Metadata = map<string, string>
  type MetadataStore = map<string, Metadata>

  const EvaluatorTypeAttr: string := "evaluator_type"
  const ImageRootAttr: string := "image_root"
  const JsonFileAttr: string := "json_file"
  const PascalVocEvaluator: string := "pascal_voc"

  /** Keys passed to the builtin-metadata provider. */
  const VocSbdMetadataKey: string := "voc_sbd"
  const VocJsonMetadataKey: string := "voc_json"
  const PanopticSeparatedMetadataKey: string := "voc_sbd_panoptic_separated"
  const PanopticStandardMetadataKey: string := "voc_sbd_panoptic_standard"

  const DefaultRoot: string := "datasets"

  /** The dataset root: the value of the environment variable when it is
      set, "datasets" otherwise. */
  function DatasetRoot(env: Option<string>): (root: string)
    ensures env.Some? ==> root == env.value
    ensures env.None? ==> root == DefaultRoot
  {
    match env
    case Some(v) => v
    case None => DefaultRoot
  }

  // ---- Pascal VOC ----

  /** The year passed for a Pascal VOC split: 2007 exactly when the split's
      name contains "2007", 2012 otherwise. */
  function VocYear(name: string): (year: int)
    ensures year == 2007 || year == 2012
    ensures year == 2007 <==> exists j :: OccursAt(name, "2007", j)
  {
    ContainsIff(name, "2007");
    if Contains(name, "2007") then 2007 else 2012
  }

  function VocRegistration(root: string, s: VocSplit): Registration
  {
    PascalVoc(s.name, Join(root, s.dirname), s.split, VocYear(s.name))
  }

  /** The Pascal VOC routine's calls, one per split, in table order. */
  function VocPlan(root: string, splits: seq<VocSplit>): seq<Registration>
  {
    seq(|splits|, i requires 0 <= i < |splits| => VocRegistration(root, splits[i]))
  }

  /** The metadata record of `name`; reading an absent name yields an empty one. */
  function RecordOf(store: MetadataStore, name: string): Metadata
  {
    if name in store then store[name] else map[]
  }

  /** `MetadataCatalog.get(name)`: the record is created empty on first access. */
  function Touch(store: MetadataStore, name: string): MetadataStore
  {
    if name in store then store else store[name := map[]]
  }

  /** `MetadataCatalog.get(name).attr = value`. */
  function SetAttr(store: MetadataStore, name: string, attr: string, value: string): MetadataStore
  {
    store[name := RecordOf(store, name)[attr := value]]
  }

  /** The store after the Pascal VOC routine has tagged every split's record
      with the Pascal VOC evaluator. */
  function VocMetadata(store: MetadataStore, splits: seq<VocSplit>): MetadataStore
  {
    if splits == [] then store
    else SetAttr(VocMetadata(store, splits[..|splits| - 1]), splits[|splits| - 1].name,
                 EvaluatorTypeAttr, PascalVocEvaluator)
  }

  /** Every Pascal VOC call passes the split's own name and split string, the
      root joined with the split's directory, and the year of its name. */
  /** Extending the table prefix by one split appends that split's call. */
  lemma VocPlanSnoc(root: string, splits: seq<VocSplit>, i: int)
    requires 0 <= i < |splits|
    ensures VocPlan(root, splits[..i + 1]) == VocPlan(root, splits[..i]) + [VocRegistration(root, splits[i])]
  {
    var a, b := VocPlan(root, splits[..i + 1]), VocPlan(root, splits[..i]) + [VocRegistration(root, splits[i])];
    assert |a| == |b|;
    forall k | 0 <= k < |a| ensures a[k] == b[k] {
      assert splits[..i + 1][k] == splits[k];
    }
  }

  /** Tagging one more split tags it on top of the earlier ones. */
  lemma VocMetadataSnoc(store: MetadataStore, splits: seq<VocSplit>, i: int)
    requires 0 <= i < |splits|
    ensures VocMetadata(store, splits[..i + 1])
      == SetAttr(VocMetadata(store, splits[..i]), splits[i].name, EvaluatorTypeAttr, PascalVocEvaluator)
  {
    assert splits[..i + 1][..i] == splits[..i];
  }

  lemma VocPlanArguments(root: string, splits: seq<VocSplit>, i: int)
    requires 0 <= i < |splits|
    ensures |VocPlan(root, splits)| == |splits|
    ensures var r := VocPlan(root, splits)[i];
      && r.PascalVoc? && r.name == splits[i].name && r.split == splits[i].split
      && r.dirRoot == Join(root, splits[i].dirname)
      && (r.year == 2007 <==> exists j :: OccursAt(splits[i].name, "2007", j))
      && (r.year != 2007 ==> r.year == 2012)
  {
  }

  /** After the Pascal VOC routine every split's record has evaluator type
      "pascal_voc" and keeps its other attributes; other records are untouched. */
  lemma {:induction false} VocMetadataEffect(store: MetadataStore, splits: seq<VocSplit>, name: string)
    ensures var r := VocMetadata(store, splits);
      && (name in VocNames(splits) ==>
            name in r && r[name] == RecordOf(store, name)[EvaluatorTypeAttr := PascalVocEvaluator])
      && (name !in VocNames(splits) ==>
            (name in r <==> name in store) && (name in store ==> r[name] == store[name]))
  {
    if splits != [] {
      var init := splits[..|splits| - 1];
      VocMetadataEffect(store, init, name);
      assert VocNames(splits) == VocNames(init) + [splits[|splits| - 1].name];
    }
  }

  // ---- COCO-style instance families ----

  /** Which builtin-metadata key an instance family passes: the split's own
      key, or one key for the whole family. */
  datatype MetadataKeyRule = SplitKey | FixedKey(key: string)

  function MetadataKeyOf(rule: MetadataKeyRule, s: CocoSplit): string
  {
    match rule
    case SplitKey => s.key
    case FixedKey(k) => k
  }

  function InstanceRegistration(root: string, rule: MetadataKeyRule, s: CocoSplit): Registration
  {
    CocoInstances(s.key, MetadataKeyOf(rule, s), ResolveAnnotation(root, s.jsonFile), Join(root, s.imageRoot))
  }

  /** One instance registration per split of a flat table, in table order. */
  function InstancePlan(root: string, rule: MetadataKeyRule, splits: seq<CocoSplit>): seq<Registration>
  {
    seq(|splits|, i requires 0 <= i < |splits| => InstanceRegistration(root, rule, splits[i]))
  }

  /** Extending the table prefix by one split appends that split's call. */
  lemma InstancePlanSnoc(root: string, rule: MetadataKeyRule, splits: seq<CocoSplit>, i: int)
    requires 0 <= i < |splits|
    ensures InstancePlan(root, rule, splits[..i + 1])
      == InstancePlan(root, rule, splits[..i]) + [InstanceRegistration(root, rule, splits[i])]
  {
    var a := InstancePlan(root, rule, splits[..i + 1]);
    var b := InstancePlan(root, rule, splits[..i]) + [InstanceRegistration(root, rule, splits[i])];
    assert |a| == |b|;
    forall k | 0 <= k < |a| ensures a[k] == b[k] {
      assert splits[..i + 1][k] == splits[k];
    }
  }

  /** The rule a family routine uses: the family's own name when it keys by
      family, each split's key otherwise. */
  function FamilyRule(keyByFamily: bool, f: Family): MetadataKeyRule
  {
    if keyByFamily then FixedKey(f.name) else SplitKey
  }

  /** The registrations of a two-level (family, split) table. */
  function FamiliesPlan(root: string, keyByFamily: bool, families: seq<Family>): seq<Registration>
  {
    if families == [] then []
    else
      var f := families[|families| - 1];
      FamiliesPlan(root, keyByFamily, families[..|families| - 1]) + InstancePlan(root, FamilyRule(keyByFamily, f), f.splits)
  }

  /** Extending the family prefix by one family appends that family's calls,
      and their records go on top of the earlier ones. */
  lemma FamiliesPlanSnoc(store: MetadataStore, root: string, keyByFamily: bool, families: seq<Family>, i: int)
    requires 0 <= i < |families|
    ensures var plan := InstancePlan(root, FamilyRule(keyByFamily, families[i]), families[i].splits);
      && FamiliesPlan(root, keyByFamily, families[..i + 1]) == FamiliesPlan(root, keyByFamily, families[..i]) + plan
      && RecordAll(store, FamiliesPlan(root, keyByFamily, families[..i + 1]))
         == RecordAll(RecordAll(store, FamiliesPlan(root, keyByFamily, families[..i])), plan)
  {
    assert families[..i + 1][..i] == families[..i];
    RecordAllAppend(store, FamiliesPlan(root, keyByFamily, families[..i]),
                    InstancePlan(root, FamilyRule(keyByFamily, families[i]), families[i].splits));
  }

  function WebPlan(root: string): seq<Registration>
  {
    FamiliesPlan(root, false, WebFamilies)
  }

  function VocPgtPlan(root: string): seq<Registration>
  {
    FamiliesPlan(root, true, VocPgtFamilies)
  }

  function VocSbdInstancePlan(root: string): seq<Registration>
  {
    InstancePlan(root, FixedKey(VocSbdMetadataKey), VocSbdSplits)
  }

  function VocJsonPlan(root: string): seq<Registration>
  {
    InstancePlan(root, FixedKey(VocJsonMetadataKey), VocJsonSplits)
  }

  /** Every instance call passes the split key as the name, the annotation
      path through the "://" rule, the image root always joined under the
      root, and the metadata key of the family's rule. */
  lemma InstancePlanArguments(root: string, rule: MetadataKeyRule, splits: seq<CocoSplit>, i: int)
    requires 0 <= i < |splits|
    ensures |InstancePlan(root, rule, splits)| == |splits|
    ensures var r := InstancePlan(root, rule, splits)[i];
      && r.CocoInstances? && r.name == splits[i].key
      && r.imageRoot == Join(root, splits[i].imageRoot)
      && ((exists j :: OccursAt(splits[i].jsonFile, UriMarker, j)) ==> r.jsonFile == splits[i].jsonFile)
      && (!(exists j :: OccursAt(splits[i].jsonFile, UriMarker, j)) ==> r.jsonFile == Join(root, splits[i].jsonFile))
      && r.metadataKey == (if rule.SplitKey? then splits[i].key else rule.key)
  {
  }

  /** Web passes each split's key, PGT its family's key "voc_2007_pgt", SBD
      "voc_sbd" and VOC-json "voc_json". */
  lemma {:induction false} FamilyMetadataKeys(root: string)
    ensures forall r :: r in WebPlan(root) ==> r.CocoInstances? && r.metadataKey == r.name
    ensures forall r :: r in VocPgtPlan(root) ==> r.CocoInstances? && r.metadataKey == "voc_2007_pgt"
    ensures forall r :: r in VocSbdInstancePlan(root) ==> r.CocoInstances? && r.metadataKey == VocSbdMetadataKey
    ensures forall r :: r in VocJsonPlan(root) ==> r.CocoInstances? && r.metadataKey == VocJsonMetadataKey
  {
    assert WebPlan(root) == FamiliesPlan(root, false, []) + InstancePlan(root, SplitKey, WebFamilies[0].splits);
    assert VocPgtPlan(root) == FamiliesPlan(root, true, []) + InstancePlan(root, FixedKey("voc_2007_pgt"), VocPgtFamilies[0].splits);
  }

  // ---- Metadata recorded by instance registrations ----

  /** What the instance entry point records in the dataset's metadata: its
      annotation file and image root. Other calls leave the store alone. */
  function RecordRegistration(store: MetadataStore, r: Registration): MetadataStore
  {
    if r.CocoInstances? then
      SetAttr(SetAttr(store, r.name, JsonFileAttr, r.jsonFile), r.name, ImageRootAttr, r.imageRoot)
    else store
  }

  function RecordAll(store: MetadataStore, rs: seq<Registration>): MetadataStore
  {
    if rs == [] then store
    else RecordRegistration(RecordAll(store, rs[..|rs| - 1]), rs[|rs| - 1])
  }

  lemma {:induction false} RecordAllAppend(store: MetadataStore, a: seq<Registration>, b: seq<Registration>)
    ensures RecordAll(store, a + b) == RecordAll(RecordAll(store, a), b)
    decreases |b|
  {
    if b == [] {
      assert a + b == a;
    } else {
      assert (a + b)[..|a + b| - 1] == a + b[..|b| - 1];
      RecordAllAppend(store, a, b[..|b| - 1]);
    }
  }

  lemma AppendAssoc(a: seq<Registration>, b: seq<Registration>, c: seq<Registration>)
    ensures (a + b) + c == a + (b + c)
  {
  }

  /** One more call records on top of what the earlier calls recorded. */
  lemma RecordAllSnoc(store: MetadataStore, rs: seq<Registration>, r: Registration)
    ensures RecordAll(store, rs + [r]) == RecordRegistration(RecordAll(store, rs), r)
  {
    assert (rs + [r])[..|rs|] == rs;
  }

  /** Calls other than instance registrations record nothing. */
  lemma {:induction false} RecordAllWithoutInstances(store: MetadataStore, rs: seq<Registration>)
    requires forall i :: 0 <= i < |rs| ==> !rs[i].CocoInstances?
    ensures RecordAll(store, rs) == store
  {
    if rs != [] {
      RecordAllWithoutInstances(store, rs[..|rs| - 1]);
    }
  }

  /** The last instance registration of `name` in `rs`, if any. */
  function LastInstances(rs: seq<Registration>, name: string): (found: Option<Registration>)
    ensures found.Some? ==> found.value in rs && found.value.CocoInstances? && found.value.name == name
    ensures found.None? ==> forall r :: r in rs && r.CocoInstances? ==> r.name != name
  {
    if rs == [] then None
    else if rs[|rs| - 1].CocoInstances? && rs[|rs| - 1].name == name then Some(rs[|rs| - 1])
    else LastInstances(rs[..|rs| - 1], name)
  }

  /** The record of `name` after a run of registrations holds the image root
      and annotation file of its last instance registration; a name that was
      never registered as instances keeps its record as it was. */
  lemma {:induction false} RecordAllReadsLast(store: MetadataStore, rs: seq<Registration>, name: string)
    ensures var m := RecordAll(store, rs);
      match LastInstances(rs, name)
      case Some(r) =>
        && name in m && ImageRootAttr in m[name] && JsonFileAttr in m[name]
        && m[name][ImageRootAttr] == r.imageRoot && m[name][JsonFileAttr] == r.jsonFile
      case None =>
        (name in m <==> name in store) && (name in store ==> m[name] == store[name])
  {
    if rs != [] {
      RecordAllReadsLast(store, rs[..|rs| - 1], name);
    }
  }

  /** An instance registration that no later one shadows is the one found. */
  lemma {:induction false} LastInstancesFinds(rs: seq<Registration>, k: int)
    requires 0 <= k < |rs| && rs[k].CocoInstances?
    requires forall j :: k < j < |rs| ==> !rs[j].CocoInstances? || rs[j].name != rs[k].name
    ensures LastInstances(rs, rs[k].name) == Some(rs[k])
    decreases |rs|
  {
    if k < |rs| - 1 {
      LastInstancesFinds(rs[..|rs| - 1], k);
    }
  }

  // ---- Panoptic pairing ----

  /** The instance split a panoptic split reads its paths from. */
  function PairedInstanceName(prefix: string): string
  {
    Replace(prefix, "_panoptic", "_instance")
  }

  /** A name that ends in "_panoptic", with no earlier occurrence of it,
      pairs with the same name ending in "_instance". */
  lemma PairedInstanceNameOfSuffix(s: string)
    requires |s| >= 9 && OccursAt(s, "_panoptic", |s| - 9)
    requires forall j :: 0 <= j < |s| - 9 ==> !OccursAt(s, "_panoptic", j)
    ensures PairedInstanceName(s) == s[..|s| - 9] + "_instance"
  {
    ReplaceFromLastOccurrence(s, "_panoptic", "_instance", 0);
  }

  predicate HasPairedMetadata(store: MetadataStore, name: string)
  {
    name in store && ImageRootAttr in store[name] && JsonFileAttr in store[name]
  }

  /** The separated and the standard registration of one panoptic split;
      only the separated one receives the semantic root. */
  function PanopticRegistrations(root: string, imageRoot: string, instancesJson: string, p: PanopticSplit): seq<Registration>
  {
    [ CocoPanopticSeparated(p.prefix, PanopticSeparatedMetadataKey, imageRoot, Join(root, p.panopticRoot),
                            Join(root, p.panopticJson), Join(root, p.semanticRoot), instancesJson),
      CocoPanoptic(p.prefix, PanopticStandardMetadataKey, imageRoot, Join(root, p.panopticRoot),
                   Join(root, p.panopticJson), instancesJson) ]
  }

  /** The panoptic loop run against a fixed store: the calls made, and
      whether it ran to the end or stopped at a split whose paired metadata
      is missing. */
  datatype PanopticRun = Completed(calls: seq<Registration>) | Stopped(calls: seq<Registration>, missing: string)

  function PanopticPlan(root: string, store: MetadataStore, ps: seq<PanopticSplit>): PanopticRun
  {
    if ps == [] then Completed([])
    else
      match PanopticPlan(root, store, ps[..|ps| - 1])
      case Stopped(c, n) => Stopped(c, n)
      case Completed(c) =>
        var p := ps[|ps| - 1];
        var n := PairedInstanceName(p.prefix);
        if HasPairedMetadata(store, n) then
          Completed(c + PanopticRegistrations(root, store[n][ImageRootAttr], store[n][JsonFileAttr], p))
        else Stopped(c, n)
  }

  /** The panoptic loop runs to the end exactly when every split's paired
      record holds an image root and an annotation file; otherwise it stops
      at the first split whose paired record does not. */
  lemma {:induction false} PanopticPlanOutcome(root: string, store: MetadataStore, ps: seq<PanopticSplit>)
    ensures PanopticPlan(root, store, ps).Completed? <==>
      forall i :: 0 <= i < |ps| ==> HasPairedMetadata(store, PairedInstanceName(ps[i].prefix))
    ensures PanopticPlan(root, store, ps).Stopped? ==>
      exists i :: 0 <= i < |ps| && PanopticPlan(root, store, ps).missing == PairedInstanceName(ps[i].prefix)
        && !HasPairedMetadata(store, PairedInstanceName(ps[i].prefix))
        && forall k :: 0 <= k < i ==> HasPairedMetadata(store, PairedInstanceName(ps[k].prefix))
  {
    if ps != [] {
      var init := ps[..|ps| - 1];
      PanopticPlanOutcome(root, store, init);
      assert forall i :: 0 <= i < |init| ==> init[i] == ps[i];
    }
  }

  /** One more split after a completed prefix: either its paired record
      supplies the paths for two more calls, or the loop stops there. */
  lemma PanopticPlanStep(root: string, store: MetadataStore, ps: seq<PanopticSplit>, i: int)
    requires 0 <= i < |ps| && PanopticPlan(root, store, ps[..i]).Completed?
    ensures var n := PairedInstanceName(ps[i].prefix);
      var c := PanopticPlan(root, store, ps[..i]).calls;
      PanopticPlan(root, store, ps[..i + 1])
        == if HasPairedMetadata(store, n)
           then Completed(c + PanopticRegistrations(root, store[n][ImageRootAttr], store[n][JsonFileAttr], ps[i]))
           else Stopped(c, n)
  {
    assert ps[..i + 1][..i] == ps[..i];
  }

  /** Once the panoptic loop has stopped on a prefix of the splits, the
      remaining splits change nothing: it reports the same calls and the same
      missing record. */
  lemma {:induction false} PanopticPlanKeepsStop(root: string, store: MetadataStore, ps: seq<PanopticSplit>, k: int)
    requires 0 <= k <= |ps| && PanopticPlan(root, store, ps[..k]).Stopped?
    ensures PanopticPlan(root, store, ps) == PanopticPlan(root, store, ps[..k])
    decreases |ps|
  {
    if k == |ps| {
      assert ps[..k] == ps;
    } else {
      var init := ps[..|ps| - 1];
      assert init[..k] == ps[..k];
      PanopticPlanKeepsStop(root, store, init, k);
    }
  }

  predicate AllPaired(instances: seq<Registration>, ps: seq<PanopticSplit>)
  {
    forall i :: 0 <= i < |ps| ==> LastInstances(instances, PairedInstanceName(ps[i].prefix)).Some?
  }

  /** Reference definition: the panoptic calls built from the paired
      instance registrations themselves rather than from metadata. */
  function PairedPlan(root: string, instances: seq<Registration>, ps: seq<PanopticSplit>): seq<Registration>
    requires AllPaired(instances, ps)
  {
    if ps == [] then []
    else
      var p := ps[|ps| - 1];
      var r := LastInstances(instances, PairedInstanceName(p.prefix)).value;
      PairedPlan(root, instances, ps[..|ps| - 1]) + PanopticRegistrations(root, r.imageRoot, r.jsonFile, p)
  }

  /** Once the instance registrations have recorded their metadata, the
      panoptic loop runs to the end and passes each split exactly the image
      root and annotation file its paired instance registration recorded,
      whatever the store held before. */
  lemma {:induction false} PanopticPlanReadsInstances(root: string, store: MetadataStore, instances: seq<Registration>, ps: seq<PanopticSplit>)
    requires AllPaired(instances, ps)
    ensures PanopticPlan(root, RecordAll(store, instances), ps) == Completed(PairedPlan(root, instances, ps))
  {
    if ps != [] {
      var init := ps[..|ps| - 1];
      assert AllPaired(instances, init) by {
        assert forall i :: 0 <= i < |init| ==> init[i] == ps[i];
      }
      PanopticPlanReadsInstances(root, store, instances, init);
      var n := PairedInstanceName(ps[|ps| - 1].prefix);
      assert LastInstances(instances, n).Some? by {
        assert ps[|ps| - 1] == ps[|ps| - 1];
      }
      RecordAllReadsLast(store, instances, n);
    }
  }

  /** Each panoptic split yields a separated call and then a standard call,
      both carrying the paired instance registration's image root and
      annotation file and the panoptic paths joined under the root. */
  lemma {:induction false} PairedPlanArguments(root: string, instances: seq<Registration>, ps: seq<PanopticSplit>, i: int)
    requires AllPaired(instances, ps) && 0 <= i < |ps|
    ensures |PairedPlan(root, instances, ps)| == 2 * |ps|
    ensures var inst := LastInstances(instances, PairedInstanceName(ps[i].prefix)).value;
      var sep := PairedPlan(root, instances, ps)[2 * i];
      var std := PairedPlan(root, instances, ps)[2 * i + 1];
      && inst.CocoInstances? && inst.name == PairedInstanceName(ps[i].prefix)
      && sep == CocoPanopticSeparated(ps[i].prefix, PanopticSeparatedMetadataKey, inst.imageRoot,
                                      Join(root, ps[i].panopticRoot), Join(root, ps[i].panopticJson),
                                      Join(root, ps[i].semanticRoot), inst.jsonFile)
      && std == CocoPanoptic(ps[i].prefix, PanopticStandardMetadataKey, inst.imageRoot,
                             Join(root, ps[i].panopticRoot), Join(root, ps[i].panopticJson), inst.jsonFile)
  {
    var init := ps[..|ps| - 1];
    assert AllPaired(instances, init) by {
      assert forall k :: 0 <= k < |init| ==> init[k] == ps[k];
    }
    if i < |ps| - 1 {
      PairedPlanArguments(root, instances, init, i);
    } else if init != [] {
      PairedPlanArguments(root, instances, init, 0);
    }
  }
}
