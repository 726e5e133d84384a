/** The whole bootstrap sequence as a plan over the concrete tables: the
    pairing of the panoptic table with the SBD instance table, the calls the
    five routines make in order, and the fact that no name is registered
    twice. */
module Bootstrap {
  import opened Strings
  import opened Paths
  import opened Tables
  import opened Registrations

  /** The i-th panoptic prefix, with "_panoptic" rewritten to "_instance",
      is the key of the i-th SBD instance split. */
  lemma PanopticPairingHitsInstanceTable()
    ensures |VocSbdPanopticSplits| == 3 && |VocSbdSplits| == 5
    ensures forall i :: 0 <= i < |VocSbdPanopticSplits| ==>
      PairedInstanceName(VocSbdPanopticSplits[i].prefix) == VocSbdSplits[i].key
  {
    PairTrain();
    PairVal();
    PairSbd();
  }

  /** A panoptic prefix with no 'p' before its "_panoptic" suffix pairs with
      the same prefix ending in "_instance". */
  lemma PairedPrefix(s: string)
    requires |s| >= 9 && s[|s| - 9..] == "_panoptic"
    requires forall k :: 1 <= k <= |s| - 9 ==> s[k] != 'p'
    ensures PairedInstanceName(s) == s[..|s| - 9] + "_instance"
  {
    forall j | 0 <= j < |s| - 9 ensures !OccursAt(s, "_panoptic", j) {
      assert s[j..j + 9][1] == s[j + 1];
    }
    PairedInstanceNameOfSuffix(s);
  }

  lemma PairTrain()
    ensures PairedInstanceName("voc_2012_train_panoptic") == "voc_2012_train_instance"
  {
    PairedPrefix("voc_2012_train_panoptic");
  }

  lemma PairVal()
    ensures PairedInstanceName("voc_2012_val_panoptic") == "voc_2012_val_instance"
  {
    PairedPrefix("voc_2012_val_panoptic");
  }

  lemma PairSbd()
    ensures PairedInstanceName("sbd_9118_panoptic") == "sbd_9118_instance"
  {
    PairedPrefix("sbd_9118_panoptic");
  }

  lemma VocSbdKeysDistinct()
    ensures Distinct(Keys(VocSbdSplits))
  {
    FlatKeysAre();
  }

  /** Within the SBD instance registrations, the one paired with the i-th
      panoptic split is the i-th, and no later registration shadows it. */
  lemma VocSbdPairsFound(root: string)
    ensures AllPaired(VocSbdInstancePlan(root), VocSbdPanopticSplits)
    ensures forall i :: 0 <= i < |VocSbdPanopticSplits| ==>
      LastInstances(VocSbdInstancePlan(root), PairedInstanceName(VocSbdPanopticSplits[i].prefix))
        == Some(VocSbdInstancePlan(root)[i])
  {
    PanopticPairingHitsInstanceTable();
    VocSbdKeysDistinct();
    var rs := VocSbdInstancePlan(root);
    forall i | 0 <= i < |VocSbdPanopticSplits|
      ensures LastInstances(rs, PairedInstanceName(VocSbdPanopticSplits[i].prefix)) == Some(rs[i])
    {
      assert Keys(VocSbdSplits)[i] == VocSbdSplits[i].key;
      assert forall j :: i < j < |rs| ==> rs[j].name == Keys(VocSbdSplits)[j];
      LastInstancesFinds(rs, i);
    }
  }

  /** Run after the SBD instance loop, the panoptic loop never stops: every
      panoptic split reads the metadata its paired instance registration
      just recorded, whatever the store held before. */
  lemma VocSbdPanopticCompletes(root: string, store: MetadataStore)
    ensures AllPaired(VocSbdInstancePlan(root), VocSbdPanopticSplits)
    ensures PanopticPlan(root, RecordAll(store, VocSbdInstancePlan(root)), VocSbdPanopticSplits)
      == Completed(PairedPlan(root, VocSbdInstancePlan(root), VocSbdPanopticSplits))
  {
    VocSbdPairsFound(root);
    PanopticPlanReadsInstances(root, store, VocSbdInstancePlan(root), VocSbdPanopticSplits);
  }

  function VocSbdPanopticPlan(root: string): seq<Registration>
  {
    VocSbdPairsFound(root);
    PairedPlan(root, VocSbdInstancePlan(root), VocSbdPanopticSplits)
  }

  /** Every call of the bootstrap, in order: Pascal VOC, web, PGT, SBD
      instances, SBD panoptic, VOC-json. */
  function Calls(root: string): seq<Registration>
  {
    VocPlan(root, VocSplits) + WebPlan(root) + VocPgtPlan(root) + VocSbdInstancePlan(root)
      + VocSbdPanopticPlan(root) + VocJsonPlan(root)
  }

  /** The metadata store after the bootstrap. */
  function MetadataAfter(store: MetadataStore, root: string): MetadataStore
  {
    RecordAll(VocMetadata(store, VocSplits), Calls(root))
  }

  /** The panoptic calls built from the paired instances record nothing. */
  lemma {:induction false} PairedPlanRecordsNothing(root: string, instances: seq<Registration>, ps: seq<PanopticSplit>)
    requires AllPaired(instances, ps)
    ensures forall i :: 0 <= i < |PairedPlan(root, instances, ps)| ==> !PairedPlan(root, instances, ps)[i].CocoInstances?
  {
    if ps != [] {
      var init := ps[..|ps| - 1];
      assert AllPaired(instances, init) by {
        assert forall k :: 0 <= k < |init| ==> init[k] == ps[k];
      }
      PairedPlanRecordsNothing(root, instances, init);
    }
  }

  /** The bootstrap's metadata, routine by routine: the Pascal VOC tags, then
      what the web, PGT, SBD-instance and VOC-json registrations record; the
      Pascal VOC and panoptic calls record nothing further. */
  lemma BootstrapMetadataSteps(store: MetadataStore, root: string)
    ensures MetadataAfter(store, root)
      == RecordAll(RecordAll(RecordAll(RecordAll(VocMetadata(store, VocSplits), WebPlan(root)),
                                       VocPgtPlan(root)), VocSbdInstancePlan(root)), VocJsonPlan(root))
  {
    var m0 := VocMetadata(store, VocSplits);
    var voc := VocPlan(root, VocSplits);
    var pan := VocSbdPanopticPlan(root);
    VocSbdPairsFound(root);
    PairedPlanRecordsNothing(root, VocSbdInstancePlan(root), VocSbdPanopticSplits);
    RecordAllWithoutInstances(m0, voc);
    var a := voc + WebPlan(root);
    var b := a + VocPgtPlan(root);
    var c := b + VocSbdInstancePlan(root);
    var d := c + pan;
    RecordAllAppend(m0, voc, WebPlan(root));
    RecordAllAppend(m0, a, VocPgtPlan(root));
    RecordAllAppend(m0, b, VocSbdInstancePlan(root));
    RecordAllAppend(m0, c, pan);
    RecordAllWithoutInstances(RecordAll(m0, c), pan);
    RecordAllAppend(m0, d, VocJsonPlan(root));
  }

  /** The names given to the Pascal VOC and instance entry points, in order
      (the names the panoptic entry points derive are theirs to choose). */
  function RegisteredNames(rs: seq<Registration>): seq<string>
  {
    if rs == [] then []
    else
      var r := rs[|rs| - 1];
      RegisteredNames(rs[..|rs| - 1]) + (if r.PascalVoc? || r.CocoInstances? then [r.name] else [])
  }

  lemma {:induction false} RegisteredNamesAppend(a: seq<Registration>, b: seq<Registration>)
    ensures RegisteredNames(a + b) == RegisteredNames(a) + RegisteredNames(b)
    decreases |b|
  {
    if b == [] {
      assert a + b == a;
    } else {
      assert (a + b)[..|a + b| - 1] == a + b[..|b| - 1];
      RegisteredNamesAppend(a, b[..|b| - 1]);
    }
  }

  lemma {:induction false} VocPlanNames(root: string, splits: seq<VocSplit>)
    ensures RegisteredNames(VocPlan(root, splits)) == VocNames(splits)
  {
    if splits != [] {
      var n := |splits| - 1;
      var init := splits[..n];
      VocPlanSnoc(root, splits, n);
      assert splits[..n + 1] == splits;
      VocPlanNames(root, init);
      RegisteredNamesSnoc(VocPlan(root, init), VocRegistration(root, splits[n]));
      VocNamesSnoc(splits);
    }
  }

  lemma {:induction false} InstancePlanNames(root: string, rule: MetadataKeyRule, splits: seq<CocoSplit>)
    ensures RegisteredNames(InstancePlan(root, rule, splits)) == Keys(splits)
  {
    if splits != [] {
      var n := |splits| - 1;
      var init, r := splits[..n], InstanceRegistration(root, rule, splits[n]);
      InstancePlanSnoc(root, rule, splits, n);
      assert splits[..n + 1] == splits;
      InstancePlanNames(root, rule, init);
      RegisteredNamesSnoc(InstancePlan(root, rule, init), r);
      KeysSnoc(splits);
    }
  }

  lemma RegisteredNamesSnoc(rs: seq<Registration>, r: Registration)
    ensures RegisteredNames(rs + [r]) == RegisteredNames(rs) + (if r.PascalVoc? || r.CocoInstances? then [r.name] else [])
  {
    assert (rs + [r])[..|rs|] == rs;
  }

  lemma {:induction false} FamiliesPlanNames(root: string, keyByFamily: bool, families: seq<Family>)
    ensures RegisteredNames(FamiliesPlan(root, keyByFamily, families)) == FamilyKeys(families)
  {
    if families != [] {
      var init := families[..|families| - 1];
      var f := families[|families| - 1];
      FamiliesPlanNames(root, keyByFamily, init);
      InstancePlanNames(root, FamilyRule(keyByFamily, f), f.splits);
      RegisteredNamesAppend(FamiliesPlan(root, keyByFamily, init), InstancePlan(root, FamilyRule(keyByFamily, f), f.splits));
    }
  }

  lemma {:induction false} PairedPlanNames(root: string, instances: seq<Registration>, ps: seq<PanopticSplit>)
    requires AllPaired(instances, ps)
    ensures RegisteredNames(PairedPlan(root, instances, ps)) == []
  {
    if ps != [] {
      var init := ps[..|ps| - 1];
      assert AllPaired(instances, init) by {
        assert forall i :: 0 <= i < |init| ==> init[i] == ps[i];
      }
      PairedPlanNames(root, instances, init);
      var r := LastInstances(instances, PairedInstanceName(ps[|ps| - 1].prefix)).value;
      var two := PanopticRegistrations(root, r.imageRoot, r.jsonFile, ps[|ps| - 1]);
      assert RegisteredNames(two) == [] by {
        assert two[..1][..0] == [];
        assert RegisteredNames(two[..1]) == [];
      }
      RegisteredNamesAppend(PairedPlan(root, instances, init), two);
    }
  }

  /** The Pascal VOC and instance names the bootstrap registers are exactly
      the table names, in table order. */
  lemma BootstrapNamesAreTableNames(root: string)
    ensures RegisteredNames(Calls(root)) == TableNames()
  {
    var v, w, g, s, p, j := VocPlan(root, VocSplits), WebPlan(root), VocPgtPlan(root),
      VocSbdInstancePlan(root), VocSbdPanopticPlan(root), VocJsonPlan(root);
    VocSbdPairsFound(root);
    VocPlanNames(root, VocSplits);
    FamiliesPlanNames(root, false, WebFamilies);
    FamiliesPlanNames(root, true, VocPgtFamilies);
    InstancePlanNames(root, FixedKey(VocSbdMetadataKey), VocSbdSplits);
    PairedPlanNames(root, s, VocSbdPanopticSplits);
    InstancePlanNames(root, FixedKey(VocJsonMetadataKey), VocJsonSplits);
    RegisteredNamesAppend(v, w);
    RegisteredNamesAppend(v + w, g);
    RegisteredNamesAppend(v + w + g, s);
    RegisteredNamesAppend(v + w + g + s, p);
    RegisteredNamesAppend(v + w + g + s + p, j);
  }

  /** No name reaches the Pascal VOC or instance entry points twice during
      the bootstrap. */
  lemma BootstrapRegistersEachNameOnce(root: string)
    ensures |RegisteredNames(Calls(root))| == 22
    ensures Distinct(RegisteredNames(Calls(root)))
  {
    BootstrapNamesAreTableNames(root);
    TableNamesDistinct();
  }

  // ---- Scenarios ----

  /** "voc_2007_trainval" is registered from the root joined with "VOC2007",
      split "trainval", year 2007, and tagged with the Pascal VOC evaluator. */
  lemma VocTrainval2007Scenario(root: string, store: MetadataStore)
    ensures VocPlan(root, VocSplits)[0] == PascalVoc("voc_2007_trainval", Join(root, "VOC2007"), "trainval", 2007)
    ensures var m := VocMetadata(store, VocSplits);
      "voc_2007_trainval" in m && EvaluatorTypeAttr in m["voc_2007_trainval"]
      && m["voc_2007_trainval"][EvaluatorTypeAttr] == "pascal_voc"
  {
    var s := VocSplits[0];
    assert s == VocSplit("voc_2007_trainval", "VOC2007", "trainval");
    assert OccursAt(s.name, "2007", 4);
    assert VocNames(VocSplits)[0] == s.name;
    VocMetadataEffect(store, VocSplits, "voc_2007_trainval");
  }

  /** The year comes from the split name alone: "voc_2012_test" gives 2012
      and "voc_2007_train" 2007. */
  lemma VocYearScenarios()
    ensures VocYear("voc_2012_test") == 2012
    ensures VocYear("voc_2007_train") == 2007
  {
    assert OccursAt("voc_2007_train", "2007", 4);
    AbsentCharNoOccurrence("voc_2012_test", "2007", 3);
  }

  /** The table's first four Pascal VOC splits are registered with year
      2007, the other four with 2012. */
  lemma VocTableYears(root: string)
    ensures forall i :: 0 <= i < 8 ==> VocPlan(root, VocSplits)[i].year == if i < 4 then 2007 else 2012
  {
    forall i | 0 <= i < 8 ensures VocPlan(root, VocSplits)[i].year == if i < 4 then 2007 else 2012 {
      if i < 4 {
        Voc2007Names(i);
      } else {
        Voc2012Names(i);
      }
    }
  }

  lemma Voc2007Names(i: int)
    requires 0 <= i < 4
    ensures VocYear(VocSplits[i].name) == 2007
  {
    var n := VocSplits[i].name;
    assert n[4..8] == "2007";
    assert OccursAt(n, "2007", 4);
  }

  lemma Voc2012Names(i: int)
    requires 4 <= i < 8
    ensures VocYear(VocSplits[i].name) == 2012
  {
    var n := VocSplits[i].name;
    assert '7' !in n;
    AbsentCharNoOccurrence(n, "2007", 3);
  }

  /** A path with a URI marker is used verbatim. */
  lemma UriPathScenario(root: string)
    ensures ResolveAnnotation(root, "s3://bucket/file.json") == "s3://bucket/file.json"
  {
    assert OccursAt("s3://bucket/file.json", UriMarker, 2);
  }

  /** A path without one is joined under the root ("datasets/..." under the
      default root). */
  lemma PathScenarios(root: string)
    ensures ResolveAnnotation(root, "VOC2007/JPEGImages") == Join(root, "VOC2007/JPEGImages")
    ensures ResolveAnnotation(DefaultRoot, "VOC2007/JPEGImages") == "datasets/VOC2007/JPEGImages"
  {
    AbsentCharNoOccurrence("VOC2007/JPEGImages", UriMarker, 0);
    assert DefaultRoot + "/" + "VOC2007/JPEGImages" == "datasets/VOC2007/JPEGImages";
  }

  /** The image root of "voc_2007_train_json" keeps its trailing slash when
      joined ("datasets/VOC2007/JPEGImages/" under the default root); every
      instance call passes its split's image root so joined
      (`InstancePlanArguments`). */
  lemma ImageRootScenarios(root: string)
    ensures VocJsonSplits[0].key == "voc_2007_train_json"
    ensures Join(DefaultRoot, VocJsonSplits[0].imageRoot) == "datasets/VOC2007/JPEGImages/"
    ensures root != [] && root[|root| - 1] != '/' ==>
      Join(root, VocJsonSplits[0].imageRoot) == root + "/" + "VOC2007/JPEGImages/"
  {
    assert VocJsonSplits[0].imageRoot == "VOC2007/JPEGImages/";
    assert DefaultRoot + "/" + "VOC2007/JPEGImages/" == "datasets/VOC2007/JPEGImages/";
  }

  /** "voc_2012_train_instance" is registered with the "voc_sbd" metadata,
      its annotation file joined under the root, and the SBD image root. */
  lemma VocTrainInstanceScenario(root: string)
    ensures VocSbdInstancePlan(root)[0] == CocoInstances("voc_2012_train_instance", "voc_sbd",
      Join(root, "VOC_SBD/annotations/voc_2012_train_instance.json"), Join(root, "VOC_SBD/images"))
  {
    var json := "VOC_SBD/annotations/voc_2012_train_instance.json";
    NoColonInTrainInstanceJson();
    AbsentCharNoOccurrence(json, UriMarker, 0);
    assert VocSbdSplits[0] == CocoSplit("voc_2012_train_instance", "VOC_SBD/images", json);
  }

  lemma NoColonInTrainInstanceJson()
    ensures ':' !in "VOC_SBD/annotations/voc_2012_train_instance.json"
  {
    var j := "VOC_SBD/annotations/voc_2012_train_instance.json";
    NoColonInHalves(j[..24], j[24..]);
    assert j == j[..24] + j[24..];
  }

  lemma NoColonInHalves(a: string, b: string)
    requires a == "VOC_SBD/annotations/voc_" && b == "2012_train_instance.json"
    ensures ':' !in a + b
  {
  }

  /** "voc_2012_train_panoptic", registered after "voc_2012_train_instance",
      yields a separated call (with a semantic root) and then a standard call
      (without one), both over the instance split's images and annotations. */
  lemma VocTrainPanopticScenario(root: string)
    ensures var p := VocSbdPanopticPlan(root);
      && |p| == 6
      && p[0] == CocoPanopticSeparated("voc_2012_train_panoptic", "voc_sbd_panoptic_separated",
           Join(root, "VOC_SBD/images"), Join(root, "VOC_SBD/annotations/panoptic"),
           Join(root, "VOC_SBD/annotations/voc_2012_train_panoptic.json"),
           Join(root, "VOC_SBD/annotations/panoptic_stuff"),
           Join(root, "VOC_SBD/annotations/voc_2012_train_instance.json"))
      && p[1] == CocoPanoptic("voc_2012_train_panoptic", "voc_sbd_panoptic_standard",
           Join(root, "VOC_SBD/images"), Join(root, "VOC_SBD/annotations/panoptic"),
           Join(root, "VOC_SBD/annotations/voc_2012_train_panoptic.json"),
           Join(root, "VOC_SBD/annotations/voc_2012_train_instance.json"))
  {
    VocTrainInstanceScenario(root);
    VocSbdPairsFound(root);
    PairedPlanArguments(root, VocSbdInstancePlan(root), VocSbdPanopticSplits, 0);
    assert VocSbdPanopticSplits[0] == PanopticSplit("voc_2012_train_panoptic", "VOC_SBD/annotations/panoptic",
      "VOC_SBD/annotations/voc_2012_train_panoptic.json", "VOC_SBD/annotations/panoptic_stuff");
  }
}
