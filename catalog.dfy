/** The process-wide catalogs as one object, and the builtin registration
    routines as its methods. `calls` is the sequence of calls made to the
    registration entry points (their effect on the dataset catalog lives in
    those entry points); `metadata` is the metadata catalog, one record of
    attributes per dataset name. */
module Catalog {
  import opened Strings
  import opened Paths
  import opened Tables
  import opened Registrations
  import Bootstrap

  class Registry {
    var calls: seq<Registration>
    var metadata: MetadataStore

    // ---- Entry points the routines call ----

    /** `register_pascal_voc(name, dirname, split, year)`. */
    method RegisterPascalVoc(name: string, dirRoot: string, split: string, year: int)
      modifies this
      ensures calls == old(calls) + [PascalVoc(name, dirRoot, split, year)]
      ensures metadata == old(metadata)
    {
      calls := calls + [PascalVoc(name, dirRoot, split, year)];
    }

    /** `MetadataCatalog.get(name)`: the record, created empty if absent. */
    method GetMetadata(name: string) returns (record: Metadata)
      modifies this
      ensures record == RecordOf(old(metadata), name)
      ensures metadata == Touch(old(metadata), name) && calls == old(calls)
    {
      if name !in metadata {
        metadata := metadata[name := map[]];
      }
      record := metadata[name];
    }

    /** `MetadataCatalog.get(name).attr = value`. */
    method SetMetadata(name: string, attr: string, value: string)
      modifies this
      ensures metadata == SetAttr(old(metadata), name, attr, value) && calls == old(calls)
    {
      var record := GetMetadata(name);
      metadata := metadata[name := record[attr := value]];
    }

    /** `register_coco_instances(name, metadata, json_file, image_root)`; the
        entry point records the annotation file and image root in the
        dataset's metadata, which the panoptic routine reads back. */
    method RegisterCocoInstances(name: string, metadataKey: string, jsonFile: string, imageRoot: string)
      modifies this
      ensures calls == old(calls) + [CocoInstances(name, metadataKey, jsonFile, imageRoot)]
      ensures metadata == RecordRegistration(old(metadata), CocoInstances(name, metadataKey, jsonFile, imageRoot))
      ensures name in metadata && metadata[name][JsonFileAttr] == jsonFile && metadata[name][ImageRootAttr] == imageRoot
    {
      calls := calls + [CocoInstances(name, metadataKey, jsonFile, imageRoot)];
      SetMetadata(name, JsonFileAttr, jsonFile);
      SetMetadata(name, ImageRootAttr, imageRoot);
    }

    /** `register_coco_panoptic_separated(...)`. */
    method RegisterCocoPanopticSeparated(name: string, metadataKey: string, imageRoot: string, panopticRoot: string,
                                         panopticJson: string, semanticRoot: string, instancesJson: string)
      modifies this
      ensures calls == old(calls) + [CocoPanopticSeparated(name, metadataKey, imageRoot, panopticRoot,
                                                           panopticJson, semanticRoot, instancesJson)]
      ensures metadata == old(metadata)
    {
      calls := calls + [CocoPanopticSeparated(name, metadataKey, imageRoot, panopticRoot,
                                              panopticJson, semanticRoot, instancesJson)];
    }

    /** `register_coco_panoptic(...)`. */
    method RegisterCocoPanoptic(name: string, metadataKey: string, imageRoot: string, panopticRoot: string,
                                panopticJson: string, instancesJson: string)
      modifies this
      ensures calls == old(calls) + [CocoPanoptic(name, metadataKey, imageRoot, panopticRoot, panopticJson, instancesJson)]
      ensures metadata == old(metadata)
    {
      calls := calls + [CocoPanoptic(name, metadataKey, imageRoot, panopticRoot, panopticJson, instancesJson)];
    }

    // ---- The builtin routines ----

    /** Registers every Pascal VOC split and tags it with the Pascal VOC evaluator. */
    method RegisterAllPascalVoc(root: string)
      modifies this
      ensures calls == old(calls) + VocPlan(root, VocSplits)
      ensures metadata == VocMetadata(old(metadata), VocSplits)
    {
      ghost var c0, m0 := calls, metadata;
      var i := 0;
      while i < |VocSplits|
        invariant 0 <= i <= |VocSplits|
        invariant calls == c0 + VocPlan(root, VocSplits[..i])
        invariant metadata == VocMetadata(m0, VocSplits[..i])
      {
        var s := VocSplits[i];
        var year := if Contains(s.name, "2007") then 2007 else 2012;
        RegisterPascalVoc(s.name, Join(root, s.dirname), s.split, year);
        SetMetadata(s.name, EvaluatorTypeAttr, PascalVocEvaluator);
        VocPlanSnoc(root, VocSplits, i);
        VocMetadataSnoc(m0, VocSplits, i);
        i := i + 1;
      }
      assert VocSplits[..i] == VocSplits;
    }

    /** Registers every split of a flat COCO-style table as instances. */
    method RegisterInstanceTable(root: string, rule: MetadataKeyRule, splits: seq<CocoSplit>)
      modifies this
      ensures calls == old(calls) + InstancePlan(root, rule, splits)
      ensures metadata == RecordAll(old(metadata), InstancePlan(root, rule, splits))
    {
      ghost var c0, m0 := calls, metadata;
      var i := 0;
      while i < |splits|
        invariant 0 <= i <= |splits|
        invariant calls == c0 + InstancePlan(root, rule, splits[..i])
        invariant metadata == RecordAll(m0, InstancePlan(root, rule, splits[..i]))
      {
        var s := splits[i];
        ghost var done := InstancePlan(root, rule, splits[..i]);
        ghost var r := InstanceRegistration(root, rule, s);
        var jsonFile := if !Contains(s.jsonFile, UriMarker) then Join(root, s.jsonFile) else s.jsonFile;
        RegisterCocoInstances(s.key, MetadataKeyOf(rule, s), jsonFile, Join(root, s.imageRoot));
        InstancePlanSnoc(root, rule, splits, i);
        RecordAllSnoc(m0, done, r);
        AppendAssoc(c0, done, [r]);
        i := i + 1;
      }
      assert splits[..i] == splits;
    }

    /** Registers every split of a two-level (family, split) table, keyed by
        family or by split. */
    method RegisterFamilyTable(root: string, keyByFamily: bool, families: seq<Family>)
      modifies this
      ensures calls == old(calls) + FamiliesPlan(root, keyByFamily, families)
      ensures metadata == RecordAll(old(metadata), FamiliesPlan(root, keyByFamily, families))
    {
      ghost var c0, m0 := calls, metadata;
      var i := 0;
      while i < |families|
        invariant 0 <= i <= |families|
        invariant calls == c0 + FamiliesPlan(root, keyByFamily, families[..i])
        invariant metadata == RecordAll(m0, FamiliesPlan(root, keyByFamily, families[..i]))
      {
        var f := families[i];
        ghost var before := FamiliesPlan(root, keyByFamily, families[..i]);
        ghost var plan := InstancePlan(root, FamilyRule(keyByFamily, f), f.splits);
        FamiliesPlanSnoc(m0, root, keyByFamily, families, i);
        RegisterInstanceTable(root, FamilyRule(keyByFamily, f), f.splits);
        AppendAssoc(c0, before, plan);
        i := i + 1;
      }
      assert families[..i] == families;
    }

    /** The web (Flickr) family: each split passes its own key as metadata key. */
    method RegisterAllWeb(root: string)
      modifies this
      ensures calls == old(calls) + WebPlan(root)
      ensures metadata == RecordAll(old(metadata), WebPlan(root))
    {
      RegisterFamilyTable(root, false, WebFamilies);
    }

    /** The VOC pseudo-ground-truth family: each split passes its family's key. */
    method RegisterAllVocPgt(root: string)
      modifies this
      ensures calls == old(calls) + VocPgtPlan(root)
      ensures metadata == RecordAll(old(metadata), VocPgtPlan(root))
    {
      RegisterFamilyTable(root, true, VocPgtFamilies);
    }

    /** For each panoptic split, a separated and a standard registration over
        the image root and annotation file recorded for its paired instance
        split. Stops at the first split whose paired record lacks them,
        leaving that record created but empty of them. */
    method RegisterPanopticTable(root: string, ps: seq<PanopticSplit>) returns (outcome: Outcome)
      modifies this
      ensures var run := PanopticPlan(root, old(metadata), ps);
        && calls == old(calls) + run.calls
        && (run.Completed? ==> outcome == Pass && metadata == old(metadata))
        && (run.Stopped? ==> outcome == MissingPairedMetadata(run.missing) && metadata == Touch(old(metadata), run.missing))
    {
      ghost var c0, m := calls, metadata;
      var i := 0;
      while i < |ps|
        invariant 0 <= i <= |ps| && metadata == m
        invariant PanopticPlan(root, m, ps[..i]).Completed?
        invariant calls == c0 + PanopticPlan(root, m, ps[..i]).calls
      {
        var p := ps[i];
        ghost var done := PanopticPlan(root, m, ps[..i]).calls;
        PanopticPlanStep(root, m, ps, i);
        var instancesName := Replace(p.prefix, "_panoptic", "_instance");
        var record := GetMetadata(instancesName);
        if !(ImageRootAttr in record && JsonFileAttr in record) {
          outcome := MissingPairedMetadata(instancesName);
          PanopticPlanKeepsStop(root, m, ps, i + 1);
          return;
        }
        var imageRoot, instancesJson := record[ImageRootAttr], record[JsonFileAttr];
        RegisterCocoPanopticSeparated(p.prefix, PanopticSeparatedMetadataKey, imageRoot, Join(root, p.panopticRoot),
                                      Join(root, p.panopticJson), Join(root, p.semanticRoot), instancesJson);
        RegisterCocoPanoptic(p.prefix, PanopticStandardMetadataKey, imageRoot, Join(root, p.panopticRoot),
                             Join(root, p.panopticJson), instancesJson);
        AppendAssoc(c0, done, PanopticRegistrations(root, imageRoot, instancesJson, p));
        i := i + 1;
      }
      assert ps[..i] == ps;
      outcome := Pass;
    }

    /** The SBD instance splits, then the SBD panoptic splits paired with them. */
    method RegisterAllVocSbd(root: string) returns (outcome: Outcome)
      modifies this
      ensures var m := RecordAll(old(metadata), VocSbdInstancePlan(root));
        var run := PanopticPlan(root, m, VocSbdPanopticSplits);
        && calls == old(calls) + VocSbdInstancePlan(root) + run.calls
        && (run.Completed? ==> outcome == Pass && metadata == m)
        && (run.Stopped? ==> outcome == MissingPairedMetadata(run.missing) && metadata == Touch(m, run.missing))
    {
      RegisterInstanceTable(root, FixedKey(VocSbdMetadataKey), VocSbdSplits);
      outcome := RegisterPanopticTable(root, VocSbdPanopticSplits);
    }

    /** The VOC detection splits kept for visualisation. */
    method RegisterAllVocJson(root: string)
      modifies this
      ensures calls == old(calls) + VocJsonPlan(root)
      ensures metadata == RecordAll(old(metadata), VocJsonPlan(root))
    {
      RegisterInstanceTable(root, FixedKey(VocJsonMetadataKey), VocJsonSplits);
    }

    /** The module-load sequence: the dataset root from the environment
        variable (absent: "datasets"), then the five routines in their fixed
        order with that root. The SBD routine never stops, whatever the
        catalogs held before. */
    method RunBootstrap(env: Option<string>) returns (outcome: Outcome)
      modifies this
      ensures outcome == Pass
      ensures calls == old(calls) + Bootstrap.Calls(DatasetRoot(env))
      ensures metadata == Bootstrap.MetadataAfter(old(metadata), DatasetRoot(env))
    {
      var root := DatasetRoot(env);
      ghost var c0, m0 := calls, metadata;
      ghost var voc, web, pgt := VocPlan(root, VocSplits), WebPlan(root), VocPgtPlan(root);
      ghost var sbd, pan, json := VocSbdInstancePlan(root), Bootstrap.VocSbdPanopticPlan(root), VocJsonPlan(root);
      RegisterAllPascalVoc(root);
      RegisterAllWeb(root);
      AppendAssoc(c0, voc, web);
      RegisterAllVocPgt(root);
      AppendAssoc(c0, voc + web, pgt);
      ghost var m3 := metadata;
      Bootstrap.VocSbdPanopticCompletes(root, m3);
      outcome := RegisterAllVocSbd(root);
      AppendAssoc(c0, voc + web + pgt, sbd);
      AppendAssoc(c0, voc + web + pgt + sbd, pan);
      RegisterAllVocJson(root);
      AppendAssoc(c0, voc + web + pgt + sbd + pan, json);
      Bootstrap.BootstrapMetadataSteps(m0, root);
    }
  }
}
