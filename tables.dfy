/** The five static split tables of the builtin registrations, in the order
    in which the registration routines iterate them (Python dictionaries keep
    insertion order). Each entry holds path fragments relative to the dataset
    root. */
module Tables {

  /** A Pascal VOC split: dataset name, directory under the root, split file. */
  datatype VocSplit = VocSplit(name: string, dirname: string, split: string)

  /** A COCO-style split: dataset name, image directory and annotation JSON. */
  datatype CocoSplit = CocoSplit(key: string, imageRoot: string, jsonFile: string)

  /** A named group of COCO-style splits (the outer dictionary of a family). */
  datatype Family = Family(name: string, splits: seq<CocoSplit>)

  /** A panoptic split: name prefix, panoptic PNG directory, panoptic JSON and
      semantic ("stuff") PNG directory. */
  datatype PanopticSplit = PanopticSplit(prefix: string, panopticRoot: string, panopticJson: string, semanticRoot: string)

  const VocSplits: seq<VocSplit> := [
    VocSplit("voc_2007_trainval", "VOC2007", "trainval"),
    VocSplit("voc_2007_train", "VOC2007", "train"),
    VocSplit("voc_2007_val", "VOC2007", "val"),
    VocSplit("voc_2007_test", "VOC2007", "test"),
    VocSplit("voc_2012_trainval", "VOC2012", "trainval"),
    VocSplit("voc_2012_train", "VOC2012", "train"),
    VocSplit("voc_2012_val", "VOC2012", "val"),
    VocSplit("voc_2012_test", "VOC2012", "test")
  ]

  const WebFamilies: seq<Family> := [
    Family("flickr", [
      CocoSplit("flickr_voc", "flickr_voc/images", "flickr_voc/images_d2.json"),
      CocoSplit("flickr_coco", "flickr_coco/images", "flickr_coco/images_d2.json")
    ])
  ]

  const VocPgtFamilies: seq<Family> := [
    Family("voc_2007_pgt", [
      CocoSplit("voc_2007_train_pgt", "VOC2007/JPEGImages", "VOC2007/../results/VOC2007/Main/voc_2007_train_pgt.json"),
      CocoSplit("voc_2007_val_pgt", "VOC2007/JPEGImages", "VOC2007/../results/VOC2007/Main/voc_2007_val_pgt.json")
    ])
  ]

  const VocSbdSplits: seq<CocoSplit> := [
    CocoSplit("voc_2012_train_instance", "VOC_SBD/images", "VOC_SBD/annotations/voc_2012_train_instance.json"),
    CocoSplit("voc_2012_val_instance", "VOC_SBD/images", "VOC_SBD/annotations/voc_2012_val_instance.json"),
    CocoSplit("sbd_9118_instance", "VOC_SBD/images", "VOC_SBD/annotations/sbd_9118_instance.json"),
    CocoSplit("voc_2012_train_instance_pgt", "VOC_SBD/images", "VOC_SBD/annotations/voc_2012_train_instance_pgt.json"),
    CocoSplit("sbd_9118_instance_pgt", "VOC_SBD/images", "VOC_SBD/annotations/sbd_9118_instance_pgt.json")
  ]

  const VocSbdPanopticSplits: seq<PanopticSplit> := [
    PanopticSplit("voc_2012_train_panoptic", "VOC_SBD/annotations/panoptic",
                  "VOC_SBD/annotations/voc_2012_train_panoptic.json", "VOC_SBD/annotations/panoptic_stuff"),
    PanopticSplit("voc_2012_val_panoptic", "VOC_SBD/annotations/panoptic",
                  "VOC_SBD/annotations/voc_2012_val_panoptic.json", "VOC_SBD/annotations/panoptic_stuff"),
    PanopticSplit("sbd_9118_panoptic", "VOC_SBD/annotations/panoptic",
                  "VOC_SBD/annotations/sbd_9118_panoptic.json", "VOC_SBD/annotations/panoptic_stuff")
  ]

  const VocJsonSplits: seq<CocoSplit> := [
    CocoSplit("voc_2007_train_json", "VOC2007/JPEGImages/", "PASCAL_VOC/pascal_train2007_d2.json"),
    CocoSplit("voc_2007_val_json", "VOC2007/JPEGImages/", "PASCAL_VOC/pascal_val2007_d2.json"),
    CocoSplit("voc_2007_test_json", "VOC2007/JPEGImages/", "PASCAL_VOC/pascal_test2007_d2.json"),
    CocoSplit("voc_2012_train_json", "VOC2012/JPEGImages/", "PASCAL_VOC/pascal_train2012_d2.json"),
    CocoSplit("voc_2012_val_json", "VOC2012/JPEGImages/", "PASCAL_VOC/pascal_val2012_d2.json")
  ]

  /** The keys of a flat COCO-style table, in table order. */
  function Keys(splits: seq<CocoSplit>): (ks: seq<string>)
    ensures |ks| == |splits|
    ensures forall i :: 0 <= i < |splits| ==> ks[i] == splits[i].key
  {
    seq(|splits|, i requires 0 <= i < |splits| => splits[i].key)
  }

  lemma KeysSnoc(splits: seq<CocoSplit>)
    requires splits != []
    ensures Keys(splits) == Keys(splits[..|splits| - 1]) + [splits[|splits| - 1].key]
  {
    var a, b := Keys(splits), Keys(splits[..|splits| - 1]) + [splits[|splits| - 1].key];
    assert |a| == |b|;
    forall k | 0 <= k < |a| ensures a[k] == b[k] {
      if k < |splits| - 1 {
        assert splits[..|splits| - 1][k] == splits[k];
      }
    }
  }

  /** The split keys of every family, family by family. */
  function FamilyKeys(families: seq<Family>): seq<string>
  {
    if families == [] then []
    else FamilyKeys(families[..|families| - 1]) + Keys(families[|families| - 1].splits)
  }

  function VocNames(splits: seq<VocSplit>): (ns: seq<string>)
    ensures |ns| == |splits|
    ensures forall i :: 0 <= i < |splits| ==> ns[i] == splits[i].name
  {
    seq(|splits|, i requires 0 <= i < |splits| => splits[i].name)
  }

  lemma VocNamesSnoc(splits: seq<VocSplit>)
    requires splits != []
    ensures VocNames(splits) == VocNames(splits[..|splits| - 1]) + [splits[|splits| - 1].name]
  {
    var a, b := VocNames(splits), VocNames(splits[..|splits| - 1]) + [splits[|splits| - 1].name];
    assert |a| == |b|;
    forall k | 0 <= k < |a| ensures a[k] == b[k] {
      if k < |splits| - 1 {
        assert splits[..|splits| - 1][k] == splits[k];
      }
    }
  }

  predicate Distinct(names: seq<string>)
  {
    forall i, j :: 0 <= i < j < |names| ==> names[i] != names[j]
  }

  /** Every dataset name the Pascal VOC, web, PGT, SBD-instance and VOC-json
      tables register, in bootstrap order. */
  function TableNames(): seq<string>
  {
    VocNames(VocSplits) + FamilyKeys(WebFamilies) + FamilyKeys(VocPgtFamilies)
      + Keys(VocSbdSplits) + Keys(VocJsonSplits)
  }

  lemma VocNamesAre()
    ensures VocNames(VocSplits) == ["voc_2007_trainval", "voc_2007_train", "voc_2007_val", "voc_2007_test",
      "voc_2012_trainval", "voc_2012_train", "voc_2012_val", "voc_2012_test"]
  {
  }

  lemma FamilyKeysAre()
    ensures FamilyKeys(WebFamilies) == ["flickr_voc", "flickr_coco"]
    ensures FamilyKeys(VocPgtFamilies) == ["voc_2007_train_pgt", "voc_2007_val_pgt"]
  {
  }

  lemma FlatKeysAre()
    ensures Keys(VocSbdSplits) == ["voc_2012_train_instance", "voc_2012_val_instance", "sbd_9118_instance",
      "voc_2012_train_instance_pgt", "sbd_9118_instance_pgt"]
    ensures Keys(VocJsonSplits) == ["voc_2007_train_json", "voc_2007_val_json", "voc_2007_test_json",
      "voc_2012_train_json", "voc_2012_val_json"]
  {
  }

  lemma TableNamesAre()
    ensures TableNames() == AllNames()
  {
    VocNamesAre();
    FamilyKeysAre();
    FlatKeysAre();
  }

  /** The names of `TableNames`, written out. */
  function AllNames(): seq<string>
  {
    ["voc_2007_trainval", "voc_2007_train", "voc_2007_val", "voc_2007_test",
      "voc_2012_trainval", "voc_2012_train", "voc_2012_val", "voc_2012_test", "flickr_voc", "flickr_coco",
      "voc_2007_train_pgt", "voc_2007_val_pgt", "voc_2012_train_instance", "voc_2012_val_instance",
      "sbd_9118_instance", "voc_2012_train_instance_pgt", "sbd_9118_instance_pgt", "voc_2007_train_json",
      "voc_2007_val_json", "voc_2007_test_json", "voc_2012_train_json", "voc_2012_val_json"]
  }

  lemma AllNamesDistinct()
    ensures Distinct(AllNames())
  {
  }

  /** No name is registered twice by the tables. */
  lemma TableNamesDistinct()
    ensures |TableNames()| == 22 && Distinct(TableNames())
  {
    TableNamesAre();
    AllNamesDistinct();
  }
}
