/** Packaging generated worker source: every entry of a zip archive becomes
    one `binary_data` item of a config map, keyed by the entry's file name
    and holding the base 64 text of the entry's bytes. */
module Packager {
  import opened Base64

  /** One member of `zip.filelist`, with the bytes `zip.open(entry).read()` yields. */
  datatype ZipEntry = ZipEntry(filename: string, contents: seq<byte>)

  datatype ConfigMap = ConfigMap(name: string, binaryData: map<string, string>)

  const GeneratedSourceSuffix := "-generated-source"

  /** The deterministic name of a request's generated-code config map. */
  function ConfigMapName(requestId: string): (n: string)
    ensures |n| == |requestId| + |GeneratedSourceSuffix|
    ensures n[..|requestId|] == requestId && n[|requestId|..] == GeneratedSourceSuffix
  {
    requestId + GeneratedSourceSuffix
  }

  /** The dictionary after storing the entries in order: a later entry with
      the same file name overwrites an earlier one. */
  function BinaryData(entries: seq<ZipEntry>): map<string, string>
    decreases |entries|
  {
    if |entries| == 0 then map[]
    else
      var last := entries[|entries| - 1];
      BinaryData(entries[..|entries| - 1])[last.filename := Encode(last.contents)]
  }

  /** Entry `i` is the last one carrying its file name. */
  predicate LastWithName(entries: seq<ZipEntry>, i: int)
    requires 0 <= i < |entries|
  {
    forall j :: i < j < |entries| ==> entries[j].filename != entries[i].filename
  }

  /** Some entry carries the file name `name`. */
  predicate Named(entries: seq<ZipEntry>, name: string) {
    exists i :: 0 <= i < |entries| && entries[i].filename == name
  }

  lemma NamedSnoc(entries: seq<ZipEntry>, name: string)
    requires |entries| > 0
    ensures Named(entries, name) <==>
      Named(entries[..|entries| - 1], name) || entries[|entries| - 1].filename == name
  {
    var n := |entries| - 1;
    if Named(entries, name) && entries[n].filename != name {
      var i :| 0 <= i < |entries| && entries[i].filename == name;
      assert entries[..n][i] == entries[i];
    }
    if Named(entries[..n], name) {
      var i :| 0 <= i < n && entries[..n][i].filename == name;
      assert entries[i].filename == name;
    }
  }

  /** The keys are exactly the entries' file names. */
  lemma {:induction false} BinaryDataKeys(entries: seq<ZipEntry>, name: string)
    ensures name in BinaryData(entries) <==> Named(entries, name)
    decreases |entries|
  {
    if |entries| > 0 {
      var n := |entries| - 1;
      BinaryDataKeys(entries[..n], name);
      NamedSnoc(entries, name);
    }
  }

  /** Each file name maps to the encoding of the last entry that carries it. */
  lemma {:induction false} BinaryDataValue(entries: seq<ZipEntry>, i: int)
    requires 0 <= i < |entries| && LastWithName(entries, i)
    ensures entries[i].filename in BinaryData(entries)
    ensures BinaryData(entries)[entries[i].filename] == Encode(entries[i].contents)
    decreases |entries|
  {
    var n := |entries| - 1;
    if i < n {
      var init := entries[..n];
      assert entries[n].filename != entries[i].filename;
      assert init[i] == entries[i];
      assert LastWithName(init, i);
      BinaryDataValue(init, i);
    }
  }

  /** The loop of `create_configmap_from_zip` that fills the dictionary. */
  method PackEntries(entries: seq<ZipEntry>) returns (data: map<string, string>)
    ensures data == BinaryData(entries)
  {
    data := map[];
    var i := 0;
    while i < |entries|
      invariant 0 <= i <= |entries|
      invariant data == BinaryData(entries[..i])
    {
      var entry := entries[i];
      data := data[entry.filename := Encode(entry.contents)];
      i := i + 1;
      assert entries[..i][..i - 1] == entries[..i - 1];
    }
    assert entries[..i] == entries;
  }

  /** The config map built from an archive for a request. */
  function ConfigMapFromZip(entries: seq<ZipEntry>, requestId: string): (cm: ConfigMap)
    ensures cm.name == ConfigMapName(requestId)
    ensures forall i :: 0 <= i < |entries| ==> entries[i].filename in cm.binaryData
    ensures forall name :: name in cm.binaryData ==> Named(entries, name)
    ensures forall i :: 0 <= i < |entries| && LastWithName(entries, i) ==>
      cm.binaryData[entries[i].filename] == Encode(entries[i].contents)
  {
    var data := BinaryData(entries);
    assert forall i :: 0 <= i < |entries| ==> entries[i].filename in data by {
      forall i | 0 <= i < |entries| ensures entries[i].filename in data {
        BinaryDataKeys(entries, entries[i].filename);
      }
    }
    assert forall name :: name in data ==> Named(entries, name) by {
      forall name | name in data ensures Named(entries, name) {
        BinaryDataKeys(entries, name);
      }
    }
    assert forall i :: 0 <= i < |entries| && LastWithName(entries, i) ==> data[entries[i].filename] == Encode(entries[i].contents) by {
      forall i | 0 <= i < |entries| && LastWithName(entries, i)
        ensures data[entries[i].filename] == Encode(entries[i].contents)
      {
        BinaryDataValue(entries, i);
      }
    }
    ConfigMap(ConfigMapName(requestId), data)
  }
}
