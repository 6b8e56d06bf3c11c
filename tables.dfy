/**
 * The constant tables of init/init_davinci.cpp. A C array of C strings
 * becomes a sequence; a `nullptr` entry becomes `None`.
 */
module Tables {
  import opened Wrappers

  /** `prop_key`: the shared lock-state keys, terminated by a null entry. */
  const PropKey: seq<Option<string>> :=
    [ Some("ro.boot.vbmeta.device_state"), Some("ro.boot.verifiedbootstate"), Some("ro.boot.flash.locked"),
      Some("ro.boot.veritymode"), Some("ro.boot.warranty_bit"), Some("ro.warranty_bit"),
      Some("ro.debuggable"), Some("ro.secure"), Some("ro.build.type"),
      Some("ro.build.tags"), Some("ro.vendor.boot.warranty_bit"), Some("ro.vendor.warranty_bit"),
      Some("vendor.boot.vbmeta.device_state"), Some("vendor.boot.verifiedbootstate"),
      None ]

  /** `prop_val`: the value written for the key at the same index of `prop_key`. */
  const PropVal: seq<Option<string>> :=
    [ Some("locked"), Some("green"), Some("1"),
      Some("enforcing"), Some("0"), Some("0"),
      Some("0"), Some("1"), Some("user"),
      Some("release-keys"), Some("0"), Some("0"),
      Some("locked"), Some("green"),
      None ]

  /** `RO_PROP_SOURCES`: the partition prefixes; the leading `nullptr` means "no prefix". */
  const RoPropSources: seq<Option<string>> :=
    [ None, Some("product."), Some("product_services."), Some("odm."),
      Some("vendor."), Some("system."), Some("bootimage.") ]

  /** `PRODUCTS`: index 0 for the global and Chinese variants, 1 for the Indian one. */
  const Products: seq<string> := ["davinci", "davincin"]

  /** `DEVICES`: the marketing names. */
  const Devices: seq<string> := ["Mi 9T", "Redmi K20"]

  const BuildDescription: seq<string> :=
    [ "davinci_eea-user 10 QKQ1.190825.002 V12.0.4.0.QFJEUXM release-keys",
      "davinci_eea-user 10 QKQ1.190825.002 V12.0.4.0.QFJEUXM release-keys",
      "davinciin-user 10 QKQ1.190825.002 V12.0.0.2.QFJINXM release-keys" ]

  /** `BUILD_FINGERPRINT`: each C literal is the concatenation of two adjacent string literals. */
  const BuildFingerprint: seq<string> :=
    [ "Xiaomi/davinci/davinci:10/QKQ1.190825.002/V12.0.3.0.QFJCNXM:user/release-keys",
      "Xiaomi/davinci_eea/davinci:10/QKQ1.190825.002/V12.0.4.0.QFJEUXM:user/release-keys",
      "Xiaomi/davinciin/davinciin:10/QKQ1.190825.002/V12.0.0.2.QFJINXM:user/release-keys" ]

  const ClientId: seq<string> := ["android-xiaomi", "android-xiaomi-rev1"]

  /**
   * The index of the first null entry at or after `from` (or `|t|` when there
   * is none): an index loop from `from` that stops at the first null entry ends there.
   */
  function SentinelIndex(t: seq<Option<string>>, from: nat): (n: nat)
    requires from <= |t|
    ensures from <= n <= |t|
    ensures forall i :: from <= i < n ==> t[i].Some?
    ensures n < |t| ==> t[n].None?
    decreases |t| - from
  {
    if from == |t| || t[from].None? then from else SentinelIndex(t, from + 1)
  }

  /** The null entry that ends a table is found exactly where it is. */
  lemma {:induction false} SentinelAt(t: seq<Option<string>>, from: nat, n: nat)
    requires from <= n < |t| && t[n].None?
    requires forall i :: from <= i < n ==> t[i].Some?
    ensures SentinelIndex(t, from) == n
    decreases n - from
  {
    if from < n {
      SentinelAt(t, from + 1, n);
    }
  }

  /** The number of entries of `prop_key` and `prop_val` before their terminators. */
  const PropCount: nat := 14

  /** `prop_key` and `prop_val` are parallel: both hold `PropCount` entries before their terminator. */
  lemma PropTablesAligned()
    ensures |PropKey| == |PropVal| == PropCount + 1
    ensures SentinelIndex(PropKey, 0) == PropCount && SentinelIndex(PropVal, 0) == PropCount
  {
    forall i | 0 <= i < 14 ensures PropKey[i].Some? && PropVal[i].Some? {
      assert i == 0 || i == 1 || i == 2 || i == 3 || i == 4 || i == 5 || i == 6
          || i == 7 || i == 8 || i == 9 || i == 10 || i == 11 || i == 12 || i == 13;
    }
    SentinelAt(PropKey, 0, 14);
    SentinelAt(PropVal, 0, 14);
  }

  /** The entries the copy loop reads, by index. */
  lemma PropTablesShape()
    ensures |PropKey| == |PropVal| == PropCount + 1
    ensures PropKey[PropCount].None? && PropVal[PropCount].None?
    ensures forall i :: 0 <= i < PropCount ==> PropKey[i].Some? && PropVal[i].Some?
  {
    PropTablesAligned();
  }

  /** No key occurs twice among the first `n` entries of `keys`. */
  ghost predicate DistinctKeys(keys: seq<Option<string>>, n: nat)
    requires n <= |keys|
  {
    forall i, j :: 0 <= i < j < n ==> keys[i] != keys[j]
  }

  /** Every shared lock-state key appears once in `prop_key`. */
  lemma PropKeysDistinct()
    ensures DistinctKeys(PropKey, 14)
  {
    forall i, j | 0 <= i < j < 14 ensures PropKey[i] != PropKey[j] {
      assert i == 0 || i == 1 || i == 2 || i == 3 || i == 4 || i == 5 || i == 6
          || i == 7 || i == 8 || i == 9 || i == 10 || i == 11 || i == 12;
      assert j == 1 || j == 2 || j == 3 || j == 4 || j == 5 || j == 6 || j == 7
          || j == 8 || j == 9 || j == 10 || j == 11 || j == 12 || j == 13;
    }
  }
}
