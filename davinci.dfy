/**
 * `load_props` and `vendor_load_properties` of init/init_davinci.cpp: the
 * boot-time rewrite of the device identity for the regional variants of the
 * davinci device, as a pure description of the writes in order
 * (`ProfileWrites`) and the methods that perform them on a store.
 */
module Davinci {
  import opened Wrappers
  import opened Tables
  import opened Names
  import opened Store

  /** The write one call of the `ro_prop_override` lambda makes: `property_override` with `add` left at true. */
  function RoWrite(source: Option<string>, prop: string, value: string, product: bool): (r: Write)
  {
    Write(PropName(source, prop, product), value, true)
  }

  /** Product codename of a variant. */
  function ProductFor(isIn: bool): (r: string)
  {
    if isIn then Products[1] else Products[0]
  }

  /** Build fingerprint of a variant: the Indian one wins over the 9T one. */
  function FingerprintFor(is9t: bool, isIn: bool): (r: string)
  {
    if isIn then BuildFingerprint[2] else if is9t then BuildFingerprint[1] else BuildFingerprint[0]
  }

  /** Build description of a variant. */
  function DescriptionFor(is9t: bool, isIn: bool): (r: string)
  {
    if isIn then BuildDescription[2] else if is9t then BuildDescription[1] else BuildDescription[0]
  }

  /**
   * The five writes of one iteration of the loop over `RO_PROP_SOURCES`:
   * device, model and name under `ro.product.<source>`, then the
   * fingerprint under `ro.<source>build.` and again under the bare `ro.build.`.
   */
  function SourceWrites(source: Option<string>, model: string, product: string, fingerprint: string): (r: seq<Write>)
  {
    [ RoWrite(source, "device", product, true),
      RoWrite(source, "model", model, true),
      RoWrite(source, "name", product, true),
      RoWrite(source, "fingerprint", fingerprint, false),
      RoWrite(None, "fingerprint", fingerprint, false) ]
  }

  /** The writes of the first `n` iterations of the loop over `RO_PROP_SOURCES`. */
  function SourcesWrites(n: nat, model: string, product: string, fingerprint: string): (r: seq<Write>)
    requires n <= |RoPropSources|
  {
    if n == 0 then []
    else SourcesWrites(n - 1, model, product, fingerprint) + SourceWrites(RoPropSources[n - 1], model, product, fingerprint)
  }

  /**
   * Description, hardware SKU, product and client-id writes that follow the
   * loop; `description` is the variant's build description.
   */
  function IdentityWrites(model: string, description: string, is9t: bool, isIn: bool): (r: seq<Write>)
  {
    (if !isIn then
       [ RoWrite(None, "description", description, false),
         Write("ro.boot.product.hardware.sku", Products[0], true) ]
     else
       [ RoWrite(None, "description", description, false) ])
    + [ RoWrite(None, "product", model, false) ]
    + (if is9t then
         [ RoWrite(None, "com.google.clientidbase", ClientId[0], false) ]
       else if isIn then
         [ RoWrite(None, "com.google.clientidbase", ClientId[0], false),
           RoWrite(None, "com.google.clientidbase.ms", ClientId[1], false) ]
       else [])
  }

  /** The writes of the first `n` rounds of the index loop over `prop_key`: each writes a key with its `prop_val` value and `add` true. */
  function TableWrites(n: nat): (r: seq<Write>)
    requires n <= PropCount
  {
    PropTablesShape();
    if n == 0 then []
    else TableWrites(n - 1) + [Write(PropKey[n - 1].value, PropVal[n - 1].value, true)]
  }

  /**
   * The twelve `ro_prop_override(nullptr, "<key>", ..., false)` calls, which
   * produce `ro.build.<key>` names, then the two `vendor.boot.*` writes.
   */
  function LockStateWrites(): (r: seq<Write>)
  {
    [ RoWrite(None, "ro.boot.vbmeta.device_state", "locked", false),
      RoWrite(None, "ro.boot.verifiedbootstate", "green", false),
      RoWrite(None, "ro.boot.flash.locked", "1", false),
      RoWrite(None, "ro.boot.veritymode", "enforcing", false),
      RoWrite(None, "ro.boot.warranty_bit", "0", false),
      RoWrite(None, "ro.warranty_bit", "0", false),
      RoWrite(None, "ro.debuggable", "0", false),
      RoWrite(None, "ro.secure", "1", false),
      RoWrite(None, "ro.build.type", "user", false),
      RoWrite(None, "ro.build.tags", "release-keys", false),
      RoWrite(None, "ro.vendor.boot.warranty_bit", "0", false),
      RoWrite(None, "ro.vendor.warranty_bit", "0", false),
      Write("vendor.boot.vbmeta.device_state", "locked", true),
      Write("vendor.boot.verifiedbootstate", "green", true) ]
  }

  const SecurityPatchKey: string := "ro.build.version.security_patch"

  /** The final `property_override_new`: update-only. */
  const SecurityPatchWrite: Write := Write(SecurityPatchKey, "2021-01-01", false)

  /** Everything `load_props` writes after the loop over the prefixes. */
  function TailWrites(model: string, is9t: bool, isIn: bool): (r: seq<Write>)
  {
    IdentityWrites(model, DescriptionFor(is9t, isIn), is9t, isIn) + (TableWrites(PropCount) + (LockStateWrites() + [SecurityPatchWrite]))
  }

  /** Every write attempt of `load_props(model, is_9t, is_in)`, in the order the source makes them. */
  function ProfileWrites(model: string, is9t: bool, isIn: bool): (r: seq<Write>)
  {
    SourcesWrites(|RoPropSources|, model, ProductFor(isIn), FingerprintFor(is9t, isIn)) + TailWrites(model, is9t, isIn)
  }

  /**
   * The `ro_prop_override` lambda: append the pieces of the name one by one,
   * then `property_override` with `add` left at true.
   */
  method RoPropOverride(store: PropertyStore, source: Option<string>, prop: string, value: string, product: bool)
    modifies store
    ensures store.props == Step(old(store.props), RoWrite(source, prop, value, product), store.refused)
  {
    var propName := "ro.";
    if product {
      propName := propName + "product.";
    }
    assert propName == if product then "ro.product." else "ro.";
    if source.Some? {
      propName := propName + source.value;
    }
    assert propName == (if product then "ro.product." else "ro.") + SourceText(source);
    if !product {
      propName := propName + "build.";
    }
    propName := propName + prop;
    store.Override(propName, value, true);
  }

  /**
   * Iteration `i` of the loop over `RO_PROP_SOURCES`: the store held the
   * writes of the earlier iterations applied to `p0`, and now also this one's.
   */
  method LoadSourceIteration(store: PropertyStore, ghost p0: map<string, string>, i: nat, model: string, is9t: bool, isIn: bool)
    requires i < |RoPropSources|
    requires store.props == ApplyAll(p0, SourcesWrites(i, model, ProductFor(isIn), FingerprintFor(is9t, isIn)), store.refused)
    modifies store
    ensures store.props == ApplyAll(p0, SourcesWrites(i + 1, model, ProductFor(isIn), FingerprintFor(is9t, isIn)), store.refused)
  {
    var source := RoPropSources[i];
    ghost var mid := store.props;
    RoPropOverride(store, source, "device", if isIn then Products[1] else Products[0], true);
    RoPropOverride(store, source, "model", model, true);
    if !isIn {
      RoPropOverride(store, source, "name", Products[0], true);
      RoPropOverride(store, source, "fingerprint", if is9t then BuildFingerprint[1] else BuildFingerprint[0], false);
      RoPropOverride(store, None, "fingerprint", if is9t then BuildFingerprint[1] else BuildFingerprint[0], false);
    } else {
      RoPropOverride(store, source, "name", Products[1], true);
      RoPropOverride(store, source, "fingerprint", BuildFingerprint[2], false);
      RoPropOverride(store, None, "fingerprint", BuildFingerprint[2], false);
    }
    ApplyAllFive(mid, SourceWrites(source, model, ProductFor(isIn), FingerprintFor(is9t, isIn)), store.refused);
    SourcesWritesNext(p0, mid, store.props, i, model, ProductFor(isIn), FingerprintFor(is9t, isIn), store.refused);
  }

  /** One more iteration of the loop over `RO_PROP_SOURCES` extends its writes by that iteration's five. */
  lemma {:induction false} SourcesWritesNext(p0: map<string, string>, mid: map<string, string>, final: map<string, string>,
                                             i: nat, model: string, product: string, fingerprint: string, refused: set<string>)
    requires i < |RoPropSources|
    requires mid == ApplyAll(p0, SourcesWrites(i, model, product, fingerprint), refused)
    requires final == ApplyAll(mid, SourceWrites(RoPropSources[i], model, product, fingerprint), refused)
    ensures final == ApplyAll(p0, SourcesWrites(i + 1, model, product, fingerprint), refused)
  {
    ApplyAllAppend(p0, SourcesWrites(i, model, product, fingerprint), SourceWrites(RoPropSources[i], model, product, fingerprint), refused);
  }

  /** The loop over `RO_PROP_SOURCES` at the start of `load_props`. */
  method LoadSourceProps(store: PropertyStore, model: string, is9t: bool, isIn: bool)
    modifies store
    ensures store.props == ApplyAll(old(store.props), SourcesWrites(|RoPropSources|, model, ProductFor(isIn), FingerprintFor(is9t, isIn)), store.refused)
  {
    ghost var p0 := store.props;
    for i := 0 to |RoPropSources|
      invariant store.props == ApplyAll(p0, SourcesWrites(i, model, ProductFor(isIn), FingerprintFor(is9t, isIn)), store.refused)
    {
      LoadSourceIteration(store, p0, i, model, is9t, isIn);
    }
  }

  /** Description, SKU, product and client-id writes after the loop. */
  method LoadIdentityProps(store: PropertyStore, model: string, is9t: bool, isIn: bool)
    modifies store
    ensures store.props == ApplyAll(old(store.props), IdentityWrites(model, DescriptionFor(is9t, isIn), is9t, isIn), store.refused)
  {
    ghost var p0 := store.props;
    ghost var w := IdentityWrites(model, DescriptionFor(is9t, isIn), is9t, isIn);
    ghost var k := 0;
    if !isIn {
      RoPropOverride(store, None, "description", if is9t then BuildDescription[1] else BuildDescription[0], false);
      ApplyAllTake(p0, w, 0, store.refused);
      store.Override("ro.boot.product.hardware.sku", Products[0], true);
      ApplyAllTake(p0, w, 1, store.refused);
      k := 2;
    } else {
      RoPropOverride(store, None, "description", BuildDescription[2], false);
      ApplyAllTake(p0, w, 0, store.refused);
      k := 1;
    }
    RoPropOverride(store, None, "product", model, false);
    ApplyAllTake(p0, w, k, store.refused);
    k := k + 1;
    if is9t {
      RoPropOverride(store, None, "com.google.clientidbase", ClientId[0], false);
      ApplyAllTake(p0, w, k, store.refused);
      k := k + 1;
    } else if isIn {
      RoPropOverride(store, None, "com.google.clientidbase", ClientId[0], false);
      ApplyAllTake(p0, w, k, store.refused);
      RoPropOverride(store, None, "com.google.clientidbase.ms", ClientId[1], false);
      ApplyAllTake(p0, w, k + 1, store.refused);
      k := k + 2;
    }
    assert w[..k] == w;
  }

  /**
   * The index loop over `prop_key` that stops at its null entry and writes
   * each pair with `add` true; it stops after `PropCount` entries.
   */
  method LoadTableProps(store: PropertyStore)
    modifies store
    ensures store.props == ApplyAll(old(store.props), TableWrites(PropCount), store.refused)
  {
    PropTablesShape();
    ghost var p0 := store.props;
    var i := 0;
    while PropKey[i].Some?
      invariant 0 <= i <= PropCount
      invariant store.props == ApplyAll(p0, TableWrites(i), store.refused)
      decreases PropCount - i
    {
      store.Override(PropKey[i].value, PropVal[i].value, true);
      ApplyAllSnoc(p0, TableWrites(i), Write(PropKey[i].value, PropVal[i].value, true), store.refused);
      i := i + 1;
    }
  }

  /** The fourteen verified-boot and lock-state writes. */
  method LoadLockStateProps(store: PropertyStore)
    modifies store
    ensures store.props == ApplyAll(old(store.props), LockStateWrites(), store.refused)
  {
    ghost var p0 := store.props;
    ghost var w := LockStateWrites();
    RoPropOverride(store, None, "ro.boot.vbmeta.device_state", "locked", false);
    ApplyAllTake(p0, w, 0, store.refused);
    RoPropOverride(store, None, "ro.boot.verifiedbootstate", "green", false);
    ApplyAllTake(p0, w, 1, store.refused);
    RoPropOverride(store, None, "ro.boot.flash.locked", "1", false);
    ApplyAllTake(p0, w, 2, store.refused);
    RoPropOverride(store, None, "ro.boot.veritymode", "enforcing", false);
    ApplyAllTake(p0, w, 3, store.refused);
    RoPropOverride(store, None, "ro.boot.warranty_bit", "0", false);
    ApplyAllTake(p0, w, 4, store.refused);
    RoPropOverride(store, None, "ro.warranty_bit", "0", false);
    ApplyAllTake(p0, w, 5, store.refused);
    RoPropOverride(store, None, "ro.debuggable", "0", false);
    ApplyAllTake(p0, w, 6, store.refused);
    RoPropOverride(store, None, "ro.secure", "1", false);
    ApplyAllTake(p0, w, 7, store.refused);
    RoPropOverride(store, None, "ro.build.type", "user", false);
    ApplyAllTake(p0, w, 8, store.refused);
    RoPropOverride(store, None, "ro.build.tags", "release-keys", false);
    ApplyAllTake(p0, w, 9, store.refused);
    RoPropOverride(store, None, "ro.vendor.boot.warranty_bit", "0", false);
    ApplyAllTake(p0, w, 10, store.refused);
    RoPropOverride(store, None, "ro.vendor.warranty_bit", "0", false);
    ApplyAllTake(p0, w, 11, store.refused);
    store.Override("vendor.boot.vbmeta.device_state", "locked", true);
    ApplyAllTake(p0, w, 12, store.refused);
    store.Override("vendor.boot.verifiedbootstate", "green", true);
    ApplyAllTake(p0, w, 13, store.refused);
    assert w[..14] == w;
  }

  /** `load_props(model, is_9t, is_in)`: every write attempt of the profile, in order. */
  method LoadProps(store: PropertyStore, model: string, is9t: bool, isIn: bool)
    modifies store
    ensures store.props == ApplyAll(old(store.props), ProfileWrites(model, is9t, isIn), store.refused)
  {
    ghost var p0 := store.props;
    LoadSourceProps(store, model, is9t, isIn);
    ghost var p1 := store.props;
    LoadIdentityProps(store, model, is9t, isIn);
    ghost var p2 := store.props;
    LoadTableProps(store);
    ghost var p3 := store.props;
    LoadLockStateProps(store);
    ghost var p4 := store.props;
    store.OverrideNew(SecurityPatchKey, "2021-01-01");
    ghost var sources := SourcesWrites(|RoPropSources|, model, ProductFor(isIn), FingerprintFor(is9t, isIn));
    ghost var identity := IdentityWrites(model, DescriptionFor(is9t, isIn), is9t, isIn);
    ghost var table := TableWrites(PropCount);
    assert ApplyAll(p4, [SecurityPatchWrite], store.refused) == store.props;
    ApplyAllAppend(p3, LockStateWrites(), [SecurityPatchWrite], store.refused);
    ApplyAllAppend(p2, table, LockStateWrites() + [SecurityPatchWrite], store.refused);
    ApplyAllAppend(p1, identity, table + (LockStateWrites() + [SecurityPatchWrite]), store.refused);
    ApplyAllAppend(p0, sources, identity + (table + (LockStateWrites() + [SecurityPatchWrite])), store.refused);
  }

  /** The regions `ro.boot.hwc` may name that select a profile. */
  datatype Region = Cn | India | Global

  /** The value of `ro.boot.hwc` that names each region. */
  function RegionCode(r: Region): (code: string)
  {
    match r
    case Cn => "CN"
    case India => "INDIA"
    case Global => "GLOBAL"
  }

  /** Exact comparison against the three recognised codes; anything else selects nothing. */
  function ParseRegion(code: string): (r: Option<Region>)
    ensures r.Some? ==> RegionCode(r.value) == code
    ensures r.None? ==> forall g: Region :: RegionCode(g) != code
  {
    if code == "CN" then Some(Cn)
    else if code == "INDIA" then Some(India)
    else if code == "GLOBAL" then Some(Global)
    else None
  }

  /** The arguments of the `load_props` call a region selects. */
  datatype Selection = Selection(model: string, is9t: bool, isIn: bool)

  function SelectionFor(r: Region): (s: Selection)
  {
    match r
    case Cn => Selection(Devices[1], false, false)
    case India => Selection(Devices[1], false, true)
    case Global => Selection(Devices[0], true, false)
  }

  /** The region-to-profile choice of `vendor_load_properties`. */
  function SelectProfile(code: string): (s: Option<Selection>)
    ensures s.Some? <==> code in {"CN", "INDIA", "GLOBAL"}
    ensures s.Some? ==> !(s.value.is9t && s.value.isIn)
    ensures s.Some? ==> (s.value.is9t <==> code == "GLOBAL") && (s.value.isIn <==> code == "INDIA")
    ensures s.Some? ==> s.value.model == if s.value.is9t then "Mi 9T" else "Redmi K20"
  {
    match ParseRegion(code)
    case None => None
    case Some(r) => Some(SelectionFor(r))
  }

  /** `vendor_load_properties`, with the value of `ro.boot.hwc` passed in as `region`. */
  method VendorLoadProperties(store: PropertyStore, region: string)
    modifies store
    ensures SelectProfile(region).None? ==> store.props == old(store.props)
    ensures SelectProfile(region).Some? ==>
      var s := SelectProfile(region).value;
      store.props == ApplyAll(old(store.props), ProfileWrites(s.model, s.is9t, s.isIn), store.refused)
  {
    match SelectProfile(region)
    case None =>
    case Some(s) =>
      LoadProps(store, s.model, s.is9t, s.isIn);
  }
}
