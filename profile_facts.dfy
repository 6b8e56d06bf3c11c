/**
 * What `load_props` leaves in the property store, key by key. `Final` is the
 * store after every write attempt of a profile; each fact holds for keys the
 * platform does not refuse.
 */
module ProfileFacts {
  import opened Wrappers
  import opened Tables
  import opened Names
  import opened Store
  import opened Davinci

  /** The store after `load_props(model, is_9t, is_in)` ran on `m`. */
  function Final(m: map<string, string>, model: string, is9t: bool, isIn: bool, refused: set<string>): (r: map<string, string>)
  {
    ApplyAll(m, ProfileWrites(model, is9t, isIn), refused)
  }

  /** The names the lambda builds for the non-product family without a prefix. */
  lemma BuildName(x: string)
    ensures PropName(None, x, false) == "ro.build." + x
  {
    assert "ro." + "" + "build." == "ro.build.";
  }

  // ---------------------------------------------------------------------------
  // The loop over the prefixes.
  // ---------------------------------------------------------------------------

  /** Endings of the four names each iteration writes: "device", "model", "name", "fingerprint". */
  predicate SourceEnding(e: (char, char))
  {
    e == ('c', 'e') || e == ('e', 'l') || e == ('m', 'e') || e == ('n', 't')
  }

  /** The value an iteration writes under a name with ending `e`. */
  function SourceValue(e: (char, char), model: string, product: string, fingerprint: string): (r: string)
  {
    if e == ('e', 'l') then model else if e == ('n', 't') then fingerprint else product
  }

  /** Every write of one iteration may create its key, and its name's ending tells which value it writes. */
  lemma SourceWritesEntries(source: Option<string>, model: string, product: string, fingerprint: string)
    ensures forall w :: w in SourceWrites(source, model, product, fingerprint) ==>
      w.add && SourceEnding(Ending(w.key)) && w.value == SourceValue(Ending(w.key), model, product, fingerprint)
  {
    var t := SourceText(source);
    EndingOfAppend("ro.product." + t, "device");
    EndingOfAppend("ro.product." + t, "model");
    EndingOfAppend("ro.product." + t, "name");
    EndingOfAppend("ro." + t + "build.", "fingerprint");
    EndingOfAppend("ro." + "" + "build.", "fingerprint");
  }

  /** The same for every write of the loop over the prefixes. */
  lemma {:induction false} SourcesWritesEntries(n: nat, model: string, product: string, fingerprint: string)
    requires n <= |RoPropSources|
    ensures forall w :: w in SourcesWrites(n, model, product, fingerprint) ==>
      w.add && SourceEnding(Ending(w.key)) && w.value == SourceValue(Ending(w.key), model, product, fingerprint)
  {
    if n > 0 {
      SourcesWritesEntries(n - 1, model, product, fingerprint);
      SourceWritesEntries(RoPropSources[n - 1], model, product, fingerprint);
    }
  }

  /** The writes of iteration `j` are among the writes of the first `n` iterations. */
  lemma {:induction false} SourcesWritesContain(n: nat, j: nat, model: string, product: string, fingerprint: string)
    requires j < n <= |RoPropSources|
    ensures forall w :: w in SourceWrites(RoPropSources[j], model, product, fingerprint) ==>
      w in SourcesWrites(n, model, product, fingerprint)
  {
    if j < n - 1 {
      SourcesWritesContain(n - 1, j, model, product, fingerprint);
    }
  }

  // ---------------------------------------------------------------------------
  // The writes after the loop.
  // ---------------------------------------------------------------------------

  /** The keys and values of the copy loop, spelled out. */
  lemma TableNames()
    ensures TableWrites(PropCount) ==
      [ Write("ro.boot.vbmeta.device_state", "locked", true),
        Write("ro.boot.verifiedbootstate", "green", true),
        Write("ro.boot.flash.locked", "1", true),
        Write("ro.boot.veritymode", "enforcing", true),
        Write("ro.boot.warranty_bit", "0", true),
        Write("ro.warranty_bit", "0", true),
        Write("ro.debuggable", "0", true),
        Write("ro.secure", "1", true),
        Write("ro.build.type", "user", true),
        Write("ro.build.tags", "release-keys", true),
        Write("ro.vendor.boot.warranty_bit", "0", true),
        Write("ro.vendor.warranty_bit", "0", true),
        Write("vendor.boot.vbmeta.device_state", "locked", true),
        Write("vendor.boot.verifiedbootstate", "green", true) ]
  {
    TableWritesAt(PropCount);
  }

  /** The copy loop writes each `prop_key` entry with the `prop_val` entry at the same index. */
  lemma {:induction false} TableWritesAt(n: nat)
    requires n <= PropCount
    ensures forall i :: 0 <= i < PropCount ==> PropKey[i].Some? && PropVal[i].Some?
    ensures |TableWrites(n)| == n
    ensures forall i :: 0 <= i < n ==> TableWrites(n)[i] == Write(PropKey[i].value, PropVal[i].value, true)
  {
    PropTablesShape();
    if n > 0 {
      TableWritesAt(n - 1);
    }
  }

  /** Endings of the keys the copy loop and the lock-state block write. */
  predicate CopyEnding(e: (char, char))
  {
    e == ('t', 'e') || e == ('e', 'd') || e == ('d', 'e') || e == ('i', 't')
    || e == ('l', 'e') || e == ('r', 'e') || e == ('p', 'e') || e == ('g', 's')
  }

  /** Endings of the description, SKU, product and client-id keys. */
  predicate IdentityEnding(e: (char, char))
  {
    e == ('o', 'n') || e == ('k', 'u') || e == ('c', 't') || e == ('s', 'e') || e == ('m', 's')
  }

  /** The four families of endings are disjoint. */
  lemma EndingFamilies(e: (char, char))
    ensures IdentityEnding(e) ==> !SourceEnding(e) && !CopyEnding(e) && e != ('c', 'h')
    ensures SourceEnding(e) ==> !IdentityEnding(e) && !CopyEnding(e) && e != ('c', 'h')
    ensures e == ('c', 'h') ==> !SourceEnding(e) && !IdentityEnding(e) && !CopyEnding(e)
  {
  }

  lemma TableEndings()
    ensures forall i :: 0 <= i < PropCount ==> PropKey[i].Some? && PropVal[i].Some?
    ensures forall i :: 0 <= i < PropCount ==> CopyEnding(Ending(PropKey[i].value))
  {
    PropTablesShape();
    forall i | 0 <= i < PropCount ensures CopyEnding(Ending(PropKey[i].value)) {
      assert i == 0 || i == 1 || i == 2 || i == 3 || i == 4 || i == 5 || i == 6
          || i == 7 || i == 8 || i == 9 || i == 10 || i == 11 || i == 12 || i == 13;
    }
  }

  /**
   * The lock-state block repeats the first twelve entries of the copy loop
   * under "ro.build." (the lambda prepends it to names that already start
   * with "ro."), then writes the two `vendor.boot.*` entries verbatim.
   */
  lemma LockStateDoublesTable()
    ensures forall i :: 0 <= i < PropCount ==> PropKey[i].Some? && PropVal[i].Some?
    ensures |LockStateWrites()| == PropCount
    ensures forall j :: 0 <= j < 12 ==>
      LockStateWrites()[j] == Write("ro.build." + PropKey[j].value, PropVal[j].value, true)
    ensures forall j :: 12 <= j < PropCount ==>
      LockStateWrites()[j] == Write(PropKey[j].value, PropVal[j].value, true)
  {
    PropTablesShape();
    forall x: string ensures PropName(None, x, false) == "ro.build." + x {
      BuildName(x);
    }
    forall j | 0 <= j < PropCount ensures j < 12 ==> LockStateWrites()[j] == Write("ro.build." + PropKey[j].value, PropVal[j].value, true) {
      assert j == 0 || j == 1 || j == 2 || j == 3 || j == 4 || j == 5 || j == 6
          || j == 7 || j == 8 || j == 9 || j == 10 || j == 11 || j == 12 || j == 13;
    }
  }

  /**
   * The tenth character of a key, or '\0' for a shorter one: 'r' for every
   * doubled `ro.build.ro.*` key, never 'r' or 'v' for a `prop_key` entry,
   * and 'v' for the security-patch key.
   */
  function Tenth(k: string): (r: char)
  {
    if |k| > 9 then k[9] else '\0'
  }

  lemma TableTenth()
    ensures forall i :: 0 <= i < PropCount ==> PropKey[i].Some? && PropVal[i].Some?
    ensures forall i :: 0 <= i < PropCount ==> Tenth(PropKey[i].value) != 'r' && Tenth(PropKey[i].value) != 'v'
    ensures forall i :: 0 <= i < 12 ==> |PropKey[i].value| > 0 && PropKey[i].value[0] == 'r'
    ensures Tenth(SecurityPatchKey) == 'v'
  {
    PropTablesShape();
    forall i | 0 <= i < PropCount
      ensures Tenth(PropKey[i].value) != 'r' && Tenth(PropKey[i].value) != 'v'
      ensures i < 12 ==> |PropKey[i].value| > 0 && PropKey[i].value[0] == 'r'
    {
      assert i == 0 || i == 1 || i == 2 || i == 3 || i == 4 || i == 5 || i == 6
          || i == 7 || i == 8 || i == 9 || i == 10 || i == 11 || i == 12 || i == 13;
    }
  }

  lemma PrefixCancel(p: string, a: string, b: string)
    ensures p + a == p + b ==> a == b
  {
    assert a == (p + a)[|p|..];
    assert b == (p + b)[|p|..];
  }

  /** The keys of the lock-state block are pairwise different and none is a `prop_key` entry of the first twelve. */
  lemma LockStateKeys()
    ensures forall i :: 0 <= i < PropCount ==> PropKey[i].Some? && PropVal[i].Some?
    ensures forall j, l :: 0 <= j < l < PropCount ==> LockStateWrites()[j].key != LockStateWrites()[l].key
    ensures forall i, j :: 0 <= i < 12 && 0 <= j < PropCount ==> PropKey[i].value != LockStateWrites()[j].key
    ensures forall j :: 0 <= j < PropCount ==> LockStateWrites()[j].key != SecurityPatchKey
  {
    LockStateDoublesTable();
    TableTenth();
    PropKeysDistinct();
    PropTablesShape();
    forall j, l | 0 <= j < l < PropCount
      ensures LockStateWrites()[j].key != LockStateWrites()[l].key
    {
      var a, b := PropKey[j].value, PropKey[l].value;
      PrefixCancel("ro.build.", a, b);
      if j < 12 && 12 <= l {
        assert ("ro.build." + a)[9] == a[0];
      }
    }
    forall i, j | 0 <= i < 12 && 0 <= j < PropCount
      ensures PropKey[i].value != LockStateWrites()[j].key
    {
      if j < 12 {
        assert ("ro.build." + PropKey[j].value)[9] == PropKey[j].value[0];
      }
    }
    forall j | 0 <= j < PropCount
      ensures LockStateWrites()[j].key != SecurityPatchKey
    {
      if j < 12 {
        assert ("ro.build." + PropKey[j].value)[9] == PropKey[j].value[0];
      }
    }
  }

  /** The endings of the keys written after the identity writes. */
  lemma LateEndings()
    ensures |TableWrites(PropCount)| == PropCount && |LockStateWrites()| == PropCount
    ensures forall i :: 0 <= i < PropCount ==> CopyEnding(Ending(TableWrites(PropCount)[i].key))
    ensures forall i :: 0 <= i < PropCount ==> CopyEnding(Ending(LockStateWrites()[i].key))
    ensures Ending(SecurityPatchKey) == ('c', 'h')
  {
    TableWritesAt(PropCount);
    TableEndings();
    LockStateDoublesTable();
    PropTablesShape();
    forall i | 0 <= i < 12
      ensures Ending(LockStateWrites()[i].key) == Ending(PropKey[i].value)
    {
      EndingOfAppend("ro.build.", PropKey[i].value);
    }
  }

  /** The identity writes may create their keys, and those keys end differently from every later key. */
  lemma IdentityEndings(model: string, description: string, is9t: bool, isIn: bool)
    ensures forall i :: 0 <= i < |IdentityWrites(model, description, is9t, isIn)| ==>
      IdentityWrites(model, description, is9t, isIn)[i].add && IdentityEnding(Ending(IdentityWrites(model, description, is9t, isIn)[i].key))
  {
    var t := "ro." + "" + "build.";
    EndingOfAppend(t, "description");
    EndingOfAppend(t, "product");
    EndingOfAppend(t, "com.google.clientidbase");
    EndingOfAppend(t, "com.google.clientidbase.ms");
  }

  /** No two identity writes end alike, so none shares its key with another. */
  lemma IdentityEndingsDistinct(model: string, description: string, is9t: bool, isIn: bool)
    ensures forall i, j :: 0 <= i < j < |IdentityWrites(model, description, is9t, isIn)| ==>
      Ending(IdentityWrites(model, description, is9t, isIn)[i].key) != Ending(IdentityWrites(model, description, is9t, isIn)[j].key)
  {
    var t := "ro." + "" + "build.";
    EndingOfAppend(t, "description");
    EndingOfAppend(t, "product");
    EndingOfAppend(t, "com.google.clientidbase");
    EndingOfAppend(t, "com.google.clientidbase.ms");
  }

  /** The copy loop, the lock-state block and the security-patch write leave alone every key with another ending. */
  lemma LateKeepsEarlier(m: map<string, string>, refused: set<string>, k: string)
    requires !CopyEnding(Ending(k)) && Ending(k) != ('c', 'h')
    ensures Lookup(Step(ApplyAll(ApplyAll(m, TableWrites(PropCount), refused), LockStateWrites(), refused), SecurityPatchWrite, refused), k)
         == Lookup(m, k)
  {
    LateEndings();
    ApplyAllMisses(m, TableWrites(PropCount), refused, k);
    ApplyAllMisses(ApplyAll(m, TableWrites(PropCount), refused), LockStateWrites(), refused, k);
    StepElsewhere(ApplyAll(ApplyAll(m, TableWrites(PropCount), refused), LockStateWrites(), refused), SecurityPatchWrite, refused, k);
  }

  // ---------------------------------------------------------------------------
  // The store between the parts of `load_props`.
  // ---------------------------------------------------------------------------

  function AfterSources(m: map<string, string>, model: string, is9t: bool, isIn: bool, refused: set<string>): (r: map<string, string>)
  {
    ApplyAll(m, SourcesWrites(|RoPropSources|, model, ProductFor(isIn), FingerprintFor(is9t, isIn)), refused)
  }

  function AfterIdentity(m: map<string, string>, model: string, is9t: bool, isIn: bool, refused: set<string>): (r: map<string, string>)
  {
    ApplyAll(AfterSources(m, model, is9t, isIn, refused), IdentityWrites(model, DescriptionFor(is9t, isIn), is9t, isIn), refused)
  }

  function AfterTable(m: map<string, string>, model: string, is9t: bool, isIn: bool, refused: set<string>): (r: map<string, string>)
  {
    ApplyAll(AfterIdentity(m, model, is9t, isIn, refused), TableWrites(PropCount), refused)
  }

  function AfterLockState(m: map<string, string>, model: string, is9t: bool, isIn: bool, refused: set<string>): (r: map<string, string>)
  {
    ApplyAll(AfterTable(m, model, is9t, isIn, refused), LockStateWrites(), refused)
  }

  /** The final store is the lock-state stage followed by the security-patch write. */
  lemma FinalStages(m: map<string, string>, model: string, is9t: bool, isIn: bool, refused: set<string>)
    ensures Final(m, model, is9t, isIn, refused) == Step(AfterLockState(m, model, is9t, isIn, refused), SecurityPatchWrite, refused)
  {
    var S := SourcesWrites(|RoPropSources|, model, ProductFor(isIn), FingerprintFor(is9t, isIn));
    var I := IdentityWrites(model, DescriptionFor(is9t, isIn), is9t, isIn);
    var T := TableWrites(PropCount);
    var L := LockStateWrites();
    ApplyAllAppend(m, S, I + (T + (L + [SecurityPatchWrite])), refused);
    ApplyAllAppend(AfterSources(m, model, is9t, isIn, refused), I, T + (L + [SecurityPatchWrite]), refused);
    ApplyAllAppend(AfterIdentity(m, model, is9t, isIn, refused), T, L + [SecurityPatchWrite], refused);
    ApplyAllSnoc(AfterTable(m, model, is9t, isIn, refused), L, SecurityPatchWrite, refused);
  }

  // ---------------------------------------------------------------------------
  // Final values.
  // ---------------------------------------------------------------------------

  /** The copy loop writes each `prop_key` entry once. */
  lemma TableKeysOnce(i: nat)
    requires i < PropCount
    ensures |TableWrites(PropCount)| == PropCount
    ensures PropKey[i].Some? && PropVal[i].Some? && TableWrites(PropCount)[i] == Write(PropKey[i].value, PropVal[i].value, true)
    ensures forall j :: 0 <= j < PropCount && TableWrites(PropCount)[j].key == TableWrites(PropCount)[i].key ==> j == i
  {
    TableWritesAt(PropCount);
    PropKeysDistinct();
    PropTablesShape();
    forall j | 0 <= j < PropCount && TableWrites(PropCount)[j].key == TableWrites(PropCount)[i].key
      ensures j == i
    {
      assert PropKey[j] == Some(TableWrites(PropCount)[j].key);
    }
  }

  /** What the copy loop, the lock-state block and the security-patch write leave in a `prop_key` entry. */
  lemma CopyTailValue(m: map<string, string>, refused: set<string>, i: nat)
    requires i < PropCount
    ensures PropKey[i].Some? && PropVal[i].Some?
    ensures PropKey[i].value !in refused ==>
      Lookup(Step(ApplyAll(ApplyAll(m, TableWrites(PropCount), refused), LockStateWrites(), refused), SecurityPatchWrite, refused),
             PropKey[i].value) == PropVal[i]
  {
    PropTablesShape();
    var k := PropKey[i].value;
    if k !in refused {
      LockStateDoublesTable();
      LockStateKeys();
      TableTenth();
      var T := TableWrites(PropCount);
      var before := ApplyAll(ApplyAll(m, T, refused), LockStateWrites(), refused);
      if i < 12 {
        TableKeysOnce(i);
        ApplyAllSole(m, T, refused, i);
        ApplyAllMisses(ApplyAll(m, T, refused), LockStateWrites(), refused, k);
      } else {
        ApplyAllSole(ApplyAll(m, T, refused), LockStateWrites(), refused, i);
      }
      assert Lookup(before, k) == PropVal[i];
      assert Tenth(SecurityPatchWrite.key) != Tenth(k);
      StepElsewhere(before, SecurityPatchWrite, refused, k);
    }
  }

  /** What the lock-state block and the security-patch write leave in a doubled `ro.build.ro.*` key. */
  lemma LockStateTailValue(m: map<string, string>, refused: set<string>, i: nat)
    requires i < 12
    ensures PropKey[i].Some? && PropVal[i].Some?
    ensures "ro.build." + PropKey[i].value !in refused ==>
      Lookup(Step(ApplyAll(m, LockStateWrites(), refused), SecurityPatchWrite, refused), "ro.build." + PropKey[i].value) == PropVal[i]
  {
    PropTablesShape();
    if "ro.build." + PropKey[i].value !in refused {
      LockStateDoublesTable();
      LockStateKeys();
      ApplyAllSole(m, LockStateWrites(), refused, i);
    }
  }

  /** Every `prop_key` entry the platform accepts ends up holding its `prop_val` entry. */
  lemma TableKeyFinal(m: map<string, string>, model: string, is9t: bool, isIn: bool, refused: set<string>, i: nat)
    requires i < PropCount
    ensures PropKey[i].Some? && PropVal[i].Some?
    ensures PropKey[i].value !in refused ==> Lookup(Final(m, model, is9t, isIn, refused), PropKey[i].value) == PropVal[i]
  {
    FinalStages(m, model, is9t, isIn, refused);
    CopyTailValue(AfterIdentity(m, model, is9t, isIn, refused), refused, i);
  }

  /** Every doubled `ro.build.ro.*` key the platform accepts ends up holding the `prop_val` entry of its `prop_key` entry. */
  lemma DoubledKeyFinal(m: map<string, string>, model: string, is9t: bool, isIn: bool, refused: set<string>, i: nat)
    requires i < 12
    ensures PropKey[i].Some? && PropVal[i].Some?
    ensures "ro.build." + PropKey[i].value !in refused ==>
      Lookup(Final(m, model, is9t, isIn, refused), "ro.build." + PropKey[i].value) == PropVal[i]
  {
    FinalStages(m, model, is9t, isIn, refused);
    LockStateTailValue(AfterTable(m, model, is9t, isIn, refused), refused, i);
  }

  /**
   * A write of the loop over the prefixes survives everything after it: the
   * loop writes each of its names with one value only, and no later write
   * shares a name with it (their names end differently).
   */
  lemma SourceWriteSurvives(m: map<string, string>, model: string, product: string, fingerprint: string, description: string,
                            is9t: bool, isIn: bool, refused: set<string>, j: nat, w: Write)
    requires j < |RoPropSources|
    requires w in SourceWrites(RoPropSources[j], model, product, fingerprint) && w.key !in refused
    ensures Lookup(Step(ApplyAll(ApplyAll(ApplyAll(ApplyAll(m, SourcesWrites(|RoPropSources|, model, product, fingerprint), refused),
                                                   IdentityWrites(model, description, is9t, isIn), refused),
                                          TableWrites(PropCount), refused),
                                 LockStateWrites(), refused),
                        SecurityPatchWrite, refused), w.key) == Some(w.value)
  {
    var S := SourcesWrites(|RoPropSources|, model, product, fingerprint);
    var I := IdentityWrites(model, description, is9t, isIn);
    SourceWriteLoopValue(m, model, product, fingerprint, refused, j, w);
    EndingFamilies(Ending(w.key));
    IdentityKeepsEarlier(ApplyAll(m, S, refused), model, description, is9t, isIn, refused, w.key);
    LateKeepsEarlier(ApplyAll(ApplyAll(m, S, refused), I, refused), refused, w.key);
  }

  /** At the end of the loop over the prefixes, each of its writes the platform accepts holds. */
  lemma SourceWriteLoopValue(m: map<string, string>, model: string, product: string, fingerprint: string,
                             refused: set<string>, j: nat, w: Write)
    requires j < |RoPropSources|
    requires w in SourceWrites(RoPropSources[j], model, product, fingerprint) && w.key !in refused
    ensures SourceEnding(Ending(w.key))
    ensures Lookup(ApplyAll(m, SourcesWrites(|RoPropSources|, model, product, fingerprint), refused), w.key) == Some(w.value)
  {
    SourcesWritesContain(|RoPropSources|, j, model, product, fingerprint);
    SourceWritesEntries(RoPropSources[j], model, product, fingerprint);
    SourcesWritesEntries(|RoPropSources|, model, product, fingerprint);
    ApplyAllAgreeing(m, SourcesWrites(|RoPropSources|, model, product, fingerprint), refused, w.key, w.value);
  }

  /** The identity writes leave alone every key whose ending is not one of theirs. */
  lemma IdentityKeepsEarlier(m: map<string, string>, model: string, description: string, is9t: bool, isIn: bool,
                             refused: set<string>, k: string)
    requires !IdentityEnding(Ending(k))
    ensures Lookup(ApplyAll(m, IdentityWrites(model, description, is9t, isIn), refused), k) == Lookup(m, k)
  {
    IdentityEndings(model, description, is9t, isIn);
    ApplyAllMisses(m, IdentityWrites(model, description, is9t, isIn), refused, k);
  }

  /** `SourcePropsFinal` for any product, fingerprint and description values. */
  lemma SourcePropsSurvive(m: map<string, string>, model: string, product: string, fingerprint: string, description: string,
                           is9t: bool, isIn: bool, refused: set<string>, source: Option<string>)
    requires source in RoPropSources
    ensures forall w :: w in SourceWrites(source, model, product, fingerprint) && w.key !in refused ==>
      Lookup(Step(ApplyAll(ApplyAll(ApplyAll(ApplyAll(m, SourcesWrites(|RoPropSources|, model, product, fingerprint), refused),
                                             IdentityWrites(model, description, is9t, isIn), refused),
                                    TableWrites(PropCount), refused),
                           LockStateWrites(), refused),
                  SecurityPatchWrite, refused), w.key) == Some(w.value)
  {
    var j :| 0 <= j < |RoPropSources| && RoPropSources[j] == source;
    forall w | w in SourceWrites(source, model, product, fingerprint) && w.key !in refused
      ensures Lookup(Step(ApplyAll(ApplyAll(ApplyAll(ApplyAll(m, SourcesWrites(|RoPropSources|, model, product, fingerprint), refused),
                                                     IdentityWrites(model, description, is9t, isIn), refused),
                                            TableWrites(PropCount), refused),
                                   LockStateWrites(), refused),
                          SecurityPatchWrite, refused), w.key) == Some(w.value)
    {
      SourceWriteSurvives(m, model, product, fingerprint, description, is9t, isIn, refused, j, w);
    }
  }

  /**
   * For every prefix of `RO_PROP_SOURCES`, the device, model, name and
   * fingerprint properties the platform accepts end up holding the
   * variant's values.
   */
  lemma SourcePropsFinal(m: map<string, string>, model: string, is9t: bool, isIn: bool, refused: set<string>, source: Option<string>)
    requires source in RoPropSources
    ensures PropName(source, "device", true) !in refused ==>
      Lookup(Final(m, model, is9t, isIn, refused), PropName(source, "device", true)) == Some(ProductFor(isIn))
    ensures PropName(source, "model", true) !in refused ==>
      Lookup(Final(m, model, is9t, isIn, refused), PropName(source, "model", true)) == Some(model)
    ensures PropName(source, "name", true) !in refused ==>
      Lookup(Final(m, model, is9t, isIn, refused), PropName(source, "name", true)) == Some(ProductFor(isIn))
    ensures PropName(source, "fingerprint", false) !in refused ==>
      Lookup(Final(m, model, is9t, isIn, refused), PropName(source, "fingerprint", false)) == Some(FingerprintFor(is9t, isIn))
  {
    var P, F := ProductFor(isIn), FingerprintFor(is9t, isIn);
    var ws := SourceWrites(source, model, P, F);
    FinalStages(m, model, is9t, isIn, refused);
    SourcePropsSurvive(m, model, P, F, DescriptionFor(is9t, isIn), is9t, isIn, refused, source);
    assert ws[0] in ws && ws[1] in ws && ws[2] in ws && ws[3] in ws;
  }

  /** The whole of `load_props` after the loop over the prefixes has the stated effect on `m`, for any values. */
  function Late(m: map<string, string>, model: string, description: string, is9t: bool, isIn: bool, refused: set<string>): (r: map<string, string>)
  {
    Step(ApplyAll(ApplyAll(ApplyAll(m, IdentityWrites(model, description, is9t, isIn), refused),
                           TableWrites(PropCount), refused),
                  LockStateWrites(), refused),
         SecurityPatchWrite, refused)
  }

  /** An identity write the platform accepts survives to the end of `load_props`. */
  lemma IdentityWriteSurvives(m: map<string, string>, model: string, description: string, is9t: bool, isIn: bool,
                              refused: set<string>, i: nat)
    requires i < |IdentityWrites(model, description, is9t, isIn)|
    requires IdentityWrites(model, description, is9t, isIn)[i].key !in refused
    ensures Lookup(Late(m, model, description, is9t, isIn, refused), IdentityWrites(model, description, is9t, isIn)[i].key)
         == Some(IdentityWrites(model, description, is9t, isIn)[i].value)
  {
    var I := IdentityWrites(model, description, is9t, isIn);
    IdentityEndings(model, description, is9t, isIn);
    IdentityEndingsDistinct(model, description, is9t, isIn);
    ApplyAllSole(m, I, refused, i);
    EndingFamilies(Ending(I[i].key));
    LateKeepsEarlier(ApplyAll(m, I, refused), refused, I[i].key);
  }

  /** The loop over the prefixes leaves alone every key whose ending is not one of its names'. */
  lemma SourcesKeepOthers(m: map<string, string>, model: string, product: string, fingerprint: string, refused: set<string>, k: string)
    requires !SourceEnding(Ending(k))
    ensures Lookup(ApplyAll(m, SourcesWrites(|RoPropSources|, model, product, fingerprint), refused), k) == Lookup(m, k)
  {
    SourcesWritesEntries(|RoPropSources|, model, product, fingerprint);
    ApplyAllUntouched(m, SourcesWrites(|RoPropSources|, model, product, fingerprint), refused, k);
  }

  /** A key with an identity ending that no identity write names is left as it was by all of `load_props`. */
  lemma IdentityKeyUntouched(m: map<string, string>, model: string, product: string, fingerprint: string, description: string,
                             is9t: bool, isIn: bool, refused: set<string>, k: string)
    requires IdentityEnding(Ending(k))
    requires forall i :: 0 <= i < |IdentityWrites(model, description, is9t, isIn)| ==> IdentityWrites(model, description, is9t, isIn)[i].key != k
    ensures Lookup(Late(ApplyAll(m, SourcesWrites(|RoPropSources|, model, product, fingerprint), refused), model, description, is9t, isIn, refused), k)
         == Lookup(m, k)
  {
    var S := SourcesWrites(|RoPropSources|, model, product, fingerprint);
    EndingFamilies(Ending(k));
    SourcesKeepOthers(m, model, product, fingerprint, refused, k);
    ApplyAllMisses(ApplyAll(m, S, refused), IdentityWrites(model, description, is9t, isIn), refused, k);
    LateKeepsEarlier(ApplyAll(ApplyAll(m, S, refused), IdentityWrites(model, description, is9t, isIn), refused), refused, k);
  }

  /** Which variants have an identity write whose key ends like the SKU, client-id or `.ms` key. */
  lemma IdentityEndingsByVariant(model: string, description: string, is9t: bool, isIn: bool)
    ensures forall i :: 0 <= i < |IdentityWrites(model, description, is9t, isIn)| ==>
      (Ending(IdentityWrites(model, description, is9t, isIn)[i].key) == ('k', 'u') ==> !isIn) &&
      (Ending(IdentityWrites(model, description, is9t, isIn)[i].key) == ('s', 'e') ==> is9t || isIn) &&
      (Ending(IdentityWrites(model, description, is9t, isIn)[i].key) == ('m', 's') ==> isIn && !is9t)
  {
    var t := "ro." + "" + "build.";
    EndingOfAppend(t, "description");
    EndingOfAppend(t, "product");
    EndingOfAppend(t, "com.google.clientidbase");
    EndingOfAppend(t, "com.google.clientidbase.ms");
  }

  lemma FinalIsLate(m: map<string, string>, model: string, is9t: bool, isIn: bool, refused: set<string>)
    ensures Final(m, model, is9t, isIn, refused) == Late(AfterSources(m, model, is9t, isIn, refused), model, DescriptionFor(is9t, isIn), is9t, isIn, refused)
  {
    FinalStages(m, model, is9t, isIn, refused);
  }

  /** `IdentityPropsFinal` for the stage after the loop and any description. */
  lemma IdentityPropsLate(m: map<string, string>, model: string, description: string, is9t: bool, isIn: bool, refused: set<string>)
    ensures PropName(None, "description", false) !in refused ==>
      Lookup(Late(m, model, description, is9t, isIn, refused), PropName(None, "description", false)) == Some(description)
    ensures PropName(None, "product", false) !in refused ==>
      Lookup(Late(m, model, description, is9t, isIn, refused), PropName(None, "product", false)) == Some(model)
  {
    if PropName(None, "description", false) !in refused {
      IdentityWriteSurvives(m, model, description, is9t, isIn, refused, 0);
    }
    if PropName(None, "product", false) !in refused {
      IdentityWriteSurvives(m, model, description, is9t, isIn, refused, if isIn then 1 else 2);
    }
  }

  /** The build description and `ro.build.product` end up holding the variant's description and the model name. */
  lemma IdentityPropsFinal(m: map<string, string>, model: string, is9t: bool, isIn: bool, refused: set<string>)
    ensures PropName(None, "description", false) !in refused ==>
      Lookup(Final(m, model, is9t, isIn, refused), PropName(None, "description", false)) == Some(DescriptionFor(is9t, isIn))
    ensures PropName(None, "product", false) !in refused ==>
      Lookup(Final(m, model, is9t, isIn, refused), PropName(None, "product", false)) == Some(model)
  {
    FinalIsLate(m, model, is9t, isIn, refused);
    IdentityPropsLate(AfterSources(m, model, is9t, isIn, refused), model, DescriptionFor(is9t, isIn), is9t, isIn, refused);
  }

  /** `SkuFinal` for any product, fingerprint and description values. */
  lemma SkuLate(m: map<string, string>, model: string, product: string, fingerprint: string, description: string,
                is9t: bool, isIn: bool, refused: set<string>)
    ensures !isIn && "ro.boot.product.hardware.sku" !in refused ==>
      Lookup(Late(ApplyAll(m, SourcesWrites(|RoPropSources|, model, product, fingerprint), refused), model, description, is9t, isIn, refused),
             "ro.boot.product.hardware.sku") == Some(Products[0])
    ensures isIn ==>
      Lookup(Late(ApplyAll(m, SourcesWrites(|RoPropSources|, model, product, fingerprint), refused), model, description, is9t, isIn, refused),
             "ro.boot.product.hardware.sku") == Lookup(m, "ro.boot.product.hardware.sku")
  {
    var k := "ro.boot.product.hardware.sku";
    if isIn {
      assert Ending(k) == ('k', 'u');
      IdentityEndingsByVariant(model, description, is9t, isIn);
      IdentityKeyUntouched(m, model, product, fingerprint, description, is9t, isIn, refused, k);
    } else if k !in refused {
      IdentityWriteSurvives(ApplyAll(m, SourcesWrites(|RoPropSources|, model, product, fingerprint), refused), model, description, is9t, isIn, refused, 1);
    }
  }

  /** The hardware SKU becomes "davinci" on the global and Chinese variants; the Indian variant leaves it alone. */
  lemma SkuFinal(m: map<string, string>, model: string, is9t: bool, isIn: bool, refused: set<string>)
    ensures !isIn && "ro.boot.product.hardware.sku" !in refused ==>
      Lookup(Final(m, model, is9t, isIn, refused), "ro.boot.product.hardware.sku") == Some(Products[0])
    ensures isIn ==>
      Lookup(Final(m, model, is9t, isIn, refused), "ro.boot.product.hardware.sku") == Lookup(m, "ro.boot.product.hardware.sku")
  {
    FinalIsLate(m, model, is9t, isIn, refused);
    SkuLate(m, model, ProductFor(isIn), FingerprintFor(is9t, isIn), DescriptionFor(is9t, isIn), is9t, isIn, refused);
  }

  /** The `clientidbase` half of `ClientIdFinal`, for any product, fingerprint and description values. */
  lemma ClientIdBaseLate(m: map<string, string>, model: string, product: string, fingerprint: string, description: string,
                         is9t: bool, isIn: bool, refused: set<string>)
    ensures (is9t || isIn) && PropName(None, "com.google.clientidbase", false) !in refused ==>
      Lookup(Late(ApplyAll(m, SourcesWrites(|RoPropSources|, model, product, fingerprint), refused), model, description, is9t, isIn, refused),
             PropName(None, "com.google.clientidbase", false)) == Some(ClientId[0])
    ensures !is9t && !isIn ==>
      Lookup(Late(ApplyAll(m, SourcesWrites(|RoPropSources|, model, product, fingerprint), refused), model, description, is9t, isIn, refused),
             PropName(None, "com.google.clientidbase", false)) == Lookup(m, PropName(None, "com.google.clientidbase", false))
  {
    var cid := PropName(None, "com.google.clientidbase", false);
    var m1 := ApplyAll(m, SourcesWrites(|RoPropSources|, model, product, fingerprint), refused);
    var I := IdentityWrites(model, description, is9t, isIn);
    EndingOfAppend("ro." + "" + "build.", "com.google.clientidbase");
    IdentityEndingsByVariant(model, description, is9t, isIn);
    if is9t || isIn {
      if cid !in refused {
        IdentityWriteSurvives(m1, model, description, is9t, isIn, refused, if is9t then |I| - 1 else |I| - 2);
      }
    } else {
      IdentityKeyUntouched(m, model, product, fingerprint, description, is9t, isIn, refused, cid);
    }
  }

  /** The `clientidbase.ms` half of `ClientIdFinal`, for any product, fingerprint and description values. */
  lemma ClientIdMsLate(m: map<string, string>, model: string, product: string, fingerprint: string, description: string,
                       is9t: bool, isIn: bool, refused: set<string>)
    ensures isIn && !is9t && PropName(None, "com.google.clientidbase.ms", false) !in refused ==>
      Lookup(Late(ApplyAll(m, SourcesWrites(|RoPropSources|, model, product, fingerprint), refused), model, description, is9t, isIn, refused),
             PropName(None, "com.google.clientidbase.ms", false)) == Some(ClientId[1])
    ensures !(isIn && !is9t) ==>
      Lookup(Late(ApplyAll(m, SourcesWrites(|RoPropSources|, model, product, fingerprint), refused), model, description, is9t, isIn, refused),
             PropName(None, "com.google.clientidbase.ms", false)) == Lookup(m, PropName(None, "com.google.clientidbase.ms", false))
  {
    var ms := PropName(None, "com.google.clientidbase.ms", false);
    var m1 := ApplyAll(m, SourcesWrites(|RoPropSources|, model, product, fingerprint), refused);
    var I := IdentityWrites(model, description, is9t, isIn);
    EndingOfAppend("ro." + "" + "build.", "com.google.clientidbase.ms");
    IdentityEndingsByVariant(model, description, is9t, isIn);
    if isIn && !is9t {
      if ms !in refused {
        IdentityWriteSurvives(m1, model, description, is9t, isIn, refused, |I| - 1);
      }
    } else {
      IdentityKeyUntouched(m, model, product, fingerprint, description, is9t, isIn, refused, ms);
    }
  }

  /**
   * `ro.build.com.google.clientidbase` becomes "android-xiaomi" on the 9T and
   * Indian variants; `ro.build.com.google.clientidbase.ms` becomes
   * "android-xiaomi-rev1" only on an Indian variant that is not a 9T (the
   * source tests `is_9t` first). Otherwise each is left alone.
   */
  lemma ClientIdFinal(m: map<string, string>, model: string, is9t: bool, isIn: bool, refused: set<string>)
    ensures (is9t || isIn) && PropName(None, "com.google.clientidbase", false) !in refused ==>
      Lookup(Final(m, model, is9t, isIn, refused), PropName(None, "com.google.clientidbase", false)) == Some(ClientId[0])
    ensures !is9t && !isIn ==>
      Lookup(Final(m, model, is9t, isIn, refused), PropName(None, "com.google.clientidbase", false))
      == Lookup(m, PropName(None, "com.google.clientidbase", false))
    ensures isIn && !is9t && PropName(None, "com.google.clientidbase.ms", false) !in refused ==>
      Lookup(Final(m, model, is9t, isIn, refused), PropName(None, "com.google.clientidbase.ms", false)) == Some(ClientId[1])
    ensures !(isIn && !is9t) ==>
      Lookup(Final(m, model, is9t, isIn, refused), PropName(None, "com.google.clientidbase.ms", false))
      == Lookup(m, PropName(None, "com.google.clientidbase.ms", false))
  {
    FinalIsLate(m, model, is9t, isIn, refused);
    ClientIdBaseLate(m, model, ProductFor(isIn), FingerprintFor(is9t, isIn), DescriptionFor(is9t, isIn), is9t, isIn, refused);
    ClientIdMsLate(m, model, ProductFor(isIn), FingerprintFor(is9t, isIn), DescriptionFor(is9t, isIn), is9t, isIn, refused);
  }

  /** `SecurityPatchFinal` for any product, fingerprint and description values. */
  lemma SecurityPatchLate(m: map<string, string>, model: string, product: string, fingerprint: string, description: string,
                          is9t: bool, isIn: bool, refused: set<string>)
    ensures var r := Late(ApplyAll(m, SourcesWrites(|RoPropSources|, model, product, fingerprint), refused), model, description, is9t, isIn, refused);
      (SecurityPatchKey in r <==> SecurityPatchKey in m) &&
      (SecurityPatchKey in m && SecurityPatchKey !in refused ==> r[SecurityPatchKey] == "2021-01-01") &&
      (SecurityPatchKey in refused ==> Lookup(r, SecurityPatchKey) == Lookup(m, SecurityPatchKey))
  {
    var k := SecurityPatchKey;
    var m1 := ApplyAll(m, SourcesWrites(|RoPropSources|, model, product, fingerprint), refused);
    var m2 := ApplyAll(m1, IdentityWrites(model, description, is9t, isIn), refused);
    var m3 := ApplyAll(m2, TableWrites(PropCount), refused);
    var m4 := ApplyAll(m3, LockStateWrites(), refused);
    LateEndings();
    EndingFamilies(Ending(k));
    SourcesKeepOthers(m, model, product, fingerprint, refused, k);
    IdentityKeepsEarlier(m1, model, description, is9t, isIn, refused, k);
    ApplyAllMisses(m2, TableWrites(PropCount), refused, k);
    ApplyAllMisses(m3, LockStateWrites(), refused, k);
    assert Lookup(m4, k) == Lookup(m, k);
  }

  /**
   * `property_override_new` never creates the security-patch level: it ends
   * up "2021-01-01" when the key existed and the platform accepts it, is
   * absent when it was absent, and is left alone when the platform refuses it.
   */
  lemma SecurityPatchFinal(m: map<string, string>, model: string, is9t: bool, isIn: bool, refused: set<string>)
    ensures SecurityPatchKey in Final(m, model, is9t, isIn, refused) <==> SecurityPatchKey in m
    ensures SecurityPatchKey in m && SecurityPatchKey !in refused ==>
      Final(m, model, is9t, isIn, refused)[SecurityPatchKey] == "2021-01-01"
    ensures SecurityPatchKey in refused ==>
      Lookup(Final(m, model, is9t, isIn, refused), SecurityPatchKey) == Lookup(m, SecurityPatchKey)
  {
    FinalIsLate(m, model, is9t, isIn, refused);
    SecurityPatchLate(m, model, ProductFor(isIn), FingerprintFor(is9t, isIn), DescriptionFor(is9t, isIn), is9t, isIn, refused);
  }

  /** A key the platform refuses keeps its presence and value. */
  lemma RefusedFinal(m: map<string, string>, model: string, is9t: bool, isIn: bool, refused: set<string>, k: string)
    requires k in refused
    ensures Lookup(Final(m, model, is9t, isIn, refused), k) == Lookup(m, k)
  {
    ApplyAllUntouched(m, ProfileWrites(model, is9t, isIn), refused, k);
  }

  /** `load_props` never removes a property. */
  lemma FinalKeepsKeys(m: map<string, string>, model: string, is9t: bool, isIn: bool, refused: set<string>)
    ensures m.Keys <= Final(m, model, is9t, isIn, refused).Keys
  {
    ApplyAllKeepsKeys(m, ProfileWrites(model, is9t, isIn), refused);
  }

  /** Running `load_props` a second time with the same arguments changes nothing. */
  lemma FinalIdempotent(m: map<string, string>, model: string, is9t: bool, isIn: bool, refused: set<string>)
    ensures Final(Final(m, model, is9t, isIn, refused), model, is9t, isIn, refused) == Final(m, model, is9t, isIn, refused)
  {
    ApplyAllIdempotent(m, ProfileWrites(model, is9t, isIn), refused);
  }
}
