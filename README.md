# davinci vendor init, modelled in Dafny

This project models the vendor-init shim of the Xiaomi davinci device
(`init/init_davinci.cpp`). At boot it rewrites the device-identity
properties of the Android property store, once per regional variant.

- `vendor_load_properties` reads the region code `ro.boot.hwc`. `"CN"`, `"INDIA"` and `"GLOBAL"` each pick one call of `load_props(model, is_9t, is_in)`. Any other code changes nothing.
- `load_props` overrides five groups of properties, in this order:
  1. device, model, name and fingerprint for each partition prefix of `RO_PROP_SOURCES`;
  2. the build description, hardware SKU, `ro.build.product` and the client-id properties;
  3. the fourteen lock-state keys of the `prop_key`/`prop_val` tables;
  4. the first twelve of those keys again through the `ro_prop_override` lambda, which yields the doubled names `ro.build.ro.boot.vbmeta.device_state`, … (kept as the code builds them), then the two `vendor.boot.*` keys directly through `property_override`;
  5. the security-patch level, update only.
- `property_override(prop, value, add)` updates a property if it exists. Otherwise it creates it only when `add` holds. `property_override_new` only updates.

Files:

- `wrappers.dfy`: `Option`.
- `tables.dfy` (module `Tables`): the constant tables. `nullptr` entries become `None`. `SentinelIndex` is where an index loop that stops at the first null entry ends.
- `names.dfy` (module `Names`): the names the lambda builds (`PropName`), and their last two characters (`Ending`), which keep the name families apart in the proofs.
- `store.dfy` (module `Store`):
  - the property store as a class, `PropertyStore`. Its field `props: map<string, string>` is what the methods reassign. `refused` is the set of keys for which the platform's update or add call returns non-zero.
  - the semantics of one write attempt (`Step`) and of a sequence of them (`ApplyAll`), with the general lemmas about them: untouched keys, last write wins, no key removed, idempotence.
- `davinci.dfy` (module `Davinci`):
  - `ProfileWrites` lists every write attempt of `load_props` in source order;
  - the imperative methods (`RoPropOverride`, the loops of `load_props`, `LoadProps`, `VendorLoadProperties`) are each proved to leave the store at `ApplyAll` of their part of that list;
  - the region-to-profile choice is a pure function.
- `profile_facts.dfy` (module `ProfileFacts`): what the store holds after `load_props`, key by key, for every key the platform accepts.

## Model

| member | source | states |
|---|---|---|
| Tables.PropTablesAligned | init/init_davinci.cpp:43-57 | `prop_key` and `prop_val` both hold 14 entries before their null terminator, which sits at the same index in both |
| Tables.PropKeysDistinct | init/init_davinci.cpp:43-49 | no key occurs twice in `prop_key` |
| Tables.SentinelIndex | init/init_davinci.cpp:188 | the index a `t[i] != nullptr` loop stops at: every earlier entry is non-null, and the entry there is null or past the end |
| Names.PropNameInjective | init/init_davinci.cpp:138-148 | two prefixes produce the same property name only when they contribute the same text, so each prefix's iteration writes its own names |
| Store.Overridden | init/init_davinci.cpp:98-117 | an accepted write makes the key hold the value when it existed or `add` holds; an absent key with `add` false leaves the store unchanged; no other key changes; the key set grows by the key only when `add` holds |
| Store.PropertyStore.PlatformUpdate | init/init_davinci.cpp:101-103 | result 0 exactly when the platform accepts the key, and then the value is stored; otherwise the store is unchanged |
| Store.PropertyStore.PlatformAdd | init/init_davinci.cpp:110 | result 0 exactly when the platform accepts the key, and then the key is created with the value; otherwise the store is unchanged |
| Store.PropertyStore.Override | init/init_davinci.cpp:98-117 | `property_override` leaves the store at one `Step` with `add` as given: update if found, insert only when `add`, unchanged on a non-zero platform result |
| Store.PropertyStore.OverrideNew | init/init_davinci.cpp:120-134 | `property_override_new` is a `Step` with `add` false: a missing key is never created |
| Store.ApplyAllAppend | init/init_davinci.cpp:137-214 | running two groups of writes one after the other is running their concatenation, which is how `load_props` composes its parts |
| Store.ApplyAllUntouched | init/init_davinci.cpp:98-134 | a key no write names, or one the platform refuses, keeps its presence and value |
| Store.ApplyAllNeverInserts | init/init_davinci.cpp:120-134 | an absent key that no write may create stays absent |
| Store.ApplyAllAgreeing | init/init_davinci.cpp:98-117 | when the platform accepts a key, at least one write names it, every write to it carries the same value, and the key exists or some write may create it, the key ends up holding that value |
| Store.ApplyAllLastWins | init/init_davinci.cpp:98-117 | a key the platform accepts that is present at the end, and that some write names, holds the value of the last write that names it |
| Store.ApplyAllKeepsKeys | init/init_davinci.cpp:98-134 | no write removes a property |
| Store.ApplyAllIdempotent | init/init_davinci.cpp:98-134 | applying the same writes twice gives the same store as applying them once |
| Davinci.RoPropOverride | init/init_davinci.cpp:138-151 | the lambda appends "ro.", "product." if `product`, the prefix if present, "build." if not `product`, then `prop`; it then calls `property_override` with `add` left true |
| Davinci.LoadSourceIteration | init/init_davinci.cpp:154-168 | one iteration for a prefix writes device, model and name under `ro.product.<prefix>`, then the fingerprint under `ro.<prefix>build.` and under bare `ro.build.`, with the values the two branches choose |
| Davinci.LoadSourceProps | init/init_davinci.cpp:153-169 | the loop over the seven prefixes leaves the store at the writes of all seven iterations applied in order |
| Davinci.LoadIdentityProps | init/init_davinci.cpp:170-186 | the description (and, outside India, the SKU), `ro.build.product`, then the client ids by the `is_9t` / else-if `is_in` choice |
| Davinci.LoadTableProps | init/init_davinci.cpp:188-192 | the sentinel loop copies exactly the 14 `prop_key`/`prop_val` pairs in order, with `add` true |
| Davinci.LoadLockStateProps | init/init_davinci.cpp:193-206 | the twelve `ro_prop_override(nullptr, …, false)` calls and the two `vendor.boot.*` writes, in order |
| Davinci.LoadProps | init/init_davinci.cpp:137-214 | `load_props` leaves the store at every write attempt of the profile applied in source order (`ProfileWrites`) |
| Davinci.ParseRegion | init/init_davinci.cpp:220-226 | a recognised region is one whose code is exactly the string compared; an unrecognised string matches no region's code |
| Davinci.SelectProfile | init/init_davinci.cpp:216-227 | a profile is selected exactly for "CN", "INDIA" and "GLOBAL"; `is_9t` is chosen exactly for GLOBAL and `is_in` exactly for INDIA, never both; the model is "Mi 9T" for the 9T and "Redmi K20" otherwise |
| Davinci.VendorLoadProperties | init/init_davinci.cpp:216-227 | an unrecognised region leaves the store unchanged; a recognised one runs `load_props` with the selected arguments |
| ProfileFacts.TableNames | init/init_davinci.cpp:43-57 | the copy loop's writes, spelled out key by key with their values |
| ProfileFacts.TableWritesAt | init/init_davinci.cpp:188-192 | the copy loop's `i`-th write is `prop_key[i]` with `prop_val[i]` |
| ProfileFacts.LockStateDoublesTable | init/init_davinci.cpp:193-206 | explicit lock-state writes 0-11 are the first twelve `prop_key` entries with "ro.build." in front, carrying the same values; writes 12-13 are the two `vendor.boot.*` entries unchanged |
| ProfileFacts.LockStateKeys | init/init_davinci.cpp:193-210 | the lock-state block's keys are pairwise distinct, none of them is one of the first twelve `prop_key` entries, and none is the security-patch key |
| ProfileFacts.TableKeyFinal | init/init_davinci.cpp:188-206 | after `load_props`, whatever the flags, every accepted `prop_key[i]` holds `prop_val[i]`: no later write gives it another value |
| ProfileFacts.DoubledKeyFinal | init/init_davinci.cpp:193-204 | after `load_props`, each accepted doubled key `ro.build.<prop_key[i]>` (i < 12) holds `prop_val[i]` |
| ProfileFacts.SourcePropsFinal | init/init_davinci.cpp:153-169 | for every prefix, after `load_props` the accepted `ro.product.<prefix>device` and `…name` hold "davincin" on India and "davinci" otherwise, `…model` holds the model, and `ro.<prefix>build.fingerprint` (the bare `ro.build.fingerprint` for the null prefix) holds the Indian, else 9T, else default fingerprint |
| ProfileFacts.IdentityPropsFinal | init/init_davinci.cpp:170-178 | `ro.build.description` holds the variant's description and `ro.build.product` holds the model |
| ProfileFacts.SkuFinal | init/init_davinci.cpp:170-177 | `ro.boot.product.hardware.sku` holds "davinci" when not India; the Indian profile leaves it exactly as it was |
| ProfileFacts.ClientIdFinal | init/init_davinci.cpp:180-186 | `ro.build.com.google.clientidbase` holds "android-xiaomi" when 9T or India and is untouched otherwise; `….ms` holds "android-xiaomi-rev1" when India and not 9T, and is untouched otherwise |
| ProfileFacts.SecurityPatchFinal | init/init_davinci.cpp:210 | the security-patch key is present afterwards exactly when it was present before; when present and accepted it holds "2021-01-01"; when refused it is unchanged |
| ProfileFacts.RefusedFinal | init/init_davinci.cpp:98-134 | a property the platform refuses keeps its presence and value through `load_props` |
| ProfileFacts.FinalKeepsKeys | init/init_davinci.cpp:137-214 | `load_props` never removes a property |
| ProfileFacts.FinalIdempotent | init/init_davinci.cpp:137-214 | a second `load_props` with the same arguments changes nothing |

## Left out

- `LOG(INFO)` and `LOG(ERROR)`: logging only; no effect on the store.
- `GetProperty("ro.boot.hwc", "")`: an OS read. `VendorLoadProperties` takes the region string as a parameter.
- The Android property area behind `__system_property_find`, `__system_property_update` and `__system_property_add`. Fixed-size slots, the value-length limit, shared memory and locking are not modelled. A lookup is map membership, an update overwrites, an add inserts.
- Store.PropertyStore.PlatformUpdate: failure depends only on the key, through the fixed set `refused`. A failure that depends on the value or varies from call to call is not modelled.
- Store.PropertyStore.PlatformAdd: the same key-only failure through `refused`.
- Store.ApplyAllIdempotent: holds only because failure depends on the key alone; a platform whose second call could fail differently would break it.
- ProfileFacts.FinalIdempotent: rests on the same key-only failure as `Store.ApplyAllIdempotent`.
- C strings become `seq<char>`; `strlen` arguments and the two-literal concatenation in `BUILD_FINGERPRINT` disappear into whole strings.
- The commented-out call at init/init_davinci.cpp:208 and the commented-out update at line 212 are dead code.
- Unused `#include`s and the `using` declarations carry no behaviour.
- `ProfileFacts.SourcePropsFinal` and the other per-key facts are stated for keys the platform accepts; for refused keys `ProfileFacts.RefusedFinal` says the store is untouched.

The per-prefix names are `ro.product.<prefix>device`, `ro.product.<prefix>model`, `ro.product.<prefix>name` and `ro.<prefix>build.fingerprint`, where `<prefix>` is an entry of `RO_PROP_SOURCES` such as `"odm."`. The `.ms` client id is written only when `is_in` holds and `is_9t` does not, because of the `else if` at init/init_davinci.cpp:182; `ProfileFacts.ClientIdFinal` states this. The dispatcher never selects both flags.
