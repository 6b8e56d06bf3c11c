/**
 * The device property store as init/init_davinci.cpp uses it: a table from
 * property names to values, written through `property_override` and
 * `property_override_new`. The Android property area behind
 * `__system_property_find`, `__system_property_update` and
 * `__system_property_add` is abstracted to lookup, overwrite and insert on a
 * map, together with a set of keys for which the platform call fails.
 */
module Store {
  import opened Wrappers

  /**
   * One write attempt: `add` says whether a missing key may be created
   * (`property_override(key, value, add)`; `property_override_new` is a
   * write with `add` false).
   */
  datatype Write = Write(key: string, value: string, add: bool)

  function Lookup(m: map<string, string>, k: string): (r: Option<string>)
  {
    if k in m then Some(m[k]) else None
  }

  /**
   * The store after a write the platform accepts: an existing key is
   * updated, a missing one is inserted only when `add` holds.
   */
  function Overridden(m: map<string, string>, prop: string, value: string, add: bool): (r: map<string, string>)
    ensures prop in m || add ==> Lookup(r, prop) == Some(value)
    ensures prop !in m && !add ==> r == m
    ensures forall k :: k != prop ==> Lookup(r, k) == Lookup(m, k)
    ensures r.Keys == if add then m.Keys + {prop} else m.Keys
  {
    if prop in m || add then m[prop := value] else m
  }

  /**
   * One write attempt; a key in `refused` is one whose platform update or
   * add returns a non-zero result, which leaves the store as it was.
   */
  function Step(m: map<string, string>, w: Write, refused: set<string>): (r: map<string, string>)
  {
    if w.key in refused then m else Overridden(m, w.key, w.value, w.add)
  }

  /** The store after a sequence of write attempts, in order. */
  function ApplyAll(m: map<string, string>, ws: seq<Write>, refused: set<string>): (r: map<string, string>)
    decreases |ws|
  {
    if |ws| == 0 then m
    else Step(ApplyAll(m, ws[..|ws| - 1], refused), ws[|ws| - 1], refused)
  }

  /** Some write of `ws` targets `k`. */
  ghost predicate Touches(ws: seq<Write>, k: string)
  {
    exists w :: w in ws && w.key == k
  }

  /** Some write of `ws` targets `k` and may create it. */
  ghost predicate Inserts(ws: seq<Write>, k: string)
  {
    exists w :: w in ws && w.key == k && w.add
  }

  /** Every write of `ws` that targets `k` writes `v`. */
  ghost predicate AllWritesAre(ws: seq<Write>, k: string, v: string)
  {
    forall w :: w in ws && w.key == k ==> w.value == v
  }

  /** A write to another key leaves `k` as it was. */
  lemma StepElsewhere(m: map<string, string>, w: Write, refused: set<string>, k: string)
    requires w.key != k
    ensures Lookup(Step(m, w, refused), k) == Lookup(m, k)
  {
  }

  /** The first `k + 1` writes are the first `k` followed by one more step. */
  lemma ApplyAllTake(m: map<string, string>, ws: seq<Write>, k: nat, refused: set<string>)
    requires k < |ws|
    ensures ApplyAll(m, ws[..k + 1], refused) == Step(ApplyAll(m, ws[..k], refused), ws[k], refused)
  {
    assert ws[..k + 1][..k] == ws[..k];
  }

  /** Five writes are five steps. */
  lemma ApplyAllFive(m: map<string, string>, ws: seq<Write>, refused: set<string>)
    requires |ws| == 5
    ensures ApplyAll(m, ws, refused)
         == Step(Step(Step(Step(Step(m, ws[0], refused), ws[1], refused), ws[2], refused), ws[3], refused), ws[4], refused)
  {
    ApplyAllTake(m, ws, 0, refused);
    ApplyAllTake(m, ws, 1, refused);
    ApplyAllTake(m, ws, 2, refused);
    ApplyAllTake(m, ws, 3, refused);
    ApplyAllTake(m, ws, 4, refused);
    assert ws[..5] == ws;
  }

  lemma ApplyAllSnoc(m: map<string, string>, ws: seq<Write>, w: Write, refused: set<string>)
    ensures ApplyAll(m, ws + [w], refused) == Step(ApplyAll(m, ws, refused), w, refused)
  {
    assert (ws + [w])[..|ws|] == ws;
  }

  /** Applying two sequences one after the other is applying their concatenation. */
  lemma {:induction false} ApplyAllAppend(m: map<string, string>, a: seq<Write>, b: seq<Write>, refused: set<string>)
    ensures ApplyAll(m, a + b, refused) == ApplyAll(ApplyAll(m, a, refused), b, refused)
    decreases |b|
  {
    if |b| == 0 {
      assert a + b == a;
    } else {
      var b' := b[..|b| - 1];
      assert a + b == (a + b') + [b[|b| - 1]];
      assert b == b' + [b[|b| - 1]];
      ApplyAllSnoc(m, a + b', b[|b| - 1], refused);
      ApplyAllSnoc(ApplyAll(m, a, refused), b', b[|b| - 1], refused);
      ApplyAllAppend(m, a, b', refused);
    }
  }

  /** A key no write targets, or one the platform refuses, keeps its presence and value. */
  lemma {:induction false} ApplyAllUntouched(m: map<string, string>, ws: seq<Write>, refused: set<string>, k: string)
    requires k in refused || !Touches(ws, k)
    ensures Lookup(ApplyAll(m, ws, refused), k) == Lookup(m, k)
    decreases |ws|
  {
    if |ws| > 0 {
      var init := ws[..|ws| - 1];
      assert forall w :: w in init ==> w in ws;
      ApplyAllUntouched(m, init, refused, k);
      assert ws[|ws| - 1] in ws;
    }
  }

  /** Keys are never removed, and a key some accepted write may create is present afterwards. */
  lemma {:induction false} ApplyAllPresent(m: map<string, string>, ws: seq<Write>, refused: set<string>, k: string)
    requires k !in refused && (k in m || Inserts(ws, k))
    ensures k in ApplyAll(m, ws, refused)
    decreases |ws|
  {
    if |ws| > 0 {
      var init := ws[..|ws| - 1];
      var last := ws[|ws| - 1];
      assert forall w :: w in ws ==> w in init || w == last;
      if k in m || Inserts(init, k) {
        ApplyAllPresent(m, init, refused, k);
      }
    }
  }

  /**
   * When every write to `k` writes `v`, at least one write targets `k`, and
   * `k` either exists already or some write may create it, `k` ends up
   * holding `v` (unless the platform refuses `k`).
   */
  lemma {:induction false} ApplyAllAgreeing(m: map<string, string>, ws: seq<Write>, refused: set<string>, k: string, v: string)
    requires k !in refused && (k in m || Inserts(ws, k))
    requires Touches(ws, k) && AllWritesAre(ws, k, v)
    ensures Lookup(ApplyAll(m, ws, refused), k) == Some(v)
    decreases |ws|
  {
    var init := ws[..|ws| - 1];
    var last := ws[|ws| - 1];
    assert forall w :: w in ws ==> w in init || w == last;
    assert forall w :: w in init ==> w in ws;
    assert last in ws;
    if last.key == k {
      if !last.add {
        ApplyAllPresent(m, init, refused, k);
      }
    } else {
      ApplyAllAgreeing(m, init, refused, k, v);
    }
  }

  /** When exactly one write of `ws` targets its key and may create it, that key ends up holding its value. */
  lemma ApplyAllSole(m: map<string, string>, ws: seq<Write>, refused: set<string>, j: nat)
    requires j < |ws| && ws[j].add && ws[j].key !in refused
    requires forall i :: 0 <= i < |ws| && ws[i].key == ws[j].key ==> i == j
    ensures Lookup(ApplyAll(m, ws, refused), ws[j].key) == Some(ws[j].value)
  {
    assert ws[j] in ws;
    forall w | w in ws && w.key == ws[j].key
      ensures w.value == ws[j].value
    {
      var i :| 0 <= i < |ws| && ws[i] == w;
    }
    ApplyAllAgreeing(m, ws, refused, ws[j].key, ws[j].value);
  }

  /** A key no write of `ws` names, by index, keeps its presence and value. */
  lemma ApplyAllMisses(m: map<string, string>, ws: seq<Write>, refused: set<string>, k: string)
    requires forall i :: 0 <= i < |ws| ==> ws[i].key != k
    ensures Lookup(ApplyAll(m, ws, refused), k) == Lookup(m, k)
  {
    forall w | w in ws
      ensures w.key != k
    {
      var i :| 0 <= i < |ws| && ws[i] == w;
    }
    ApplyAllUntouched(m, ws, refused, k);
  }

  /** A key that is absent and that no write may create stays absent. */
  lemma {:induction false} ApplyAllNeverInserts(m: map<string, string>, ws: seq<Write>, refused: set<string>, k: string)
    requires k !in m && !Inserts(ws, k)
    ensures k !in ApplyAll(m, ws, refused)
    decreases |ws|
  {
    if |ws| > 0 {
      var init := ws[..|ws| - 1];
      assert forall w :: w in init ==> w in ws;
      ApplyAllNeverInserts(m, init, refused, k);
      assert ws[|ws| - 1] in ws;
    }
  }

  /** Keys are never removed. */
  lemma {:induction false} ApplyAllKeepsKeys(m: map<string, string>, ws: seq<Write>, refused: set<string>)
    ensures m.Keys <= ApplyAll(m, ws, refused).Keys
    decreases |ws|
  {
    if |ws| > 0 {
      ApplyAllKeepsKeys(m, ws[..|ws| - 1], refused);
    }
  }

  /** The value of the last write of `ws` that targets `k`. */
  function LastValue(ws: seq<Write>, k: string): (r: string)
    requires Touches(ws, k)
    decreases |ws|
  {
    var last := ws[|ws| - 1];
    if last.key == k then last.value
    else
      assert Touches(ws[..|ws| - 1], k) by {
        var w :| w in ws && w.key == k;
        assert w in ws[..|ws| - 1] || w == last;
      }
      LastValue(ws[..|ws| - 1], k)
  }

  /** A key that is present at the end and that some write targets holds the value of the last such write. */
  lemma {:induction false} ApplyAllLastWins(m: map<string, string>, ws: seq<Write>, refused: set<string>, k: string)
    requires k !in refused && Touches(ws, k) && k in ApplyAll(m, ws, refused)
    ensures ApplyAll(m, ws, refused)[k] == LastValue(ws, k)
    decreases |ws|
  {
    var init := ws[..|ws| - 1];
    var last := ws[|ws| - 1];
    if last.key != k {
      var w :| w in ws && w.key == k;
      assert w in init || w == last;
      ApplyAllLastWins(m, init, refused, k);
    }
  }

  /**
   * Applying the same writes a second time changes nothing: every key is
   * either left as it was, or holds the value of its last write, which the
   * second pass writes again.
   */
  lemma ApplyAllIdempotent(m: map<string, string>, ws: seq<Write>, refused: set<string>)
    ensures ApplyAll(ApplyAll(m, ws, refused), ws, refused) == ApplyAll(m, ws, refused)
  {
    var r := ApplyAll(m, ws, refused);
    var r2 := ApplyAll(r, ws, refused);
    forall k
      ensures Lookup(r2, k) == Lookup(r, k)
    {
      if k in refused || !Touches(ws, k) {
        ApplyAllUntouched(r, ws, refused, k);
      } else if k in r {
        ApplyAllPresent(r, ws, refused, k);
        ApplyAllLastWins(m, ws, refused, k);
        ApplyAllLastWins(r, ws, refused, k);
      } else {
        if Inserts(ws, k) {
          ApplyAllPresent(m, ws, refused, k);
        }
        ApplyAllNeverInserts(r, ws, refused, k);
      }
    }
    assert r2.Keys == r.Keys by {
      forall k ensures k in r2 <==> k in r {
        assert Lookup(r2, k) == Lookup(r, k);
      }
    }
    forall k | k in r
      ensures r2[k] == r[k]
    {
      assert Lookup(r2, k) == Lookup(r, k);
    }
  }

  /**
   * The property store: the live table of properties and the keys the
   * platform refuses to write.
   */
  class PropertyStore {
    var props: map<string, string>
    /** Keys for which `__system_property_update` and `__system_property_add` return non-zero. */
    const refused: set<string>

    constructor (props0: map<string, string>, refused0: set<string>)
      ensures props == props0 && refused == refused0
    {
      props := props0;
      refused := refused0;
    }

    /** `__system_property_update` on a property `__system_property_find` located; 0 means success. */
    method PlatformUpdate(prop: string, value: string) returns (result: int)
      requires prop in props
      modifies this`props
      ensures result == 0 <==> prop !in refused
      ensures props == if result == 0 then old(props)[prop := value] else old(props)
    {
      if prop in refused {
        result := -1;
      } else {
        result := 0;
        props := props[prop := value];
      }
    }

    /** `__system_property_add` for a property `__system_property_find` did not locate; 0 means success. */
    method PlatformAdd(prop: string, value: string) returns (result: int)
      requires prop !in props
      modifies this`props
      ensures result == 0 <==> prop !in refused
      ensures props == if result == 0 then old(props)[prop := value] else old(props)
    {
      if prop in refused {
        result := -1;
      } else {
        result := 0;
        props := props[prop := value];
      }
    }

    /**
     * `property_override(prop, value, add)`: update the key if it exists,
     * otherwise insert it when `add` holds. A failing platform call is only
     * logged by the source, so the store then stays as it was.
     */
    method Override(prop: string, value: string, add: bool)
      modifies this
      ensures props == Step(old(props), Write(prop, value, add), refused)
    {
      if prop in props {
        var result := PlatformUpdate(prop, value);
      } else if add {
        var result := PlatformAdd(prop, value);
      }
    }

    /**
     * `property_override_new(prop, value)`: update the key only if it
     * exists; a missing key is reported and never created.
     */
    method OverrideNew(prop: string, value: string)
      modifies this
      ensures props == Step(old(props), Write(prop, value, false), refused)
    {
      if prop in props {
        var result := PlatformUpdate(prop, value);
      }
    }
  }
}
