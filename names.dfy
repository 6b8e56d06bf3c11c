/**
 * The property names built by the `ro_prop_override` lambda inside
 * `load_props` (init/init_davinci.cpp).
 */
module Names {
  import opened Wrappers

  /** What a partition prefix contributes to a name: nothing for `nullptr`. */
  function SourceText(source: Option<string>): (r: string)
  {
    match source
    case None => ""
    case Some(s) => s
  }

  /**
   * The name the lambda builds: "ro.product.<prefix><prop>" for the product
   * family, "ro.<prefix>build.<prop>" otherwise; a missing prefix contributes
   * nothing.
   */
  function PropName(source: Option<string>, prop: string, product: bool): (r: string)
  {
    if product then "ro.product." + SourceText(source) + prop
    else "ro." + SourceText(source) + "build." + prop
  }

  /** Two prefixes give the same name for the same property only when they contribute the same text. */
  lemma PropNameInjective(s1: Option<string>, s2: Option<string>, prop: string, product: bool)
    requires PropName(s1, prop, product) == PropName(s2, prop, product)
    ensures SourceText(s1) == SourceText(s2)
  {
    var t1, t2 := SourceText(s1), SourceText(s2);
    var head := if product then "ro.product." else "ro.";
    var tail := if product then prop else "build." + prop;
    assert PropName(s1, prop, product) == head + t1 + tail;
    assert PropName(s2, prop, product) == head + t2 + tail;
    assert |t1| == |t2|;
    assert t1 == (head + t1 + tail)[|head|..|head| + |t1|];
    assert t2 == (head + t2 + tail)[|head|..|head| + |t2|];
  }

  /**
   * The last two characters of a name. Names that end differently are
   * different names; the proofs about `load_props` use this to keep the
   * families of generated names apart.
   */
  function Ending(name: string): (e: (char, char))
  {
    if |name| < 2 then ('\0', '\0') else (name[|name| - 2], name[|name| - 1])
  }

  lemma EndingOfAppend(a: string, x: string)
    requires |x| >= 2
    ensures Ending(a + x) == Ending(x)
  {
  }
}
