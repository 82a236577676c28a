// The reflection half of CodeOverview.ScanProjectScripts: tallies of
// interfaces and classes, the classes split by whether they derive from
// MonoBehaviour. A live `System.Type` is replaced by a descriptor that carries
// its flags and its finite chain of base types.
module TypeScan {

  type TypeId = string

  const MonoBehaviour: TypeId := "UnityEngine.MonoBehaviour"

  /** A project type: `ancestors` lists its base types, the immediate base
    * first and the root last (the chain `BaseType` walks until null). */
  datatype TypeInfo = TypeInfo(name: TypeId, isInterface: bool, isClass: bool, ancestors: seq<TypeId>)

  /** CodeOverview.InheritsMonoBehaviour: walks up the base-type chain and
    * reports whether MonoBehaviour is met on the way. */
  method InheritsMonoBehaviour(t: TypeInfo) returns (r: bool)
    ensures r <==> MonoBehaviour in t.ancestors
  {
    // `i` is the number of steps taken up the chain: the current type is
    // `t` when i == 0 and t.ancestors[i - 1] otherwise, so its base is
    // t.ancestors[i], and the walk ends when the current type has no base.
    var i := 0;
    while i < |t.ancestors|
      invariant 0 <= i <= |t.ancestors|
      invariant MonoBehaviour !in t.ancestors[..i]
    {
      if t.ancestors[i] == MonoBehaviour {
        return true;
      }
      assert t.ancestors[..i + 1] == t.ancestors[..i] + [t.ancestors[i]];
      i := i + 1;
    }
    assert t.ancestors[..i] == t.ancestors;
    return false;
  }

  /** A class counts as a MonoBehaviour when MonoBehaviour is among its
    * base types. */
  predicate DerivesFromMonoBehaviour(t: TypeInfo) {
    MonoBehaviour in t.ancestors
  }

  /** The chain is strict: a type with no base, and MonoBehaviour itself
    * with its own chain of Unity bases, do not derive from MonoBehaviour; a
    * direct subclass does. */
  lemma DerivesExamples()
    ensures !DerivesFromMonoBehaviour(TypeInfo("System.Object", false, true, []))
    ensures !DerivesFromMonoBehaviour(TypeInfo(MonoBehaviour, false, true,
              ["UnityEngine.Behaviour", "UnityEngine.Component", "UnityEngine.Object", "System.Object"]))
    ensures DerivesFromMonoBehaviour(TypeInfo("Player", false, true,
              [MonoBehaviour, "UnityEngine.Behaviour", "UnityEngine.Component", "UnityEngine.Object", "System.Object"]))
  {
    var chain: seq<TypeId> := ["UnityEngine.Behaviour", "UnityEngine.Component", "UnityEngine.Object", "System.Object"];
    assert chain[0] != MonoBehaviour by { assert chain[0][12] != MonoBehaviour[12]; }
    assert chain[1] != MonoBehaviour by { assert |chain[1]| != |MonoBehaviour|; }
    assert chain[2] != MonoBehaviour by { assert |chain[2]| != |MonoBehaviour|; }
    assert chain[3] != MonoBehaviour by { assert |chain[3]| != |MonoBehaviour|; }
    assert ([MonoBehaviour] + chain)[0] == MonoBehaviour;
  }

  // The four counters after the loop over `types`, from zero. An interface
  // and a class are counted by two independent tests, and a class goes to
  // exactly one of the two MonoBehaviour counters.

  function InterfaceCount(types: seq<TypeInfo>): nat {
    if |types| == 0 then 0
    else InterfaceCount(types[..|types| - 1]) + (if types[|types| - 1].isInterface then 1 else 0)
  }

  function ClassCount(types: seq<TypeInfo>): nat {
    if |types| == 0 then 0
    else ClassCount(types[..|types| - 1]) + (if types[|types| - 1].isClass then 1 else 0)
  }

  function MonoBehaviourCount(types: seq<TypeInfo>): nat {
    if |types| == 0 then 0
    else
      var t := types[|types| - 1];
      MonoBehaviourCount(types[..|types| - 1]) + (if t.isClass && DerivesFromMonoBehaviour(t) then 1 else 0)
  }

  function NonMonoBehaviourCount(types: seq<TypeInfo>): nat {
    if |types| == 0 then 0
    else
      var t := types[|types| - 1];
      NonMonoBehaviourCount(types[..|types| - 1]) + (if t.isClass && !DerivesFromMonoBehaviour(t) then 1 else 0)
  }

  /** Every class is either a MonoBehaviour or a non-MonoBehaviour, and no
    * counter exceeds the number of types. */
  lemma {:induction false} ClassCountSplit(types: seq<TypeInfo>)
    ensures ClassCount(types) == MonoBehaviourCount(types) + NonMonoBehaviourCount(types)
    ensures InterfaceCount(types) <= |types| && ClassCount(types) <= |types|
  {
    if |types| > 0 {
      ClassCountSplit(types[..|types| - 1]);
    }
  }

  /** Each counter of a concatenation is the sum of the counters of its
    * parts: a type is counted on its own, whatever its position. */
  lemma {:induction false} CountsAppend(xs: seq<TypeInfo>, ys: seq<TypeInfo>)
    ensures InterfaceCount(xs + ys) == InterfaceCount(xs) + InterfaceCount(ys)
    ensures ClassCount(xs + ys) == ClassCount(xs) + ClassCount(ys)
    ensures MonoBehaviourCount(xs + ys) == MonoBehaviourCount(xs) + MonoBehaviourCount(ys)
    ensures NonMonoBehaviourCount(xs + ys) == NonMonoBehaviourCount(xs) + NonMonoBehaviourCount(ys)
    decreases |ys|
  {
    if |ys| == 0 {
      assert xs + ys == xs;
    } else {
      var n := |ys| - 1;
      var zs := xs + ys;
      assert zs[..|zs| - 1] == xs + ys[..n];
      assert zs[|zs| - 1] == ys[n];
      CountsAppend(xs, ys[..n]);
    }
  }

  /** A type that is neither an interface nor a class changes no counter. */
  lemma OtherKindIgnored(types: seq<TypeInfo>, t: TypeInfo)
    requires !t.isInterface && !t.isClass
    ensures InterfaceCount(types + [t]) == InterfaceCount(types)
    ensures ClassCount(types + [t]) == ClassCount(types)
    ensures MonoBehaviourCount(types + [t]) == MonoBehaviourCount(types)
    ensures NonMonoBehaviourCount(types + [t]) == NonMonoBehaviourCount(types)
  {
    assert (types + [t])[..|types|] == types;
  }

  /** A corpus of one interface, one MonoBehaviour subclass and one plain
    * class counts 1 interface and 2 classes, split 1 and 1. */
  lemma MixedCorpusExample(iFoo: TypeInfo, player: TypeInfo, util: TypeInfo)
    requires iFoo.isInterface && !iFoo.isClass
    requires player.isClass && !player.isInterface && MonoBehaviour in player.ancestors
    requires util.isClass && !util.isInterface && MonoBehaviour !in util.ancestors
    ensures InterfaceCount([iFoo, player, util]) == 1
    ensures ClassCount([iFoo, player, util]) == 2
    ensures MonoBehaviourCount([iFoo, player, util]) == 1
    ensures NonMonoBehaviourCount([iFoo, player, util]) == 1
  {
    var one := [iFoo];
    var two := [iFoo, player];
    var ts := [iFoo, player, util];
    assert one[..0] == [] && two[..1] == one && ts[..2] == two;
    assert InterfaceCount(one) == 1 && ClassCount(one) == 0;
    assert MonoBehaviourCount(one) == 0 && NonMonoBehaviourCount(one) == 0;
    assert InterfaceCount(two) == 1 && ClassCount(two) == 1;
    assert MonoBehaviourCount(two) == 1 && NonMonoBehaviourCount(two) == 0;
  }
}
