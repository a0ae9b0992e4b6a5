/**
 * The catalog of installed interpreters (`installed_pythons[]`), the order
 * `qsort` puts it in (`compare_pythons`) and the search for a requested
 * version (`find_python_by_version`).  The catalog itself comes from the
 * registry and is an input here.
 */
module Catalog {
  import opened Wrappers
  import opened Wide

  /** INSTALLED_PYTHON: a registered interpreter, its version tag ("2.7", "3.2"), word size and path. */
  datatype Installed = Installed(version: WString, bits: int, executable: WString)

  /** The catalog order of the console launcher: higher versions first, then 64-bit before 32-bit. */
  predicate Precedes(p1: Installed, p2: Installed) {
    LexLess(p2.version, p1.version) || (p1.version == p2.version && p1.bits > p2.bits)
  }

  /** `compare_pythons` of the console launcher and the associator. */
  function ComparePythons(p1: Installed, p2: Installed): (r: int)
    ensures r < 0 <==> Precedes(p1, p2)
    ensures r > 0 <==> Precedes(p2, p1)
    ensures r == 0 <==> p1.version == p2.version && p1.bits == p2.bits
  {
    var result := WcsCmp(p2.version, p1.version);
    if result == 0 then p2.bits - p1.bits else result
  }

  /** `compare_pythons` of the GUI launcher: the version alone, descending. */
  function GuiComparePythons(p1: Installed, p2: Installed): (r: int)
    ensures r < 0 <==> LexLess(p2.version, p1.version)
    ensures r > 0 <==> LexLess(p1.version, p2.version)
    ensures r == 0 <==> p1.version == p2.version
  {
    WcsCmp(p2.version, p1.version)
  }

  /** The catalog order is a strict order, as `qsort` needs: irreflexive and transitive. */
  lemma PrecedesIsStrictOrder(p1: Installed, p2: Installed, p3: Installed)
    ensures !Precedes(p1, p1)
    ensures Precedes(p1, p2) && Precedes(p2, p3) ==> Precedes(p1, p3)
  {
    assert WcsCmp(p1.version, p1.version) == 0;
    if Precedes(p1, p2) && Precedes(p2, p3) {
      if LexLess(p2.version, p1.version) && LexLess(p3.version, p2.version) {
        LexLessTransitive(p3.version, p2.version, p1.version);
      }
    }
  }

  /** Any two entries are either ordered one way or the other, or tie in both version and bits. */
  lemma PrecedesIsTotal(p1: Installed, p2: Installed)
    ensures Precedes(p1, p2) || Precedes(p2, p1) || (p1.version == p2.version && p1.bits == p2.bits)
  {
    var _ := ComparePythons(p1, p2);
  }

  /** The catalog as `qsort` leaves it. */
  predicate Sorted(cat: seq<Installed>) {
    forall i, j | 0 <= i < j < |cat| :: ComparePythons(cat[i], cat[j]) <= 0
  }

  /**
   * The test of `find_python_by_version`: the version and the wanted tag
   * agree on as many units as the shorter of them has.
   */
  predicate Agrees(version: WString, wanted: WString) {
    var n := if |version| < |wanted| then |version| else |wanted|;
    AgreeUpTo(version, wanted, n)
  }

  /** Agreement means that one of the two is a prefix of the other. */
  lemma AgreesIsPrefixEitherWay(version: WString, wanted: WString)
    ensures Agrees(version, wanted) <==> StartsWith(version, wanted) || StartsWith(wanted, version)
  {
  }

  /** A major version matches every release of it, and a bit-size tag matches its release. */
  lemma AgreesExamples()
    ensures Agrees(Lit("3.2"), Lit("3"))
    ensures Agrees(Lit("2.7"), Lit("2.7-32"))
    ensures !Agrees(Lit("2.7"), Lit("3"))
    ensures Agrees(Lit("2.7"), [])
  {
    assert Lit("3.2")[..1] == Lit("3");
    assert Lit("2.7-32")[..3] == Lit("2.7");
    assert Take(Lit("2.7"), 1)[0] != Take(Lit("3"), 1)[0];
  }

  /** The index of the first entry at or after `i` that agrees with `wanted`. */
  function FirstAgreeing(cat: seq<Installed>, wanted: WString, i: nat): (r: Option<nat>)
    requires i <= |cat|
    ensures r.Some? ==> i <= r.value < |cat| && Agrees(cat[r.value].version, wanted)
    ensures r.Some? ==> forall j | i <= j < r.value :: !Agrees(cat[j].version, wanted)
    ensures r.None? <==> forall j | i <= j < |cat| :: !Agrees(cat[j].version, wanted)
    decreases |cat| - i
  {
    if i == |cat| then None
    else if Agrees(cat[i].version, wanted) then Some(i)
    else FirstAgreeing(cat, wanted, i + 1)
  }

  /** `find_python_by_version`: the index of the first agreeing catalog entry, if any. */
  method FindPythonByVersion(cat: seq<Installed>, wanted: WString) returns (r: Option<nat>)
    ensures r == FirstAgreeing(cat, wanted, 0)
  {
    var wlen := |wanted|;
    var i := 0;
    while i < |cat|
      invariant 0 <= i <= |cat|
      invariant FirstAgreeing(cat, wanted, i) == FirstAgreeing(cat, wanted, 0)
    {
      var n := |cat[i].version|;
      if n > wlen {
        n := wlen;
      }
      var agree := AgreeUpTo(cat[i].version, wanted, n);
      assert agree == Agrees(cat[i].version, wanted);
      if agree {
        return Some(i);
      }
      i := i + 1;
    }
    return None;
  }

  /**
   * In a sorted catalog the entry found has the highest version among all
   * entries that agree with the wanted tag, and among entries of that same
   * version the largest word size.
   */
  lemma {:induction false} FoundEntryIsHighest(cat: seq<Installed>, wanted: WString, j: nat)
    requires Sorted(cat)
    requires FirstAgreeing(cat, wanted, 0).Some?
    requires j < |cat| && Agrees(cat[j].version, wanted)
    ensures var k := FirstAgreeing(cat, wanted, 0).value;
      !Precedes(cat[j], cat[k])
  {
    var k := FirstAgreeing(cat, wanted, 0).value;
    if j > k {
      assert ComparePythons(cat[k], cat[j]) <= 0;
      PrecedesIsStrictOrder(cat[k], cat[j], cat[k]);
    } else if j == k {
      PrecedesIsStrictOrder(cat[j], cat[j], cat[j]);
    }
  }
}
