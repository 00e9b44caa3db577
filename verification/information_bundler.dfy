/**
 The `InformationBundler` registry. It holds:
 - basic bundles, each a name mapped to a helper table;
 - supplementary bundles, each a list of required basic-bundle names with a
   helper table (a general bundle requires none);
 - the global helper pool, where the last writer wins;
 - the subscriptions associated with each basic bundle.
 It also resolves a list of bundle names to the subscriptions and helpers
 they imply.
 */
module InformationBundler {
  import opened Common

  /** A template helper, by identity. */
  datatype Helper = Helper(id: nat)

  type Helpers = map<string, Helper>

  /** A supplementary bundle, as pushed onto `suppBundles`. */
  datatype Supplementary = Supplementary(names: seq<string>, helpers: Helpers)

  /** One `associateSubscription` entry. */
  datatype Association = Association(subName: string, args: seq<ArgSpec>, options: Value)

  datatype Bundler = Bundler(
    basic: map<string, Helpers>,              // infoBundles
    supplementary: seq<Supplementary>,        // suppBundles
    pool: Helpers,                            // globalHelperPool
    associations: map<string, seq<Association>>, // subAssociations
    subNames: seq<string>)                    // subNames, never appended to

  datatype BundlerError =
    | InvalidHelpers
    | InvalidBundleNames
    | UndeclaredBundleName(name: string)
    | RepeatedSubName(name: string)

  datatype Result<T> = Ok(value: T) | Err(error: BundlerError)

  function Empty(): (b: Bundler)
    ensures Inv(b) && b.basic == map[] && b.supplementary == [] && b.pool == map[]
  {
    Bundler(map[], [], map[], map[], [])
  }

  /** Every reachable registry: the subscription-name list stays empty and
      every supplementary bundle requires declared basic bundles only. */
  ghost predicate Inv(b: Bundler) {
    && b.subNames == []
    && forall j, n :: 0 <= j < |b.supplementary| && n in b.supplementary[j].names ==> n in b.basic
  }

  /** `!!infoBundles[name]` for a name the program stored: a helper table is
      an object and so truthy. The registry is a plain object, so a name of
      an `Object.prototype` member also reads as declared there; this
      predicate counts only stored names. */
  predicate Declared(b: Bundler, name: string) {
    name in b.basic
  }

  /** `checkBundleNames`: the first name, in order, with no basic bundle. */
  function FirstUndeclared(b: Bundler, names: seq<string>): (r: Option<string>)
    ensures r.None? <==> forall k :: 0 <= k < |names| ==> Declared(b, names[k])
    ensures r.Some? ==> exists k :: 0 <= k < |names| && names[k] == r.value
                                    && !Declared(b, names[k])
                                    && forall m :: 0 <= m < k ==> Declared(b, names[m])
  {
    if names == [] then None
    else if !Declared(b, names[0]) then Some(names[0])
    else
      var r := FirstUndeclared(b, names[1..]);
      assert forall k :: 0 < k < |names| ==> names[k] == names[1..][k - 1];
      if r.Some? then
        var k :| 0 <= k < |names[1..]| && names[1..][k] == r.value && !Declared(b, names[1..][k])
                 && forall m :: 0 <= m < k ==> Declared(b, names[1..][m]);
        assert names[k + 1] == r.value;
        r
      else r
  }

  /** `checkBundleNames`: throws on the first undeclared name, in order. */
  function CheckBundleNames(b: Bundler, names: seq<string>): (r: Result<()>)
    ensures r.Ok? <==> forall k :: 0 <= k < |names| ==> Declared(b, names[k])
    ensures r.Err? ==> r.error.UndeclaredBundleName? && r.error.name in names
    ensures r.Err? ==> exists k :: && 0 <= k < |names| && names[k] == r.error.name
                                   && !Declared(b, names[k])
                                   && forall m :: 0 <= m < k ==> Declared(b, names[m])
  {
    match FirstUndeclared(b, names)
    case None => Ok(())
    case Some(n) => Err(UndeclaredBundleName(n))
  }

  /** `addBasicInformationBundle`. `helpers` is `None` when the argument is
      not an object. A new name stores the table. An existing name merges
      it, the new keys overwriting. Every helper also enters the global
      pool. */
  function AddBasic(b: Bundler, name: string, helpers: Option<Helpers>): (r: Result<Bundler>)
    ensures helpers.None? <==> r == Err(InvalidHelpers)
    ensures r.Ok? ==>
      var h := helpers.value;
      && r.value.basic.Keys == b.basic.Keys + {name}
      && (forall n :: n in b.basic && n != name ==> r.value.basic[n] == b.basic[n])
      && (forall k :: k in r.value.basic[name] <==> k in h || (name in b.basic && k in b.basic[name]))
      && (forall k :: k in h ==> r.value.basic[name][k] == h[k])
      && (forall k :: name in b.basic && k in b.basic[name] && k !in h ==> r.value.basic[name][k] == b.basic[name][k])
      && (forall n :: GetHelper(r.value, n) == if n in h then Some(h[n]) else GetHelper(b, n))
      && r.value.supplementary == b.supplementary && r.value.associations == b.associations
      && r.value.subNames == b.subNames
  {
    match helpers
    case None => Err(InvalidHelpers)
    case Some(h) =>
      var merged := if name in b.basic then b.basic[name] + h else h;
      Ok(b.(basic := b.basic[name := merged], pool := b.pool + h))
  }

  /** `addSupplementaryInformationBundle`. The checks run in this order:
      helpers, then the names argument, then the declared names. On success
      the bundle is appended and its helpers enter the global pool. */
  function AddSupplementary(b: Bundler, names: Option<seq<string>>, helpers: Option<Helpers>): (r: Result<Bundler>)
    ensures helpers.None? ==> r == Err(InvalidHelpers)
    ensures helpers.Some? && names.None? ==> r == Err(InvalidBundleNames)
    ensures helpers.Some? && names.Some? ==>
      && (r.Ok? <==> CheckBundleNames(b, names.value).Ok?)
      && (r.Err? ==> r == Err(CheckBundleNames(b, names.value).error))
    ensures r.Ok? ==>
      && r.value.supplementary == b.supplementary + [Supplementary(names.value, helpers.value)]
      && (forall n :: GetHelper(r.value, n) == if n in helpers.value then Some(helpers.value[n]) else GetHelper(b, n))
      && r.value.basic == b.basic && r.value.associations == b.associations
      && r.value.subNames == b.subNames
  {
    if helpers.None? then Err(InvalidHelpers)
    else if names.None? then Err(InvalidBundleNames)
    else
      match CheckBundleNames(b, names.value)
      case Err(e) => Err(e)
      case Ok(_) =>
        Ok(b.(supplementary := b.supplementary + [Supplementary(names.value, helpers.value)],
              pool := b.pool + helpers.value))
  }

  /** `addGeneralInformationBundle`: a supplementary bundle that requires
      no names, and so never fails on names. */
  function AddGeneral(b: Bundler, helpers: Option<Helpers>): (r: Result<Bundler>)
    ensures helpers.None? <==> r == Err(InvalidHelpers)
    ensures r.Ok? ==> r.value.supplementary == b.supplementary + [Supplementary([], helpers.value)]
  {
    AddSupplementary(b, Some([]), helpers)
  }

  /** `getHelper(name)`: the pool entry, if any. Like `Declared`, it sees
      only stored names, not the pool object's inherited members. */
  function GetHelper(b: Bundler, name: string): (h: Option<Helper>)
    ensures h.Some? <==> name in b.pool
    ensures h.Some? ==> h.value == b.pool[name]
  {
    if name in b.pool then Some(b.pool[name]) else None
  }

  /** Every element of `candidate` occurs in `pool`. */
  predicate Contains(pool: seq<string>, candidate: seq<string>) {
    forall i :: 0 <= i < |candidate| ==> candidate[i] in pool
  }

  /** `arr1ContainsArr2(pool, candidate)`: stops at the first missing
      element; true for an empty candidate. */
  method Arr1ContainsArr2(pool: seq<string>, candidate: seq<string>) returns (b: bool)
    ensures b <==> Contains(pool, candidate)
  {
    var i := 0;
    while i < |candidate|
      invariant 0 <= i <= |candidate|
      invariant forall m :: 0 <= m < i ==> candidate[m] in pool
    {
      if candidate[i] !in pool {
        return false;
      }
      i := i + 1;
    }
    return true;
  }

  /** `associateSubscription`: the bundle must be declared; the
      subscription is appended to the bundle's list. */
  function Associate(b: Bundler, bundle: string, subName: string, args: seq<ArgSpec>, options: Value): (r: Result<Bundler>)
    ensures !Declared(b, bundle) ==> r == Err(UndeclaredBundleName(bundle))
    ensures Declared(b, bundle) && subName in b.subNames ==> r == Err(RepeatedSubName(subName))
    ensures r.Ok? ==>
      && bundle in r.value.associations
      && r.value.associations[bundle]
           == (if bundle in b.associations then b.associations[bundle] else []) + [Association(subName, args, options)]
      && (forall n :: n in b.associations && n != bundle ==>
            n in r.value.associations && r.value.associations[n] == b.associations[n])
      && r.value.associations.Keys == b.associations.Keys + {bundle}
      && r.value.basic == b.basic && r.value.supplementary == b.supplementary
      && r.value.pool == b.pool && r.value.subNames == b.subNames
  {
    if !Declared(b, bundle) then Err(UndeclaredBundleName(bundle))
    else if subName in b.subNames then Err(RepeatedSubName(subName))
    else
      var list := if bundle in b.associations then b.associations[bundle] else [];
      Ok(b.(associations := b.associations[bundle := list + [Association(subName, args, options)]]))
  }

  /** The associations of `names`, concatenated in name order. */
  function AssociationsOf(b: Bundler, names: seq<string>): seq<Association>
  {
    if names == [] then []
    else
      var last := names[|names| - 1];
      AssociationsOf(b, names[..|names| - 1])
      + (if last in b.associations then b.associations[last] else [])
  }

  /** `subscriptionsUsed(names)`: after the name check, each bundle's
      associations in requested-name order, each list in insertion order. */
  function SubscriptionsUsed(b: Bundler, names: seq<string>): (r: Result<seq<Association>>)
    ensures r.Err? <==> CheckBundleNames(b, names).Err?
    ensures r.Err? ==> r.error == CheckBundleNames(b, names).error
    ensures r.Ok? ==> r.value == AssociationsOf(b, names)
  {
    match CheckBundleNames(b, names)
    case Err(e) => Err(e)
    case Ok(_) => Ok(AssociationsOf(b, names))
  }

  /** Requesting `a` then `b` yields the subscriptions of `a` followed by
      those of `b`. */
  lemma {:induction false} AssociationsOfAppend(bd: Bundler, a: seq<string>, b: seq<string>)
    ensures AssociationsOf(bd, a + b) == AssociationsOf(bd, a) + AssociationsOf(bd, b)
  {
    if b == [] {
      assert a + b == a;
    } else {
      var init := b[..|b| - 1];
      assert (a + b)[..|a + b| - 1] == a + init;
      assert (a + b)[|a + b| - 1] == b[|b| - 1];
      AssociationsOfAppend(bd, a, init);
    }
  }

  /** A bundle with no associations contributes nothing, and every
      association of a requested bundle is returned. */
  lemma {:induction false} AssociationsOfMembers(bd: Bundler, names: seq<string>, x: Association)
    ensures x in AssociationsOf(bd, names) <==>
              exists k :: 0 <= k < |names| && names[k] in bd.associations && x in bd.associations[names[k]]
  {
    if names != [] {
      var init := names[..|names| - 1];
      var last := names[|names| - 1];
      AssociationsOfMembers(bd, init, x);
      if x in AssociationsOf(bd, names) && x !in AssociationsOf(bd, init) {
        assert last in bd.associations && x in bd.associations[last];
      }
      if exists k :: 0 <= k < |names| && names[k] in bd.associations && x in bd.associations[names[k]] {
        var k :| 0 <= k < |names| && names[k] in bd.associations && x in bd.associations[names[k]];
        if k < |names| - 1 {
          assert init[k] == names[k];
        }
      }
    }
  }

  /** Union of helper tables, later tables overwriting earlier ones. */
  function UnionAll(ms: seq<Helpers>): Helpers {
    if ms == [] then map[] else UnionAll(ms[..|ms| - 1]) + ms[|ms| - 1]
  }

  /** A key is in the union iff some table has it. */
  lemma {:induction false} UnionAllKeys(ms: seq<Helpers>, k: string)
    ensures k in UnionAll(ms) <==> exists i :: 0 <= i < |ms| && k in ms[i]
  {
    if ms != [] {
      var init := ms[..|ms| - 1];
      UnionAllKeys(init, k);
      if exists i :: 0 <= i < |init| && k in init[i] {
        var i :| 0 <= i < |init| && k in init[i];
        assert ms[i] == init[i];
      }
      if exists i :: 0 <= i < |ms| && k in ms[i] {
        var i :| 0 <= i < |ms| && k in ms[i];
        if i < |ms| - 1 { assert init[i] == ms[i]; }
      }
    }
  }

  /** The union holds, under each key, the value of the last table that
      has the key. */
  lemma {:induction false} UnionAllLastWins(ms: seq<Helpers>, i: nat, k: string)
    requires i < |ms| && k in ms[i]
    requires forall j :: i < j < |ms| ==> k !in ms[j]
    ensures k in UnionAll(ms) && UnionAll(ms)[k] == ms[i][k]
  {
    if i < |ms| - 1 {
      var init := ms[..|ms| - 1];
      assert forall j :: i < j < |init| ==> init[j] == ms[j];
      UnionAllLastWins(init, i, k);
    }
  }

  lemma UnionAllSingleton(h: Helpers)
    ensures UnionAll([h]) == h
  {
    assert [h][..0] == [];
  }

  lemma {:induction false} UnionAllAppend(a: seq<Helpers>, b: seq<Helpers>)
    ensures UnionAll(a + b) == UnionAll(a) + UnionAll(b)
  {
    if b == [] {
      assert a + b == a;
    } else {
      var init := b[..|b| - 1];
      assert (a + b)[..|a + b| - 1] == a + init;
      assert (a + b)[|a + b| - 1] == b[|b| - 1];
      UnionAllAppend(a, init);
    }
  }

  /** The helper tables of the requested basic bundles, in request order. */
  function BasicTables(b: Bundler, names: seq<string>): (ts: seq<Helpers>)
    requires forall k :: 0 <= k < |names| ==> names[k] in b.basic
    ensures |ts| == |names| && forall k :: 0 <= k < |names| ==> ts[k] == b.basic[names[k]]
  {
    seq(|names|, k requires 0 <= k < |names| => b.basic[names[k]])
  }

  /** The helper tables of the supplementary bundles whose required names
      are all requested, in insertion order. */
  function ApplicableTables(supp: seq<Supplementary>, names: seq<string>): seq<Helpers> {
    if supp == [] then []
    else
      var last := supp[|supp| - 1];
      ApplicableTables(supp[..|supp| - 1], names) + (if Contains(names, last.names) then [last.helpers] else [])
  }

  /** `helpersUsed(names)`: after the name check, the union of the
      requested basic bundles, then of every applicable supplementary bundle. */
  method HelpersUsed(b: Bundler, names: seq<string>) returns (r: Result<Helpers>)
    ensures r.Err? <==> CheckBundleNames(b, names).Err?
    ensures r.Err? ==> r.error == CheckBundleNames(b, names).error
    ensures r.Ok? ==> r.value == UnionAll(BasicTables(b, names) + ApplicableTables(b.supplementary, names))
  {
    var check := CheckBundleNames(b, names);
    if check.Err? {
      return Err(check.error);
    }
    var basic := UnionBasic(b, names);
    var result := UnionApplicable(b, names, basic);
    UnionAllAppend(BasicTables(b, names), ApplicableTables(b.supplementary, names));
    return Ok(result);
  }

  /** The first loop of `helpersUsed`: the requested basic tables merged in
      request order. */
  method UnionBasic(b: Bundler, names: seq<string>) returns (result: Helpers)
    requires forall k :: 0 <= k < |names| ==> names[k] in b.basic
    ensures result == UnionAll(BasicTables(b, names))
  {
    result := map[];
    var i := 0;
    while i < |names|
      invariant 0 <= i <= |names|
      invariant result == UnionAll(BasicTables(b, names[..i]))
    {
      BasicTablesStep(b, names, i);
      result := result + b.basic[names[i]];
      i := i + 1;
    }
    assert names[..i] == names;
  }

  /** The second loop of `helpersUsed`: every applicable supplementary
      table merged over `basic`, in insertion order. */
  method UnionApplicable(b: Bundler, names: seq<string>, basic: Helpers) returns (result: Helpers)
    ensures result == basic + UnionAll(ApplicableTables(b.supplementary, names))
  {
    result := basic;
    var j := 0;
    while j < |b.supplementary|
      invariant 0 <= j <= |b.supplementary|
      invariant result == basic + UnionAll(ApplicableTables(b.supplementary[..j], names))
    {
      var applies := Arr1ContainsArr2(names, b.supplementary[j].names);
      ApplicableTablesStep(b.supplementary, names, j);
      MapUnionAssoc(basic, UnionAll(ApplicableTables(b.supplementary[..j], names)), b.supplementary[j].helpers);
      if applies {
        result := result + b.supplementary[j].helpers;
      }
      j := j + 1;
    }
    assert b.supplementary[..j] == b.supplementary;
  }

  lemma MapUnionAssoc(x: Helpers, y: Helpers, z: Helpers)
    ensures x + (y + z) == x + y + z
  {
  }

  lemma BasicTablesStep(b: Bundler, names: seq<string>, i: nat)
    requires i < |names| && forall k :: 0 <= k < |names| ==> names[k] in b.basic
    ensures UnionAll(BasicTables(b, names[..i + 1])) == UnionAll(BasicTables(b, names[..i])) + b.basic[names[i]]
  {
    assert BasicTables(b, names[..i + 1])[..i] == BasicTables(b, names[..i]);
  }

  lemma ApplicableTablesStep(supp: seq<Supplementary>, names: seq<string>, j: nat)
    requires j < |supp|
    ensures UnionAll(ApplicableTables(supp[..j + 1], names))
            == if Contains(names, supp[j].names) then UnionAll(ApplicableTables(supp[..j], names)) + supp[j].helpers
               else UnionAll(ApplicableTables(supp[..j], names))
  {
    assert supp[..j + 1][..j] == supp[..j];
    var pre := ApplicableTables(supp[..j], names);
    if Contains(names, supp[j].names) {
      assert (pre + [supp[j].helpers])[..|pre|] == pre;
    } else {
      assert pre + [] == pre;
    }
  }

  /** A supplementary bundle is applicable iff its required names are all
      requested; a general bundle therefore always is. */
  lemma {:induction false} ApplicableTablesMembers(supp: seq<Supplementary>, names: seq<string>, j: nat)
    requires j < |supp|
    ensures Contains(names, supp[j].names) ==>
              exists t :: 0 <= t < |ApplicableTables(supp, names)|
                          && ApplicableTables(supp, names)[t] == supp[j].helpers
  {
    var init := supp[..|supp| - 1];
    if j < |supp| - 1 {
      assert init[j] == supp[j];
      ApplicableTablesMembers(init, names, j);
      if Contains(names, supp[j].names) {
        var t :| 0 <= t < |ApplicableTables(init, names)| && ApplicableTables(init, names)[t] == supp[j].helpers;
        assert ApplicableTables(supp, names)[t] == supp[j].helpers;
      }
    } else if Contains(names, supp[j].names) {
      assert ApplicableTables(supp, names)[|ApplicableTables(init, names)|] == supp[j].helpers;
    }
  }

  /** Every helper of a general bundle is in every `helpersUsed` result
      (unless a later table of the same result redefines its name). */
  lemma GeneralBundleAlwaysIncluded(b: Bundler, names: seq<string>, j: nat, k: string)
    requires forall m :: 0 <= m < |names| ==> names[m] in b.basic
    requires j < |b.supplementary| && b.supplementary[j].names == [] && k in b.supplementary[j].helpers
    ensures k in UnionAll(BasicTables(b, names) + ApplicableTables(b.supplementary, names))
  {
    ApplicableTablesMembers(b.supplementary, names, j);
    var app := ApplicableTables(b.supplementary, names);
    var t :| 0 <= t < |app| && app[t] == b.supplementary[j].helpers;
    var all := BasicTables(b, names) + app;
    assert all[|BasicTables(b, names)| + t] == app[t];
    UnionAllKeys(all, k);
  }

  /** On a name clash between a requested basic bundle and an applicable
      supplementary bundle, the supplementary helper wins. */
  lemma SupplementaryWinsOverBasic(b: Bundler, names: seq<string>, k: string)
    requires forall m :: 0 <= m < |names| ==> names[m] in b.basic
    requires k in UnionAll(ApplicableTables(b.supplementary, names))
    ensures var all := UnionAll(BasicTables(b, names) + ApplicableTables(b.supplementary, names));
            k in all && all[k] == UnionAll(ApplicableTables(b.supplementary, names))[k]
  {
    UnionAllAppend(BasicTables(b, names), ApplicableTables(b.supplementary, names));
  }

  /** The global pool after a sequence of additions: every addition's
      helpers, later ones overwriting. */
  datatype Addition =
    | AddBasicOp(name: string, helpers: Helpers)
    | AddSupplementaryOp(names: seq<string>, helpers: Helpers)

  function HelpersOf(a: Addition): Helpers {
    match a
    case AddBasicOp(_, h) => h
    case AddSupplementaryOp(_, h) => h
  }

  function Apply(b: Bundler, a: Addition): Result<Bundler> {
    match a
    case AddBasicOp(name, h) => AddBasic(b, name, Some(h))
    case AddSupplementaryOp(names, h) => AddSupplementary(b, Some(names), Some(h))
  }

  lemma ApplyAddsToPool(b: Bundler, a: Addition)
    ensures Apply(b, a).Ok? ==> Apply(b, a).value.pool == b.pool + HelpersOf(a)
  {
  }

  /** Runs the additions in order; stops at the first failure. */
  function ApplyAll(b: Bundler, adds: seq<Addition>): Result<Bundler>
    decreases |adds|
  {
    if adds == [] then Ok(b)
    else
      match Apply(b, adds[0])
      case Err(e) => Err(e)
      case Ok(b1) => ApplyAll(b1, adds[1..])
  }

  function Tables(adds: seq<Addition>): (ts: seq<Helpers>)
    ensures |ts| == |adds| && forall i :: 0 <= i < |adds| ==> ts[i] == HelpersOf(adds[i])
  {
    seq(|adds|, i requires 0 <= i < |adds| => HelpersOf(adds[i]))
  }

  /** After any successful run of additions, the pool is the old pool
      overwritten by every added table in order: `getHelper(n)` returns
      the most recently added helper named `n`, whichever kind of bundle
      it came from. */
  lemma {:induction false} LastWriterWins(b: Bundler, adds: seq<Addition>)
    requires ApplyAll(b, adds).Ok?
    ensures ApplyAll(b, adds).value.pool == b.pool + UnionAll(Tables(adds))
    decreases |adds|
  {
    if adds == [] {
      assert Tables(adds) == [];
    } else {
      var b1 := Apply(b, adds[0]).value;
      var h := HelpersOf(adds[0]);
      ApplyAddsToPool(b, adds[0]);
      assert ApplyAll(b, adds) == ApplyAll(b1, adds[1..]);
      LastWriterWins(b1, adds[1..]);
      TablesCons(adds);
      UnionAllAppend([h], Tables(adds[1..]));
      UnionAllSingleton(h);
      MapUnionAssoc(b.pool, h, UnionAll(Tables(adds[1..])));
    }
  }

  lemma TablesCons(adds: seq<Addition>)
    requires adds != []
    ensures Tables(adds) == [HelpersOf(adds[0])] + Tables(adds[1..])
  {
    var l := Tables(adds);
    var r := [HelpersOf(adds[0])] + Tables(adds[1..]);
    assert |l| == |r|;
    forall i | 0 <= i < |l| ensures l[i] == r[i] {
      if i > 0 { assert adds[1..][i - 1] == adds[i]; }
    }
  }

  /** Every operation keeps the registry invariant. */
  lemma AddBasicPreservesInv(b: Bundler, name: string, helpers: Option<Helpers>)
    requires Inv(b)
    ensures AddBasic(b, name, helpers).Ok? ==> Inv(AddBasic(b, name, helpers).value)
  {
  }

  lemma AddSupplementaryPreservesInv(b: Bundler, names: Option<seq<string>>, helpers: Option<Helpers>)
    requires Inv(b)
    ensures AddSupplementary(b, names, helpers).Ok? ==> Inv(AddSupplementary(b, names, helpers).value)
  {
    var r := AddSupplementary(b, names, helpers);
    if r.Ok? {
      forall j, n | 0 <= j < |r.value.supplementary| && n in r.value.supplementary[j].names
        ensures n in r.value.basic
      {
        if j < |b.supplementary| {
          assert r.value.supplementary[j] == b.supplementary[j];
        } else {
          var k :| 0 <= k < |names.value| && names.value[k] == n;
          assert Declared(b, names.value[k]);
        }
      }
    }
  }

  lemma AssociatePreservesInv(b: Bundler, bundle: string, subName: string, args: seq<ArgSpec>, options: Value)
    requires Inv(b)
    ensures Associate(b, bundle, subName, args, options).Ok? ==> Inv(Associate(b, bundle, subName, args, options).value)
  {
  }

  /** The `repeated-sub-name` error never fires: no operation appends to
      the subscription-name list, so the check always passes. */
  lemma RepeatedSubNameNeverFires(b: Bundler, bundle: string, subName: string, args: seq<ArgSpec>, options: Value)
    requires Inv(b)
    ensures Associate(b, bundle, subName, args, options).Ok? <==> Declared(b, bundle)
  {
  }
}
