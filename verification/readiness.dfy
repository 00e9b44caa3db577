/**
 The readiness queries of a cached-subscription instance: the
 non-short-circuit read of every slot's readiness cell, the conjunction with
 the template's own and the default subscriptions' readiness, the
 short-circuiting fold over ancestor templates, and the selection of those
 ancestors from the chain of enclosing views.

 A query returns its answer together with the reads it performed, in order:
 which reactive sources are read decides what the surrounding computation
 re-runs on.
 */
module Readiness {
  import opened Common
  import opened CachedSubscription

  /** Every listed slot's readiness cell holds true. */
  ghost predicate AllSlotsReady(s: Instance) {
    forall k :: 0 <= k < |s.slots| ==> CachedSubReady(s, s.slots[k])
  }

  /** The non-short-circuit fold of `allCachedSubsReady`: starting from
      `start`, every listed slot's readiness is read first and only then
      combined, `isReady = slotReady(id) && isReady`, so no read is skipped. */
  method ConjoinEveryRead(start: bool, slots: seq<SlotId>, slotReady: SlotId -> bool)
    returns (ready: bool, slotReads: seq<SlotId>)
    ensures slotReads == slots
    ensures ready <==> start && forall k :: 0 <= k < |slots| ==> slotReady(slots[k])
  {
    ready := start;
    slotReads := [];
    var k := 0;
    while k < |slots|
      invariant 0 <= k <= |slots|
      invariant slotReads == slots[..k]
      invariant ready <==> start && forall m :: 0 <= m < k ==> slotReady(slots[m])
    {
      var ok := slotReady(slots[k]);
      slotReads := slotReads + [slots[k]];
      ready := ok && ready;
      k := k + 1;
    }
  }

  /** `allCachedSubsReady`: the truthiness of the version cell conjoined
      with every listed slot's `cachedSubReady`, each one read. */
  method AllCachedSubsReady(s: Instance) returns (ready: bool, slotReads: seq<SlotId>)
    ensures slotReads == s.slots
    ensures ready <==> s.version != 0 && AllSlotsReady(s)
  {
    ready, slotReads := ConjoinEveryRead(s.version != 0, s.slots, id => CachedSubReady(s, id));
  }

  /** The version cell holds the last issued index, or 1 before any issue,
      so it is always truthy and never decides the answer. */
  lemma VersionAlwaysTruthy(s: Instance)
    requires Inv(s)
    ensures s.version >= 1
  {
  }

  /** The fold `ancestors.reduce((acc, t) => acc && t.subscriptionsReady(),
      true)`: once the accumulator is false the remaining ancestors are not
      asked. `ancestorReady` is each ancestor's current answer. */
  method AncestorsReady(ancestors: seq<nat>, ancestorReady: nat -> bool) returns (ready: bool, asked: seq<nat>)
    ensures ready <==> forall k :: 0 <= k < |ancestors| ==> ancestorReady(ancestors[k])
    ensures ready ==> asked == ancestors
    ensures !ready ==> 0 < |asked| <= |ancestors| && asked == ancestors[..|asked|]
                       && !ancestorReady(asked[|asked| - 1])
                       && forall k :: 0 <= k < |asked| - 1 ==> ancestorReady(asked[k])
  {
    ready := true;
    asked := [];
    var k := 0;
    while k < |ancestors|
      invariant 0 <= k <= |ancestors|
      invariant ready ==> asked == ancestors[..k]
      invariant ready <==> forall m :: 0 <= m < k ==> ancestorReady(ancestors[m])
      invariant !ready ==> 0 < |asked| <= k && asked == ancestors[..|asked|]
                           && !ancestorReady(asked[|asked| - 1])
                           && forall m :: 0 <= m < |asked| - 1 ==> ancestorReady(asked[m])
    {
      if ready {
        asked := asked + [ancestors[k]];
        ready := ancestorReady(ancestors[k]);
      }
      k := k + 1;
    }
    if ready {
      assert ancestors[..k] == ancestors;
    }
  }

  /** `allSubsReady`: the cached slots, the template's own subscriptions and
      the default subscriptions are all evaluated, then combined. */
  method AllSubsReady(s: Instance, templateReady: bool, defaultReady: bool) returns (ready: bool, slotReads: seq<SlotId>)
    ensures slotReads == s.slots
    ensures ready <==> s.version != 0 && AllSlotsReady(s) && templateReady && defaultReady
  {
    var cached;
    cached, slotReads := AllCachedSubsReady(s);
    ready := cached && templateReady && defaultReady;
  }

  /** `allSubsReadyAllAncestors`: as `allSubsReady`, and every ancestor
      captured at creation reports ready. The slot reads happen whatever
      the ancestors say. */
  method AllSubsReadyAllAncestors(s: Instance, templateReady: bool, defaultReady: bool, ancestorReady: nat -> bool)
    returns (ready: bool, slotReads: seq<SlotId>, asked: seq<nat>)
    ensures slotReads == s.slots
    ensures ready <==> && s.version != 0 && AllSlotsReady(s) && templateReady && defaultReady
                       && forall k :: 0 <= k < |s.ancestors| ==> ancestorReady(s.ancestors[k])
    ensures |asked| <= |s.ancestors| && asked == s.ancestors[..|asked|]
  {
    var cached, ancestorsOk;
    cached, slotReads := AllCachedSubsReady(s);
    ancestorsOk, asked := AncestorsReady(s.ancestors, ancestorReady);
    ready := cached && templateReady && defaultReady && ancestorsOk;
  }

  /** One enclosing view: its name and, when it belongs to a template
      instance, that instance's id and whether it has a
      `subscriptionsReady` function. */
  datatype View = View(name: string, instance: Option<TemplateRef>)
  datatype TemplateRef = TemplateRef(id: nat, hasSubscriptionsReady: bool)

  /** `name.substring(0, 9) === 'Template.'`: a name shorter than nine
      characters is compared whole and so never matches. */
  predicate IsTemplateViewName(name: string) {
    |name| >= 9 && name[..9] == "Template."
  }

  predicate Qualifies(v: View) {
    && (IsTemplateViewName(v.name) || v.name == "body")
    && v.instance.Some? && v.instance.value.hasSubscriptionsReady
  }

  /** `getAllTemplateAncestors`: walking from the parent view outwards
      (`parents`, nearest first), the template instances of template and
      body views that have a `subscriptionsReady` function, in walk order. */
  function TemplateAncestors(parents: seq<View>): (ids: seq<nat>)
    ensures |ids| <= |parents|
    ensures forall t :: t in ids <==> exists k :: 0 <= k < |parents| && Qualifies(parents[k]) && parents[k].instance.value.id == t
  {
    if parents == [] then []
    else
      var rest := TemplateAncestors(parents[1..]);
      assert forall k :: 0 < k < |parents| ==> parents[k] == parents[1..][k - 1];
      if Qualifies(parents[0]) then [parents[0].instance.value.id] + rest else rest
  }

  /** Walking a longer chain visits the nearer views first: the ancestors
      of a concatenated chain are those of each part, in order. */
  lemma {:induction false} TemplateAncestorsAppend(a: seq<View>, b: seq<View>)
    ensures TemplateAncestors(a + b) == TemplateAncestors(a) + TemplateAncestors(b)
  {
    if a == [] {
      assert a + b == b;
    } else {
      assert (a + b)[1..] == a[1..] + b;
      TemplateAncestorsAppend(a[1..], b);
    }
  }
}
