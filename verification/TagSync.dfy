/** Labels and taints of nodes, and labels of services, kept in step with the tags of the cloud
    resources behind them. */
module TagSync {
  import opened Basics
  import opened TagParser

  const EXCLUDE_BALANCER := "node.kubernetes.io/" + "exclude-from-external-load-balancers"
  const EXCLUDE_BALANCER_VALUE := "managed-by-scaleway-ccm"

  datatype Taint = Taint(key: string, value: string, effect: Effect)

  datatype NodeMeta = NodeMeta(labels: map<string, string>, taints: seq<Taint>)

  // ---- What tags ask for ----

  /** The label a tag stands for on a node or on a service; none if the key is empty. */
  function LabelTag(tag: string, onNode: bool): Parsed {
    if onNode && HasPrefix(tag, TAINT_PREFIX) then NOTHING
    else if onNode && tag == EXCLUDE_BALANCER then Parsed(EXCLUDE_BALANCER, EXCLUDE_BALANCER_VALUE)
    else TagLabelParser(tag)
  }

  /** The labels of a list of tags; the last tag for a key wins. */
  function TagLabels(tags: seq<string>, onNode: bool): map<string, string> {
    if tags == [] then map[]
    else
      var before := TagLabels(tags[..|tags| - 1], onNode);
      var parsed := LabelTag(tags[|tags| - 1], onNode);
      if parsed.key == "" then before else before[parsed.key := parsed.value]
  }

  /** A tag asks for a label to have a value.  On a node, the tag that is the name of the exclude-balancer
      label asks for its managed value, and tags for taints ask for no label. */
  ghost predicate Asks(tag: string, onNode: bool, k: string, v: string) {
    if onNode && tag == EXCLUDE_BALANCER then k == EXCLUDE_BALANCER && v == EXCLUDE_BALANCER_VALUE
    else !(onNode && TAINT_PREFIX <= tag) && k != "" && TagLabelParser(tag) == Parsed(k, v)
  }

  /** Of the tags that ask for the label, the last one gives it that value. */
  ghost predicate AsksLast(tags: seq<string>, onNode: bool, k: string, v: string) {
    exists i ::
      0 <= i < |tags| && Asks(tags[i], onNode, k, v)
      && forall j, u | i < j < |tags| :: !Asks(tags[j], onNode, k, u)
  }

  ghost predicate AskedAtAll(tags: seq<string>, onNode: bool, k: string) {
    exists i, v :: 0 <= i < |tags| && Asks(tags[i], onNode, k, v)
  }

  lemma ExcludeBalancerUnprefixed()
    ensures !HasPrefix(EXCLUDE_BALANCER, LABELS_PREFIX) && !HasPrefix(EXCLUDE_BALANCER, TAINT_PREFIX)
    ensures EXCLUDE_BALANCER == "node.kubernetes.io/" + "exclude-from-external-load-balancers" != ""
    ensures EXCLUDE_BALANCER_VALUE == "managed-by-scaleway-ccm"
  {
    var domain, own := "node.kubernetes.io/", LABELS_PREFIX;
    assert domain[0] == 'n' && own[0] == 'k' && TAINT_PREFIX[0] == 't';
    assert EXCLUDE_BALANCER[0] == domain[0];
  }

  lemma AsksIs(tag: string, onNode: bool, k: string, v: string)
    ensures Asks(tag, onNode, k, v) <==> k != "" && LabelTag(tag, onNode) == Parsed(k, v)
  {
    hide TagLabelParser;
    ExcludeBalancerUnprefixed();
  }

  /** The labels of a list of tags are those asked for, each with the value that the last such tag gives. */
  lemma {:induction false} TagLabelsMean(tags: seq<string>, onNode: bool, k: string, v: string)
    ensures k in TagLabels(tags, onNode) && TagLabels(tags, onNode)[k] == v <==> AsksLast(tags, onNode, k, v)
    ensures k in TagLabels(tags, onNode) <==> AskedAtAll(tags, onNode, k)
  {
    hide Asks, LabelTag;
    if tags != [] {
      var n := |tags| - 1;
      var init, parsed := tags[..n], LabelTag(tags[n], onNode);
      TagLabelsMean(init, onNode, k, v);
      forall u ensures Asks(tags[n], onNode, k, u) <==> k != "" && parsed == Parsed(k, u) {
        AsksIs(tags[n], onNode, k, u);
      }
      if parsed.key == k && k != "" {
        LastAsked(tags, onNode, k, parsed.value);
        LastDecides(tags, onNode, k, v, parsed.value);
      } else {
        NotAskedLast(tags, tags[n], onNode, k, v);
      }
    }
  }

  lemma LastAsked(tags: seq<string>, onNode: bool, k: string, v: string)
    requires tags != [] && Asks(tags[|tags| - 1], onNode, k, v)
    ensures AsksLast(tags, onNode, k, v) && AskedAtAll(tags, onNode, k)
  {
    hide Asks;
  }

  lemma LastDecides(tags: seq<string>, onNode: bool, k: string, v: string, u: string)
    requires tags != [] && Asks(tags[|tags| - 1], onNode, k, u)
    ensures AsksLast(tags, onNode, k, v) ==> v == u
  {
  }

  lemma NotAskedLast(tags: seq<string>, last: string, onNode: bool, k: string, v: string)
    requires tags != [] && tags[|tags| - 1] == last && forall u :: !Asks(last, onNode, k, u)
    ensures AsksLast(tags, onNode, k, v) <==> AsksLast(tags[..|tags| - 1], onNode, k, v)
    ensures AskedAtAll(tags, onNode, k) <==> AskedAtAll(tags[..|tags| - 1], onNode, k)
  {
    hide Asks;
    var n, init := |tags| - 1, tags[..|tags| - 1];
    if AsksLast(init, onNode, k, v) {
      var i :| 0 <= i < n && Asks(init[i], onNode, k, v) && forall j, u | i < j < n :: !Asks(init[j], onNode, k, u);
      forall j, u | i < j < |tags| ensures !Asks(tags[j], onNode, k, u) {
        if j < n { assert tags[j] == init[j]; }
      }
      assert Asks(tags[i], onNode, k, v);
    }
    if AsksLast(tags, onNode, k, v) {
      var i :| 0 <= i <= n && Asks(tags[i], onNode, k, v)
          && forall j, u | i < j <= n :: !Asks(tags[j], onNode, k, u);
      assert init[i] == tags[i];
      assert forall j | i < j < n :: init[j] == tags[j];
    }
    if AskedAtAll(init, onNode, k) {
      var i, u :| 0 <= i < n && Asks(init[i], onNode, k, u);
      assert Asks(tags[i], onNode, k, u);
    }
    if AskedAtAll(tags, onNode, k) {
      var i, u :| 0 <= i <= n && Asks(tags[i], onNode, k, u);
      assert Asks(init[i], onNode, k, u);
    }
  }

  function TaintTag(tag: string): Option<Taint> {
    if !HasPrefix(tag, TAINT_PREFIX) then None
    else
      var (parsed, effect) := TagTaintParser(tag);
      if parsed.key == "" || effect.None? then None
      else Some(Taint(parsed.key, parsed.value, effect.value))
  }

  /** The key under which a taint is kept while the node's taints are put together. */
  function UniqueKey(t: Taint): string {
    t.key + ":" + EffectName(t.effect)
  }

  function TagTaints(tags: seq<string>): map<string, Taint> {
    if tags == [] then map[]
    else
      var before := TagTaints(tags[..|tags| - 1]);
      var t := TaintTag(tags[|tags| - 1]);
      if t.None? then before else before[UniqueKey(t.value) := t.value]
  }

  lemma LastColon(k: string, e: string, k': string, e': string)
    requires k + [':'] + e == k' + [':'] + e' && ':' !in e && ':' !in e'
    ensures k == k' && e == e'
  {
    var s, s' := k + [':'] + e, k' + [':'] + e';
    assert s[|k|] == ':' && forall i | |k| < i < |s| :: s[i] != ':';
    assert s'[|k'|] == ':' && forall i | |k'| < i < |s'| :: s'[i] != ':';
    assert s[..|k|] == k && s[..|k'|] == k';
    assert s[|k| + 1..] == e && s[|k'| + 1..] == e';
  }

  /** The joined key tells taints of different key or effect apart, whatever characters keys hold. */
  lemma UniqueKeyInjective(t: Taint, t': Taint)
    ensures UniqueKey(t) == UniqueKey(t') <==> t.key == t'.key && t.effect == t'.effect
  {
    hide EffectName, EffectOf;
    EffectRoundTrip(t.effect);
    EffectRoundTrip(t'.effect);
    if UniqueKey(t) == UniqueKey(t') {
      LastColon(t.key, EffectName(t.effect), t'.key, EffectName(t'.effect));
    }
  }

  // ---- What becomes of a node ----

  /** A label the sync takes away when no tag asks for it. */
  predicate Retractable(key: string, value: string, onNode: bool) {
    if onNode && key == EXCLUDE_BALANCER then value == EXCLUDE_BALANCER_VALUE else HasPrefix(key, LABELS_PREFIX)
  }

  function SyncedLabels(labels: map<string, string>, tags: seq<string>, onNode: bool): map<string, string> {
    (map k | k in labels && !Retractable(k, labels[k], onNode) :: labels[k]) + TagLabels(tags, onNode)
  }

  /** The taints of the tags by joined key, and the node's own that are neither overridden nor under
      the controller's prefix; the first of several with the same key and effect stays. */
  function SyncedTaints(taints: seq<Taint>, tags: seq<string>): map<string, Taint> {
    if taints == [] then TagTaints(tags)
    else
      var before := SyncedTaints(taints[..|taints| - 1], tags);
      var t := taints[|taints| - 1];
      if UniqueKey(t) in before || HasPrefix(t.key, LABELS_PREFIX) then before else before[UniqueKey(t) := t]
  }

  /** What labels there are after a sync: those the tags ask for, and of the others the ones outside the
      controller's prefix, but for an exclude-balancer label of a node that carries the managed value. */
  ghost predicate LabelAfter(labels: map<string, string>, tags: seq<string>, onNode: bool, k: string, v: string) {
    || AsksLast(tags, onNode, k, v)
    || (&& !AskedAtAll(tags, onNode, k) && k in labels && labels[k] == v
        && !(LABELS_PREFIX <= k) && !(onNode && k == EXCLUDE_BALANCER && v == EXCLUDE_BALANCER_VALUE))
  }

  lemma SyncedLabelsMean(labels: map<string, string>, tags: seq<string>, onNode: bool, k: string, v: string)
    ensures k in SyncedLabels(labels, tags, onNode) && SyncedLabels(labels, tags, onNode)[k] == v
            <==> LabelAfter(labels, tags, onNode, k, v)
  {
    hide TagLabels, AsksLast, AskedAtAll;
    ExcludeBalancerUnprefixed();
    TagLabelsMean(tags, onNode, k, v);
  }

  lemma AllLabelsMean(labels: map<string, string>, tags: seq<string>, onNode: bool)
    ensures forall k, v ::
              k in SyncedLabels(labels, tags, onNode) && SyncedLabels(labels, tags, onNode)[k] == v
              <==> LabelAfter(labels, tags, onNode, k, v)
  {
    hide SyncedLabels, LabelAfter;
    forall k, v ensures k in SyncedLabels(labels, tags, onNode) && SyncedLabels(labels, tags, onNode)[k] == v
                        <==> LabelAfter(labels, tags, onNode, k, v)
    {
      SyncedLabelsMean(labels, tags, onNode, k, v);
    }
  }

  /** The values of a map, each once. */
  ghost predicate ListsTaints(taints: seq<Taint>, byKey: map<string, Taint>) {
    && (forall t | t in taints :: UniqueKey(t) in byKey && byKey[UniqueKey(t)] == t)
    && (forall k | k in byKey :: byKey[k] in taints)
    && (forall i, j | 0 <= i < j < |taints| :: UniqueKey(taints[i]) != UniqueKey(taints[j]))
  }

  ghost predicate Keyed(byKey: map<string, Taint>) {
    forall k | k in byKey :: UniqueKey(byKey[k]) == k
  }

  lemma {:induction false} TagTaintsKeyed(tags: seq<string>)
    ensures Keyed(TagTaints(tags))
  {
    if tags != [] {
      TagTaintsKeyed(tags[..|tags| - 1]);
    }
  }

  lemma {:induction false} SyncedTaintsKeyed(taints: seq<Taint>, tags: seq<string>)
    ensures Keyed(SyncedTaints(taints, tags))
  {
    if taints == [] {
      TagTaintsKeyed(tags);
    } else {
      SyncedTaintsKeyed(taints[..|taints| - 1], tags);
    }
  }

  /** Reading the tags. */
  method CollectTags(tags: seq<string>, labels0: map<string, string>)
    returns (nodeLabels: map<string, string>, nodeTaints: map<string, Taint>, labels: map<string, string>)
    ensures nodeLabels == TagLabels(tags, true) && nodeTaints == TagTaints(tags)
            && labels == labels0 + TagLabels(tags, true)
  {
    hide TagLabelParser, TagTaintParser, HasPrefix;
    nodeLabels, nodeTaints, labels := map[], map[], labels0;
    for i := 0 to |tags|
      invariant nodeLabels == TagLabels(tags[..i], true) && nodeTaints == TagTaints(tags[..i])
      invariant labels == labels0 + nodeLabels
    {
      assert tags[..i + 1][..i] == tags[..i];
      var tag := tags[i];
      if HasPrefix(tag, TAINT_PREFIX) {
        var (parsed, effect) := TagTaintParser(tag);
        if parsed.key == "" {
          continue;
        }
        TaintSound(tag);
        var t := Taint(parsed.key, parsed.value, effect.value);
        nodeTaints := nodeTaints[UniqueKey(t) := t];
      } else {
        var parsed;
        if tag == EXCLUDE_BALANCER {
          parsed := Parsed(EXCLUDE_BALANCER, EXCLUDE_BALANCER_VALUE);
        } else {
          parsed := TagLabelParser(tag);
          if parsed.key == "" {
            continue;
          }
        }
        nodeLabels := nodeLabels[parsed.key := parsed.value];
        labels := labels[parsed.key := parsed.value];
      }
    }
    assert tags[..|tags|] == tags;
  }

  /** Taking away, in any order, the retractable labels that no tag asks for. */
  method RetractLabels(labels0: map<string, string>, labels1: map<string, string>, tagLabels: map<string, string>,
                       onNode: bool)
    returns (labels: map<string, string>)
    requires labels1 == labels0 + tagLabels
    ensures labels == (map k | k in labels0 && !Retractable(k, labels0[k], onNode) :: labels0[k]) + tagLabels
  {
    hide HasPrefix;
    labels := labels1;
    var rest := labels0.Keys;
    while exists k :: k in rest
      invariant rest <= labels0.Keys
      invariant forall k ::
                  k in labels
                  <==> k in tagLabels || (k in labels0 && (k in rest || !Retractable(k, labels0[k], onNode)))
      invariant forall k | k in labels :: k in labels1 && labels[k] == labels1[k]
      decreases rest
    {
      var k :| k in rest;
      rest := rest - {k};
      if Retractable(k, labels0[k], onNode) && k !in tagLabels {
        labels := labels - {k};
      }
    }
  }

  /** The values of a map, in any order. */
  method Values(byKey: map<string, Taint>) returns (taints: seq<Taint>)
    requires Keyed(byKey)
    ensures ListsTaints(taints, byKey)
  {
    hide UniqueKey;
    taints := [];
    var rest := byKey.Keys;
    while exists k :: k in rest
      invariant rest <= byKey.Keys
      invariant forall t | t in taints :: UniqueKey(t) in byKey && byKey[UniqueKey(t)] == t && UniqueKey(t) !in rest
      invariant forall k | k in byKey && k !in rest :: byKey[k] in taints
      invariant forall i, j | 0 <= i < j < |taints| :: UniqueKey(taints[i]) != UniqueKey(taints[j])
      decreases rest
    {
      var k :| k in rest;
      rest := rest - {k};
      taints := taints + [byKey[k]];
    }
  }

  lemma NodeLabelsMean(labels: map<string, string>, tags: seq<string>)
    ensures forall k, v ::
              k in SyncedLabels(labels, tags, true) && SyncedLabels(labels, tags, true)[k] == v
              <==> LabelAfter(labels, tags, true, k, v)
    ensures EXCLUDE_BALANCER in labels && labels[EXCLUDE_BALANCER] == EXCLUDE_BALANCER_VALUE
            && !AskedAtAll(tags, true, EXCLUDE_BALANCER) ==>
              EXCLUDE_BALANCER !in SyncedLabels(labels, tags, true)
    ensures tags != [] && tags[|tags| - 1] == EXCLUDE_BALANCER ==>
              LabelAfter(labels, tags, true, EXCLUDE_BALANCER, EXCLUDE_BALANCER_VALUE)
  {
    hide TagLabels, AskedAtAll, SyncedLabels;
    AllLabelsMean(labels, tags, true);
    if tags != [] && tags[|tags| - 1] == EXCLUDE_BALANCER {
      ExcludeBalancerUnprefixed();
      LastAsked(tags, true, EXCLUDE_BALANCER, EXCLUDE_BALANCER_VALUE);
    }
    if EXCLUDE_BALANCER in labels && labels[EXCLUDE_BALANCER] == EXCLUDE_BALANCER_VALUE
       && !AskedAtAll(tags, true, EXCLUDE_BALANCER) && EXCLUDE_BALANCER in SyncedLabels(labels, tags, true)
    {
      var v := SyncedLabels(labels, tags, true)[EXCLUDE_BALANCER];
      SyncedLabelsMean(labels, tags, true, EXCLUDE_BALANCER, v);
      NeverAsked(tags, EXCLUDE_BALANCER, v);
    }
  }

  lemma NeverAsked(tags: seq<string>, k: string, v: string)
    requires !AskedAtAll(tags, true, k)
    ensures !AsksLast(tags, true, k, v)
  {
  }

  /** syncNodeTags.  An exclude-balancer label that carries the managed value goes once no tag asks for it,
      and the tag of that name sets it. */
  method SyncNodeTags(tags: seq<string>, node: NodeMeta) returns (synced: NodeMeta)
    ensures synced.labels == SyncedLabels(node.labels, tags, true)
    ensures ListsTaints(synced.taints, SyncedTaints(node.taints, tags))
    ensures forall k, v :: k in synced.labels && synced.labels[k] == v <==> LabelAfter(node.labels, tags, true, k, v)
    ensures EXCLUDE_BALANCER in node.labels && node.labels[EXCLUDE_BALANCER] == EXCLUDE_BALANCER_VALUE
            && !AskedAtAll(tags, true, EXCLUDE_BALANCER) ==>
              EXCLUDE_BALANCER !in synced.labels
    ensures tags != [] && tags[|tags| - 1] == EXCLUDE_BALANCER ==>
              EXCLUDE_BALANCER in synced.labels && synced.labels[EXCLUDE_BALANCER] == EXCLUDE_BALANCER_VALUE
  {
    hide LabelAfter, AskedAtAll;
    NodeLabelsMean(node.labels, tags);
    hide TagLabels, TagTaints, Retractable, UniqueKey, HasPrefix;
    var nodeLabels, nodeTaints, labels := CollectTags(tags, node.labels);
    labels := RetractLabels(node.labels, labels, nodeLabels, true);
    for i := 0 to |node.taints|
      invariant nodeTaints == SyncedTaints(node.taints[..i], tags)
    {
      assert node.taints[..i + 1][..i] == node.taints[..i];
      var t := node.taints[i];
      if UniqueKey(t) !in nodeTaints && !HasPrefix(t.key, LABELS_PREFIX) {
        nodeTaints := nodeTaints[UniqueKey(t) := t];
      }
    }
    assert node.taints[..|node.taints|] == node.taints;
    SyncedTaintsKeyed(node.taints, tags);
    var taints := Values(nodeTaints);
    return NodeMeta(labels, taints);
  }

  /** The label part of SyncLBTags, for a service. */
  method SyncServiceLabels(tags: seq<string>, labels0: map<string, string>) returns (labels: map<string, string>)
    ensures labels == SyncedLabels(labels0, tags, false)
    ensures forall k, v :: k in labels && labels[k] == v <==> LabelAfter(labels0, tags, false, k, v)
  {
    hide LabelAfter;
    AllLabelsMean(labels0, tags, false);
    hide TagLabelParser, HasPrefix, Retractable;
    var lbLabels: map<string, string> := map[];
    labels := labels0;
    for i := 0 to |tags|
      invariant lbLabels == TagLabels(tags[..i], false) && labels == labels0 + lbLabels
    {
      assert tags[..i + 1][..i] == tags[..i];
      var parsed := TagLabelParser(tags[i]);
      if parsed.key == "" {
        continue;
      }
      lbLabels := lbLabels[parsed.key := parsed.value];
      labels := labels[parsed.key := parsed.value];
    }
    assert tags[..|tags|] == tags;
    labels := RetractLabels(labels0, labels, lbLabels, false);
  }

  // ---- Properties ----

  /** After a sync, the labels under the controller's prefix are exactly those of the tags; every other
      label is still there, but for the exclude-balancer label that carries the controller's value; and
      only a tag changes its value. */
  lemma LabelsSynced(labels: map<string, string>, tags: seq<string>, onNode: bool, k: string)
    ensures HasPrefix(k, LABELS_PREFIX) ==>
              var s, t := SyncedLabels(labels, tags, onNode), TagLabels(tags, onNode);
              (k in s <==> k in t) && (k in s ==> s[k] == t[k])
    ensures !HasPrefix(k, LABELS_PREFIX) && k in labels
            && !(onNode && k == EXCLUDE_BALANCER && labels[k] == EXCLUDE_BALANCER_VALUE) ==>
              var s, t := SyncedLabels(labels, tags, onNode), TagLabels(tags, onNode);
              k in s && s[k] == if k in t then t[k] else labels[k]
    ensures k !in labels ==> (k in SyncedLabels(labels, tags, onNode) <==> k in TagLabels(tags, onNode))
  {
    hide TagLabels;
    ExcludeBalancerUnprefixed();
  }

  lemma {:induction false} SyncedTaintsHas(taints: seq<Taint>, tags: seq<string>, k: string)
    ensures k in TagTaints(tags) ==>
              k in SyncedTaints(taints, tags) && SyncedTaints(taints, tags)[k] == TagTaints(tags)[k]
    ensures k in SyncedTaints(taints, tags) && k !in TagTaints(tags) ==>
              SyncedTaints(taints, tags)[k] in taints && !HasPrefix(SyncedTaints(taints, tags)[k].key, LABELS_PREFIX)
    ensures forall t | t in taints && UniqueKey(t) == k && !HasPrefix(t.key, LABELS_PREFIX) ::
              k in SyncedTaints(taints, tags)
  {
    hide UniqueKey, HasPrefix, TagTaints;
    if taints != [] {
      SyncedTaintsHas(taints[..|taints| - 1], tags, k);
      assert taints == taints[..|taints| - 1] + [taints[|taints| - 1]];
    }
  }

  /** The node's taints are unique by key and effect. */
  ghost predicate UniqueTaints(taints: seq<Taint>) {
    forall i, j | 0 <= i < j < |taints| :: taints[i].key != taints[j].key || taints[i].effect != taints[j].effect
  }

  ghost predicate AskedFor(t: Taint, tags: seq<string>) {
    UniqueKey(t) in TagTaints(tags) && TagTaints(tags)[UniqueKey(t)] == t
  }

  /** A tag asks for a taint. */
  ghost predicate AsksTaint(tag: string, t: Taint) {
    TAINT_PREFIX <= tag && t.key != "" && TagTaintParser(tag) == (Parsed(t.key, t.value), Some(t.effect))
  }

  /** Of the tags that ask for a taint of this key and effect, the last one asks for this one. */
  ghost predicate TaintAskedLast(tags: seq<string>, t: Taint) {
    exists i ::
      0 <= i < |tags| && AsksTaint(tags[i], t)
      && forall j, u: Taint | i < j < |tags| && u.key == t.key && u.effect == t.effect :: !AsksTaint(tags[j], u)
  }

  lemma AsksTaintIs(tag: string, t: Taint)
    ensures AsksTaint(tag, t) <==> TaintTag(tag) == Some(t)
  {
    hide TagTaintParser;
  }

  /** The taints of a list of tags are those asked for, the last tag winning for each key and effect. */
  lemma {:induction false} TagTaintsMean(tags: seq<string>, t: Taint)
    ensures AskedFor(t, tags) <==> TaintAskedLast(tags, t)
  {
    hide AsksTaint, TaintTag, UniqueKey;
    if tags != [] {
      var n := |tags| - 1;
      var init, asked := tags[..n], TaintTag(tags[n]);
      TagTaintsMean(init, t);
      forall u: Taint ensures AsksTaint(tags[n], u) <==> asked == Some(u) {
        AsksTaintIs(tags[n], u);
      }
      if asked.Some? {
        UniqueKeyInjective(asked.value, t);
      }
      TaintAskedStep(tags, tags[n], t, asked);
    }
  }

  lemma TaintAskedStep(tags: seq<string>, last: string, t: Taint, asked: Option<Taint>)
    requires tags != [] && tags[|tags| - 1] == last && forall u: Taint :: AsksTaint(last, u) <==> asked == Some(u)
    ensures TaintAskedLast(tags, t) <==>
            if asked.Some? && asked.value.key == t.key && asked.value.effect == t.effect then asked.value == t
            else TaintAskedLast(tags[..|tags| - 1], t)
  {
    hide AsksTaint;
    var n, init := |tags| - 1, tags[..|tags| - 1];
    if TaintAskedLast(tags, t) {
      var i :| 0 <= i <= n && AsksTaint(tags[i], t)
          && forall j, u: Taint | i < j <= n && u.key == t.key && u.effect == t.effect :: !AsksTaint(tags[j], u);
      if i < n {
        assert init[i] == tags[i];
        assert forall j | i < j < n :: init[j] == tags[j];
      }
    }
    if asked == Some(t) {
      assert AsksTaint(tags[n], t);
    } else if TaintAskedLast(init, t)
              && !(asked.Some? && asked.value.key == t.key && asked.value.effect == t.effect)
    {
      var i :| 0 <= i < n && AsksTaint(init[i], t)
          && forall j, u: Taint | i < j < n && u.key == t.key && u.effect == t.effect :: !AsksTaint(init[j], u);
      assert AsksTaint(tags[i], t);
      forall j, u: Taint | i < j <= n && u.key == t.key && u.effect == t.effect ensures !AsksTaint(tags[j], u) {
        if j < n { assert tags[j] == init[j]; }
      }
    }
  }

  /** After a sync: taints are unique by key and effect; all taints of the tags are there, and under the
      controller's prefix nothing else; other taints stay unless a tag asks for the same key and effect. */
  lemma TaintsSynced(before: seq<Taint>, after: seq<Taint>, tags: seq<string>)
    requires ListsTaints(after, SyncedTaints(before, tags))
    ensures UniqueTaints(after)
    ensures forall t: Taint | HasPrefix(t.key, LABELS_PREFIX) :: t in after <==> AskedFor(t, tags)
    ensures forall t | AskedFor(t, tags) :: t in after
    ensures forall t | t in after && !AskedFor(t, tags) :: t in before
    ensures UniqueTaints(before) ==>
              forall t | t in before && !HasPrefix(t.key, LABELS_PREFIX) && UniqueKey(t) !in TagTaints(tags) ::
                    t in after
  {
    hide UniqueKey, HasPrefix, TagTaints, SyncedTaints;
    forall i, j | 0 <= i < j < |after| ensures after[i].key != after[j].key || after[i].effect != after[j].effect {
      UniqueKeyInjective(after[i], after[j]);
    }
    forall t | AskedFor(t, tags) ensures t in after {
      SyncedTaintsHas(before, tags, UniqueKey(t));
    }
    forall t | t in after && !AskedFor(t, tags) ensures t in before && !HasPrefix(t.key, LABELS_PREFIX) {
      SyncedTaintsHas(before, tags, UniqueKey(t));
    }
    if UniqueTaints(before) {
      forall t | t in before && !HasPrefix(t.key, LABELS_PREFIX) && UniqueKey(t) !in TagTaints(tags)
          ensures t in after
      {
        OwnTaintStays(before, after, tags, t);
      }
    }
  }

  lemma OwnTaintStays(before: seq<Taint>, after: seq<Taint>, tags: seq<string>, t: Taint)
    requires ListsTaints(after, SyncedTaints(before, tags)) && UniqueTaints(before)
    requires t in before && !HasPrefix(t.key, LABELS_PREFIX) && UniqueKey(t) !in TagTaints(tags)
    ensures t in after
  {
    hide UniqueKey, HasPrefix, TagTaints, SyncedTaints;
    SyncedTaintsHas(before, tags, UniqueKey(t));
    SyncedTaintsKeyed(before, tags);
    var t' := SyncedTaints(before, tags)[UniqueKey(t)];
    assert t' in before && UniqueKey(t') == UniqueKey(t);
    UniqueKeyInjective(t, t');
    var i :| 0 <= i < |before| && before[i] == t;
    var j :| 0 <= j < |before| && before[j] == t';
  }

  /** A second sync changes no label, and no taint but for their order. */
  lemma SecondSync(tags: seq<string>, node: NodeMeta, once: NodeMeta, twice: NodeMeta)
    requires once.labels == SyncedLabels(node.labels, tags, true)
             && ListsTaints(once.taints, SyncedTaints(node.taints, tags))
    requires twice.labels == SyncedLabels(once.labels, tags, true)
             && ListsTaints(twice.taints, SyncedTaints(once.taints, tags))
    ensures twice.labels == once.labels
    ensures forall t :: t in twice.taints <==> t in once.taints
  {
    LabelsStable(node.labels, tags, true);
    TaintsStable(node.taints, once.taints, twice.taints, tags);
  }

  lemma LabelsStable(labels: map<string, string>, tags: seq<string>, onNode: bool)
    ensures SyncedLabels(SyncedLabels(labels, tags, onNode), tags, onNode) == SyncedLabels(labels, tags, onNode)
  {
    hide TagLabels, Retractable;
  }

  lemma TaintsStable(before: seq<Taint>, once: seq<Taint>, twice: seq<Taint>, tags: seq<string>)
    requires ListsTaints(once, SyncedTaints(before, tags)) && ListsTaints(twice, SyncedTaints(once, tags))
    ensures forall t :: t in twice <==> t in once
  {
    hide ListsTaints, SyncedTaints, UniqueKey, HasPrefix, TagTaints;
    TaintsSynced(before, once, tags);
    TaintsSynced(once, twice, tags);
    forall t ensures t in twice <==> t in once {
      if t in once && !AskedFor(t, tags) {
        NotOverridden(before, once, tags, t);
      }
    }
  }

  lemma NotOverridden(before: seq<Taint>, after: seq<Taint>, tags: seq<string>, t: Taint)
    requires ListsTaints(after, SyncedTaints(before, tags)) && t in after && !AskedFor(t, tags)
    ensures UniqueKey(t) !in TagTaints(tags) && !HasPrefix(t.key, LABELS_PREFIX)
  {
    hide UniqueKey, HasPrefix, TagTaints, SyncedTaints;
    SyncedTaintsHas(before, tags, UniqueKey(t));
  }

  /** On a node, a printed label is the label of its tag, except one of the controller's own prefix called
      noprefix or taint. */
  lemma LabelTagRoundTrip(p: Prefix, name: string, value: string)
    requires ValidParts(p, name, value)
    ensures TagLabels([PrintLabel(p, name, value)], true) == map[KeyPrefix(p) + name := value]
            <==> !(p.Own? && (name == "noprefix" || name == "taint"))
  {
    hide TagLabelParser, QualifiedName, ValidParts, KeyPrefix, PrintLabel;
    var tag, key := PrintLabel(p, name, value), KeyPrefix(p) + name;
    LabelRoundTrip(p, name, value);
    NotATaint(p, name, value);
    KeyNotEmpty(p, name, value);
    var parsed := LabelTag(tag, true);
    assert [tag][..0] == [];
    if parsed.key != "" && parsed != Parsed(key, value) {
      assert parsed.key in map[parsed.key := parsed.value];
    }
    assert key in map[key := value];
  }

  lemma KeyNotEmpty(p: Prefix, name: string, value: string)
    requires ValidParts(p, name, value)
    ensures KeyPrefix(p) + name != ""
  {
  }

  lemma NotATaint(p: Prefix, name: string, value: string)
    requires ValidParts(p, name, value)
    ensures HasPrefix(PrintLabel(p, name, value), TAINT_PREFIX) <==> p.Own? && name == "taint"
    ensures PrintLabel(p, name, value) != EXCLUDE_BALANCER
  {
    hide QualifiedName, LabelValue, DnsSubdomain;
    var tag := PrintLabel(p, name, value);
    assert tag[|Opening(p)| + |name|] == '=' && '=' in tag;
    assert '=' !in EXCLUDE_BALANCER;
    if p.Own? {
      assert tag == name + "=" + value;
      TaintIsName();
      MarkerSeen("taint", name, "=", value);
    } else {
      assert tag[0] == NO_PREFIX[0] == 'n' && TAINT_PREFIX[0] == 't';
    }
  }

  lemma TaintIsName()
    ensures TAINT_PREFIX == "taint" + "=" && QualifiedName("taint")
  {
  }

  /** Some list has a tag for a label, or for a taint of the same key and effect. */
  ghost predicate LabelAsked(k: string, lists: seq<seq<string>>) {
    exists tags | tags in lists :: k in TagLabels(tags, true)
  }

  ghost predicate TaintAsked(t: Taint, lists: seq<seq<string>>) {
    exists tags | tags in lists :: UniqueKey(t) in TagTaints(tags)
  }

  /** A label that no sync takes away by itself. */
  predicate Lasting(key: string, value: string) {
    !HasPrefix(key, LABELS_PREFIX) && !(key == EXCLUDE_BALANCER && value == EXCLUDE_BALANCER_VALUE)
  }

  /** The labels and taints outside the prefix that no list asks for are as they were. */
  ghost predicate OwnKept(node: NodeMeta, synced: NodeMeta, lists: seq<seq<string>>) {
    && (forall k | k in node.labels && Lasting(k, node.labels[k]) && !LabelAsked(k, lists) ::
          k in synced.labels && synced.labels[k] == node.labels[k])
    && (forall t | t in node.taints && !HasPrefix(t.key, LABELS_PREFIX) && !TaintAsked(t, lists) :: t in synced.taints)
  }

  lemma OwnKeptStep(node: NodeMeta, was: NodeMeta, synced: NodeMeta, lists: seq<seq<string>>, tags: seq<string>)
    requires OwnKept(node, was, lists) && UniqueTaints(was.taints)
    requires synced.labels == SyncedLabels(was.labels, tags, true)
             && ListsTaints(synced.taints, SyncedTaints(was.taints, tags))
    ensures OwnKept(node, synced, lists + [tags])
  {
    hide TagLabels, TagTaints, HasPrefix, ListsTaints, SyncedLabels, SyncedTaints, UniqueKey;
    forall k ensures LabelAsked(k, lists + [tags]) <==> LabelAsked(k, lists) || k in TagLabels(tags, true) {
    }
    forall t ensures TaintAsked(t, lists + [tags]) <==> TaintAsked(t, lists) || UniqueKey(t) in TagTaints(tags) {
    }
    TaintsSynced(was.taints, synced.taints, tags);
    forall k | k in node.labels && Lasting(k, node.labels[k]) && !LabelAsked(k, lists + [tags])
      ensures k in synced.labels && synced.labels[k] == node.labels[k]
    {
      LabelsSynced(was.labels, tags, true, k);
    }
  }

  /** The node carries the exclude-balancer label with the managed value. */
  ghost predicate Excluded(node: NodeMeta) {
    EXCLUDE_BALANCER in node.labels && node.labels[EXCLUDE_BALANCER] == EXCLUDE_BALANCER_VALUE
  }

  lemma ExclusionStep(was: NodeMeta, tags: seq<string>, synced: NodeMeta)
    requires synced.labels == SyncedLabels(was.labels, tags, true)
    ensures Excluded(synced) <==> AsksLast(tags, true, EXCLUDE_BALANCER, EXCLUDE_BALANCER_VALUE)
    ensures !AskedAtAll(tags, true, EXCLUDE_BALANCER) && (EXCLUDE_BALANCER in was.labels ==> Excluded(was)) ==>
              EXCLUDE_BALANCER !in synced.labels
  {
    hide SyncedLabels, AskedAtAll, AsksLast;
    NodeLabelsMean(was.labels, tags);
    SyncedLabelsMean(was.labels, tags, true, EXCLUDE_BALANCER, EXCLUDE_BALANCER_VALUE);
    if EXCLUDE_BALANCER in synced.labels && !AskedAtAll(tags, true, EXCLUDE_BALANCER) {
      SyncedLabelsMean(was.labels, tags, true, EXCLUDE_BALANCER, synced.labels[EXCLUDE_BALANCER]);
      NeverAsked(tags, EXCLUDE_BALANCER, synced.labels[EXCLUDE_BALANCER]);
    }
  }

  /** Over any history of tag lists: under the controller's prefix, labels and taints are those of the
      last list alone; no other label is ever lost but the controller's exclude-balancer label; every
      other label and taint that no list asks for is as it was, a user's own exclude-balancer label
      included; the controller's own is there exactly if the last list asks for it; and taints stay
      unique. */
  method History(node: NodeMeta, lists: seq<seq<string>>) returns (synced: NodeMeta)
    requires UniqueTaints(node.taints)
    ensures UniqueTaints(synced.taints)
    ensures lists == [] ==> synced == node
    ensures lists != [] ==> forall k | HasPrefix(k, LABELS_PREFIX) ::
                              var t := TagLabels(lists[|lists| - 1], true);
                              (k in synced.labels <==> k in t) && (k in synced.labels ==> synced.labels[k] == t[k])
    ensures lists != [] ==>
              forall t: Taint | HasPrefix(t.key, LABELS_PREFIX) ::
                t in synced.taints <==> AskedFor(t, lists[|lists| - 1])
    ensures forall k | k in node.labels && !HasPrefix(k, LABELS_PREFIX) && k != EXCLUDE_BALANCER :: k in synced.labels
    ensures OwnKept(node, synced, lists)
    ensures lists != [] ==> (Excluded(synced) <==> AsksLast(lists[|lists| - 1], true, EXCLUDE_BALANCER,
                                                            EXCLUDE_BALANCER_VALUE))
    ensures lists != [] && (EXCLUDE_BALANCER in node.labels ==> Excluded(node))
            && (forall tags | tags in lists :: !AskedAtAll(tags, true, EXCLUDE_BALANCER)) ==>
              EXCLUDE_BALANCER !in synced.labels
  {
    hide LabelAfter, AsksLast, AskedAtAll, TagLabelParser;
    hide TagLabels, HasPrefix, AskedFor, ListsTaints, SyncedLabels, OwnKept;
    synced := node;
    OwnKeptReflexive(node);
    assert lists[..0] == [];
    for i := 0 to |lists|
      invariant UniqueTaints(synced.taints)
      invariant i == 0 ==> synced == node
      invariant i > 0 ==> forall k | HasPrefix(k, LABELS_PREFIX) ::
                            var t := TagLabels(lists[i - 1], true);
                            (k in synced.labels <==> k in t) && (k in synced.labels ==> synced.labels[k] == t[k])
      invariant i > 0 ==>
                  forall t: Taint | HasPrefix(t.key, LABELS_PREFIX) :: t in synced.taints <==> AskedFor(t, lists[i - 1])
      invariant forall k | k in node.labels && !HasPrefix(k, LABELS_PREFIX) && k != EXCLUDE_BALANCER ::
                  k in synced.labels
      invariant OwnKept(node, synced, lists[..i])
      invariant i > 0 ==> (Excluded(synced) <==> AsksLast(lists[i - 1], true, EXCLUDE_BALANCER, EXCLUDE_BALANCER_VALUE))
      invariant (EXCLUDE_BALANCER in node.labels ==> Excluded(node))
                && (forall tags | tags in lists :: !AskedAtAll(tags, true, EXCLUDE_BALANCER)) ==>
                  if i > 0 then EXCLUDE_BALANCER !in synced.labels else synced == node
    {
      var was := synced;
      synced := SyncNodeTags(lists[i], was);
      TaintsSynced(was.taints, synced.taints, lists[i]);
      ExclusionStep(was, lists[i], synced);
      assert lists[i] in lists;
      OwnKeptStep(node, was, synced, lists[..i], lists[i]);
      assert lists[..i + 1] == lists[..i] + [lists[i]];
      forall k ensures HasPrefix(k, LABELS_PREFIX) ==>
                         var t := TagLabels(lists[i], true);
                         (k in synced.labels <==> k in t) && (k in synced.labels ==> synced.labels[k] == t[k])
               ensures k in was.labels && !HasPrefix(k, LABELS_PREFIX) && k != EXCLUDE_BALANCER ==> k in synced.labels
      {
        LabelsSynced(was.labels, lists[i], true, k);
      }
    }
    assert lists[..|lists|] == lists;
  }

  lemma OwnKeptReflexive(node: NodeMeta)
    ensures OwnKept(node, node, [])
  {
  }
}
