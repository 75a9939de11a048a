/** Condition lists: a small map from condition types to their latest report, kept as a sequence. */
module Conditions {
  import opened Prelude

  datatype Truth = ConditionTrue | ConditionFalse | ConditionUnknown

  datatype Kind = InstanceReady | ClusterReady

  /** The reasons that the two controllers give. */
  datatype Reason =
    | InstanceIsReady | InstanceProvisionFailed | InstanceNotReady | InstanceDeletionFailed
    | ClusterIsReady | ClusterProvisionFailed | ClusterDeletionFailed | InvalidClusterConfig | ControlPlaneEndpointSet

  datatype Condition = Condition(
    kind: Kind,
    status: Truth,
    reason: Reason,
    message: string,
    generation: nat,
    since: int) // LastTransitionTime

  /**
   * The two controllers differ in what counts as a change: the machine's rewrites every field and moves the time when
   * status, reason or message differ; the cluster's leaves the old report alone unless status or reason differ.
   */
  datatype Policy = RewriteAlways | RewriteOnChange

  predicate Differs(old_: Condition, new_: Condition, policy: Policy) {
    old_.status != new_.status || old_.reason != new_.reason || (policy.RewriteAlways? && old_.message != new_.message)
  }

  /** What replaces an earlier report of the same type. */
  function Merge(old_: Condition, new_: Condition, policy: Policy): Condition {
    if Differs(old_, new_, policy) then new_
    else if policy.RewriteAlways? then new_.(since := old_.since)
    else old_
  }

  function Lookup(cs: seq<Condition>, kind: Kind): Option<Condition> {
    if cs == [] then None
    else if cs[0].kind == kind then Some(cs[0])
    else Lookup(cs[1..], kind)
  }

  ghost predicate UniqueKinds(cs: seq<Condition>) {
    forall i, j :: 0 <= i < j < |cs| ==> cs[i].kind != cs[j].kind
  }

  function Put(cs: seq<Condition>, c: Condition, policy: Policy): seq<Condition> {
    if cs == [] then [c]
    else if cs[0].kind == c.kind then [Merge(cs[0], c, policy)] + cs[1..]
    else [cs[0]] + Put(cs[1..], c, policy)
  }

  /** The report takes effect: its type is present, with its status. */
  lemma {:induction false} PutReports(cs: seq<Condition>, c: Condition, policy: Policy)
    ensures var r := Lookup(Put(cs, c, policy), c.kind);
            r.Some? && r.value.status == c.status
  {
    if cs != [] && cs[0].kind != c.kind {
      PutReports(cs[1..], c, policy);
    }
  }

  lemma {:induction false} PutKinds(cs: seq<Condition>, c: Condition, policy: Policy)
    ensures var r := Put(cs, c, policy);
            |cs| <= |r| <= |cs| + 1 && (forall i :: 0 <= i < |cs| ==> r[i].kind == cs[i].kind) &&
            (|r| > |cs| ==> r[|cs|].kind == c.kind && forall i :: 0 <= i < |cs| ==> cs[i].kind != c.kind)
  {
    if cs != [] && cs[0].kind != c.kind {
      PutKinds(cs[1..], c, policy);
      var r, rest := Put(cs, c, policy), Put(cs[1..], c, policy);
      assert forall i :: 0 < i < |cs| ==> r[i] == rest[i - 1] && cs[i] == cs[1..][i - 1];
    }
  }

  /** The list stays a map: types remain unique, and only the entry of the reported type is updated. */
  lemma {:induction false} PutIsMapUpdate(cs: seq<Condition>, c: Condition, policy: Policy, kind: Kind)
    requires UniqueKinds(cs)
    ensures UniqueKinds(Put(cs, c, policy))
    ensures Lookup(Put(cs, c, policy), kind) ==
            if kind != c.kind then Lookup(cs, kind)
            else if Lookup(cs, kind).None? then Some(c)
            else Some(Merge(Lookup(cs, kind).value, c, policy))
  {
    PutKinds(cs, c, policy);
    if cs != [] && cs[0].kind != c.kind {
      assert forall i :: 0 <= i < |cs[1..]| ==> cs[1..][i] == cs[i + 1];
      PutIsMapUpdate(cs[1..], c, policy, kind);
    }
  }

  /**
   * A machine's report always takes effect as a whole, but its time moves exactly when status, reason or message do. A
   * cluster's takes effect exactly when status or reason change; otherwise the old one stays, with its message.
   */
  lemma TimeMovesOnChange(cs: seq<Condition>, c: Condition)
    requires UniqueKinds(cs) && Lookup(cs, c.kind).Some?
    ensures var old_ := Lookup(cs, c.kind).value;
            && Lookup(Put(cs, c, RewriteAlways), c.kind) ==
                 Some(if c.status == old_.status && c.reason == old_.reason && c.message == old_.message
                      then c.(since := old_.since) else c)
            && Lookup(Put(cs, c, RewriteOnChange), c.kind) ==
                 Some(if c.status == old_.status && c.reason == old_.reason then old_ else c)
  {
    PutIsMapUpdate(cs, c, RewriteAlways, c.kind);
    PutIsMapUpdate(cs, c, RewriteOnChange, c.kind);
  }

  lemma {:induction false} PutBehind(front: seq<Condition>, rest: seq<Condition>, c: Condition, policy: Policy)
    requires forall i :: 0 <= i < |front| ==> front[i].kind != c.kind
    ensures Put(front + rest, c, policy) == front + Put(rest, c, policy)
  {
    if front == [] {
      assert front + rest == rest;
    } else {
      assert (front + rest)[1..] == front[1..] + rest;
      PutBehind(front[1..], rest, c, policy);
    }
  }

  /** The loop of setCondition, for either controller. */
  method SetCondition(conditions: seq<Condition>, condition: Condition, policy: Policy) returns (r: seq<Condition>)
    ensures r == Put(conditions, condition, policy)
  {
    for i := 0 to |conditions|
      invariant forall j :: 0 <= j < i ==> conditions[j].kind != condition.kind
    {
      if conditions[i].kind == condition.kind {
        PutBehind(conditions[..i], conditions[i..], condition, policy);
        assert conditions == conditions[..i] + conditions[i..];
        return conditions[i := Merge(conditions[i], condition, policy)];
      }
    }
    PutBehind(conditions, [], condition, policy);
    assert conditions == conditions + [];
    r := conditions + [condition];
  }
}
