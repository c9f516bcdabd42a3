/** `Promise.all` over the probe requests. Which request settles first
    depends on timing, so the order in which the requests settle is a
    parameter. The join resolves once every request has settled or as soon
    as one has been rejected: the first rejection in settle order is the one
    reported, and the fulfilled values are collected in the order the
    requests were issued. A request that never settles never appears in the
    order. */
module PromiseAll {
  import opened Wrappers
  import opened JsonValues

  /** How one request ended: a response carrying `data`, or an error with a message. */
  datatype Settled = Fulfilled(data: Json) | Rejected(message: string)

  /** `order` lists, in the order they settled, the requests that have
      settled so far: each names a request that exists, and none twice. */
  predicate IsSettleOrder(order: seq<nat>, n: nat) {
    && |order| <= n
    && (forall k :: 0 <= k < |order| ==> order[k] < n)
    && (forall j, k :: 0 <= j < k < |order| ==> order[j] != order[k])
  }

  /** The join has resolved: every request has settled, or one of those
      that settled was rejected. */
  predicate JoinResolves(outcomes: seq<Settled>, order: seq<nat>)
    requires IsSettleOrder(order, |outcomes|)
  {
    || (forall i :: 0 <= i < |outcomes| ==> i in order)
    || (exists k :: 0 <= k < |order| && outcomes[order[k]].Rejected?)
  }

  /** `order` is a settle order of the requests after which the join has resolved. */
  predicate Resolved(outcomes: seq<Settled>, order: seq<nat>) {
    IsSettleOrder(order, |outcomes|) && JoinResolves(outcomes, order)
  }

  /** The message of the first rejection in settle order, if there is one. */
  function FirstRejection(outcomes: seq<Settled>, order: seq<nat>): (r: Option<string>)
    requires forall k :: 0 <= k < |order| ==> order[k] < |outcomes|
    ensures r.None? <==> forall k :: 0 <= k < |order| ==> outcomes[order[k]].Fulfilled?
    ensures r.Some? ==>
      exists k :: 0 <= k < |order| && outcomes[order[k]] == Rejected(r.value) &&
        forall j :: 0 <= j < k ==> outcomes[order[j]].Fulfilled?
    decreases |order|
  {
    if order == [] then None
    else if outcomes[order[0]].Rejected? then Some(outcomes[order[0]].message)
    else
      var rest := FirstRejection(outcomes, order[1..]);
      assert forall k :: 1 <= k < |order| ==> order[k] == order[1..][k - 1];
      rest
  }

  /** The join, once resolved: all data, in issue order, when every request
      was fulfilled; otherwise the message of some request that was rejected. */
  function JoinAll(outcomes: seq<Settled>, order: seq<nat>): (r: Result<seq<Json>, string>)
    requires Resolved(outcomes, order)
    ensures r.Ok? <==> forall i :: 0 <= i < |outcomes| ==> outcomes[i].Fulfilled?
    ensures r.Ok? ==>
      |r.value| == |outcomes| && forall i :: 0 <= i < |outcomes| ==> outcomes[i] == Fulfilled(r.value[i])
    ensures r.Err? ==> exists i :: 0 <= i < |outcomes| && outcomes[i] == Rejected(r.error)
  {
    match FirstRejection(outcomes, order)
    case Some(m) => Err(m)
    case None =>
      assert forall i :: 0 <= i < |outcomes| ==> outcomes[i].Fulfilled? by {
        forall i | 0 <= i < |outcomes| ensures outcomes[i].Fulfilled? {
          assert i in order;
          var k :| 0 <= k < |order| && order[k] == i;
        }
      }
      Ok(seq(|outcomes|, i requires 0 <= i < |outcomes| => outcomes[i].data))
  }

  /** When nothing is rejected, the joined data does not depend on the settle order. */
  lemma JoinAllSuccessIgnoresOrder(outcomes: seq<Settled>, order1: seq<nat>, order2: seq<nat>)
    requires Resolved(outcomes, order1)
    requires Resolved(outcomes, order2)
    requires forall i :: 0 <= i < |outcomes| ==> outcomes[i].Fulfilled?
    ensures JoinAll(outcomes, order1) == JoinAll(outcomes, order2)
  {
  }

  /** When exactly one request is rejected, its message is reported whatever the settle order. */
  lemma SoleRejectionReported(outcomes: seq<Settled>, order: seq<nat>, i: nat)
    requires Resolved(outcomes, order)
    requires i < |outcomes| && outcomes[i].Rejected?
    requires forall j :: 0 <= j < |outcomes| && j != i ==> outcomes[j].Fulfilled?
    ensures JoinAll(outcomes, order) == Err(outcomes[i].message)
  {
  }

  /** A request that has not settled, with no rejection so far, keeps the
      join pending. */
  lemma PendingWithoutRejection(outcomes: seq<Settled>, order: seq<nat>, i: nat)
    requires IsSettleOrder(order, |outcomes|)
    requires i < |outcomes| && i !in order
    requires forall k :: 0 <= k < |order| ==> outcomes[order[k]].Fulfilled?
    ensures !Resolved(outcomes, order)
  {
  }

  /** The indices a settle order names. */
  function Named(order: seq<nat>): set<nat> {
    set k | 0 <= k < |order| :: order[k]
  }

  lemma {:induction false} NamedCount(order: seq<nat>)
    requires forall j, k :: 0 <= j < k < |order| ==> order[j] != order[k]
    ensures |Named(order)| == |order|
  {
    if order != [] {
      var rest := order[..|order| - 1];
      NamedCount(rest);
      assert Named(order) == Named(rest) + {order[|order| - 1]};
      assert order[|order| - 1] !in Named(rest);
    }
  }

  /** The indices of `n` requests. */
  function Indices(n: nat): (r: set<nat>)
    ensures |r| == n
    ensures forall i: nat :: i in r <==> i < n
  {
    if n == 0 then {} else Indices(n - 1) + {n - 1}
  }

  /** Once all the requests have settled the join resolves, whatever they returned. */
  lemma AllSettledResolves(outcomes: seq<Settled>, order: seq<nat>)
    requires IsSettleOrder(order, |outcomes|) && |order| == |outcomes|
    ensures Resolved(outcomes, order)
  {
    var n := |outcomes|;
    var all := Indices(n);
    NamedCount(order);
    assert Named(order) <= all;
    var missing := all - Named(order);
    assert all == Named(order) + missing;
    assert Named(order) * missing == {};
    assert |missing| == 0;
    forall i | 0 <= i < n ensures i in order {
      assert i in all && i !in missing;
      var k :| 0 <= k < |order| && order[k] == i;
    }
  }
}
