/** `validateApi` and the page state it drives. The three requests are
    issued, their outcomes joined, each body reduced to one boolean and the
    booleans classified; any exception inside the `try` block becomes a
    failure record. */
module Validator {
  import opened Wrappers
  import opened JsonValues
  import opened Requests
  import opened PromiseAll
  import opened Fingerprint

  /** `Array(3)`: the number of probes per attempt. */
  const RequestCount: nat := 3

  /** A request whose response body has the fingerprint key. */
  predicate Present(o: Settled) {
    o.Fulfilled? && o.data.Object? && FingerprintKey in o.data.fields
  }

  /** A request whose response body the `in` test accepts (an object or an array). */
  predicate Answered(o: Settled) {
    o.Fulfilled? && IsObject(o.data)
  }

  /** What `validateApi` stores in `result`, given how the requests settled:
      a verdict or a failure, valid exactly when every request returned a
      body with the fingerprint. */
  function Validate(outcomes: seq<Settled>, order: seq<nat>): (r: ValidationResult)
    requires Resolved(outcomes, order)
    ensures r.isValid <==> forall i :: 0 <= i < |outcomes| ==> Present(outcomes[i])
    ensures (exists v :: r == Report(v)) || (exists m :: r == Failed(m))
  {
    match JoinAll(outcomes, order)
    case Err(m) => Failed(m)
    case Ok(responses) =>
      match Fingerprints(responses)
      case Err(m) => Failed(m)
      case Ok(fps) =>
        ClassifyExactlyOne(fps);
        Classify(fps)
  }

  /** A rejected request means no verdict: the record is a failure carrying
      the message of some rejected request. */
  lemma ValidateRejected(outcomes: seq<Settled>, order: seq<nat>, i: nat)
    requires Resolved(outcomes, order)
    requires i < |outcomes| && outcomes[i].Rejected?
    ensures exists j ::
      0 <= j < |outcomes| && outcomes[j].Rejected? && Validate(outcomes, order) == Failed(outcomes[j].message)
    ensures forall v :: Validate(outcomes, order) != Report(v)
  {
    ReportInjective();
  }

  /** All requests fulfilled but a body is a primitive: the TypeError of the
      first such body is reported. */
  lemma ValidateNonObject(outcomes: seq<Settled>, order: seq<nat>, i: nat)
    requires Resolved(outcomes, order)
    requires forall j :: 0 <= j < |outcomes| ==> outcomes[j].Fulfilled?
    requires i < |outcomes| && !IsObject(outcomes[i].data)
    requires forall j :: 0 <= j < i ==> IsObject(outcomes[j].data)
    ensures Validate(outcomes, order) == Failed(InOperatorError(outcomes[i].data))
  {
  }

  /** Every body has the fingerprint: official, valid. */
  lemma ValidateOfficial(outcomes: seq<Settled>, order: seq<nat>)
    requires Resolved(outcomes, order)
    requires forall i :: 0 <= i < |outcomes| ==> Present(outcomes[i])
    ensures Validate(outcomes, order) == ValidationResult(true, "官方 API")
  {
  }

  /** Every body is an object or array and none has the fingerprint: reversed, invalid. */
  lemma ValidateReversed(outcomes: seq<Settled>, order: seq<nat>)
    requires Resolved(outcomes, order)
    requires |outcomes| > 0
    requires forall i :: 0 <= i < |outcomes| ==> Answered(outcomes[i]) && !Present(outcomes[i])
    ensures Validate(outcomes, order) == ValidationResult(false, "逆向 API")
  {
  }

  /** Every body is an object or array, one has the fingerprint and another
      has not: mixed, invalid. */
  lemma ValidateMixed(outcomes: seq<Settled>, order: seq<nat>, i: nat, j: nat)
    requires Resolved(outcomes, order)
    requires forall k :: 0 <= k < |outcomes| ==> Answered(outcomes[k])
    requires i < |outcomes| && Present(outcomes[i])
    requires j < |outcomes| && !Present(outcomes[j])
    ensures Validate(outcomes, order) == ValidationResult(false, "掺假 API")
  {
  }

  /** Without a rejection the record does not depend on the settle order;
      repeating an attempt that gets the same responses gives the same record. */
  lemma ValidateIgnoresSettleOrder(outcomes: seq<Settled>, order1: seq<nat>, order2: seq<nat>)
    requires Resolved(outcomes, order1) && Resolved(outcomes, order2)
    requires forall i :: 0 <= i < |outcomes| ==> outcomes[i].Fulfilled?
    ensures Validate(outcomes, order1) == Validate(outcomes, order2)
  {
  }

  /** Reordering the responses does not change the result, provided every
      body is an object or an array. (With two primitive bodies the reported
      TypeError is that of the first, so order matters there.) */
  lemma ValidatePermutationInvariant(a: seq<Settled>, orderA: seq<nat>, b: seq<Settled>, orderB: seq<nat>)
    requires Resolved(a, orderA) && Resolved(b, orderB)
    requires multiset(a) == multiset(b)
    requires forall i :: 0 <= i < |a| ==> Answered(a[i])
    ensures Validate(a, orderA) == Validate(b, orderB)
  {
    assert |a| == |multiset(a)| == |multiset(b)| == |b|;
    assert forall x :: x in a <==> x in b by {
      forall x ensures x in a <==> x in b {
        assert x in a <==> x in multiset(a);
        assert x in b <==> x in multiset(b);
      }
    }
    assert forall i :: 0 <= i < |b| ==> Answered(b[i]) by {
      forall i | 0 <= i < |b| ensures Answered(b[i]) {
        assert b[i] in a;
      }
    }
    if forall i :: 0 <= i < |a| ==> Present(a[i]) {
      assert forall i :: 0 <= i < |b| ==> Present(b[i]) by {
        forall i | 0 <= i < |b| ensures Present(b[i]) {
          assert b[i] in a;
        }
      }
      ValidateOfficial(a, orderA);
      ValidateOfficial(b, orderB);
    } else if forall i :: 0 <= i < |a| ==> !Present(a[i]) {
      assert forall i :: 0 <= i < |b| ==> !Present(b[i]) by {
        forall i | 0 <= i < |b| ensures !Present(b[i]) {
          assert b[i] in a;
        }
      }
      ValidateReversed(a, orderA);
      ValidateReversed(b, orderB);
    } else {
      var i :| 0 <= i < |a| && Present(a[i]);
      var j :| 0 <= j < |a| && !Present(a[j]);
      assert a[i] in b && a[j] in b;
      var i' :| 0 <= i' < |b| && b[i'] == a[i];
      var j' :| 0 <= j' < |b| && b[j'] == a[j];
      ValidateMixed(a, orderA, i, j);
      ValidateMixed(b, orderB, i', j');
    }
  }

  /** The page: the two inputs and the two pieces of state `validateApi` sets. */
  class App {
    var apiBaseUrl: string
    var apiKey: string
    var result: Option<ValidationResult>
    var loading: bool

    /** While an attempt is in flight no result banner is shown: the button
        reads "验证中..." and the banner needs a non-null `result`
        (src/App.js:95, 99). */
    ghost predicate Valid()
      reads this
    {
      loading ==> result == None
    }

    /** The initial state, with the inputs as the user left them. */
    constructor (apiBaseUrl: string, apiKey: string)
      ensures Valid()
      ensures this.apiBaseUrl == apiBaseUrl && this.apiKey == apiKey
      ensures result == None && !loading
    {
      this.apiBaseUrl := apiBaseUrl;
      this.apiKey := apiKey;
      result := None;
      loading := false;
    }

    /** The start of an attempt, up to the `await`: loading on, result
        cleared, three identical requests dispatched. The button is disabled
        while loading, so no attempt is in flight. */
    method Begin() returns (sent: seq<PostRequest>)
      requires Valid() && !loading
      modifies this`loading, this`result
      ensures Valid() && loading && result == None
      ensures sent == ProbeBatch(apiBaseUrl, apiKey, RequestCount)
      ensures forall i :: 0 <= i < |sent| ==> sent[i] == SendApiRequest(apiBaseUrl, apiKey)
    {
      loading := true;
      result := None;
      sent := ProbeBatch(apiBaseUrl, apiKey, RequestCount);
    }

    /** The rest of the attempt, once the join has resolved: `outcomes` are
        the requests' results in issue order, `order` the requests that had
        settled by then, in the order they settled. */
    method Finish(outcomes: seq<Settled>, order: seq<nat>)
      requires Valid() && loading
      requires |outcomes| == RequestCount && Resolved(outcomes, order)
      modifies this`loading, this`result
      ensures Valid() && !loading
      ensures result == Some(Validate(outcomes, order))
    {
      var joined := JoinAll(outcomes, order);
      if joined.Err? {
        result := Some(Failed(joined.error));
      } else {
        var fingerprintResults := Fingerprints(joined.value);
        if fingerprintResults.Err? {
          result := Some(Failed(fingerprintResults.error));
        } else {
          var fps := fingerprintResults.value;
          var allHaveFingerprint := AllHaveFingerprint(fps);
          var noneHaveFingerprint := NoneHaveFingerprint(fps);
          if allHaveFingerprint {
            result := Some(ValidationResult(true, OfficialReason));
          } else if noneHaveFingerprint {
            result := Some(ValidationResult(false, ReversedReason));
          } else {
            result := Some(ValidationResult(false, MixedReason));
          }
        }
      }
      loading := false;
    }

    /** One whole attempt whose join resolves: it ends with loading off and
        a result stored, whether the requests succeeded or not. */
    method ValidateApi(outcomes: seq<Settled>, order: seq<nat>) returns (sent: seq<PostRequest>)
      requires Valid() && !loading
      requires |outcomes| == RequestCount && Resolved(outcomes, order)
      modifies this`loading, this`result
      ensures Valid() && !loading && result.Some?
      ensures result == Some(Validate(outcomes, order))
      ensures sent == ProbeBatch(apiBaseUrl, apiKey, RequestCount)
    {
      sent := Begin();
      Finish(outcomes, order);
    }
  }

  const WithFingerprint: Json := Object(map["system_fingerprint" := Str("fp_123")])
  const WithoutFingerprint: Json := Object(map["id" := Str("chatcmpl-1")])

  /** Three bodies with `system_fingerprint: "fp_123"`, all settled in any order: official. */
  lemma ScenarioAllFingerprinted(order: seq<nat>)
    requires IsSettleOrder(order, 3) && |order| == 3
    ensures var outcomes := [Fulfilled(WithFingerprint), Fulfilled(WithFingerprint), Fulfilled(WithFingerprint)];
      Resolved(outcomes, order) && Validate(outcomes, order) == ValidationResult(true, "官方 API")
  {
    var outcomes := [Fulfilled(WithFingerprint), Fulfilled(WithFingerprint), Fulfilled(WithFingerprint)];
    AllSettledResolves(outcomes, order);
    assert forall i :: 0 <= i < 3 ==> outcomes[i] == Fulfilled(WithFingerprint);
    ValidateOfficial(outcomes, order);
  }

  /** Three bodies without the key, all settled in any order: reversed. */
  lemma ScenarioNoneFingerprinted(order: seq<nat>)
    requires IsSettleOrder(order, 3) && |order| == 3
    ensures var outcomes := [Fulfilled(WithoutFingerprint), Fulfilled(WithoutFingerprint), Fulfilled(WithoutFingerprint)];
      Resolved(outcomes, order) && Validate(outcomes, order) == ValidationResult(false, "逆向 API")
  {
    var outcomes := [Fulfilled(WithoutFingerprint), Fulfilled(WithoutFingerprint), Fulfilled(WithoutFingerprint)];
    AllSettledResolves(outcomes, order);
    assert "system_fingerprint" !in WithoutFingerprint.fields;
    assert forall i :: 0 <= i < 3 ==> outcomes[i] == Fulfilled(WithoutFingerprint);
    ValidateReversed(outcomes, order);
  }

  /** With, without, with, all settled in any order: mixed. */
  lemma ScenarioMixed(order: seq<nat>)
    requires IsSettleOrder(order, 3) && |order| == 3
    ensures var outcomes := [Fulfilled(WithFingerprint), Fulfilled(WithoutFingerprint), Fulfilled(WithFingerprint)];
      Resolved(outcomes, order) && Validate(outcomes, order) == ValidationResult(false, "掺假 API")
  {
    var outcomes := [Fulfilled(WithFingerprint), Fulfilled(WithoutFingerprint), Fulfilled(WithFingerprint)];
    AllSettledResolves(outcomes, order);
    assert "system_fingerprint" !in WithoutFingerprint.fields;
    ValidateMixed(outcomes, order, 0, 1);
  }

  /** The second request times out (or fails in any other way): as soon as
      it has settled the attempt is a failure carrying its message, whatever
      the others returned and whether or not they have settled. */
  lemma ScenarioSecondFails(order: seq<nat>, first: Json, third: Json, message: string)
    requires IsSettleOrder(order, 3) && 1 in order
    ensures var outcomes := [Fulfilled(first), Rejected(message), Fulfilled(third)];
      Resolved(outcomes, order) && Validate(outcomes, order) == ValidationResult(false, "请求失败: " + message)
  {
    var outcomes := [Fulfilled(first), Rejected(message), Fulfilled(third)];
    var k :| 0 <= k < |order| && order[k] == 1;
    assert outcomes[order[k]].Rejected?;
    assert forall j :: 0 <= j < 3 && j != 1 ==> outcomes[j].Fulfilled?;
    SoleRejectionReported(outcomes, order, 1);
  }
}
