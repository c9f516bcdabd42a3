/** The decision rule of `validateApi`: each response body becomes one
    boolean (does it have a `system_fingerprint` key?) and the booleans
    collapse to one of three verdicts. */
module Fingerprint {
  import opened Wrappers
  import opened JsonValues

  const FingerprintKey: string := "system_fingerprint"

  const OfficialReason: string := "官方 API"
  const ReversedReason: string := "逆向 API"
  const MixedReason: string := "掺假 API"
  const FailurePrefix: string := "请求失败: "

  /** The `{isValid, reason}` record the page stores in `result`. */
  datatype ValidationResult = ValidationResult(isValid: bool, reason: string)

  /** The record stored when the `try` block throws: invalid, and the
      error's message can be read back after the prefix. */
  function Failed(message: string): (r: ValidationResult)
    ensures !r.isValid
    ensures |FailurePrefix| <= |r.reason| && r.reason[..|FailurePrefix|] == FailurePrefix
    ensures r.reason[|FailurePrefix|..] == message
  {
    ValidationResult(false, FailurePrefix + message)
  }

  const InOperatorPrefix: string := "Cannot use 'in' operator to search for '" + FingerprintKey + "' in "

  /** The message of the TypeError V8 throws for `key in v` on a primitive
      `v`: it names the key and ends with the value as text. */
  function InOperatorError(v: Json): (m: string)
    requires !IsObject(v)
    ensures |InOperatorPrefix| <= |m| && m[..|InOperatorPrefix|] == InOperatorPrefix
    ensures m[|InOperatorPrefix|..] == PrimitiveToString(v)
  {
    InOperatorPrefix + PrimitiveToString(v)
  }

  /** `'system_fingerprint' in data`: key membership on an object, whatever
      the value; always false on an array; a TypeError on a primitive. */
  function HasFingerprint(data: Json): (r: Result<bool, string>)
    ensures r.Ok? <==> IsObject(data)
    ensures r.Ok? ==> (r.value <==> data.Object? && FingerprintKey in data.fields)
  {
    match data
    case Object(fields) => Ok(FingerprintKey in fields)
    case Array(_) => Ok(false)
    case _ => Err(InOperatorError(data))
  }

  /** Presence is membership only: a fingerprint whose value is `null`, or any
      other value, still counts. */
  lemma PresenceIgnoresValue(fields: map<string, Json>, v: Json)
    ensures HasFingerprint(Object(fields[FingerprintKey := v])) == Ok(true)
    ensures HasFingerprint(Object(fields[FingerprintKey := Null])) == Ok(true)
  {
  }

  /** No key other than the fingerprint has any influence. */
  lemma OtherKeysIgnored(fields: map<string, Json>, k: string, v: Json)
    requires k != FingerprintKey
    ensures HasFingerprint(Object(fields[k := v])) == HasFingerprint(Object(fields))
    ensures HasFingerprint(Object(fields - {k})) == HasFingerprint(Object(fields))
  {
  }

  /** `responses.map(r => 'system_fingerprint' in r.data)`, evaluated left
      to right: the first primitive body throws and ends the map. */
  function Fingerprints(datas: seq<Json>): (r: Result<seq<bool>, string>)
    ensures r.Ok? <==> forall i :: 0 <= i < |datas| ==> IsObject(datas[i])
    ensures r.Ok? ==>
      |r.value| == |datas| && forall i :: 0 <= i < |datas| ==> HasFingerprint(datas[i]) == Ok(r.value[i])
    ensures r.Err? ==>
      exists i :: 0 <= i < |datas| && !IsObject(datas[i]) && r.error == InOperatorError(datas[i]) &&
        forall j :: 0 <= j < i ==> IsObject(datas[j])
  {
    if datas == [] then Ok([])
    else
      assert forall k :: 1 <= k < |datas| ==> datas[k] == datas[1..][k - 1];
      match HasFingerprint(datas[0])
      case Err(m) => Err(m)
      case Ok(b) =>
        match Fingerprints(datas[1..])
        case Err(m) => Err(m)
        case Ok(bs) => Ok([b] + bs)
  }

  /** `fingerprintResults.every(Boolean)`: holds exactly when no response lacked the key. */
  predicate AllHaveFingerprint(fps: seq<bool>)
    ensures AllHaveFingerprint(fps) <==> false !in fps
  {
    forall i :: 0 <= i < |fps| ==> fps[i]
  }

  /** `fingerprintResults.every(result => !result)`: holds exactly when no response had the key. */
  predicate NoneHaveFingerprint(fps: seq<bool>)
    ensures NoneHaveFingerprint(fps) <==> true !in fps
  {
    forall i :: 0 <= i < |fps| ==> !fps[i]
  }

  /** The if/else chain: the "all" test comes first, so on an empty sequence
      (where both tests hold) the result is the official one. */
  function Classify(fps: seq<bool>): (r: ValidationResult)
    ensures r.isValid <==> AllHaveFingerprint(fps)
  {
    if AllHaveFingerprint(fps) then ValidationResult(true, OfficialReason)
    else if NoneHaveFingerprint(fps) then ValidationResult(false, ReversedReason)
    else ValidationResult(false, MixedReason)
  }

  // ---------------------------------------------------------------------
  // A reference definition by counting, and what Classify is proved to do.

  datatype Verdict = Official | Reversed | Mixed

  /** The record each verdict is shown as. */
  function Report(v: Verdict): ValidationResult {
    match v
    case Official => ValidationResult(true, OfficialReason)
    case Reversed => ValidationResult(false, ReversedReason)
    case Mixed => ValidationResult(false, MixedReason)
  }

  /** Number of responses that carried the fingerprint. */
  function CountPresent(fps: seq<bool>): (c: nat)
    ensures c <= |fps|
  {
    if fps == [] then 0 else (if fps[0] then 1 else 0) + CountPresent(fps[1..])
  }

  /** The verdict from how many of `total` responses had the fingerprint. */
  function VerdictOfCount(present: nat, total: nat): Verdict {
    if present == total then Official else if present == 0 then Reversed else Mixed
  }

  lemma {:induction false} CountPresentAll(fps: seq<bool>)
    ensures CountPresent(fps) == |fps| <==> AllHaveFingerprint(fps)
  {
    if fps != [] {
      CountPresentAll(fps[1..]);
      assert forall k :: 1 <= k < |fps| ==> fps[k] == fps[1..][k - 1];
    }
  }

  lemma {:induction false} CountPresentNone(fps: seq<bool>)
    ensures CountPresent(fps) == 0 <==> NoneHaveFingerprint(fps)
  {
    if fps != [] {
      CountPresentNone(fps[1..]);
      assert forall k :: 1 <= k < |fps| ==> fps[k] == fps[1..][k - 1];
    }
  }

  /** The count is the multiplicity of `true`, so it ignores order. */
  lemma {:induction false} CountPresentIsMultiplicity(fps: seq<bool>)
    ensures CountPresent(fps) == multiset(fps)[true]
  {
    if fps != [] {
      CountPresentIsMultiplicity(fps[1..]);
      assert fps == [fps[0]] + fps[1..];
      assert multiset(fps) == multiset{fps[0]} + multiset(fps[1..]);
    }
  }

  /** Classify agrees with the counting definition: it depends only on how
      many responses had the fingerprint. */
  lemma ClassifyByCount(fps: seq<bool>)
    ensures Classify(fps) == Report(VerdictOfCount(CountPresent(fps), |fps|))
  {
  }

  /** Permuting the responses leaves the result unchanged. */
  lemma ClassifyPermutationInvariant(a: seq<bool>, b: seq<bool>)
    requires multiset(a) == multiset(b)
    ensures Classify(a) == Classify(b)
  {
    assert |a| == |multiset(a)| == |multiset(b)| == |b|;
    CountPresentIsMultiplicity(a);
    CountPresentIsMultiplicity(b);
    ClassifyByCount(a);
    ClassifyByCount(b);
  }

  /** Official exactly when every response had the fingerprint. */
  lemma ClassifyOfficial(fps: seq<bool>)
    ensures Classify(fps) == Report(Official) <==> AllHaveFingerprint(fps)
  {
  }

  /** Reversed exactly when none had it, provided there was at least one response. */
  lemma ClassifyReversed(fps: seq<bool>)
    requires |fps| > 0
    ensures Classify(fps) == Report(Reversed) <==> NoneHaveFingerprint(fps)
  {
    if NoneHaveFingerprint(fps) {
      assert !fps[0];
    }
  }

  /** Mixed exactly when one response had it and another did not. */
  lemma ClassifyMixed(fps: seq<bool>)
    ensures Classify(fps) == Report(Mixed) <==>
      exists i, j :: 0 <= i < |fps| && 0 <= j < |fps| && fps[i] && !fps[j]
  {
  }

  /** Every sequence gets exactly one of the three verdicts. */
  lemma ClassifyExactlyOne(fps: seq<bool>)
    ensures exists v :: Classify(fps) == Report(v)
    ensures forall v, w :: Classify(fps) == Report(v) && Classify(fps) == Report(w) ==> v == w
  {
    ReportInjective();
    ClassifyByCount(fps);
  }

  /** With no responses both `every` tests hold vacuously and the official
      branch wins because it is tested first. */
  lemma EmptyIsOfficial()
    ensures Classify([]) == Report(Official)
    ensures AllHaveFingerprint([]) && NoneHaveFingerprint([])
  {
  }

  /** For the three probes: of the eight patterns, only all-true and
      all-false are not mixed. */
  lemma {:induction false} ThreeProbePatterns(fps: seq<bool>)
    requires |fps| == 3
    ensures Classify(fps) == Report(Official) <==> fps == [true, true, true]
    ensures Classify(fps) == Report(Reversed) <==> fps == [false, false, false]
    ensures Classify(fps) == Report(Mixed) <==> fps != [true, true, true] && fps != [false, false, false]
  {
  }

  /** The three verdict records and every failure record are pairwise
      distinct, so the stored record tells which branch was taken. */
  lemma ReportInjective()
    ensures forall v, w :: Report(v) == Report(w) ==> v == w
    ensures forall m, v :: Failed(m) != Report(v)
  {
    assert OfficialReason[0] != ReversedReason[0];
    assert forall m :: (FailurePrefix + m)[0] == '请';
  }
}
