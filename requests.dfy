/** The request every probe sends (`sendApiRequest`): a POST to the
    completions path under the base URL the user typed, with a fixed chat
    body and the key as a bearer credential. */
module Requests {
  import opened Wrappers

  const CompletionsPath: string := "/v1/chat/completions"
  const BearerPrefix: string := "Bearer "
  const JokePrompt: string := "写一个10个字的笑话"
  const ProbeModel: string := "gpt-4o-mini"
  const ProbeSeed: int := 1

  datatype ChatMessage = ChatMessage(role: string, content: string)

  datatype ChatBody = ChatBody(messages: seq<ChatMessage>, seed: int, model: string)

  datatype PostRequest = PostRequest(url: string, body: ChatBody, headers: map<string, string>)

  /** The body all probes share. */
  const FixedBody: ChatBody := ChatBody([ChatMessage("user", JokePrompt)], ProbeSeed, ProbeModel)

  /** One probe descriptor. The base URL is used as typed: no trailing slash
      is removed and nothing is checked. The descriptor gives back the base
      URL and the key it was built from, carries the fixed body, and has
      exactly the two headers. */
  function SendApiRequest(apiBaseUrl: string, apiKey: string): (r: PostRequest)
    ensures BaseUrlOf(r.url) == Some(apiBaseUrl)
    ensures r.headers.Keys == {"Content-Type", "Authorization"}
    ensures r.headers["Content-Type"] == "application/json"
    ensures ApiKeyOf(r.headers["Authorization"]) == Some(apiKey)
    ensures r.body == ChatBody([ChatMessage("user", "写一个10个字的笑话")], 1, "gpt-4o-mini")
  {
    PostRequest(
      apiBaseUrl + CompletionsPath,
      FixedBody,
      map["Content-Type" := "application/json", "Authorization" := BearerPrefix + apiKey])
  }

  /** `Array(n).fill().map(sendApiRequest)`: n descriptors built from the same base and key. */
  function ProbeBatch(apiBaseUrl: string, apiKey: string, n: nat): (rs: seq<PostRequest>)
    ensures |rs| == n
  {
    seq(n, _ => SendApiRequest(apiBaseUrl, apiKey))
  }

  /** The part of `s` before `suffix`, when `s` ends with `suffix`. */
  function StripSuffix(s: string, suffix: string): (r: Option<string>)
    ensures r.Some? <==> |suffix| <= |s| && s[|s| - |suffix|..] == suffix
    ensures r.Some? ==> r.value + suffix == s
  {
    if |suffix| <= |s| && s[|s| - |suffix|..] == suffix then Some(s[..|s| - |suffix|]) else None
  }

  /** The part of `s` after `prefix`, when `s` starts with `prefix`. */
  function StripPrefix(s: string, prefix: string): (r: Option<string>)
    ensures r.Some? <==> |prefix| <= |s| && s[..|prefix|] == prefix
    ensures r.Some? ==> prefix + r.value == s
  {
    if |prefix| <= |s| && s[..|prefix|] == prefix then Some(s[|prefix|..]) else None
  }

  /** The base URL a request URL was built from. */
  function BaseUrlOf(url: string): Option<string> {
    StripSuffix(url, CompletionsPath)
  }

  /** The key carried by an `Authorization` header value. */
  function ApiKeyOf(authorization: string): Option<string> {
    StripPrefix(authorization, BearerPrefix)
  }

  /** Different inputs give different descriptors: in particular a base URL
      with a trailing slash is not the same endpoint as one without. */
  lemma RequestInjective(base1: string, key1: string, base2: string, key2: string)
    ensures SendApiRequest(base1, key1) == SendApiRequest(base2, key2) <==> base1 == base2 && key1 == key2
  {
    var r1, r2 := SendApiRequest(base1, key1), SendApiRequest(base2, key2);
    if r1 == r2 {
      assert BaseUrlOf(r1.url) == Some(base1) && BaseUrlOf(r2.url) == Some(base2);
      assert ApiKeyOf(r1.headers["Authorization"]) == Some(key1);
      assert ApiKeyOf(r2.headers["Authorization"]) == Some(key2);
    }
  }

  /** Every descriptor of a batch is the one descriptor for that base and key. */
  lemma ProbeBatchIdentical(apiBaseUrl: string, apiKey: string, n: nat, i: nat, j: nat)
    requires i < n && j < n
    ensures var rs := ProbeBatch(apiBaseUrl, apiKey, n);
      rs[i] == rs[j] == SendApiRequest(apiBaseUrl, apiKey)
  {
  }
}
