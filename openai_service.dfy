/** The language-model service: the lazily created client, the two prompts
    built from a template and the raw content, the validation of the model's
    answer, and the mapping of every failure to a user-facing error. The
    network call is not modelled: its answer is an input. */
module OpenAIService {
  import opened Wrappers
  import opened Strings
  import opened OpenAIPrompts

  /** The SDK client. It remembers the key it was created with. */
  class OpenAIClient {
    const apiKey: string

    constructor (apiKey: string)
      ensures this.apiKey == apiKey
    {
      this.apiKey := apiKey;
    }
  }

  // Long messages are written as shorter pieces so that the verifier can
  // check which characters they contain.
  const MissingKeyMessage := "OPENAI_API_KEY" + " environment variable" + " is not set"

  /** The module-level `openai` variable together with `getOpenAIClient`. */
  class ClientCache {
    var client: OpenAIClient?

    constructor ()
      ensures client == null
    {
      client := null;
    }

    /** `getOpenAIClient()`; `envKey` is `process.env.OPENAI_API_KEY`, which
        is consulted only while no client has been created. A missing or
        empty key is an error and leaves the cache empty. */
    method GetOpenAIClient(envKey: Option<string>) returns (r: Result<OpenAIClient, string>)
      modifies this
      ensures old(client) != null ==> r == Ok(old(client)) && client == old(client)
      ensures old(client) == null && (envKey.None? || envKey.value == []) ==>
        r == Err(MissingKeyMessage) && client == null
      ensures old(client) == null && envKey.Some? && envKey.value != [] ==>
        r.Ok? && fresh(r.value) && r.value.apiKey == envKey.value && client == r.value
    {
      if client == null {
        if envKey.None? || envKey.value == [] {
          return Err(MissingKeyMessage);
        }
        client := new OpenAIClient(envKey.value);
      }
      r := Ok(client);
    }
  }

  /** Two calls in a row: once a client exists, the second call returns that
      very object, whatever the key is by then. */
  method CachedClientIsReused(cache: ClientCache, key1: Option<string>, key2: Option<string>)
    returns (first: Result<OpenAIClient, string>, second: Result<OpenAIClient, string>)
    modifies cache
    ensures first.Ok? ==> second == first
    ensures first.Err? ==> first.error == MissingKeyMessage && old(cache.client) == null
  {
    first := cache.GetOpenAIClient(key1);
    second := cache.GetOpenAIClient(key2);
  }

  /** What was thrown: an `Error` with its message, or anything else. */
  datatype Thrown = Error(message: string) | NonError

  /** What the chat-completion call did: it threw, or it answered with the
      first choice's message content (absent when there is no choice, no
      message or no content). */
  datatype Completion = CallFailed(thrown: Thrown) | Completed(content: Option<string>)

  /** A JSON value as far as JavaScript truthiness is concerned. */
  datatype JsValue = JsString(s: string) | JsNonString(truthy: bool)

  predicate Truthy(v: Option<JsValue>) {
    match v
    case None => false
    case Some(JsString(s)) => s != []
    case Some(JsNonString(t)) => t
  }

  /** The object `JSON.parse` produced, by its `linkedin` and `twitter`
      properties; a JSON value that is not an object has neither. */
  datatype ParsedObject = ParsedObject(linkedin: Option<JsValue>, twitter: Option<JsValue>)

  /** The outcome of `JSON.parse`. Reading a property of `null` throws. */
  datatype ParseResult = NotJson | JsonNull | Parsed(obj: ParsedObject)

  const NoResponseMessage := "No" + " response" + " from" + " OpenAI"
  const InvalidFormatMessage := "Invalid" + " response" + " format" + " from" + " OpenAI"
  const IncompleteMessage := "Incomplete" + " response" + " from" + " OpenAI"
  const NullPropertyMessage := "Cannot read" + " properties" + " of null" + " (reading 'linkedin')"

  const QuotaMessage := "OpenAI quota exceeded. " + "Please check your billing and usage limits."
  const AuthMessage := "OpenAI authentication failed. " + "Please check your API key."
  const NotConfiguredMessage :=
    "OpenAI API key is not configured. " + "Please set the OPENAI_API_KEY environment variable."
  const FailedPrefix := "Content processing failed: "

  /** The model's answer to the two prompts, sent with the client's key. */
  function Answer(key: string, prompts: Prompts, llm: (string, string, string) -> Completion): Completion {
    llm(key, prompts.system, prompts.user)
  }

  /** An answer passes validation: it has non-empty content that parses to
      an object whose `linkedin` and `twitter` are both truthy. */
  predicate Acceptable(answer: Completion, parse: string -> ParseResult) {
    && answer.Completed? && answer.content.Some? && answer.content.value != []
    && parse(answer.content.value).Parsed?
    && Truthy(parse(answer.content.value).obj.linkedin)
    && Truthy(parse(answer.content.value).obj.twitter)
  }

  /** The body of the `try` block. `client` is the outcome of
      `getOpenAIClient()` (its key), `llm` the chat-completion call on the
      two prompts, `parse` the `JSON.parse` of the answer. */
  function Attempt(
    client: Result<string, string>, prompts: Prompts,
    llm: (string, string, string) -> Completion, parse: string -> ParseResult)
    : (r: Result<ParsedObject, Thrown>)
    ensures client.Err? ==> r == Err(Error(client.error))
    ensures client.Ok? && Answer(client.value, prompts, llm).CallFailed? ==>
      r == Err(Answer(client.value, prompts, llm).thrown)
    ensures r.Ok? <==> client.Ok? && Acceptable(Answer(client.value, prompts, llm), parse)
    ensures r.Ok? ==> r.value == parse(Answer(client.value, prompts, llm).content.value).obj
  {
    match client
    case Err(m) => Err(Error(m))
    case Ok(key) =>
      match Answer(key, prompts, llm)
      case CallFailed(e) => Err(e)
      case Completed(content) =>
        if content.None? || content.value == [] then Err(Error(NoResponseMessage))
        else
          match parse(content.value)
          case NotJson => Err(Error(InvalidFormatMessage))
          case JsonNull => Err(Error(NullPropertyMessage))
          case Parsed(obj) =>
            if !Truthy(obj.linkedin) || !Truthy(obj.twitter) then Err(Error(IncompleteMessage))
            else Ok(obj)
  }

  /** The `catch` block: the first matching rule decides the message. */
  function MapError(e: Thrown): string {
    match e
    case Error(m) =>
      if Contains(m, "429") || Contains(m, "quota") then QuotaMessage
      else if Contains(m, "401") || Contains(m, "authentication") then AuthMessage
      else if Contains(m, "OPENAI_API_KEY") then NotConfiguredMessage
      else FailedPrefix + m
    case NonError => FailedPrefix + "Unknown error"
  }

  /** `processContentWithOpenAI(req)`: the parsed object unchanged, or an
      error; never a substitute result. */
  function ProcessContent(
    client: Result<string, string>, prompts: Prompts,
    llm: (string, string, string) -> Completion, parse: string -> ParseResult)
    : (r: Result<ParsedObject, string>)
    ensures r.Ok? <==> Attempt(client, prompts, llm, parse).Ok?
    ensures r.Ok? ==> r.value == Attempt(client, prompts, llm, parse).value
    ensures r.Err? ==> r.error == MapError(Attempt(client, prompts, llm, parse).error)
  {
    match Attempt(client, prompts, llm, parse)
    case Ok(obj) => Ok(obj)
    case Err(e) => Err(MapError(e))
  }

  /** The rules are tried in order: quota, then authentication, then the
      missing key; any other message is passed on behind a prefix. */
  lemma MapErrorPriority(m: string)
    ensures Contains(m, "429") || Contains(m, "quota") ==> MapError(Error(m)) == QuotaMessage
    ensures (!(Contains(m, "429") || Contains(m, "quota")) && (Contains(m, "401") || Contains(m, "authentication")))
      ==> MapError(Error(m)) == AuthMessage
    ensures (!(Contains(m, "429") || Contains(m, "quota") || Contains(m, "401") || Contains(m, "authentication"))
      && Contains(m, "OPENAI_API_KEY")) ==> MapError(Error(m)) == NotConfiguredMessage
    ensures (!(Contains(m, "429") || Contains(m, "quota") || Contains(m, "401") || Contains(m, "authentication")
      || Contains(m, "OPENAI_API_KEY"))) ==> MapError(Error(m)) == FailedPrefix + m
  {
  }

  /** A message that contains none of '4', 'q', 'h', '_' is passed on behind
      the prefix: each keyword has one of these characters. */
  lemma PlainMessage(m: string)
    requires '4' !in m && 'q' !in m && 'h' !in m && '_' !in m
    ensures MapError(Error(m)) == FailedPrefix + m
  {
    AbsentChar(m, "429", '4');
    AbsentChar(m, "quota", 'q');
    AbsentChar(m, "401", '4');
    AbsentChar(m, "authentication", 'h');
    AbsentChar(m, "OPENAI_API_KEY", '_');
  }

  /** The characters that rule out every keyword but "OPENAI_API_KEY". */
  lemma MissingKeyLacks(c: char)
    requires c == '4' || c == 'q' || c == 'h'
    ensures c !in MissingKeyMessage
  {
  }

  /** The message of a missing key maps to the "not configured" error. */
  lemma MissingKeyMapping()
    ensures MapError(Error(MissingKeyMessage)) == NotConfiguredMessage
  {
    var m := MissingKeyMessage;
    MissingKeyLacks('4');
    MissingKeyLacks('q');
    MissingKeyLacks('h');
    AbsentChar(m, "429", '4');
    AbsentChar(m, "quota", 'q');
    AbsentChar(m, "401", '4');
    AbsentChar(m, "authentication", 'h');
    var rest := " environment variable" + " is not set";
    ContainsMiddle([], "OPENAI_API_KEY", rest);
    assert [] + "OPENAI_API_KEY" + rest == m;
  }

  /** A missing key surfaces as the "not configured" error. */
  lemma MissingKeyIsNotConfigured(prompts: Prompts, llm: (string, string, string) -> Completion, parse: string -> ParseResult)
    ensures ProcessContent(Err(MissingKeyMessage), prompts, llm, parse) == Err(NotConfiguredMessage)
  {
    MissingKeyMapping();
  }

  /** None of the three validation messages contains a keyword of the
      mapping. */
  lemma NoResponseIsPlain()
    ensures MapError(Error(NoResponseMessage)) == FailedPrefix + NoResponseMessage
  {
    PlainMessage(NoResponseMessage);
  }

  lemma InvalidFormatIsPlain()
    ensures MapError(Error(InvalidFormatMessage)) == FailedPrefix + InvalidFormatMessage
  {
    PlainMessage(InvalidFormatMessage);
  }

  lemma IncompleteIsPlain()
    ensures MapError(Error(IncompleteMessage)) == FailedPrefix + IncompleteMessage
  {
    PlainMessage(IncompleteMessage);
  }

  /** Reading `linkedin` of a parsed `null` throws a `TypeError` whose
      message contains no keyword either. */
  lemma NullPropertyIsPlain()
    ensures MapError(Error(NullPropertyMessage)) == FailedPrefix + NullPropertyMessage
  {
    NullPropertyLacks('4');
    NullPropertyLacks('q');
    NullPropertyLacks('h');
    NullPropertyLacks('_');
    PlainMessage(NullPropertyMessage);
  }

  /** The characters of the keywords that the `TypeError` message lacks. */
  lemma NullPropertyLacks(c: char)
    requires c == '4' || c == 'q' || c == 'h' || c == '_'
    ensures c !in NullPropertyMessage
  {
  }

  /** An error thrown by the chat-completion call itself is the one the
      mapping sees; this is where quota and authentication failures come
      from. */
  lemma CallFailureIsMapped(key: string, prompts: Prompts, llm: (string, string, string) -> Completion, parse: string -> ParseResult)
    requires Answer(key, prompts, llm).CallFailed?
    ensures ProcessContent(Ok(key), prompts, llm, parse) == Err(MapError(Answer(key, prompts, llm).thrown))
  {
  }

  /** A call rejected with a message mentioning the quota ends as the quota
      error, and one mentioning authentication (and no quota) as the
      authentication error. */
  lemma QuotaAndAuthFromCall(key: string, prompts: Prompts, llm: (string, string, string) -> Completion, parse: string -> ParseResult, pre: string, post: string)
    ensures Answer(key, prompts, llm) == CallFailed(Error(pre + "quota" + post)) ==>
      ProcessContent(Ok(key), prompts, llm, parse) == Err(QuotaMessage)
    ensures (Answer(key, prompts, llm) == CallFailed(Error(pre + "authentication" + post))
             && '4' !in pre + post && 'q' !in pre + post) ==>
      ProcessContent(Ok(key), prompts, llm, parse) == Err(AuthMessage)
  {
    ContainsMiddle(pre, "quota", post);
    ContainsMiddle(pre, "authentication", post);
    var m := pre + "authentication" + post;
    if '4' !in pre + post && 'q' !in pre + post {
      assert '4' !in m && 'q' !in m;
      AbsentChar(m, "429", '4');
      AbsentChar(m, "quota", 'q');
    }
  }

  /** An absent or empty answer, an answer that is not JSON, and an answer
      without both properties each end as a "Content processing failed"
      error naming the cause. */
  lemma ValidationFailures(key: string, prompts: Prompts, llm: (string, string, string) -> Completion, parse: string -> ParseResult)
    ensures var answer := Answer(key, prompts, llm);
      && (answer == Completed(None) || answer == Completed(Some([])) ==>
            ProcessContent(Ok(key), prompts, llm, parse) == Err(FailedPrefix + NoResponseMessage))
      && (answer.Completed? && answer.content.Some? && answer.content.value != [] && parse(answer.content.value) == NotJson ==>
            ProcessContent(Ok(key), prompts, llm, parse) == Err(FailedPrefix + InvalidFormatMessage))
      && (answer.Completed? && answer.content.Some? && answer.content.value != [] && parse(answer.content.value) == JsonNull ==>
            ProcessContent(Ok(key), prompts, llm, parse) == Err(FailedPrefix + NullPropertyMessage))
      && (answer.Completed? && answer.content.Some? && answer.content.value != [] && parse(answer.content.value).Parsed?
          && !(Truthy(parse(answer.content.value).obj.linkedin) && Truthy(parse(answer.content.value).obj.twitter)) ==>
            ProcessContent(Ok(key), prompts, llm, parse) == Err(FailedPrefix + IncompleteMessage))
  {
    NoResponseIsPlain();
    InvalidFormatIsPlain();
    IncompleteIsPlain();
    NullPropertyIsPlain();
  }

  /** `processContentWithOpenAI` as a whole: the client comes from the cache,
      and the rest is `ProcessContent`. */
  method ProcessContentWithOpenAI(
    cache: ClientCache, envKey: Option<string>, req: Request,
    llm: (string, string, string) -> Completion, parse: string -> ParseResult)
    returns (r: Result<ParsedObject, string>)
    modifies cache
    ensures old(cache.client) != null ==>
      r == ProcessContent(Ok(old(cache.client).apiKey), BuildPrompts(req), llm, parse)
    ensures old(cache.client) == null && envKey.Some? && envKey.value != [] ==>
      r == ProcessContent(Ok(envKey.value), BuildPrompts(req), llm, parse)
    ensures old(cache.client) == null && (envKey.None? || envKey.value == []) ==> r == Err(NotConfiguredMessage)
    ensures old(cache.client) != null ==> cache.client == old(cache.client)
    ensures old(cache.client) == null && envKey.Some? && envKey.value != [] ==>
      cache.client != null && fresh(cache.client) && cache.client.apiKey == envKey.value
    ensures old(cache.client) == null && (envKey.None? || envKey.value == []) ==> cache.client == null
  {
    var prompts := BuildPrompts(req);
    var client := cache.GetOpenAIClient(envKey);
    match client
    case Ok(c) =>
      r := ProcessContent(Ok(c.apiKey), prompts, llm, parse);
    case Err(m) =>
      MissingKeyIsNotConfigured(prompts, llm, parse);
      r := ProcessContent(Err(m), prompts, llm, parse);
  }
}
