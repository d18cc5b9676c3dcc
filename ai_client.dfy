/** A role-tagged chat message, as the orchestrators and the completion client
    exchange them (`{"role": ..., "content": ...}`). */
module Chat {
  datatype Message = Message(role: string, content: string)

  predicate IsSystem(m: Message) {
    m.role == "system"
  }

  predicate IsNotSystem(m: Message) {
    !IsSystem(m)
  }
}

/** The completion client: provider selection when it is constructed, and the
    request sent to the chosen provider by `chat_completion`. */
module AiClient {
  import opened Wrappers
  import opened Chat
  import Text

  datatype Provider = OpenAI | Anthropic

  /** The configuration the client reads at construction. A key that is unset
      or empty is "not set". */
  datatype Settings = Settings(
    aiProvider: string,
    openaiApiKey: Option<string>,
    openaiModel: string,
    anthropicApiKey: Option<string>,
    anthropicModel: string)

  /** What the constructor keeps: the provider, the credentials its SDK client
      is built from, and the model name. */
  datatype ClientConfig = ClientConfig(provider: Provider, apiKey: string, model: string)

  predicate KeySet(key: Option<string>) {
    key.Some? && key.value != ""
  }

  const MaxTokens: nat := 1024

  /** The checks and choices of the constructor. */
  function Configure(settings: Settings): Result<ClientConfig> {
    var provider := Text.Lower(settings.aiProvider);
    if provider == "openai" then
      if !KeySet(settings.openaiApiKey) then Failure("OPENAI_API_KEY not set in environment variables")
      else Success(ClientConfig(OpenAI, settings.openaiApiKey.value, settings.openaiModel))
    else if provider == "anthropic" then
      if !KeySet(settings.anthropicApiKey) then Failure("ANTHROPIC_API_KEY not set in environment variables")
      else Success(ClientConfig(Anthropic, settings.anthropicApiKey.value, settings.anthropicModel))
    else Failure("Unsupported AI provider: " + provider)
  }

  /** The constructor succeeds exactly when the lower-cased provider is one of
      the two supported names and that provider's key is set. */
  lemma ConfigureAccepts(settings: Settings)
    ensures Configure(settings).Success? <==>
      (Text.Lower(settings.aiProvider) == "openai" && KeySet(settings.openaiApiKey)) ||
      (Text.Lower(settings.aiProvider) == "anthropic" && KeySet(settings.anthropicApiKey))
    ensures Configure(settings).Success? ==>
      var c := Configure(settings).value;
      (c.provider == OpenAI <==> Text.Lower(settings.aiProvider) == "openai") &&
      c.model == (if c.provider == OpenAI then settings.openaiModel else settings.anthropicModel) &&
      Some(c.apiKey) == (if c.provider == OpenAI then settings.openaiApiKey else settings.anthropicApiKey)
  {
  }

  /** The provider name is matched without regard to ASCII case. */
  lemma ProviderNameIgnoresCase()
    ensures Configure(Settings("OpenAI", Some("k"), "m", None, "n")) == Success(ClientConfig(OpenAI, "k", "m"))
    ensures Configure(Settings("ANTHROPIC", None, "m", Some("k"), "n")) == Success(ClientConfig(Anthropic, "k", "n"))
    ensures Configure(Settings("Gemini", Some("k"), "m", Some("k"), "n")) == Failure("Unsupported AI provider: gemini")
  {
    assert Text.Lower("OpenAI") == "openai";
    assert Text.Lower("ANTHROPIC") == "anthropic";
    assert Text.Lower("Gemini") == "gemini";
  }

  /** The request the client hands to the provider SDK. */
  datatype Request =
    | ChatCompletionsRequest(model: string, messages: seq<Message>, temperature: real)
    | MessagesRequest(model: string, maxTokens: nat, temperature: real, system: string, messages: seq<Message>)

  // ---------------------------------------------------------------------
  // Specification of the Anthropic message conversion.
  // ---------------------------------------------------------------------

  /** The content of the last system message, or `""` when there is none. */
  function SystemPrompt(messages: seq<Message>): string {
    if |messages| == 0 then ""
    else if IsSystem(messages[|messages| - 1]) then messages[|messages| - 1].content
    else SystemPrompt(messages[..|messages| - 1])
  }

  /** The non-system messages, in order. */
  function Conversation(messages: seq<Message>): seq<Message> {
    Text.Filter(messages, IsNotSystem)
  }

  function CountSystem(messages: seq<Message>): nat {
    if |messages| == 0 then 0
    else (if IsSystem(messages[0]) then 1 else 0) + CountSystem(messages[1..])
  }

  /** The system argument is the content of the last system message, later ones
      overwriting earlier ones; without any it is empty. */
  lemma {:induction false} SystemPromptIsLast(messages: seq<Message>)
    ensures (forall i :: 0 <= i < |messages| ==> !IsSystem(messages[i])) ==> SystemPrompt(messages) == ""
    ensures forall i :: (0 <= i < |messages| && IsSystem(messages[i]) &&
                         (forall j :: i < j < |messages| ==> !IsSystem(messages[j]))) ==>
      SystemPrompt(messages) == messages[i].content
  {
    if |messages| > 0 {
      var init := messages[..|messages| - 1];
      SystemPromptIsLast(init);
      forall i | 0 <= i < |messages| && IsSystem(messages[i]) &&
        (forall j :: i < j < |messages| ==> !IsSystem(messages[j]))
        ensures SystemPrompt(messages) == messages[i].content
      {
        if i < |messages| - 1 {
          assert !IsSystem(messages[|messages| - 1]);
          assert init[i] == messages[i];
          assert forall j :: i < j < |init| ==> init[j] == messages[j];
        }
      }
    }
  }

  /** The converted list has no system message, and its length is the input
      length minus the number of system messages. */
  lemma {:induction false} ConversationLength(messages: seq<Message>)
    ensures forall i :: 0 <= i < |Conversation(messages)| ==> !IsSystem(Conversation(messages)[i])
    ensures |Conversation(messages)| == |messages| - CountSystem(messages)
  {
    if |messages| > 0 {
      ConversationLength(messages[1..]);
    }
  }

  /** Each non-system message appears in the converted list with the same role
      and content, after exactly the non-system messages that precede it. */
  lemma {:induction false} ConversationKeepsOrder(messages: seq<Message>, i: nat)
    requires i < |messages| && !IsSystem(messages[i])
    ensures NonSystemBefore(messages, i) < |Conversation(messages)|
    ensures Conversation(messages)[NonSystemBefore(messages, i)] == messages[i]
  {
    if i > 0 {
      ConversationKeepsOrder(messages[1..], i - 1);
      assert messages[..i][1..] == messages[1..][..i - 1];
    }
  }

  /** How many non-system messages precede index `i`. */
  function NonSystemBefore(messages: seq<Message>, i: nat): nat
    requires i <= |messages|
  {
    |Conversation(messages[..i])|
  }

  /** The OpenAI route forwards the message list unchanged; the Anthropic route
      splits off the system prompt and caps the reply at 1024 tokens. */
  function RequestFor(config: ClientConfig, messages: seq<Message>, temperature: real): Request {
    match config.provider
    case OpenAI => ChatCompletionsRequest(config.model, messages, temperature)
    case Anthropic =>
      MessagesRequest(config.model, MaxTokens, temperature, SystemPrompt(messages), Conversation(messages))
  }

  /** The loop of `chat_completion` that overwrites the system message and
      appends every other message to the Anthropic list. */
  method SplitSystemMessages(messages: seq<Message>) returns (system: string, rest: seq<Message>)
    ensures system == SystemPrompt(messages)
    ensures rest == Conversation(messages)
  {
    var systemMessage: Option<string> := None;
    rest := [];
    var i := 0;
    while i < |messages|
      invariant 0 <= i <= |messages|
      invariant rest == Conversation(messages[..i])
      invariant SystemPrompt(messages[..i]) == (if systemMessage.Some? then systemMessage.value else "")
    {
      var msg := messages[i];
      assert messages[..i + 1] == messages[..i] + [msg];
      assert messages[..i + 1][..i] == messages[..i];
      Text.FilterAppend(messages[..i], [msg], IsNotSystem);
      if msg.role == "system" {
        systemMessage := Some(msg.content);
      } else {
        rest := rest + [Message(msg.role, msg.content)];
      }
      i := i + 1;
    }
    assert messages[..i] == messages;
    system := if systemMessage.Some? && systemMessage.value != "" then systemMessage.value else "";
  }

  /** The client object built by the constructor. */
  class Client {
    const provider: Provider
    const apiKey: string
    const model: string

    constructor (config: ClientConfig)
      ensures provider == config.provider && apiKey == config.apiKey && model == config.model
    {
      provider := config.provider;
      apiKey := config.apiKey;
      model := config.model;
    }

    function Config(): ClientConfig {
      ClientConfig(provider, apiKey, model)
    }

    /** `AIClient()`: raises `ValueError` (here `Failure`) for an unsupported
        provider or a missing key; otherwise builds a client for the chosen
        provider. */
    static method Create(settings: Settings) returns (r: Result<Client>)
      ensures r.Failure? <==> Configure(settings).Failure?
      ensures r.Failure? ==> r.error == Configure(settings).error
      ensures r.Success? ==> fresh(r.value) && r.value.Config() == Configure(settings).value
    {
      var config := Configure(settings);
      if config.Failure? {
        return Failure(config.error);
      }
      var client := new Client(config.value);
      return Success(client);
    }

    /** `chat_completion`: builds the provider's request and makes exactly one
        call `send` to the provider; its failure is re-raised unchanged and its
        text returned unchanged (no retry), `None` when the OpenAI reply has
        no message content. */
    method ChatCompletion(messages: seq<Message>, temperature: real, send: Request -> Call<Option<string>>)
      returns (reply: Call<Option<string>>, request: Request)
      ensures request == RequestFor(Config(), messages, temperature)
      ensures reply == send(request)
    {
      if provider == OpenAI {
        request := ChatCompletionsRequest(model, messages, temperature);
      } else {
        var system, rest := SplitSystemMessages(messages);
        request := MessagesRequest(model, MaxTokens, temperature, system, rest);
      }
      reply := send(request);
    }
  }
}
