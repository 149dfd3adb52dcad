/**
 * The conversation state of the chat page: the current topic, the message
 * log, the busy flag, the active chat session and the configuration error.
 * Each event handler is a method; the asynchronous handlers are split at their
 * first `await` into a begin step and a finish step, so that the state between the
 * two (a request in flight) can be observed. What the service does (chat
 * creation failing, the model's reply, the key in the environment), message
 * ids and timestamps are parameters.
 */
module App {
  import opened Wrappers
  import opened Text
  import opened Messages
  import opened GeminiService
  import Constants

  /** Every message that carries a search query is an `ai` message whose text
      is the directive sentence for that query. */
  ghost predicate WellFormedHistory(msgs: seq<ChatMessage>) {
    forall i | 0 <= i < |msgs| :: msgs[i].youtubeSearchQuery.Some? ==>
      msgs[i].sender == Ai && msgs[i].text == DirectiveText(msgs[i].youtubeSearchQuery.value)
  }

  const InitFailureDefault: string :=
    "Failed to initialize chat. Please check your API key and network connection."

  /** The text of the system message shown when starting a conversation
      throws: the error's message, or a fixed text for a non-`Error` throw. */
  function InitFailureText(e: Thrown): (r: string)
    ensures e.ErrorValue? ==> r == e.message
    ensures e.NonErrorValue? ==> r == InitFailureDefault
    ensures e == MissingKeyError ==> r == "API_KEY environment variable is not set."
  {
    match e
    case ErrorValue(m) => m
    case NonErrorValue => InitFailureDefault
  }

  const GreetingOpening: string := "Hello! I'm ready to talk about "
  const GreetingClosing: string := ". Please give me a warm welcome and start our conversation."

  /** The first prompt of a conversation; it quotes the topic verbatim. */
  function GreetingPrompt(topic: string): (r: string)
    ensures r == GreetingOpening + "\"" + topic + "\"" + GreetingClosing
    ensures Contains(r, "\"" + topic + "\"")
  {
    var quoted := "\"" + topic + "\"";
    assert GreetingOpening + "\"" + topic + "\"" + GreetingClosing == GreetingOpening + quoted + GreetingClosing;
    ContainsMiddle(GreetingOpening, quoted, GreetingClosing);
    GreetingOpening + quoted + GreetingClosing
  }

  /** The log entry for an interpreted reply. */
  function AiMessage(id: string, reply: AiReply, now: int): (m: ChatMessage)
    ensures m.sender == Ai && m.id == id && m.timestamp == now
    ensures m.text == reply.text && m.youtubeSearchQuery == reply.youtubeSearchQuery
    ensures reply.youtubeSearchQuery.Some? ==> reply.text == DirectiveText(reply.youtubeSearchQuery.value) ==>
              WellFormedHistory([m])
  {
    ChatMessage(id, Ai, reply.text, reply.youtubeSearchQuery, now)
  }

  class ChatApp {
    var currentTopic: Option<string>
    var chatMessages: seq<ChatMessage>
    var isLoading: bool
    var chatInstance: Option<Chat>
    var apiKeyError: Option<string>

    ghost predicate Valid()
      reads this
    {
      WellFormedHistory(chatMessages)
    }

    /** The page as first rendered; `apiKeyError` is what the start-up check
        of the environment found. */
    constructor(apiKeyError: Option<string>)
      ensures Valid()
      ensures currentTopic == None && chatMessages == [] && !isLoading && chatInstance == None
      ensures this.apiKeyError == apiKeyError
    {
      currentTopic := None;
      chatMessages := [];
      isLoading := false;
      chatInstance := None;
      this.apiKeyError := apiKeyError;
    }

    /** `apiKeyError` is truthy: set and not empty. */
    predicate KeyErrorSet()
      reads this
      ensures KeyErrorSet() <==> apiKeyError !in {None, Some("")}
    {
      apiKeyError.Some? && apiKeyError.value != ""
    }

    /** The guard of `handleSendMessage`. */
    predicate CanSend(text: string)
      reads this
      ensures CanSend(text) <==> chatInstance.Some? && !isLoading && !AllSpace(text) && !KeyErrorSet()
    {
      chatInstance.Some? && !isLoading && Trim(text) != "" && !KeyErrorSet()
    }

    /** `handleTopicSubmit` up to its first `await`: unless a configuration
        error is set, mark the page busy, clear the log and select the topic. */
    method BeginTopicSubmit(topic: string) returns (proceed: bool)
      requires Valid()
      modifies this
      ensures Valid()
      ensures proceed == !old(KeyErrorSet())
      ensures !proceed ==> unchanged(this)
      ensures proceed ==>
                isLoading && chatMessages == [] && currentTopic == Some(topic) &&
                chatInstance == old(chatInstance) && apiKeyError == old(apiKeyError)
    {
      if KeyErrorSet() {
        return false;
      }
      proceed := true;
      isLoading := true;
      chatMessages := [];
      currentTopic := Some(topic);
    }

    /** The rest of `handleTopicSubmit`: create the chat and send the greeting
        prompt; the interpreted reply becomes the whole log. If creating the
        chat throws, the log becomes one system message and the topic is
        dropped. Either way the page is no longer busy. Returns the prompt
        sent to the model, if one was sent. */
    method FinishTopicSubmit(topic: string, service: AiService, env: Option<string>,
                             createError: Option<Thrown>, greeting: ServiceOutcome,
                             parse: JsonParser, id: string, now: int)
      returns (sent: Option<string>)
      requires Valid()
      modifies this, service
      ensures Valid()
      ensures !isLoading && apiKeyError == old(apiKeyError)
      ensures var failure := InitFailure(old(service.client) != null, env, createError);
              (sent.Some? <==> failure.None?) &&
              (failure.Some? ==>
                 chatMessages == [ChatMessage(id, System, InitFailureText(failure.value), None, now)] &&
                 currentTopic == None && chatInstance == old(chatInstance))
      ensures old(service.client) != null ==> service.client == old(service.client)
      ensures old(service.client) == null ==>
                (service.client != null <==> KeyPresent(env)) &&
                (service.client != null ==> fresh(service.client) && service.client.apiKey == env.value)
      ensures sent.Some? ==>
                sent == Some(GreetingPrompt(topic)) &&
                currentTopic == old(currentTopic) &&
                chatInstance.Some? && service.client != null &&
                chatInstance.value.client == service.client &&
                chatInstance.value.model == Constants.GeminiModelName &&
                chatInstance.value.systemInstruction == SystemInstruction(topic) &&
                chatMessages == [AiMessage(id, SendMessageToAI(greeting, parse), now)]
    {
      var init := service.InitializeChat(topic, env, createError);
      match init {
        case Success(chat) =>
          chatInstance := Some(chat);
          var prompt := GreetingPrompt(topic);
          sent := Some(prompt);
          var reply := SendMessageToAI(greeting, parse);
          chatMessages := [AiMessage(id, reply, now)];
        case Failure(e) =>
          sent := None;
          chatMessages := [ChatMessage(id, System, InitFailureText(e), None, now)];
          currentTopic := None;
      }
      isLoading := false;
    }

    /** `handleTopicSubmit` as one step. */
    method HandleTopicSubmit(topic: string, service: AiService, env: Option<string>,
                             createError: Option<Thrown>, greeting: ServiceOutcome,
                             parse: JsonParser, id: string, now: int)
      returns (sent: Option<string>)
      requires Valid()
      modifies this, service
      ensures Valid()
      ensures old(KeyErrorSet()) ==> sent == None && unchanged(this) && unchanged(service)
      ensures !old(KeyErrorSet()) ==>
                !isLoading && apiKeyError == old(apiKeyError) &&
                var failure := InitFailure(old(service.client) != null, env, createError);
                (sent.Some? <==> failure.None?) &&
                (failure.Some? ==>
                   chatMessages == [ChatMessage(id, System, InitFailureText(failure.value), None, now)] &&
                   currentTopic == None && chatInstance == old(chatInstance)) &&
                (old(service.client) != null ==> service.client == old(service.client)) &&
                (old(service.client) == null ==>
                   (service.client != null <==> KeyPresent(env)) &&
                   (service.client != null ==> fresh(service.client) && service.client.apiKey == env.value)) &&
                (failure.None? ==>
                   sent == Some(GreetingPrompt(topic)) &&
                   currentTopic == Some(topic) &&
                   chatInstance.Some? && service.client != null &&
                   chatInstance.value.client == service.client &&
                   chatInstance.value.model == Constants.GeminiModelName &&
                   chatInstance.value.systemInstruction == SystemInstruction(topic) &&
                   chatMessages == [AiMessage(id, SendMessageToAI(greeting, parse), now)])
    {
      var proceed := BeginTopicSubmit(topic);
      if !proceed {
        return None;
      }
      sent := FinishTopicSubmit(topic, service, env, createError, greeting, parse, id, now);
    }

    /** `handleSendMessage` up to its `await`: if the guard lets the message
        through, log it as the user's and mark the page busy. */
    method BeginSend(text: string, id: string, now: int) returns (accepted: bool)
      requires Valid()
      modifies this
      ensures Valid()
      ensures accepted == old(CanSend(text))
      ensures !accepted ==> unchanged(this)
      ensures accepted ==>
                chatMessages == old(chatMessages) + [ChatMessage(id, User, text, None, now)] &&
                isLoading && currentTopic == old(currentTopic) &&
                chatInstance == old(chatInstance) && apiKeyError == old(apiKeyError)
    {
      if !CanSend(text) {
        return false;
      }
      accepted := true;
      chatMessages := chatMessages + [ChatMessage(id, User, text, None, now)];
      isLoading := true;
    }

    /** The rest of `handleSendMessage`: log the interpreted reply as the
        model's and clear the busy flag. The reply interpretation never
        throws, so the handler's own error branch cannot be reached. */
    method FinishSend(outcome: ServiceOutcome, parse: JsonParser, id: string, now: int)
      requires Valid()
      modifies this
      ensures Valid()
      ensures chatMessages == old(chatMessages) + [AiMessage(id, SendMessageToAI(outcome, parse), now)]
      ensures !isLoading && currentTopic == old(currentTopic) &&
              chatInstance == old(chatInstance) && apiKeyError == old(apiKeyError)
    {
      var reply := SendMessageToAI(outcome, parse);
      chatMessages := chatMessages + [AiMessage(id, reply, now)];
      isLoading := false;
    }

    /** `handleSendMessage` as one step: a message that passes the guard adds
        exactly the user's message and the model's reply to the log. */
    method HandleSendMessage(text: string, outcome: ServiceOutcome, parse: JsonParser,
                             userId: string, userNow: int, aiId: string, aiNow: int)
      returns (accepted: bool)
      requires Valid()
      modifies this
      ensures Valid()
      ensures accepted == old(CanSend(text))
      ensures !accepted ==> unchanged(this)
      ensures accepted ==>
                chatMessages == old(chatMessages) + [ChatMessage(userId, User, text, None, userNow),
                                                     AiMessage(aiId, SendMessageToAI(outcome, parse), aiNow)] &&
                !isLoading && currentTopic == old(currentTopic) &&
                chatInstance == old(chatInstance) && apiKeyError == old(apiKeyError)
    {
      accepted := BeginSend(text, userId, userNow);
      if accepted {
        FinishSend(outcome, parse, aiId, aiNow);
      }
    }

    /** The reset callback: back to topic selection with an empty log and no
        session; from then on every send is refused by the guard. */
    method Reset()
      requires Valid()
      modifies this
      ensures Valid()
      ensures currentTopic == None && chatMessages == [] && chatInstance == None
      ensures isLoading == old(isLoading) && apiKeyError == old(apiKeyError)
      ensures forall text :: !CanSend(text)
    {
      currentTopic := None;
      chatMessages := [];
      chatInstance := None;
    }
  }
}
