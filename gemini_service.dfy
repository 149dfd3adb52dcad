/**
 * The service layer between the chat front-end and the hosted model: the lazily
 * created client, chat creation with a topic-specific system instruction, and
 * `sendMessageToAI`, which interprets the model's raw reply (a fenced or bare
 * JSON search directive, or prose) and turns any failure into a display string.
 *
 * The network and the SDK are not modelled: a send is represented by its
 * outcome (`ServiceOutcome`), and `JSON.parse` by a parser oracle that reports
 * only what the interpreter inspects.
 */
module GeminiService {
  import opened Wrappers
  import opened Text
  import Constants

  // ---------------------------------------------------------------------------
  // Values exchanged with the service
  // ---------------------------------------------------------------------------

  /** What `parsed.youtube_search_query` holds after a successful parse. */
  datatype FieldValue = Absent | Str(s: string) | NotAString

  /** The outcome of `JSON.parse` on a text that starts with `{` and ends with
      `}`: such a text either is rejected or denotes an object, so the only
      thing the interpreter can observe is that object's one field. */
  datatype ParseResult = SyntaxError | ParsedObject(youtubeSearchQuery: FieldValue)

  type JsonParser = string -> ParseResult

  /** What `sendMessageToAI` resolves to. */
  datatype AiReply = AiReply(text: string, youtubeSearchQuery: Option<string>)

  /** A thrown value: an `Error` object with its message, or anything else. */
  datatype Thrown = ErrorValue(message: string) | NonErrorValue

  /** What `chat.sendMessage` does: resolve with the response text, or throw. */
  datatype ServiceOutcome = Replied(text: string) | Threw(error: Thrown)

  // ---------------------------------------------------------------------------
  // Fence unwrapping: the regular expression /^```(\w*)?\s*\n?(.*?)\n?\s*```$/s
  // ---------------------------------------------------------------------------

  const Fence: string := "```"

  /** The expression matches exactly the strings of at least six characters
      that open and close with three backticks: `$` pins the closing fence to
      the very end, the two fences cannot overlap, and with the `s` flag the
      rest of the expression accepts every body between them. */
  predicate IsFenced(t: string) {
    |t| >= 6 && t[..3] == Fence && t[|t| - 3..] == Fence
  }

  /**
   * Capture group 2 of the fence expression, when the match succeeds with a
   * non-empty capture. The greedy `\w*` and `\s*` take the whole tag and the
   * whole run of white space after it: with that choice a match always exists,
   * because neither run can reach the closing backticks, so the engine never
   * revisits it. The lazy capture is then the shortest text after which only
   * white space remains before the closing fence, i.e. the rest of the body
   * with its trailing white space removed.
   */
  function UnwrapFence(t: string): (r: Option<string>)
    ensures r.Some? ==> IsFenced(t) && |r.value| <= |t| - 6
    ensures r.Some? ==> r.value != [] && !IsSpace(r.value[0]) && !IsSpace(r.value[|r.value| - 1])
  {
    if IsFenced(t) then
      var hi := |t| - 3;
      var start := SpanSpace(t, SpanWord(t, 3, hi), hi);
      var end := BackSpace(t, start, hi);
      if start == end then None else Some(t[start..end])
    else None
  }

  /** `t` is a fence with word-character tag `tag`, white space `ws1`,
      content `inner`, white space `ws2` and the closing fence. */
  ghost predicate FenceShape(t: string, tag: string, ws1: string, inner: string, ws2: string) {
    t == Fence + tag + ws1 + inner + ws2 + Fence && AllWord(tag) && AllSpace(ws1) && AllSpace(ws2)
  }

  /** The unwrapped content is the text between the end of the leading white
      space and the start of the trailing white space. */
  lemma UnwrapFenceAt(t: string, start: nat, end: nat)
    requires IsFenced(t)
    requires SpanSpace(t, SpanWord(t, 3, |t| - 3), |t| - 3) == start
    requires start <= |t| - 3 && BackSpace(t, start, |t| - 3) == end
    ensures UnwrapFence(t) == if start == end then None else Some(t[start..end])
  {
  }

  /** Whatever is unwrapped sits between a tag, white space and the fences. */
  lemma UnwrapFenceSound(t: string)
    requires UnwrapFence(t).Some?
    ensures exists tag, ws1, ws2 :: FenceShape(t, tag, ws1, UnwrapFence(t).value, ws2)
  {
    var hi := |t| - 3;
    var tagEnd := SpanWord(t, 3, hi);
    var start := SpanSpace(t, tagEnd, hi);
    var end := BackSpace(t, start, hi);
    var tag, ws1, inner, ws2 := t[3..tagEnd], t[tagEnd..start], t[start..end], t[end..hi];
    assert UnwrapFence(t).value == inner;
    assert t[..tagEnd] == t[..3] + tag;
    assert t[..start] == t[..3] + tag + ws1;
    assert t[..end] == t[..3] + tag + ws1 + inner;
    assert t[..hi] == t[..3] + tag + ws1 + inner + ws2;
    assert t == t[..hi] + t[hi..];
    assert FenceShape(t, tag, ws1, inner, ws2);
  }

  /** A fence around content that neither starts nor ends with white space
      unwraps to exactly that content, whatever its tag and the white space
      around the content. With no white space after the tag, the content must
      not start with a word character either, since the tag would absorb it. */
  lemma UnwrapFenceComplete(t: string, tag: string, ws1: string, inner: string, ws2: string)
    requires FenceShape(t, tag, ws1, inner, ws2)
    requires inner != [] && !IsSpace(inner[0]) && !IsSpace(inner[|inner| - 1])
    requires ws1 != [] || !IsWordChar(inner[0])
    ensures UnwrapFence(t) == Some(inner)
  {
    var a := 3 + |tag|;
    var b := a + |ws1|;
    var c := b + |inner|;
    var hi := c + |ws2|;
    assert |t| == hi + 3;
    assert IsFenced(t) by {
      assert t[..3] == Fence && t[hi..] == Fence;
    }
    assert t[b..c] == inner;
    assert t[b] == inner[0] && t[c - 1] == inner[|inner| - 1];
    assert forall k | 3 <= k < a :: IsWordChar(t[k]) by {
      forall k | 3 <= k < a ensures IsWordChar(t[k]) { assert t[k] == tag[k - 3]; }
    }
    assert !IsWordChar(t[a]) by {
      if ws1 != [] { assert t[a] == ws1[0] && IsSpace(ws1[0]); }
    }
    SpanWordIs(t, 3, hi, a);
    assert forall k | a <= k < b :: IsSpace(t[k]) by {
      forall k | a <= k < b ensures IsSpace(t[k]) { assert t[k] == ws1[k - a]; }
    }
    SpanSpaceIs(t, a, hi, b);
    assert forall k | c <= k < hi :: IsSpace(t[k]) by {
      forall k | c <= k < hi ensures IsSpace(t[k]) { assert t[k] == ws2[k - c]; }
    }
    BackSpaceIs(t, b, hi, c);
    UnwrapFenceAt(t, b, c);
  }

  /** A fence with nothing but a tag and white space inside is left wrapped:
      the capture is empty. */
  lemma EmptyFenceNotUnwrapped(t: string, tag: string, ws: string)
    requires t == Fence + tag + ws + Fence && AllWord(tag) && AllSpace(ws)
    ensures UnwrapFence(t) == None
  {
    var a := 3 + |tag|;
    var hi := a + |ws|;
    assert |t| == hi + 3;
    assert IsFenced(t) by {
      assert t[..3] == Fence && t[hi..] == Fence;
    }
    assert forall k | 3 <= k < a :: IsWordChar(t[k]) by {
      forall k | 3 <= k < a ensures IsWordChar(t[k]) { assert t[k] == tag[k - 3]; }
    }
    SpanWordIs(t, 3, hi, a);
    assert forall k | a <= k < hi :: IsSpace(t[k]) by {
      forall k | a <= k < hi ensures IsSpace(t[k]) { assert t[k] == ws[k - a]; }
    }
    SpanSpaceIs(t, a, hi, hi);
    UnwrapFenceAt(t, hi, hi);
  }

  // ---------------------------------------------------------------------------
  // Reply interpretation
  // ---------------------------------------------------------------------------

  /** The text considered for JSON: the trimmed reply, or the trimmed content
      of its fence when the fence has content. */
  function Candidate(raw: string): (c: string)
    ensures c == [] || (!IsSpace(c[0]) && !IsSpace(c[|c| - 1]))
  {
    var t := Trim(raw);
    match UnwrapFence(t)
    case Some(inner) => Trim(inner)
    case None => t
  }

  /** `startsWith("{") && endsWith("}")`: such a string has at least two
      characters, since one character cannot be both braces. */
  predicate Braced(c: string)
    ensures Braced(c) ==> |c| >= 2
  {
    |c| > 0 && c[0] == '{' && c[|c| - 1] == '}'
  }

  /** The reply is a search directive: its candidate is braced and parses to
      an object whose `youtube_search_query` is a string. */
  predicate IsDirective(raw: string, parse: JsonParser) {
    var c := Candidate(raw);
    Braced(c) && parse(c).ParsedObject? && parse(c).youtubeSearchQuery.Str?
  }

  const DirectiveLead: string := "I found a YouTube search that might be helpful: \""
  const DirectiveTail: string := "\". You can click the link to see results."

  /** The chat-bubble sentence shown instead of a directive. */
  function DirectiveText(query: string): (r: string)
    ensures r == DirectiveLead + query + DirectiveTail
    ensures Contains(r, query)
  {
    ContainsMiddle(DirectiveLead, query, DirectiveTail);
    DirectiveLead + query + DirectiveTail
  }

  /** The success path of `sendMessageToAI`: a directive becomes its query and
      the fixed sentence; everything else is the untrimmed reply, no query. */
  function InterpretReply(raw: string, parse: JsonParser): (r: AiReply)
    ensures r.youtubeSearchQuery.Some? <==> IsDirective(raw, parse)
    ensures r.youtubeSearchQuery.Some? ==>
              parse(Candidate(raw)) == ParsedObject(Str(r.youtubeSearchQuery.value)) &&
              r.text == DirectiveText(r.youtubeSearchQuery.value)
    ensures r.youtubeSearchQuery.None? ==> r.text == raw
  {
    var c := Candidate(raw);
    if Braced(c) then
      match parse(c)
      case ParsedObject(Str(q)) => AiReply(DirectiveText(q), Some(q))
      case _ => AiReply(raw, None)
    else AiReply(raw, None)
  }

  /** A reply whose trimmed text starts with neither `{` nor a backtick is
      prose, whatever the parser would say: it is passed through untouched. */
  lemma ProseIsPassedThrough(raw: string, parse: JsonParser)
    requires Trim(raw) == [] || (Trim(raw)[0] != '{' && Trim(raw)[0] != '`')
    ensures InterpretReply(raw, parse) == AiReply(raw, None)
  {
    var t := Trim(raw);
    if |t| >= 6 {
      assert t[..3][0] == t[0];
    }
    assert Candidate(raw) == t;
  }

  /** A directive inside a fence (with any tag, any surrounding white space)
      is interpreted exactly like the bare directive. */
  lemma FencedDirectiveMatchesBare(lead: string, fenced: string, tag: string, ws1: string, d: string,
                                   ws2: string, trail: string, parse: JsonParser, q: string)
    requires AllSpace(lead) && AllSpace(trail) && FenceShape(fenced, tag, ws1, d, ws2)
    requires Braced(d) && parse(d) == ParsedObject(Str(q))
    ensures InterpretReply(lead + fenced + trail, parse) == AiReply(DirectiveText(q), Some(q))
    ensures InterpretReply(d, parse) == AiReply(DirectiveText(q), Some(q))
  {
    assert Trim(d) == d by {
      assert [] + d + [] == d;
      TrimOf([], d, []);
    }
    assert Candidate(lead + fenced + trail) == d by {
      assert Trim(lead + fenced + trail) == fenced by {
        assert fenced[0] == '`' && fenced[|fenced| - 1] == '`' by {
          assert fenced[..3] == Fence && fenced[|fenced| - 3..] == Fence;
        }
        TrimOf(lead, fenced, trail);
      }
      UnwrapFenceComplete(fenced, tag, ws1, d, ws2);
    }
    assert Candidate(d) == d by {
      assert UnwrapFence(d) == None by {
        if |d| >= 6 {
          assert d[..3][0] == '{';
        }
      }
    }
  }

  /** The second trim of a fence's content changes nothing: the capture
      already has no white space at either end. */
  lemma CaptureIsTrimmed(t: string)
    requires UnwrapFence(t).Some?
    ensures Trim(UnwrapFence(t).value) == UnwrapFence(t).value
  {
    var c := UnwrapFence(t).value;
    assert [] + c + [] == c;
    TrimOf([], c, []);
  }

  /** A reply that is only an empty fence (a tag and white space inside) is
      shown as it was received, with no query. */
  lemma EmptyFenceIsProse(lead: string, fenced: string, tag: string, ws: string, trail: string,
                          parse: JsonParser)
    requires AllSpace(lead) && AllSpace(trail)
    requires fenced == Fence + tag + ws + Fence && AllWord(tag) && AllSpace(ws)
    ensures InterpretReply(lead + fenced + trail, parse) == AiReply(lead + fenced + trail, None)
  {
    assert |fenced| >= 6 && fenced[0] == '`' && fenced[|fenced| - 1] == '`' by {
      assert fenced[..3] == Fence && fenced[|fenced| - 3..] == Fence;
    }
    TrimOf(lead, fenced, trail);
    EmptyFenceNotUnwrapped(fenced, tag, ws);
    assert Candidate(lead + fenced + trail) == fenced;
  }

  // ---------------------------------------------------------------------------
  // Error mapping
  // ---------------------------------------------------------------------------

  datatype ErrorKind = InvalidApiKey | QuotaExceeded | SafetyBlocked | Unexpected

  const InvalidKeyNeedle: string := "api key not valid"
  const QuotaNeedle: string := "quota"
  const SafetyNeedle: string := "candidate was blocked due to safety"

  // The fixed texts are written as an opening phrase plus the rest, so that
  // the verifier can see how each one begins.
  const DefaultErrorText: string := "Sorry, " + "I encountered an error while trying to respond. Please try again."
  const InvalidKeyText: string := "Error: " + "The API Key is invalid or missing. Please check your configuration."
  const QuotaText: string := "Error: " + "API quota has been exceeded. Please try again later."
  const SafetyText: string := "My apologies, " + "I cannot respond to that due to safety guidelines. Could we talk about something else?"
  const UnexpectedPrefix: string := "An unexpected error occurred: "

  /** The category of an `Error`'s message: the lower-cased message is tested
      for each phrase in turn and the first one found wins. */
  function Classify(message: string): (k: ErrorKind)
    ensures k == InvalidApiKey <==> Contains(Lower(message), InvalidKeyNeedle)
    ensures k == QuotaExceeded <==>
              !Contains(Lower(message), InvalidKeyNeedle) && Contains(Lower(message), QuotaNeedle)
    ensures k == SafetyBlocked <==>
              !Contains(Lower(message), InvalidKeyNeedle) && !Contains(Lower(message), QuotaNeedle) &&
              Contains(Lower(message), SafetyNeedle)
  {
    var lower := Lower(message);
    if Contains(lower, InvalidKeyNeedle) then InvalidApiKey
    else if Contains(lower, QuotaNeedle) then QuotaExceeded
    else if Contains(lower, SafetyNeedle) then SafetyBlocked
    else Unexpected
  }

  /** The classification does not depend on letter case. */
  lemma ClassifyIgnoresCase(message: string)
    ensures Classify(Lower(message)) == Classify(message)
  {
    LowerIdempotent(message);
  }

  /** The generic text never coincides with one of the fixed texts. */
  lemma UnexpectedTextIsDistinct(message: string)
    ensures UnexpectedPrefix + message !in {DefaultErrorText, InvalidKeyText, QuotaText, SafetyText}
  {
    var t := UnexpectedPrefix + message;
    assert t[0] == 'A';
    assert DefaultErrorText[0] == 'S' && InvalidKeyText[0] == 'E' && QuotaText[0] == 'E' && SafetyText[0] == 'M';
  }

  /** The display string for a thrown value; each fixed text appears exactly
      for its own category, so the categories stay distinguishable. */
  function ErrorText(e: Thrown): (r: string)
    ensures r == DefaultErrorText <==> e.NonErrorValue?
    ensures r == InvalidKeyText <==> e.ErrorValue? && Classify(e.message) == InvalidApiKey
    ensures r == QuotaText <==> e.ErrorValue? && Classify(e.message) == QuotaExceeded
    ensures r == SafetyText <==> e.ErrorValue? && Classify(e.message) == SafetyBlocked
    ensures e.ErrorValue? && Classify(e.message) == Unexpected ==> r == UnexpectedPrefix + e.message
  {
    assert |InvalidKeyText| != |QuotaText|;
    match e
    case NonErrorValue => DefaultErrorText
    case ErrorValue(m) =>
      match Classify(m)
      case InvalidApiKey => InvalidKeyText
      case QuotaExceeded => QuotaText
      case SafetyBlocked => SafetyText
      case Unexpected =>
        UnexpectedTextIsDistinct(m);
        UnexpectedPrefix + m
  }

  /** `sendMessageToAI` given what the service did: it never throws; a query
      is present exactly for a recognised directive, it is then the parsed
      `youtube_search_query` string, and the text is the directive sentence
      for it. */
  function SendMessageToAI(outcome: ServiceOutcome, parse: JsonParser): (r: AiReply)
    ensures r.youtubeSearchQuery.Some? <==> outcome.Replied? && IsDirective(outcome.text, parse)
    ensures r.youtubeSearchQuery.Some? ==> r.text == DirectiveText(r.youtubeSearchQuery.value)
    ensures outcome.Replied? && r.youtubeSearchQuery.Some? ==>
              parse(Candidate(outcome.text)) == ParsedObject(Str(r.youtubeSearchQuery.value))
    ensures outcome.Replied? && r.youtubeSearchQuery.None? ==> r.text == outcome.text
    ensures outcome.Threw? ==> r.text == ErrorText(outcome.error)
  {
    match outcome
    case Replied(text) => InterpretReply(text, parse)
    case Threw(e) => AiReply(ErrorText(e), None)
  }

  // ---------------------------------------------------------------------------
  // Client and chat creation
  // ---------------------------------------------------------------------------

  /** The SDK client, reduced to the key it was built with. */
  class GenAiClient {
    const apiKey: string

    constructor(apiKey: string)
      ensures this.apiKey == apiKey
    {
      this.apiKey := apiKey;
    }
  }

  /** A chat session as created by the SDK: its client, model and system
      instruction. */
  datatype Chat = Chat(client: GenAiClient, model: string, systemInstruction: string)

  const MissingKeyError: Thrown := ErrorValue("API_KEY environment variable is not set.")

  /** `process.env.API_KEY` is truthy: set and not empty. */
  predicate KeyPresent(env: Option<string>)
    ensures KeyPresent(env) <==> env !in {None, Some("")}
  {
    env.Some? && env.value != ""
  }

  const TopicConnector: string := " The current conversation topic is: "

  /** The system instruction of a chat about `topic`: the persona prompt, then
      a sentence naming the topic verbatim. */
  function SystemInstruction(topic: string): (r: string)
    ensures r == Constants.SystemInstructionBase + TopicConnector + topic + "."
    ensures Contains(r, topic)
  {
    ContainsMiddle(Constants.SystemInstructionBase + TopicConnector, topic, ".");
    Constants.SystemInstructionBase + TopicConnector + topic + "."
  }

  /** What `initializeChat` throws, if anything: the missing key when no client
      exists yet and no key is set, otherwise whatever chat creation throws. */
  function InitFailure(hasClient: bool, env: Option<string>, createError: Option<Thrown>): (r: Option<Thrown>)
    ensures r.None? <==> (hasClient || KeyPresent(env)) && createError.None?
    ensures !hasClient && !KeyPresent(env) ==> r == Some(MissingKeyError)
    ensures hasClient || KeyPresent(env) ==> r == createError
  {
    if !hasClient && !KeyPresent(env) then Some(MissingKeyError) else createError
  }

  /** The module-level client slot and the two operations that use it. */
  class AiService {
    var client: GenAiClient?

    constructor()
      ensures client == null
    {
      client := null;
    }

    /** `getAiClient`: create the client on first use from the key; once it
        exists it is returned as it is and the key is not looked at again. */
    method GetAiClient(env: Option<string>) returns (r: Result<GenAiClient, Thrown>)
      modifies this
      ensures old(client) != null ==> r == Success(old(client)) && client == old(client)
      ensures old(client) == null && !KeyPresent(env) ==> r == Failure(MissingKeyError) && client == null
      ensures old(client) == null && KeyPresent(env) ==>
                r.Success? && fresh(r.value) && r.value.apiKey == env.value && client == r.value
    {
      if client == null {
        if !KeyPresent(env) {
          return Failure(MissingKeyError);
        }
        client := new GenAiClient(env.value);
      }
      r := Success(client);
    }

    /** `initializeChat`: obtain the client, then create a chat whose system
        instruction names the topic. `createError` is what the SDK's chat
        creation throws, if it throws. */
    method InitializeChat(topic: string, env: Option<string>, createError: Option<Thrown>)
      returns (r: Result<Chat, Thrown>)
      modifies this
      ensures var failure := InitFailure(old(client) != null, env, createError);
              (r.Failure? <==> failure.Some?) && (r.Failure? ==> r.error == failure.value)
      ensures old(client) != null ==> client == old(client)
      ensures old(client) == null ==> (client != null <==> KeyPresent(env))
      ensures old(client) == null && client != null ==> fresh(client) && client.apiKey == env.value
      ensures r.Success? ==>
                client != null && r.value.client == client &&
                r.value.model == Constants.GeminiModelName &&
                r.value.systemInstruction == SystemInstruction(topic)
    {
      var got := GetAiClient(env);
      match got
      case Failure(e) =>
        r := Failure(e);
      case Success(c) =>
        var instruction := SystemInstruction(topic);
        match createError
        case Some(e) =>
          r := Failure(e);
        case None =>
          r := Success(Chat(c, Constants.GeminiModelName, instruction));
    }
  }
}
