/**
 * The backend conversation manager. It keeps one transcript per conversation
 * key, seeds a new transcript with the persona prompt, and runs one chat turn
 * against a completion provider.
 *
 * The pure functions state what each operation does to the map of
 * transcripts; the class `AIService` holds that map as a field and its
 * methods are proved to change it exactly as those functions say.
 */
module AIService {
  import opened Wrappers
  import opened ChatTypes
  import Decimal

  /** The persona instruction that opens every transcript. */
  const PersonaPrompt: string :=
    "记住，你是一只会说话的猫咪，你非常可爱，非常喜欢和主人互动。\n        无论在什么情况下，你都应当展现出一只猫咪应有的特点。并且用中文回答。你的回答不应该包含旁白，所有的回复都应该是和主人的对话内容"

  /** Prefix of the normalised error raised when the provider throws an `Error`. */
  const ErrorPrefix: string := "AI服务错误: "

  /** The normalised error raised when the provider throws anything else. */
  const UnknownError: string := "AI服务未知错误"

  /** The startup error raised when no API key is configured. */
  const MissingKeyError: string := "DEEPSEEK_API_KEY 环境变量未设置"

  type Transcript = seq<Message>

  /** The service's state: a transcript per conversation key. */
  type History = map<string, Transcript>

  // ---------------------------------------------------------------------
  // Startup

  /**
   * The constructor's check `!process.env.DEEPSEEK_API_KEY`: an unset
   * variable and an empty one are both rejected.
   */
  predicate ApiKeyPresent(apiKey: Option<string>): (present: bool)
    ensures !present <==> apiKey in {None, Some("")}
  {
    apiKey.Some? && apiKey.value != ""
  }

  // ---------------------------------------------------------------------
  // Persona prompt

  /** Both language branches produce the same prompt, so the settings never matter. */
  function SystemPrompt(settings: ChatSettings): (prompt: string)
    ensures prompt == PersonaPrompt
  {
    if settings.dialogueLanguage == "chinese" then PersonaPrompt else PersonaPrompt
  }

  // ---------------------------------------------------------------------
  // Conversation keys

  /** The key `voiceRole + "_" + voiceSpeed` under which a transcript is stored. */
  function ConversationId(settings: ChatSettings): (key: string)
    ensures LastIndexOf(key, '_') == Some(|settings.voiceRole|)
    ensures key[..|settings.voiceRole|] == settings.voiceRole
    ensures key[|settings.voiceRole| + 1..] == Decimal.IntToString(settings.voiceSpeed)
  {
    Decimal.IntToStringExcludes(settings.voiceSpeed, '_');
    SplitsAtLast(settings.voiceRole, '_', Decimal.IntToString(settings.voiceSpeed));
    settings.voiceRole + "_" + Decimal.IntToString(settings.voiceSpeed)
  }

  /** When `c` does not occur in `tail`, the last `c` of `head + [c] + tail` is the middle one. */
  lemma SplitsAtLast(head: string, c: char, tail: string)
    requires c !in tail
    ensures var s := head + [c] + tail;
            && LastIndexOf(s, c) == Some(|head|)
            && s[..|head|] == head
            && s[|head| + 1..] == tail
  {
    var s := head + [c] + tail;
    assert s[|head|] == c;
    forall j | |head| < j < |s|
      ensures s[j] != c
    {
      assert s[j] == tail[j - |head| - 1];
    }
    var r := LastIndexOf(s, c);
    assert r.Some? by { assert c in s; }
    assert r.value == |head|;
    assert s[..|head|] == head;
    assert s[|head| + 1..] == tail;
  }

  /** The position of the last occurrence of `c` in `s`, if any. */
  function LastIndexOf(s: string, c: char): (r: Option<nat>)
    ensures r.Some? ==> r.value < |s| && s[r.value] == c
    ensures r.Some? ==> forall j :: r.value < j < |s| ==> s[j] != c
    ensures r.None? ==> c !in s
    decreases |s|
  {
    if |s| == 0 then None
    else if s[|s| - 1] == c then Some(|s| - 1)
    else LastIndexOf(s[..|s| - 1], c)
  }

  /** Splits a key at its last '_' and reads the speed back from what follows. */
  function DecodeConversationId(key: string): Option<(string, int)> {
    match LastIndexOf(key, '_')
    case None => None
    case Some(i) =>
      match Decimal.ParseInt(key[i + 1..])
      case None => None
      case Some(speed) => Some((key[..i], speed))
  }

  /**
   * The rendered speed holds no '_', so the last '_' of a key is the one
   * the key was built with, even when the role itself contains '_'.
   */
  lemma ConversationIdDecodes(settings: ChatSettings)
    ensures DecodeConversationId(ConversationId(settings))
         == Some((settings.voiceRole, settings.voiceSpeed))
  {
    Decimal.ParseIntToString(settings.voiceSpeed);
  }

  /** Two settings share a transcript exactly when they agree on role and speed. */
  lemma ConversationIdInjective(a: ChatSettings, b: ChatSettings)
    ensures ConversationId(a) == ConversationId(b)
        <==> (a.voiceRole == b.voiceRole && a.voiceSpeed == b.voiceSpeed)
  {
    ConversationIdDecodes(a);
    ConversationIdDecodes(b);
  }

  // ---------------------------------------------------------------------
  // Transcripts and their creation on first use

  function SystemMessage(settings: ChatSettings): Message {
    Message(System, SystemPrompt(settings))
  }

  /** The persona prompt comes first, and no other turn is a system turn. */
  predicate WellFormed(t: Transcript) {
    && |t| > 0
    && t[0] == Message(System, PersonaPrompt)
    && forall i :: 1 <= i < |t| ==> t[i].role != System
  }

  ghost predicate WellFormedHistory(h: History) {
    forall k :: k in h ==> WellFormed(h[k])
  }

  /** The map after `getOrCreateConversation`: a new key gets exactly the system turn. */
  function Resolved(h: History, settings: ChatSettings): (h': History)
    ensures ConversationId(settings) in h'
    ensures ConversationId(settings) in h ==> h' == h
    ensures ConversationId(settings) !in h
        ==> h'[ConversationId(settings)] == [Message(System, PersonaPrompt)]
    ensures forall k :: k != ConversationId(settings) ==>
              (k in h' <==> k in h) && (k in h ==> h'[k] == h[k])
    ensures WellFormedHistory(h) ==> WellFormedHistory(h')
  {
    var key := ConversationId(settings);
    if key in h then h else h[key := [SystemMessage(settings)]]
  }

  /** Resolving twice seeds nothing a second time. */
  lemma ResolvedIdempotent(h: History, settings: ChatSettings)
    ensures Resolved(Resolved(h, settings), settings) == Resolved(h, settings)
  {
  }

  // ---------------------------------------------------------------------
  // One chat turn

  /** What a provider call can throw: an `Error` with its message, or any other value. */
  datatype Cause = ErrorCause(message: string) | OtherCause

  /**
   * The result of one provider call: the content of the first choice
   * (`null` as `None`), or the thrown cause. A response without a first
   * choice throws a `TypeError` inside the same `try` and therefore arrives
   * here as a `Failed(ErrorCause(...))` too.
   */
  datatype ProviderOutcome = Completed(content: Option<string>) | Failed(cause: Cause)

  /** The completion provider: given the transcript it is sent, what it answers. */
  type Provider = Transcript -> ProviderOutcome

  /**
   * The single error kind every provider failure is turned into. An `Error`
   * keeps its message after a fixed prefix; the unknown-error text has a
   * different beginning, so the two kinds can be told apart.
   */
  function NormalisedError(cause: Cause): (msg: string)
    ensures |msg| >= |ErrorPrefix|
    ensures msg[..|ErrorPrefix|] == ErrorPrefix <==> cause.ErrorCause?
    ensures cause.ErrorCause? ==> msg[|ErrorPrefix|..] == cause.message
    ensures cause.OtherCause? ==> msg == UnknownError
  {
    match cause
    case ErrorCause(m) => ErrorPrefix + m
    case OtherCause =>
      assert UnknownError[..|ErrorPrefix|][4] != ErrorPrefix[4];
      UnknownError
  }

  /** The transcript sent to the provider: everything stored so far plus the new user turn. */
  function Request(h: History, message: string, settings: ChatSettings): (sent: Transcript)
    ensures var key := ConversationId(settings);
            && |sent| > 0
            && sent[..|sent| - 1] == (if key in h then h[key] else [Message(System, PersonaPrompt)])
            && sent[|sent| - 1] == Message(User, message)
    ensures WellFormedHistory(h) ==> sent[0] == Message(System, PersonaPrompt)
  {
    Resolved(h, settings)[ConversationId(settings)] + [Message(User, message)]
  }

  /** What `generateResponse` returns or throws, and the map it leaves behind. */
  datatype Turn = Turn(reply: Result<string, string>, history: History)

  /**
   * One turn. The user turn is pushed onto the stored transcript itself, so it
   * stays stored even when the provider fails; the assistant turn is added
   * only on success. `content || ''` turns a null reply into "".
   */
  function Respond(h: History, message: string, settings: ChatSettings, provider: Provider): (turn: Turn)
    ensures turn.reply.Success? <==> provider(Request(h, message, settings)).Completed?
    ensures ConversationId(settings) in turn.history
    ensures |turn.history[ConversationId(settings)]|
         == |Request(h, message, settings)| + (if turn.reply.Success? then 1 else 0)
    ensures turn.history[ConversationId(settings)][..|Request(h, message, settings)|]
         == Request(h, message, settings)
    ensures forall k :: k != ConversationId(settings) ==>
              (k in turn.history <==> k in h) && (k in h ==> turn.history[k] == h[k])
  {
    var key := ConversationId(settings);
    var sent := Request(h, message, settings);
    match provider(sent)
    case Completed(content) =>
      var reply := content.GetOr("");
      Turn(Success(reply), h[key := sent + [Message(Assistant, reply)]])
    case Failed(cause) =>
      Turn(Failure(NormalisedError(cause)), h[key := sent])
  }

  /**
   * A successful turn sends the whole prior transcript and the user turn, and
   * stores that transcript followed by the assistant turn carrying the reply.
   */
  lemma RespondSucceeds(h: History, message: string, settings: ChatSettings, provider: Provider)
    requires provider(Request(h, message, settings)).Completed?
    ensures var key, prior := ConversationId(settings), Resolved(h, settings)[ConversationId(settings)];
            var turn := Respond(h, message, settings, provider);
            && Request(h, message, settings) == prior + [Message(User, message)]
            && turn.reply == Success(provider(Request(h, message, settings)).content.GetOr(""))
            && key in turn.history
            && turn.history[key] == prior + [Message(User, message), Message(Assistant, turn.reply.value)]
            && |turn.history[key]| == |prior| + 2
  {
  }

  /** A null or empty content is an empty reply, not an error. */
  lemma RespondEmptyContent(h: History, message: string, settings: ChatSettings, provider: Provider)
    requires provider(Request(h, message, settings)) in {Completed(None), Completed(Some(""))}
    ensures Respond(h, message, settings, provider).reply == Success("")
  {
  }

  /**
   * A failed turn raises the normalised error and leaves the user turn, with no
   * assistant turn after it, in the stored transcript.
   */
  lemma RespondFails(h: History, message: string, settings: ChatSettings, provider: Provider)
    requires provider(Request(h, message, settings)).Failed?
    ensures var key, prior := ConversationId(settings), Resolved(h, settings)[ConversationId(settings)];
            var turn := Respond(h, message, settings, provider);
            && turn.reply == Failure(NormalisedError(provider(Request(h, message, settings)).cause))
            && key in turn.history
            && turn.history[key] == prior + [Message(User, message)]
  {
  }

  /** A turn touches only the transcript under its own key. */
  lemma RespondIsolated(h: History, message: string, settings: ChatSettings, provider: Provider, other: ChatSettings)
    requires (other.voiceRole, other.voiceSpeed) != (settings.voiceRole, settings.voiceSpeed)
    ensures var turn := Respond(h, message, settings, provider);
            var k := ConversationId(other);
            && (k in turn.history <==> k in h)
            && (k in h ==> turn.history[k] == h[k])
  {
    ConversationIdInjective(settings, other);
  }

  /** Every stored transcript keeps the persona prompt first and alone. */
  lemma RespondKeepsWellFormed(h: History, message: string, settings: ChatSettings, provider: Provider)
    requires WellFormedHistory(h)
    ensures WellFormedHistory(Respond(h, message, settings, provider).history)
  {
  }

  // ---------------------------------------------------------------------
  // Successive turns

  /** The map after sending `messages` one by one on the same settings. */
  function Converse(h: History, messages: seq<string>, settings: ChatSettings, provider: Provider): History
    decreases |messages|
  {
    if messages == [] then h
    else Converse(Respond(h, messages[0], settings, provider).history, messages[1..], settings, provider)
  }

  /**
   * While the provider keeps answering, each message adds a user turn carrying
   * it and an assistant turn after it; the earlier transcript and every other
   * key stay as they were.
   */
  lemma {:induction false} ConverseAppends(h: History, messages: seq<string>, settings: ChatSettings, provider: Provider)
    requires ConversationId(settings) in h
    requires forall t :: provider(t).Completed?
    ensures var key, after := ConversationId(settings), Converse(h, messages, settings, provider);
            && key in after
            && |after[key]| == |h[key]| + 2 * |messages|
            && after[key][..|h[key]|] == h[key]
            && (forall i :: 0 <= i < |messages| ==>
                  after[key][|h[key]| + 2 * i] == Message(User, messages[i])
                  && after[key][|h[key]| + 2 * i + 1].role == Assistant)
            && (forall k :: k != key ==> (k in after <==> k in h) && (k in h ==> after[k] == h[k]))
    decreases |messages|
  {
    if messages != [] {
      var key := ConversationId(settings);
      var h1 := Respond(h, messages[0], settings, provider).history;
      RespondSucceeds(h, messages[0], settings, provider);
      ConverseAppends(h1, messages[1..], settings, provider);
      var after := Converse(h1, messages[1..], settings, provider);
      assert |h1[key]| == |h[key]| + 2;
      assert after[key][..|h[key]|] == h[key] by {
        assert after[key][..|h[key]|] == after[key][..|h1[key]|][..|h[key]|];
      }
      forall i | 0 <= i < |messages|
        ensures after[key][|h[key]| + 2 * i] == Message(User, messages[i])
        ensures after[key][|h[key]| + 2 * i + 1].role == Assistant
      {
        if i == 0 {
          assert after[key][|h[key]|] == h1[key][|h[key]|];
          assert after[key][|h[key]| + 1] == h1[key][|h[key]| + 1];
        } else {
          assert messages[1..][i - 1] == messages[i];
          assert |h1[key]| + 2 * (i - 1) == |h[key]| + 2 * i;
        }
      }
    }
  }

  /** After the system turn, user and assistant turns alternate. */
  predicate Alternates(t: Transcript) {
    forall j :: 1 <= j < |t| ==> t[j].role == (if j % 2 == 1 then User else Assistant)
  }

  lemma AlternatesFromPairs(t: Transcript, n: nat)
    requires |t| == 1 + 2 * n
    requires forall i :: 0 <= i < n ==> t[1 + 2 * i].role == User && t[2 + 2 * i].role == Assistant
    ensures Alternates(t)
  {
    forall j | 1 <= j < |t|
      ensures t[j].role == (if j % 2 == 1 then User else Assistant)
    {
      var i := (j - 1) / 2;
      assert j == 1 + 2 * i || j == 2 + 2 * i;
    }
  }

  /**
   * After N answered messages on a new key, the transcript holds 1 + 2N turns:
   * the system turn, then user and assistant turns alternating, the user turns
   * carrying the messages in order.
   */
  lemma FreshConversation(h: History, messages: seq<string>, settings: ChatSettings, provider: Provider)
    requires ConversationId(settings) !in h
    requires |messages| > 0
    requires forall t :: provider(t).Completed?
    ensures var key, after := ConversationId(settings), Converse(h, messages, settings, provider);
            && key in after
            && |after[key]| == 1 + 2 * |messages|
            && after[key][0] == Message(System, PersonaPrompt)
            && (forall i :: 0 <= i < |messages| ==> after[key][1 + 2 * i] == Message(User, messages[i]))
            && Alternates(after[key])
  {
    var key := ConversationId(settings);
    var h1 := Respond(h, messages[0], settings, provider).history;
    RespondSucceeds(h, messages[0], settings, provider);
    var t1 := h1[key];
    assert |t1| == 3 && t1[0] == Message(System, PersonaPrompt);
    assert t1[1] == Message(User, messages[0]) && t1[2].role == Assistant;
    ConverseAppends(h1, messages[1..], settings, provider);
    var t := Converse(h1, messages[1..], settings, provider)[key];
    assert Converse(h, messages, settings, provider)[key] == t;
    assert t[..3] == t1;
    assert t[0] == t1[0] && t[1] == t1[1] && t[2] == t1[2];
    forall i | 0 <= i < |messages|
      ensures t[1 + 2 * i] == Message(User, messages[i])
      ensures t[2 + 2 * i].role == Assistant
    {
      if i > 0 {
        assert messages[1..][i - 1] == messages[i];
        assert 3 + 2 * (i - 1) == 1 + 2 * i;
      }
    }
    AlternatesFromPairs(t, |messages|);
  }

  // ---------------------------------------------------------------------
  // The service object

  class AIService {
    /** `conversationHistory`: the transcript of every conversation seen so far. */
    var history: History

    ghost predicate Valid()
      reads this
    {
      WellFormedHistory(history)
    }

    /** The key the provider client is configured with. */
    const apiKey: string

    /** A service that passed the key check, holding its key and no conversations yet. */
    constructor (apiKey: Option<string>)
      requires ApiKeyPresent(apiKey)
      ensures this.apiKey == apiKey.value
      ensures Valid() && history == map[]
    {
      this.apiKey := apiKey.value;
      history := map[];
    }

    /** The constructor with its startup check: without a key the service is not created. */
    static method Create(apiKey: Option<string>) returns (r: Result<AIService, string>)
      ensures r.Failure? <==> !ApiKeyPresent(apiKey)
      ensures r.Failure? ==> r.error == MissingKeyError
      ensures r.Success? ==> fresh(r.value) && r.value.Valid() && r.value.history == map[]
      ensures r.Success? ==> r.value.apiKey == apiKey.value
    {
      if !ApiKeyPresent(apiKey) {
        return Failure(MissingKeyError);
      }
      var service := new AIService(apiKey);
      r := Success(service);
    }

    /**
     * Looks up the transcript for the settings, storing a seeded one first on
     * a key not seen before; the result is the stored transcript.
     */
    method GetOrCreateConversation(settings: ChatSettings) returns (messages: Transcript)
      requires Valid()
      modifies this
      ensures Valid()
      ensures history == Resolved(old(history), settings)
      ensures ConversationId(settings) in history && messages == history[ConversationId(settings)]
      ensures WellFormed(messages)
    {
      var conversationId := ConversationId(settings);
      if conversationId !in history {
        history := history[conversationId := [SystemMessage(settings)]];
      }
      messages := history[conversationId];
    }

    /**
     * One chat turn. `messages` stands for the array held in the map, so each
     * push is written back to the map entry at once.
     */
    method GenerateResponse(message: string, settings: ChatSettings, provider: Provider)
      returns (r: Result<string, string>)
      requires Valid()
      modifies this
      ensures Valid()
      ensures Turn(r, history) == Respond(old(history), message, settings, provider)
    {
      var messages := GetOrCreateConversation(settings);
      var key := ConversationId(settings);
      messages := messages + [Message(User, message)];
      history := history[key := messages];
      var primaryResponse := provider(messages);
      match primaryResponse {
        case Completed(content) =>
          var primaryMessage := content.GetOr("");
          messages := messages + [Message(Assistant, primaryMessage)];
          history := history[key := messages];
          history := history[ConversationId(settings) := messages];
          r := Success(primaryMessage);
        case Failed(cause) =>
          r := Failure(NormalisedError(cause));
      }
    }
  }
}
