/** The chat session controller with the page, the completion service and the
    browser's speech engines abstracted away. The controller keeps the
    conversation and four flags; what it does to the outside world is kept as
    state too: the storage map it writes, the messages it renders, the error
    notices it shows, and the calls it makes on the recognition and synthesis
    engines. */
module ChatSession {
  import opened ChatText

  datatype Sender = User | Bot

  /** One turn of the conversation; the timestamp is the clock reading taken
      when the message was created. */
  datatype Message = Message(sender: Sender, content: string, timestamp: int)

  /** What the completion request settles to: the reply text, or a failure
      (a rejected request or a non-success status). */
  datatype Outcome = Reply(text: string) | Failure

  /** Calls the controller makes on the speech recognition engine. */
  datatype RecognitionCall = StartListening | StopListening

  /** Calls the controller makes on the speech synthesis engine. */
  datatype SynthesisCall = Cancel | Speak(text: string)

  /** The labels the page's buttons carry before the controller sets them. */
  datatype Page = Page(voiceInputLabel: string, voiceOutputLabel: string)

  /** The storage key that holds the full history. */
  const HistoryKey := "chatHistory"

  const GreetingText := "Hi! I'm here to listen and support you. How are you feeling today?"
  const FailedReplyNotice := "Failed to get response. Please try again."
  const VoiceUnsupportedNotice := "Voice input is not supported in your browser."
  const VoiceErrorNotice := "Voice input error. Please try again or use text input."

  /** The canned bot message added to an empty history. */
  function Greeting(now: int): (m: Message)
    ensures m.sender == Bot && m.timestamp == now
    ensures m.content == "Hi! I'm here to listen and support you. How are you feeling today?"
  {
    Message(Bot, GreetingText, now)
  }

  /** The voice-output button's label for a given preference. */
  function VoiceOutputLabel(enabled: bool): (caption: string)
    ensures caption == "Disable Voice Output" <==> enabled
    ensures caption == "Enable Voice Output" <==> !enabled
  {
    if enabled then "Disable Voice Output" else "Enable Voice Output"
  }

  /** The voice-input button's label while listening or not. */
  function VoiceInputLabel(listening: bool): (caption: string)
    ensures caption == "Stop Listening" <==> listening
    ensures caption == "Start Voice Input" <==> !listening
  {
    if listening then "Stop Listening" else "Start Voice Input"
  }

  /** The calls speakMessage makes: a cancel exactly when an utterance is in
      progress, then the new utterance, so at most one plays at a time. */
  function SpeechCalls(isSpeaking: bool, text: string): (calls: seq<SynthesisCall>)
    ensures Cancel in calls <==> isSpeaking
    ensures |calls| > 0 && calls[|calls| - 1] == Speak(text)
    ensures forall i :: 0 <= i < |calls| - 1 ==> calls[i] == Cancel
  {
    (if isSpeaking then [Cancel] else []) + [Speak(text)]
  }

  class Session {
    var messages: seq<Message>
    var isListening: bool
    var isProcessing: bool
    var isSpeaking: bool
    var voiceOutputEnabled: bool
    /** Whether the browser offers speech recognition; fixed at construction. */
    const hasRecognition: bool

    /** The text field's value. */
    var input: string
    var sendDisabled: bool
    var voiceInputLabel: string
    var voiceOutputLabel: string

    /** The browser's key-value storage. */
    var storage: map<string, seq<Message>>
    /** Every message rendered into the chat container, in order. */
    var rendered: seq<Message>
    /** Every error notice shown, in order. */
    var notices: seq<string>
    var recognitionCalls: seq<RecognitionCall>
    var synthesisCalls: seq<SynthesisCall>

    /** The stored history is always the full, non-empty conversation; the
        send button is disabled exactly while a request is in flight; and while
        one is in flight the last message is the user's message that started it. */
    ghost predicate Valid()
      reads this
    {
      HistoryKey in storage && storage[HistoryKey] == messages &&
      messages != [] &&
      sendDisabled == isProcessing &&
      (isProcessing ==> messages[|messages| - 1].sender == User)
    }

    /** The constructor: reads the history from storage (empty when the key
        is missing), greets when the history is empty, then renders the whole
        history. An empty history is therefore rendered with the greeting
        twice: once when it is added and once more by the full replay. */
    constructor (store: map<string, seq<Message>>, recognitionAvailable: bool, page: Page, now: int)
      ensures Valid()
      ensures !isListening && !isProcessing && !isSpeaking && !voiceOutputEnabled
      ensures hasRecognition == recognitionAvailable
      ensures input == [] && voiceInputLabel == page.voiceInputLabel && voiceOutputLabel == page.voiceOutputLabel
      ensures var stored := if HistoryKey in store then store[HistoryKey] else [];
              if stored == [] then
                messages == [Greeting(now)] &&
                storage == store[HistoryKey := [Greeting(now)]] &&
                rendered == [Greeting(now), Greeting(now)]
              else
                messages == stored && storage == store && rendered == stored
      ensures notices == [] && recognitionCalls == [] && synthesisCalls == []
    {
      messages := if HistoryKey in store then store[HistoryKey] else [];
      isListening, isProcessing, isSpeaking, voiceOutputEnabled := false, false, false, false;
      hasRecognition := recognitionAvailable;
      input := [];
      sendDisabled := false;
      voiceInputLabel, voiceOutputLabel := page.voiceInputLabel, page.voiceOutputLabel;
      storage := store;
      rendered := [];
      notices, recognitionCalls, synthesisCalls := [], [], [];
      new;
      if |messages| == 0 {
        AddMessage(Greeting(now));
      }
      LoadMessages();
    }

    /** saveMessages: overwrites the stored history with the full conversation. */
    method SaveMessages()
      modifies this`storage
      ensures storage == old(storage)[HistoryKey := messages]
    {
      storage := storage[HistoryKey := messages];
    }

    /** addMessage: appends, saves the full history, renders the new message. */
    method AddMessage(m: Message)
      modifies this`messages, this`storage, this`rendered
      ensures messages == old(messages) + [m]
      ensures storage == old(storage)[HistoryKey := messages]
      ensures rendered == old(rendered) + [m]
    {
      messages := messages + [m];
      SaveMessages();
      rendered := rendered + [m];
    }

    /** loadMessages: renders every message of the conversation, in order. */
    method LoadMessages()
      modifies this`rendered
      ensures rendered == old(rendered) + messages
    {
      var i := 0;
      while i < |messages|
        invariant 0 <= i <= |messages|
        invariant rendered == old(rendered) + messages[..i]
      {
        rendered := rendered + [messages[i]];
        i := i + 1;
      }
    }

    /** The synchronous part of handleSend: trims the input and, unless it is
        blank or a request is already in flight, marks a request in flight,
        disables the send button, clears the field and appends the user's
        message. The request itself settles later, in CompleteSend. */
    method BeginSend(now: int) returns (accepted: bool)
      requires Valid()
      modifies this
      ensures Valid()
      ensures accepted == AcceptsSend(old(input), old(isProcessing))
      ensures !accepted ==> unchanged(this)
      ensures accepted ==>
                isProcessing && sendDisabled && input == [] &&
                messages == old(messages) + [Message(User, Trim(old(input)), now)] &&
                rendered == old(rendered) + [Message(User, Trim(old(input)), now)] &&
                storage == old(storage)[HistoryKey := messages]
      ensures isListening == old(isListening) && isSpeaking == old(isSpeaking)
      ensures voiceOutputEnabled == old(voiceOutputEnabled)
      ensures voiceInputLabel == old(voiceInputLabel) && voiceOutputLabel == old(voiceOutputLabel)
      ensures notices == old(notices)
      ensures recognitionCalls == old(recognitionCalls) && synthesisCalls == old(synthesisCalls)
    {
      var content := Trim(input);
      if content == [] || isProcessing {
        return false;
      }
      accepted := true;
      isProcessing := true;
      sendDisabled := true;
      input := [];
      AddMessage(Message(User, content, now));
    }

    /** The rest of handleSend, once the request settles. A reply is appended
        as a bot message and spoken when voice output is on at that moment; a
        failure shows a notice and keeps the user's message. Either way the
        request is no longer in flight and the send button is enabled. */
    method CompleteSend(outcome: Outcome, now: int)
      requires Valid() && isProcessing
      modifies this
      ensures Valid()
      ensures !isProcessing && !sendDisabled
      ensures storage == old(storage)[HistoryKey := messages]
      ensures outcome.Reply? ==>
                messages == old(messages) + [Message(Bot, outcome.text, now)] &&
                rendered == old(rendered) + [Message(Bot, outcome.text, now)] &&
                messages[|messages| - 2].sender == User &&
                notices == old(notices) &&
                synthesisCalls == old(synthesisCalls) +
                  (if voiceOutputEnabled then SpeechCalls(isSpeaking, outcome.text) else [])
      ensures outcome.Failure? ==>
                messages == old(messages) && rendered == old(rendered) &&
                notices == old(notices) + [FailedReplyNotice] &&
                synthesisCalls == old(synthesisCalls)
      ensures input == old(input) && isListening == old(isListening) && isSpeaking == old(isSpeaking)
      ensures voiceOutputEnabled == old(voiceOutputEnabled)
      ensures voiceInputLabel == old(voiceInputLabel) && voiceOutputLabel == old(voiceOutputLabel)
      ensures recognitionCalls == old(recognitionCalls)
    {
      match outcome {
        case Reply(text) =>
          AddMessage(Message(Bot, text, now));
          if voiceOutputEnabled {
            SpeakMessage(text);
          }
        case Failure =>
          notices := notices + [FailedReplyNotice];
      }
      isProcessing := false;
      sendDisabled := false;
    }

    /** handleSend when nothing else happens while the request is in flight:
        an accepted send appends exactly one user message and, on a reply,
        exactly one bot message after it; a rejected one changes nothing. */
    method HandleSend(outcome: Outcome, now: int, replyTime: int) returns (accepted: bool)
      requires Valid()
      modifies this
      ensures Valid()
      ensures accepted == AcceptsSend(old(input), old(isProcessing))
      ensures !accepted ==> unchanged(this)
      ensures accepted ==>
                !isProcessing && !sendDisabled && input == [] &&
                messages == old(messages) + [Message(User, Trim(old(input)), now)] +
                            (if outcome.Reply? then [Message(Bot, outcome.text, replyTime)] else []) &&
                rendered == old(rendered) + [Message(User, Trim(old(input)), now)] +
                            (if outcome.Reply? then [Message(Bot, outcome.text, replyTime)] else []) &&
                storage == old(storage)[HistoryKey := messages] &&
                notices == old(notices) + (if outcome.Failure? then [FailedReplyNotice] else []) &&
                synthesisCalls == old(synthesisCalls) +
                  (if outcome.Reply? && voiceOutputEnabled then SpeechCalls(isSpeaking, outcome.text) else [])
      ensures isListening == old(isListening) && isSpeaking == old(isSpeaking)
      ensures voiceOutputEnabled == old(voiceOutputEnabled)
      ensures voiceInputLabel == old(voiceInputLabel) && voiceOutputLabel == old(voiceOutputLabel)
      ensures recognitionCalls == old(recognitionCalls)
    {
      ghost var before := messages;
      ghost var user := Message(User, Trim(input), now);
      accepted := BeginSend(now);
      if accepted {
        assert messages == before + [user];
        assert rendered == old(rendered) + [user];
        CompleteSend(outcome, replyTime);
      }
    }

    /** toggleVoiceInput: without recognition, only a notice; otherwise asks
        the engine to stop when listening and to start when not. The flag
        itself changes only in the engine's callbacks. */
    method ToggleVoiceInput()
      requires Valid()
      modifies this`notices, this`recognitionCalls
      ensures Valid()
      ensures !hasRecognition ==>
                notices == old(notices) + [VoiceUnsupportedNotice] &&
                recognitionCalls == old(recognitionCalls)
      ensures hasRecognition ==>
                notices == old(notices) &&
                recognitionCalls == old(recognitionCalls) + [if isListening then StopListening else StartListening]
    {
      if !hasRecognition {
        notices := notices + [VoiceUnsupportedNotice];
        return;
      }
      if isListening {
        recognitionCalls := recognitionCalls + [StopListening];
      } else {
        recognitionCalls := recognitionCalls + [StartListening];
      }
    }

    /** toggleVoiceOutput: flips the preference and relabels its button. */
    method ToggleVoiceOutput()
      requires Valid()
      modifies this`voiceOutputEnabled, this`voiceOutputLabel
      ensures Valid()
      ensures voiceOutputEnabled == !old(voiceOutputEnabled)
      ensures voiceOutputLabel == VoiceOutputLabel(voiceOutputEnabled)
    {
      voiceOutputEnabled := !voiceOutputEnabled;
      voiceOutputLabel := VoiceOutputLabel(voiceOutputEnabled);
    }

    /** speakMessage: cancels the utterance in progress, if any, then speaks. */
    method SpeakMessage(text: string)
      modifies this`synthesisCalls
      ensures synthesisCalls == old(synthesisCalls) + SpeechCalls(isSpeaking, text)
    {
      if isSpeaking {
        synthesisCalls := synthesisCalls + [Cancel];
      }
      synthesisCalls := synthesisCalls + [Speak(text)];
    }

    /** The utterance's onstart callback. */
    method OnUtteranceStart()
      requires Valid()
      modifies this`isSpeaking
      ensures Valid()
      ensures isSpeaking
    {
      isSpeaking := true;
    }

    /** The utterance's onend callback. */
    method OnUtteranceEnd()
      requires Valid()
      modifies this`isSpeaking
      ensures Valid()
      ensures !isSpeaking
    {
      isSpeaking := false;
    }

    /** The recognition engine's onstart callback (registered only when the
        browser has recognition). */
    method OnRecognitionStart()
      requires Valid() && hasRecognition
      modifies this`isListening, this`voiceInputLabel
      ensures Valid()
      ensures isListening && voiceInputLabel == VoiceInputLabel(true)
    {
      isListening := true;
      voiceInputLabel := VoiceInputLabel(isListening);
    }

    /** The recognition engine's onend callback. */
    method OnRecognitionEnd()
      requires Valid() && hasRecognition
      modifies this`isListening, this`voiceInputLabel
      ensures Valid()
      ensures !isListening && voiceInputLabel == VoiceInputLabel(false)
    {
      isListening := false;
      voiceInputLabel := VoiceInputLabel(isListening);
    }

    /** The recognition engine's onerror callback: a notice, and listening stops. */
    method OnRecognitionError()
      requires Valid() && hasRecognition
      modifies this`notices, this`isListening, this`voiceInputLabel
      ensures Valid()
      ensures notices == old(notices) + [VoiceErrorNotice]
      ensures !isListening && voiceInputLabel == VoiceInputLabel(false)
    {
      notices := notices + [VoiceErrorNotice];
      isListening := false;
      voiceInputLabel := VoiceInputLabel(isListening);
    }

    /** The recognition engine's onresult callback: the transcript becomes the
        input and is sent as if typed. */
    method OnRecognitionResult(transcript: string, now: int) returns (accepted: bool)
      requires Valid() && hasRecognition
      modifies this
      ensures Valid()
      ensures accepted == AcceptsSend(transcript, old(isProcessing))
      ensures accepted ==>
                isProcessing && input == [] &&
                messages == old(messages) + [Message(User, Trim(transcript), now)]
      ensures accepted ==>
                rendered == old(rendered) + [Message(User, Trim(transcript), now)] &&
                storage == old(storage)[HistoryKey := messages]
      ensures !accepted ==>
                input == transcript && messages == old(messages) &&
                isProcessing == old(isProcessing) &&
                rendered == old(rendered) && storage == old(storage)
      ensures isListening == old(isListening) && isSpeaking == old(isSpeaking)
      ensures voiceOutputEnabled == old(voiceOutputEnabled)
      ensures voiceInputLabel == old(voiceInputLabel) && voiceOutputLabel == old(voiceOutputLabel)
      ensures notices == old(notices)
      ensures recognitionCalls == old(recognitionCalls) && synthesisCalls == old(synthesisCalls)
    {
      input := transcript;
      accepted := BeginSend(now);
    }
  }

  /** The page's start-up: storage is cleared, then the controller is built,
      so whatever history was stored before is discarded and the session
      always starts with the greeting alone. */
  method Bootstrap(previous: map<string, seq<Message>>, recognitionAvailable: bool, page: Page, now: int)
    returns (s: Session)
    ensures s.Valid()
    ensures s.messages == [Greeting(now)]
    ensures s.storage == map[HistoryKey := [Greeting(now)]]
    ensures s.rendered == [Greeting(now), Greeting(now)]
    ensures !s.isProcessing && !s.isListening && !s.isSpeaking && !s.voiceOutputEnabled
  {
    var cleared: map<string, seq<Message>> := map[];
    s := new Session(cleared, recognitionAvailable, page, now);
  }

  /** Reloading from the storage a session has written, without the clear
      that Bootstrap performs first, gives back the same conversation in the
      same order and renders it once. */
  method Reload(s: Session, recognitionAvailable: bool, page: Page, now: int) returns (t: Session)
    requires s.Valid()
    ensures t.Valid()
    ensures t.messages == s.messages && t.rendered == s.messages && t.storage == s.storage
  {
    t := new Session(s.storage, recognitionAvailable, page, now);
  }

  /** Toggling voice output twice restores the preference from any state and
      leaves the label matching it; the label itself comes back too unless it
      was still the page's own, differing, text. */
  method ToggleVoiceOutputTwice(s: Session)
    requires s.Valid()
    modifies s
    ensures s.Valid()
    ensures s.voiceOutputEnabled == old(s.voiceOutputEnabled)
    ensures s.voiceOutputLabel == VoiceOutputLabel(s.voiceOutputEnabled)
    ensures old(s.voiceOutputLabel) == VoiceOutputLabel(old(s.voiceOutputEnabled)) ==>
              s.voiceOutputLabel == old(s.voiceOutputLabel)
  {
    s.ToggleVoiceOutput();
    s.ToggleVoiceOutput();
  }
}
