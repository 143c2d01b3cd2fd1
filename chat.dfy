/**
 * The chat view's own state: the message list, the input box, the loading
 * and listening flags, the voice-error banner, the crisis overlay and the
 * two references the voice input keeps (the text typed before dictation
 * started and whether the last stop was deliberate). The generative-text
 * call itself is foreign; a send returns the request it would make and the
 * reply comes back as an opaque outcome.
 */
module Chat {
  import opened Wrappers
  import opened Text

  datatype Role = User | Model

  /** A chat bubble. Timestamps are instants in milliseconds. */
  datatype Message = Message(role: Role, text: string, timestamp: int, isSaved: bool)

  /** One entry of the `contents` sent to the model. */
  datatype Turn = Turn(role: Role, text: string)

  /** The request handed to the generative-text call. */
  datatype ChatRequest = ChatRequest(contents: seq<Turn>, systemInstruction: string)

  /** What the generative-text call did: answered with some text (possibly empty) or threw. */
  datatype ReplyOutcome = Replied(text: string) | Failed

  // ---------------------------------------------------------------------
  // Safety check
  // ---------------------------------------------------------------------

  const CrisisKeywords: seq<string> := ["hurt myself", "suicide", "end it all", "kill myself", "self harm"]

  /** `keywords.some(keyword => s.includes(keyword))`. */
  predicate AnyIncluded(s: string, keywords: seq<string>)
  {
    keywords != [] && (Includes(s, keywords[0]) || AnyIncluded(s, keywords[1..]))
  }

  /** `runSafetyCheck(text)`: the lower-cased text contains a crisis keyword. */
  predicate RunSafetyCheck(text: string)
  {
    AnyIncluded(Lower(text), CrisisKeywords)
  }

  lemma {:induction false} AnyIncludedIff(s: string, keywords: seq<string>)
    ensures AnyIncluded(s, keywords) <==> exists k :: 0 <= k < |keywords| && Occurs(s, keywords[k])
  {
    if keywords != [] {
      IncludesIffOccurs(s, keywords[0]);
      AnyIncludedIff(s, keywords[1..]);
      if exists k :: 0 <= k < |keywords| && Occurs(s, keywords[k]) {
        var k :| 0 <= k < |keywords| && Occurs(s, keywords[k]);
        if k > 0 {
          assert keywords[1..][k - 1] == keywords[k];
        }
      }
      if exists k :: 0 <= k < |keywords| - 1 && Occurs(s, keywords[1..][k]) {
        var k :| 0 <= k < |keywords| - 1 && Occurs(s, keywords[1..][k]);
        assert keywords[k + 1] == keywords[1..][k];
      }
    }
  }

  /**
   * The check holds exactly when one of the five keywords occurs, as a
   * substring, in the lower-cased text.
   */
  lemma SafetyCheckIff(text: string)
    ensures RunSafetyCheck(text) <==>
              exists k :: 0 <= k < |CrisisKeywords| && Occurs(Lower(text), CrisisKeywords[k])
  {
    AnyIncludedIff(Lower(text), CrisisKeywords);
  }

  /** Upper-casing the text never hides a crisis keyword from the check. */
  lemma SafetyCheckIgnoresCase(text: string)
    ensures RunSafetyCheck(Upper(text)) <==> RunSafetyCheck(text)
  {
    LowerOfUpper(text);
  }

  /** An upper-case keyword inside a longer message is flagged. */
  lemma ShoutedKeywordIsFlagged()
    ensures RunSafetyCheck("I want to KILL MYSELF")
  {
    var s := Lower("I want to KILL MYSELF");
    assert s[10..21] == "kill myself";
    assert OccursAt(s, CrisisKeywords[3], 10);
    SafetyCheckIff("I want to KILL MYSELF");
  }

  // ---------------------------------------------------------------------
  // Speech-recognition error codes
  // ---------------------------------------------------------------------

  const AudioCaptureMessage: string := "Can't find your microphone. Check if it's plugged in or used by another app."
  const BlockedMessage: string := "Microphone access is blocked. Please enable it in your browser settings."
  const NetworkMessage: string := "Connection issue. Voice input needs a stable internet connection."
  const AbortedMessage: string := "Listening was interrupted. Please try again."
  const ServiceMessage: string := "Speech service is currently unavailable. Please try again later."
  const LanguageMessage: string := "Your browser doesn't support speech recognition in this language."
  const DefaultSpeechMessage: string := "Something went wrong with the microphone. Please try again."

  /** The `onerror` switch: the banner text for an error code, none for `no-speech`. */
  function SpeechErrorMessage(code: string): (r: Option<string>)
    ensures r.None? <==> code == "no-speech"
    ensures r.Some? ==> r.value != ""
    ensures code == "not-allowed" || code == "permission-denied" ==> r == Some(BlockedMessage)
    ensures !(code in {"no-speech", "audio-capture", "not-allowed", "permission-denied", "network",
                       "aborted", "service-not-allowed", "language-not-supported"}) ==>
              r == Some(DefaultSpeechMessage)
  {
    match code
    case "no-speech" => None
    case "audio-capture" => Some(AudioCaptureMessage)
    case "not-allowed" => Some(BlockedMessage)
    case "permission-denied" => Some(BlockedMessage)
    case "network" => Some(NetworkMessage)
    case "aborted" => Some(AbortedMessage)
    case "service-not-allowed" => Some(ServiceMessage)
    case "language-not-supported" => Some(LanguageMessage)
    case _ => Some(DefaultSpeechMessage)
  }

  // ---------------------------------------------------------------------
  // Transcript composition
  // ---------------------------------------------------------------------

  /** One entry of `event.results`, reduced to its first alternative. */
  datatype SpeechResult = SpeechResult(transcript: string, isFinal: bool)

  /** The transcripts of `rs` concatenated in order. */
  function Joined(rs: seq<SpeechResult>): string
  {
    if rs == [] then "" else Joined(rs[..|rs| - 1]) + rs[|rs| - 1].transcript
  }

  /** The transcripts of the final results of `rs`, in order. */
  function FinalPart(rs: seq<SpeechResult>): string
  {
    if rs == [] then "" else FinalPart(rs[..|rs| - 1]) + (if rs[|rs| - 1].isFinal then rs[|rs| - 1].transcript else "")
  }

  /** The transcripts of the interim results of `rs`, in order. */
  function InterimPart(rs: seq<SpeechResult>): string
  {
    if rs == [] then "" else InterimPart(rs[..|rs| - 1]) + (if rs[|rs| - 1].isFinal then "" else rs[|rs| - 1].transcript)
  }

  /** The results from `event.resultIndex` on (none when the index is past the end). */
  function SessionResults(rs: seq<SpeechResult>, from: nat): seq<SpeechResult>
  {
    if from <= |rs| then rs[from..] else []
  }

  /** Final and interim text together account for every character of the session. */
  lemma {:induction false} PartsCoverJoined(rs: seq<SpeechResult>)
    ensures |FinalPart(rs)| + |InterimPart(rs)| == |Joined(rs)|
  {
    if rs != [] {
      PartsCoverJoined(rs[..|rs| - 1]);
    }
  }

  lemma {:induction false} JoinedAppend(a: seq<SpeechResult>, b: seq<SpeechResult>)
    ensures Joined(a + b) == Joined(a) + Joined(b)
  {
    if b == [] {
      assert a + b == a;
    } else {
      assert (a + b)[..|a + b| - 1] == a + b[..|b| - 1];
      JoinedAppend(a, b[..|b| - 1]);
    }
  }

  /** The full transcript is the earlier results' text followed by this session's. */
  lemma FullEndsWithSession(rs: seq<SpeechResult>, from: nat)
    requires from <= |rs|
    ensures Joined(rs) == Joined(rs[..from]) + Joined(SessionResults(rs, from))
  {
    assert rs == rs[..from] + rs[from..];
    JoinedAppend(rs[..from], rs[from..]);
  }

  /**
   * The accumulator loops of `onresult`: the final and interim text of the
   * results from `resultIndex` on, and the transcript of all results.
   */
  method ComposeTranscript(results: seq<SpeechResult>, resultIndex: nat)
    returns (finalTranscript: string, interimTranscript: string, fullTranscript: string)
    ensures finalTranscript == FinalPart(SessionResults(results, resultIndex))
    ensures interimTranscript == InterimPart(SessionResults(results, resultIndex))
    ensures fullTranscript == Joined(results)
  {
    finalTranscript, interimTranscript := "", "";
    var i := resultIndex;
    while i < |results|
      invariant resultIndex <= i
      invariant resultIndex <= |results| ==> i <= |results|
      invariant resultIndex <= |results| ==>
                  && finalTranscript == FinalPart(results[resultIndex..i])
                  && interimTranscript == InterimPart(results[resultIndex..i])
      invariant resultIndex > |results| ==> finalTranscript == "" && interimTranscript == ""
    {
      assert results[resultIndex..i + 1][..i - resultIndex] == results[resultIndex..i];
      if results[i].isFinal {
        finalTranscript := finalTranscript + results[i].transcript;
      } else {
        interimTranscript := interimTranscript + results[i].transcript;
      }
      i := i + 1;
    }
    if resultIndex <= |results| {
      assert results[resultIndex..i] == SessionResults(results, resultIndex);
    }
    fullTranscript := "";
    var j := 0;
    while j < |results|
      invariant 0 <= j <= |results|
      invariant fullTranscript == Joined(results[..j])
    {
      assert results[..j + 1][..j] == results[..j];
      fullTranscript := fullTranscript + results[j].transcript;
      j := j + 1;
    }
    assert results[..j] == results;
  }

  /** The input after dictation: what was typed before, a separating space, the transcript. */
  function DictatedInput(base: string, transcript: string): (r: string)
    ensures |base| <= |r| && r[..|base|] == base
    ensures |transcript| <= |r| && r[|r| - |transcript|..] == transcript
    ensures |r| == |base| + |transcript| + (if base == "" then 0 else 1)
    ensures base != "" ==> r[|base|] == ' '
  {
    base + (if base != "" then " " else "") + transcript
  }

  // ---------------------------------------------------------------------
  // Sending
  // ---------------------------------------------------------------------

  const MemoryContext: string := "\n[CONTEXT FROM MEMORY]: The user has mentioned feeling similar pressure in past entries. They usually find relief through creative work."
  const EmptyReplyText: string := "I'm here to listen. Could you tell me more about that?"
  const FailedReplyText: string := "I apologize, but I'm having trouble connecting securely right now. Please try again in a moment."

  /** The persona prompt, followed by the canned memory context when the lifetime unlock is on. */
  function SystemInstruction(prompt: string, unlocked: bool): (r: string)
    ensures |prompt| <= |r| && r[..|prompt|] == prompt
    ensures unlocked <==> |r| > |prompt|
  {
    prompt + (if unlocked then MemoryContext else "")
  }

  function Turns(ms: seq<Message>): (r: seq<Turn>)
    ensures |r| == |ms|
    ensures forall i :: 0 <= i < |ms| ==> r[i] == Turn(ms[i].role, ms[i].text)
  {
    if ms == [] then [] else [Turn(ms[0].role, ms[0].text)] + Turns(ms[1..])
  }

  /** The model bubble that follows a request: the reply, a fallback when it is empty, an apology when the call threw. */
  function ReplyText(outcome: ReplyOutcome): (r: string)
    ensures r != ""
    ensures outcome.Replied? && outcome.text != "" ==> r == outcome.text
    ensures outcome.Replied? && outcome.text == "" ==> r == EmptyReplyText
    ensures outcome.Failed? ==> r == FailedReplyText
  {
    match outcome
    case Replied(t) => if t != "" then t else EmptyReplyText
    case Failed => FailedReplyText
  }

  /** `prev.map((m, i) => i === idx ? { ...m, isSaved: true } : m)`. */
  function MarkSavedAt(ms: seq<Message>, idx: nat): (r: seq<Message>)
    ensures |r| == |ms|
    ensures idx < |ms| ==> r[idx] == ms[idx].(isSaved := true)
    ensures forall i :: 0 <= i < |ms| && i != idx ==> r[i] == ms[i]
  {
    if ms == [] then []
    else [if idx == 0 then ms[0].(isSaved := true) else ms[0]] + MarkSavedAt(ms[1..], if idx == 0 then |ms| else idx - 1)
  }

  function Greeting(personaName: string): string
  {
    "Hello. I am the Privacy Vault AI (" + personaName + " mode). I'm here to provide a safe, private space for you to explore your thoughts and feelings. How are you feeling today?"
  }

  function SwitchedGreeting(personaName: string): string
  {
    "Switched to " + personaName + " mode. How can I help you from this perspective?"
  }

  /** Only user messages are ever marked saved: the save button is drawn on those alone. */
  ghost predicate SavedAreUserMessages(ms: seq<Message>)
  {
    forall i :: 0 <= i < |ms| && ms[i].isSaved ==> ms[i].role == User
  }

  /** A fresh, unsaved bubble keeps the saved marks on user messages. */
  lemma AppendUnsaved(ms: seq<Message>, m: Message)
    requires SavedAreUserMessages(ms) && !m.isSaved
    ensures SavedAreUserMessages(ms + [m])
  {
  }

  class ChatSession {
    var messages: seq<Message>
    var input: string
    var isLoading: bool
    var isListening: bool
    var voiceError: Option<string>
    var showCrisis: bool
    /** `baseInputRef`: the input as it was when dictation (re)started. */
    var baseInput: string
    /** `manualStopRef`: the recognizer was stopped on purpose and must not restart. */
    var manualStop: bool

    ghost predicate Valid()
      reads this
    {
      SavedAreUserMessages(messages)
    }

    constructor (personaName: string, now: int)
      ensures Valid()
      ensures messages == [Message(Model, Greeting(personaName), now, false)]
      ensures input == "" && !isLoading && !isListening && voiceError == None && !showCrisis
      ensures baseInput == "" && !manualStop
    {
      messages := [Message(Model, Greeting(personaName), now, false)];
      input := "";
      isLoading, isListening := false, false;
      voiceError := None;
      showCrisis := false;
      baseInput := "";
      manualStop := false;
    }

    /** Typing into the input box. */
    method SetInput(text: string)
      modifies this`input
      ensures input == text
    {
      input := text;
    }

    /**
     * `handleSend`. Blank input or a pending reply: nothing happens. A
     * crisis keyword: only the overlay opens, the input stays and no request
     * is made. Otherwise the user message is appended, the input cleared,
     * loading set, and the request carries the whole conversation.
     */
    method HandleSend(unlocked: bool, personaPrompt: string, now: int) returns (request: Option<ChatRequest>)
      requires Valid()
      modifies this`messages, this`input, this`isLoading, this`showCrisis
      ensures Valid()
      ensures Trim(old(input)) == "" || old(isLoading) ==>
                && request == None && messages == old(messages) && input == old(input)
                && isLoading == old(isLoading) && showCrisis == old(showCrisis)
      ensures Trim(old(input)) != "" && !old(isLoading) && RunSafetyCheck(old(input)) ==>
                && request == None && showCrisis && messages == old(messages) && input == old(input)
                && isLoading == old(isLoading)
      ensures Trim(old(input)) != "" && !old(isLoading) && !RunSafetyCheck(old(input)) ==>
                && messages == old(messages) + [Message(User, old(input), now, false)]
                && input == "" && isLoading && showCrisis == old(showCrisis)
                && request == Some(ChatRequest(Turns(messages), SystemInstruction(personaPrompt, unlocked)))
    {
      if Trim(input) == "" || isLoading {
        return None;
      }
      if RunSafetyCheck(input) {
        showCrisis := true;
        return None;
      }
      var userMessage := Message(User, input, now, false);
      AppendUnsaved(messages, userMessage);
      messages := messages + [userMessage];
      input := "";
      isLoading := true;
      request := Some(ChatRequest(Turns(messages), SystemInstruction(personaPrompt, unlocked)));
    }

    /** The end of `handleSend` once the call settles: one model bubble, loading off. */
    method ReceiveReply(outcome: ReplyOutcome, now: int)
      requires Valid()
      modifies this`messages, this`isLoading
      ensures Valid()
      ensures messages == old(messages) + [Message(Model, ReplyText(outcome), now, false)]
      ensures !isLoading
    {
      AppendUnsaved(messages, Message(Model, ReplyText(outcome), now, false));
      messages := messages + [Message(Model, ReplyText(outcome), now, false)];
      isLoading := false;
    }

    /** The save button's local half: marks bubble `idx`, whatever the save itself does. */
    method MarkSaved(idx: nat)
      requires Valid()
      requires idx < |messages| && messages[idx].role == User && !messages[idx].isSaved
      modifies this`messages
      ensures Valid()
      ensures |messages| == |old(messages)| && messages[idx] == old(messages)[idx].(isSaved := true)
      ensures forall i :: 0 <= i < |messages| && i != idx ==> messages[i] == old(messages)[i]
    {
      messages := MarkSavedAt(messages, idx);
    }

    /** A new active persona replaces the conversation with one greeting. */
    method ResetForPersona(personaName: string, now: int)
      modifies this`messages
      ensures Valid()
      ensures messages == [Message(Model, SwitchedGreeting(personaName), now, false)]
    {
      messages := [Message(Model, SwitchedGreeting(personaName), now, false)];
    }

    /** "I'm safe now" closes the crisis overlay. */
    method DismissCrisis()
      modifies this`showCrisis
      ensures !showCrisis
    {
      showCrisis := false;
    }

    /** The banner's close button and its 8-second timer. */
    method DismissVoiceError()
      modifies this`voiceError
      ensures voiceError == None
    {
      voiceError := None;
    }

    /**
     * `toggleListening`. Listening: stop on purpose. Not listening: clear
     * the banner, allow restarts, remember the typed text, and start;
     * `startThrows` is the recognizer refusing to start.
     */
    method ToggleListening(startThrows: bool)
      modifies this`isListening, this`manualStop, this`voiceError, this`baseInput
      ensures old(isListening) ==>
                !isListening && manualStop && voiceError == old(voiceError) && baseInput == old(baseInput)
      ensures !old(isListening) ==>
                && voiceError == None && !manualStop && baseInput == input
                && isListening == !startThrows
    {
      if isListening {
        manualStop := true;
        isListening := false;
      } else {
        voiceError := None;
        manualStop := false;
        baseInput := input;
        if !startThrows {
          isListening := true;
        }
      }
    }

    /**
     * `onerror`. `no-speech` changes nothing; every other code shows its
     * message and stops listening on purpose.
     */
    method OnSpeechError(code: string)
      modifies this`voiceError, this`isListening, this`manualStop
      ensures code == "no-speech" ==>
                voiceError == old(voiceError) && isListening == old(isListening) && manualStop == old(manualStop)
      ensures code != "no-speech" ==>
                voiceError == SpeechErrorMessage(code) && voiceError.Some? && !isListening && manualStop
    {
      var message := SpeechErrorMessage(code);
      if message.Some? {
        voiceError := message;
        isListening := false;
        manualStop := true;
      }
    }

    /**
     * The delayed restart `onend` schedules: unless the stop was deliberate,
     * the current input becomes the new base before the recognizer restarts.
     */
    method RestartAfterEnd()
      modifies this`baseInput
      ensures !manualStop ==> baseInput == input
      ensures manualStop ==> baseInput == old(baseInput)
    {
      if !manualStop {
        baseInput := input;
      }
    }

    /**
     * `onresult`. When the results from `resultIndex` on carry any text, the
     * input becomes the base followed by the transcript of all results;
     * otherwise it is left alone.
     */
    method OnSpeechResult(results: seq<SpeechResult>, resultIndex: nat)
      modifies this`input
      ensures Joined(SessionResults(results, resultIndex)) != "" ==>
                input == DictatedInput(baseInput, Joined(results))
      ensures Joined(SessionResults(results, resultIndex)) == "" ==> input == old(input)
    {
      var finalTranscript, interimTranscript, fullTranscript := ComposeTranscript(results, resultIndex);
      PartsCoverJoined(SessionResults(results, resultIndex));
      if finalTranscript != "" || interimTranscript != "" {
        input := DictatedInput(baseInput, fullTranscript);
      }
    }
  }
}
