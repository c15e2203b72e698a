/**
 * `runPrompt` (services/geminiService.ts): choose the API key, refuse a
 * missing one, hand the prompt to the model, and turn every outcome into
 * the text shown to the user. The key sources are the session store's slot
 * and the environment's `API_KEY`, both possibly absent; the model call is
 * a parameter from a request to an outcome.
 */
module Gemini {
  import opened Wrappers
  import opened Text

  /** The model every request names. */
  const Model: string := "gemini-3-flash-preview"
  /** The message of the error thrown for a missing key. */
  const MissingKeyMessage: string :=
    "Gemini " + ApiKeyMarker + "가 설정되지 않았습니다. " + "우측 상단 '환경 설정(톱니바퀴 아이콘)'" + "에서 키를 입력해 주세요."
  /** The fixed text for an error that looks like a rejected key. */
  const InvalidKeyMessage: string :=
    "유효하지 않은 " + ApiKeyMarker + "이거나 권한이 없습니다. 우측 상단 '환경 설정'에서 유효한 Gemini API 키를 다시 입력해 주세요. (Google AI Studio에서 무료로 발급 가능)"
  /** What precedes the message of any other error. */
  const ErrorPrefix: string := "프롬프트 생성 중 오류가 발생했습니다: "
  /** The text for a response without text. */
  const EmptyResponseMessage: string := "결과를 생성할 수 없습니다."
  /** The substring both key-related results share. */
  const ApiKeyMarker: string := "API 키"
  /** The substrings that mark an error as a rejected key, matched case-sensitively. */
  const AuthMarkers: seq<string> := ["API_KEY", "403", "401", "not authorized", "entity was not found"]

  /** What the model is asked: the model name, the key and the prompt as contents. */
  datatype Request = Request(model: string, apiKey: string, contents: string)

  /**
   * What the model call comes back with: a response whose text may be
   * absent, or a thrown error whose message may be absent.
   */
  datatype Outcome = Success(text: Option<string>) | Failure(message: Option<string>)

  /** `manualKey || envKey`: the stored key unless it is absent or empty, then the environment's. */
  function ChooseKey(manual: Option<string>, env: Option<string>): (k: Option<string>)
    ensures manual.Some? && manual.value != "" ==> k == manual
    ensures manual.None? || manual.value == "" ==> k == env
  {
    if manual.Some? && manual.value != "" then manual else env
  }

  /** A key counts as missing when it is absent, empty, or the literal text "undefined". */
  predicate KeyMissing(k: Option<string>) {
    k.None? || k.value == "" || k.value == "undefined"
  }

  /** Some marker of a rejected key occurs in the message. */
  predicate IsAuthError(msg: string) {
    exists i :: 0 <= i < |AuthMarkers| && Contains(msg, AuthMarkers[i])
  }

  /** How a template literal shows an error's message: an absent one as "undefined". */
  function RenderMessage(message: Option<string>): string {
    if message.Some? then message.value else "undefined"
  }

  /** The catch block: a rejected key gets the fixed text, anything else the prefix and the message. */
  function Caught(message: Option<string>): (r: string)
    ensures r != ""
    ensures IsAuthError(message.GetOr("")) ==> r == InvalidKeyMessage
    ensures !IsAuthError(message.GetOr("")) ==> r == ErrorPrefix + RenderMessage(message)
  {
    if IsAuthError(message.GetOr("")) then InvalidKeyMessage else ErrorPrefix + RenderMessage(message)
  }

  /** `runPrompt`: always a non-empty text, whatever the key sources and the model do. */
  function RunPrompt(prompt: string, manual: Option<string>, env: Option<string>, generate: Request -> Outcome): (r: string)
    ensures r != ""
  {
    var key := ChooseKey(manual, env);
    if KeyMissing(key) then Caught(Some(MissingKeyMessage))
    else
      match generate(Request(Model, key.value, prompt))
      case Success(text) => Or(text.GetOr(""), EmptyResponseMessage)
      case Failure(message) => Caught(message)
  }

  // ---------------------------------------------------------------------------
  // Properties

  /** A message is classified as a rejected key exactly when it contains one of the five markers. */
  lemma AuthMarkersListed(msg: string)
    ensures IsAuthError(msg) <==>
      Contains(msg, "API_KEY") || Contains(msg, "403") || Contains(msg, "401")
      || Contains(msg, "not authorized") || Contains(msg, "entity was not found")
  {
    if Contains(msg, "API_KEY") { assert Contains(msg, AuthMarkers[0]); }
    else if Contains(msg, "403") { assert Contains(msg, AuthMarkers[1]); }
    else if Contains(msg, "401") { assert Contains(msg, AuthMarkers[2]); }
    else if Contains(msg, "not authorized") { assert Contains(msg, AuthMarkers[3]); }
    else if Contains(msg, "entity was not found") { assert Contains(msg, AuthMarkers[4]); }
  }

  /** The missing-key message carries none of the markers of a rejected key. */
  lemma MissingKeyIsNotAuthError()
    ensures !IsAuthError(MissingKeyMessage)
  {
    AuthMarkersListed(MissingKeyMessage);
    MissingKeyLacks('K');
    LacksCharacter(MissingKeyMessage, "API_KEY", 'K');
    MissingKeyLacks('4');
    LacksCharacter(MissingKeyMessage, "403", '4');
    LacksCharacter(MissingKeyMessage, "401", '4');
    MissingKeyLacks('z');
    LacksCharacter(MissingKeyMessage, "not authorized", 'z');
    MissingKeyLacks('y');
    LacksCharacter(MissingKeyMessage, "entity was not found", 'y');
  }

  /** Characters of the markers that the missing-key message does not use. */
  lemma MissingKeyLacks(c: char)
    requires c == 'K' || c == '4' || c == 'z' || c == 'y'
    ensures c !in MissingKeyMessage
  {
    assert c !in "Gemini " && c !in ApiKeyMarker;
    assert c !in "가 설정되지 않았습니다. ";
    assert c !in "우측 상단 '환경 설정(톱니바퀴 아이콘)'";
    assert c !in "에서 키를 입력해 주세요.";
  }

  /**
   * Whether the key is missing, in terms of the two sources: a non-empty
   * stored key decides alone, so a stored "undefined" masks a valid
   * environment key; otherwise the environment key decides.
   */
  lemma KeyMissingCases(manual: Option<string>, env: Option<string>)
    ensures manual.Some? && manual.value != "" ==> (KeyMissing(ChooseKey(manual, env)) <==> manual.value == "undefined")
    ensures manual.None? || manual.value == "" ==> (KeyMissing(ChooseKey(manual, env)) <==> KeyMissing(env))
  {
  }

  /**
   * With a missing key the model is never asked: the result is the prefixed
   * missing-key message, the same for every `generate`.
   */
  lemma MissingKeyShortCircuits(prompt: string, manual: Option<string>, env: Option<string>, generate: Request -> Outcome)
    requires KeyMissing(ChooseKey(manual, env))
    ensures RunPrompt(prompt, manual, env, generate) == ErrorPrefix + MissingKeyMessage
  {
    MissingKeyIsNotAuthError();
  }

  /** A stored "undefined" yields the missing-key result whatever the environment holds. */
  lemma StoredUndefinedMasksEnvironment(prompt: string, env: Option<string>, generate: Request -> Outcome)
    ensures RunPrompt(prompt, Some("undefined"), env, generate) == ErrorPrefix + MissingKeyMessage
  {
    MissingKeyShortCircuits(prompt, Some("undefined"), env, generate);
  }

  /**
   * With a key present the model is asked once, with the fixed model name,
   * the chosen key and the prompt unchanged: two model calls that agree on
   * that request give the same result.
   */
  lemma OnlyTheChosenRequestMatters(prompt: string, manual: Option<string>, env: Option<string>,
                                    g1: Request -> Outcome, g2: Request -> Outcome)
    requires !KeyMissing(ChooseKey(manual, env))
    requires g1(Request(Model, ChooseKey(manual, env).value, prompt)) == g2(Request(Model, ChooseKey(manual, env).value, prompt))
    ensures RunPrompt(prompt, manual, env, g1) == RunPrompt(prompt, manual, env, g2)
  {
  }

  /**
   * What a present key leads to: a response's non-empty text verbatim, the
   * fixed text for a response without text, the fixed invalid-key text for
   * an error carrying a marker, the prefixed message for any other error.
   */
  lemma RunPromptOutcomes(prompt: string, manual: Option<string>, env: Option<string>, generate: Request -> Outcome)
    requires !KeyMissing(ChooseKey(manual, env))
    ensures var o := generate(Request(Model, ChooseKey(manual, env).value, prompt));
      && (o.Success? && o.text.Some? && o.text.value != "" ==> RunPrompt(prompt, manual, env, generate) == o.text.value)
      && (o.Success? && (o.text.None? || o.text.value == "") ==> RunPrompt(prompt, manual, env, generate) == EmptyResponseMessage)
      && (o.Failure? && IsAuthError(o.message.GetOr("")) ==> RunPrompt(prompt, manual, env, generate) == InvalidKeyMessage)
      && (o.Failure? && !IsAuthError(o.message.GetOr("")) ==>
            RunPrompt(prompt, manual, env, generate) == ErrorPrefix + RenderMessage(o.message))
  {
  }

  /** Both key-related results mention "API 키", the marker the caller reacts to. */
  lemma KeyResultsMentionApiKey()
    ensures Contains(ErrorPrefix + MissingKeyMessage, ApiKeyMarker)
    ensures Contains(InvalidKeyMessage, ApiKeyMarker)
  {
    var tail1 := "가 설정되지 않았습니다. " + "우측 상단 '환경 설정(톱니바퀴 아이콘)'" + "에서 키를 입력해 주세요.";
    assert ErrorPrefix + MissingKeyMessage == (ErrorPrefix + "Gemini ") + ApiKeyMarker + tail1;
    ContainsPlaced(ErrorPrefix + "Gemini ", ApiKeyMarker, tail1);
    var tail2 := "이거나 권한이 없습니다. 우측 상단 '환경 설정'에서 유효한 Gemini API 키를 다시 입력해 주세요. (Google AI Studio에서 무료로 발급 가능)";
    ContainsPlaced("유효하지 않은 ", ApiKeyMarker, tail2);
  }
}
