/** The server's language handling in server.js: the resolution of the
    detector's three-letter code to a language tag (`detectLanguage`), the
    coercion of that tag to a language the system prompts exist for, and the
    prompt and welcome texts themselves. The detector (franc) is not modelled:
    its answer for a message, or its failure, is an input. */
module ServerLanguage {

  /** What `franc(text, {minLength: 3})` did: returned a code or threw. */
  datatype FrancOutcome = Detected(code: string) | Threw

  /** franc's ISO 639-3 codes for the eight supported languages. */
  const FrancCodes: map<string, string> := map[
    "eng" := "en", "spa" := "es", "fra" := "fr", "deu" := "de",
    "hin" := "hi", "cmn" := "zh", "jpn" := "ja", "kor" := "ko"]

  /** The keys of `languagePrompts`. */
  const PromptLanguages: set<string> := {"en", "es", "fr", "de", "hi", "zh", "ja", "ko"}

  /** `detectLanguage`: a known code becomes its tag, franc's "und" (undetermined)
      and a detector failure become English, any other code is passed through. */
  function DetectLanguage(franc: FrancOutcome): (tag: string)
    ensures franc.Threw? ==> tag == "en"
    ensures franc.Detected? && franc.code in FrancCodes ==> tag == FrancCodes[franc.code] && tag in PromptLanguages
    ensures franc == Detected("und") ==> tag == "en"
    ensures franc.Detected? && franc.code !in FrancCodes && franc.code != "und" ==> tag == franc.code
  {
    match franc
    case Threw => "en"
    case Detected(code) =>
      var mapped := if code in FrancCodes then FrancCodes[code] else code;
      if mapped != "und" then mapped else "en"
  }

  /** The language whose system prompt is used: the detected tag when a prompt
      exists for it, English otherwise. */
  function PromptLanguage(detected: string): (code: string)
    ensures code in PromptLanguages
    ensures detected in PromptLanguages ==> code == detected
    ensures detected !in PromptLanguages ==> code == "en"
  {
    if detected in PromptLanguages then detected else "en"
  }

  /** The three-letter code franc reports for a supported tag. */
  function FrancCodeFor(tag: string): (code: string)
    requires tag in PromptLanguages
    ensures code in FrancCodes && FrancCodes[code] == tag
  {
    match tag
    case "en" => "eng"
    case "es" => "spa"
    case "fr" => "fra"
    case "de" => "deu"
    case "hi" => "hin"
    case "zh" => "cmn"
    case "ja" => "jpn"
    case "ko" => "kor"
  }

  /** The code table is a bijection onto the prompt languages: every supported
      language is recovered from its franc code, and every known code is the
      code of the tag it maps to. */
  lemma FrancRoundTrip(tag: string, code: string)
    requires tag in PromptLanguages && code in FrancCodes
    ensures DetectLanguage(Detected(FrancCodeFor(tag))) == tag
    ensures FrancCodes[code] in PromptLanguages && FrancCodeFor(FrancCodes[code]) == code
  {
  }

  /** The language used for the prompt is English exactly when the detector
      failed, could not decide, or found a language outside the eight. */
  lemma PromptLanguageIsEnglishUnlessKnown(franc: FrancOutcome)
    ensures PromptLanguage(DetectLanguage(franc)) != "en" <==>
      franc.Detected? && franc.code != "eng" && franc.code != "en"
      && (franc.code in FrancCodes || franc.code in PromptLanguages)
  {
    if franc.Detected? && franc.code in FrancCodes {
      var code := franc.code;
      assert code == "eng" || code == "spa" || code == "fra" || code == "deu"
        || code == "hin" || code == "cmn" || code == "jpn" || code == "kor";
    }
  }

  /** The English system prompt, which every session starts with. */
  const EnglishSystemPrompt: string :=
    "You are Rev, a helpful AI assistant for Revolt Motors, an electric vehicle company. You help customers with information about electric vehicles, charging, maintenance, and general EV-related questions. Be knowledgeable, friendly, and professional. Keep responses concise (under 50 words) for natural conversation flow. Always identify yourself as Rev. Respond conversationally and naturally."

  /** The system prompt of each prompt language. */
  function SystemPrompt(code: string): string
    requires code in PromptLanguages
  {
    match code
    case "en" => EnglishSystemPrompt
    case "es" =>
      "Eres Rev, un asistente de IA útil para Revolt Motors, una empresa de vehículos eléctricos. Ayudas a los clientes con información sobre vehículos eléctricos, carga, mantenimiento y preguntas generales relacionadas con vehículos eléctricos. Sé conocedor, amigable y profesional. Mantén las respuestas concisas (menos de 50 palabras) para un flujo de conversación natural. Siempre identifícate como Rev. Responde de manera conversacional y natural."
    case "fr" =>
      "Vous êtes Rev, un assistant IA utile pour Revolt Motors, une entreprise de véhicules électriques. Vous aidez les clients avec des informations sur les véhicules électriques, la recharge, la maintenance et les questions générales liées aux véhicules électriques. Soyez compétent, amical et professionnel. Gardez les réponses concises (moins de 50 mots) pour un flux de conversation naturel. Identifiez-vous toujours comme Rev. Répondez de manière conversationnelle et naturelle."
    case "de" =>
      "Sie sind Rev, ein hilfreicher KI-Assistent für Revolt Motors, ein Elektrofahrzeugunternehmen. Sie helfen Kunden mit Informationen über Elektrofahrzeuge, Ladung, Wartung und allgemeine EV-bezogene Fragen. Seien Sie sachkundig, freundlich und professionell. Halten Sie Antworten prägnant (unter 50 Wörtern) für einen natürlichen Gesprächsfluss. Identifizieren Sie sich immer als Rev. Antworten Sie gesprächsweise und natürlich."
    case "hi" =>
      "आप रेव हैं, रेवोल्ट मोटर्स के लिए एक सहायक AI सहायक, एक इलेक्ट्रिक वाहन कंपनी। आप ग्राहकों को इलेक्ट्रिक वाहनों, चार्जिंग, रखरखाव और सामान्य EV-संबंधित प्रश्नों के बारे में जानकारी प्रदान करते हैं। जानकार, मित्रवत और पेशेवर बनें। प्राकृतिक बातचीत के लिए प्रतिक्रियाओं को संक्षिप्त रखें (50 शब्दों से कम)। हमेशा खुद को रेव के रूप में पहचानें। बातचीत और स्वाभाविक रूप से जवाब दें।"
    case "zh" =>
      "您是Rev，Revolt Motors（一家电动汽车公司）的有用AI助手。您帮助客户了解电动汽车、充电、维护和一般电动汽车相关问题。要知识渊博、友好和专业。保持回答简洁（少于50个单词）以实现自然对话流程。始终将自己识别为Rev。以对话和自然的方式回应。"
    case "ja" =>
      "あなたはRevです。電気自動車会社のRevolt Motorsの役立つAIアシスタントです。電気自動車、充電、メンテナンス、一般的なEV関連の質問について顧客をサポートします。知識豊富で、親しみやすく、プロフェッショナルでいてください。自然な会話の流れのために回答を簡潔に保ってください（50語未満）。常に自分をRevとして識別してください。会話的で自然に応答してください。"
    case "ko" =>
      "당신은 전기 자동차 회사인 Revolt Motors의 유용한 AI 어시스턴트인 Rev입니다. 전기 자동차, 충전, 유지보수 및 일반적인 EV 관련 질문에 대한 정보로 고객을 돕습니다. 지식이 풍부하고 친근하며 전문적이 되세요. 자연스러운 대화 흐름을 위해 답변을 간결하게 유지하세요 (50단어 미만). 항상 자신을 Rev로 식별하세요. 대화적이고 자연스럽게 응답하세요."
  }

  /** `languagePrompts`: one system prompt per prompt language. */
  const LanguagePrompts: map<string, string> := map code | code in PromptLanguages :: SystemPrompt(code)

  /** A table with a system prompt for every prompt language. */
  predicate CoversPromptLanguages(prompts: map<string, string>)
  {
    PromptLanguages <= prompts.Keys
  }

  /** The English welcome every new session's history ends with. */
  const EnglishWelcome: string := "Hello! I'm Rev, your Revolt Motors AI assistant. I'm here to help with all things electric vehicles. How can I assist you today?"
}
