/**
 * The closed sets of roles, message kinds and interface languages, the
 * language whitelist and the table of interface labels per language.
 */
module Types {
  import opened Wrappers

  /** Who produced a message. */
  datatype MessageRole = Clinician | Patient | Assistant | Tool | User

  /** What a message is. */
  datatype MessageType = Original | Translation | Info

  /** The interface languages. */
  datatype Language = En | Es | Zh

  function RoleName(r: MessageRole): string
  {
    match r
    case Clinician => "clinician"
    case Patient => "patient"
    case Assistant => "assistant"
    case Tool => "tool"
    case User => "user"
  }

  /** The role a wire string names, if any. */
  function ParseRole(s: string): (r: Option<MessageRole>)
    ensures r.Some? ==> RoleName(r.value) == s
  {
    if s == "clinician" then Some(Clinician)
    else if s == "patient" then Some(Patient)
    else if s == "assistant" then Some(Assistant)
    else if s == "tool" then Some(Tool)
    else if s == "user" then Some(User)
    else None
  }

  /** The five role names are exactly the strings that parse as a role. */
  lemma RoleRoundTrip(r: MessageRole)
    ensures ParseRole(RoleName(r)) == Some(r)
  {
  }

  function TypeName(t: MessageType): string
  {
    match t
    case Original => "original"
    case Translation => "translation"
    case Info => "info"
  }

  /** The message kind a wire string names, if any. */
  function ParseType(s: string): (t: Option<MessageType>)
    ensures t.Some? ==> TypeName(t.value) == s
  {
    if s == "original" then Some(Original)
    else if s == "translation" then Some(Translation)
    else if s == "info" then Some(Info)
    else None
  }

  lemma TypeRoundTrip(t: MessageType)
    ensures ParseType(TypeName(t)) == Some(t)
  {
  }

  function LanguageCode(l: Language): string
  {
    match l
    case En => "en"
    case Es => "es"
    case Zh => "zh"
  }

  /** The language a code names, if any. */
  function ParseLanguage(s: string): (l: Option<Language>)
    ensures l.Some? ==> LanguageCode(l.value) == s
  {
    if s == "en" then Some(En) else if s == "es" then Some(Es) else if s == "zh" then Some(Zh) else None
  }

  lemma LanguageRoundTrip(l: Language)
    ensures ParseLanguage(LanguageCode(l)) == Some(l)
  {
  }

  /** The whitelist `isValidLanguage` searches. */
  const LanguageCodes: seq<string> := ["en", "es", "zh"]

  /**
   * `isValidLanguage`: membership in the whitelist. It agrees with the closed
   * `Language` set: a string passes iff it is the code of some language.
   */
  function IsValidLanguage(lang: string): (b: bool)
    ensures b <==> ParseLanguage(lang).Some?
    ensures b <==> exists l: Language :: LanguageCode(l) == lang
  {
    if lang in LanguageCodes then
      assert lang == LanguageCode(ParseLanguage(lang).value);
      true
    else
      false
  }

  /** The check is case-sensitive and rejects the empty string. */
  lemma IsValidLanguageCaseSensitive()
    ensures !IsValidLanguage("EN") && !IsValidLanguage("Es") && !IsValidLanguage("")
    ensures IsValidLanguage("en") && IsValidLanguage("es") && IsValidLanguage("zh")
  {
  }

  /** The keys every language entry of `translations` defines. */
  const TranslationKeys: set<string> := {
    "conversationSummary", "summary", "detectedActions", "noActionsDetected",
    "noSummaryAvailable", "exportTranscript", "backToHome", "loading",
    "exportSuccess", "exportError", "lab_order", "follow_up"
  }

  const EnglishLabels: map<string, string> := map[
    "conversationSummary" := "Conversation Summary",
    "summary" := "Summary",
    "detectedActions" := "Detected Actions",
    "noActionsDetected" := "No actions were detected in this conversation",
    "noSummaryAvailable" := "No summary available",
    "exportTranscript" := "Export Transcript",
    "backToHome" := "Back to Home",
    "loading" := "Loading summary...",
    "exportSuccess" := "Transcript exported successfully",
    "exportError" := "Failed to export transcript",
    "lab_order" := "Lab Order",
    "follow_up" := "Follow-up Appointment"
  ]

  const SpanishLabels: map<string, string> := map[
    "conversationSummary" := "Resumen de la Conversación",
    "summary" := "Resumen",
    "detectedActions" := "Acciones Detectadas",
    "noActionsDetected" := "No se detectaron acciones en esta conversación",
    "noSummaryAvailable" := "Resumen no disponible",
    "exportTranscript" := "Exportar Transcripción",
    "backToHome" := "Volver al Inicio",
    "loading" := "Cargando resumen...",
    "exportSuccess" := "Transcripción exportada exitosamente",
    "exportError" := "Error al exportar la transcripción",
    "lab_order" := "Orden de Laboratorio",
    "follow_up" := "Cita de Seguimiento"
  ]

  const ChineseLabels: map<string, string> := map[
    "conversationSummary" := "对话摘要",
    "summary" := "摘要",
    "detectedActions" := "检测到的操作",
    "noActionsDetected" := "未在此对话中检测到任何操作",
    "noSummaryAvailable" := "暂无摘要",
    "exportTranscript" := "导出记录",
    "backToHome" := "返回首页",
    "loading" := "正在加载摘要...",
    "exportSuccess" := "记录导出成功",
    "exportError" := "导出记录失败",
    "lab_order" := "化验单",
    "follow_up" := "复诊预约"
  ]

  /** The `translations` table, keyed by language code. */
  const Translations: map<string, map<string, string>> :=
    map["en" := EnglishLabels, "es" := SpanishLabels, "zh" := ChineseLabels]

  /** `translations` has an entry for exactly the valid languages. */
  lemma TranslationsCoverValidLanguages(lang: string)
    ensures lang in Translations <==> IsValidLanguage(lang)
  {
  }

  lemma EnglishKeys()
    ensures EnglishLabels.Keys == TranslationKeys
  {
  }

  lemma SpanishKeys()
    ensures SpanishLabels.Keys == TranslationKeys
  {
  }

  lemma ChineseKeys()
    ensures ChineseLabels.Keys == TranslationKeys
  {
  }

  /** Every entry defines the same keys, the action-type labels among them. */
  lemma TranslationEntriesShareKeys(lang: string)
    requires lang in Translations
    ensures Translations[lang].Keys == TranslationKeys
    ensures "lab_order" in Translations[lang] && "follow_up" in Translations[lang]
  {
    if lang == "en" {
      EnglishKeys();
    } else if lang == "es" {
      SpanishKeys();
    } else {
      ChineseKeys();
    }
  }
}
