/**
 * The static catalog of the prompt builder (constants.tsx): one entry per
 * technique, the task presets, the icon lookup and the role and emotion
 * choices. Icons are represented by their names, not by rendered elements.
 */
module Catalog {
  import opened Wrappers
  import opened Types

  /** The technique catalog, one entry per technique. */
  const Techniques: seq<TechniqueInfo> := [
    TechniqueInfo(ZeroShot, "직설적인 요청", "Zero-shot", "추가 설명 없이 바로 과제를 지시합니다.", "Zap", "간단하고 명확한 작업에 적합합니다.",
      Some(Detail(
        "AI에게 아무런 사전 정보나 예시를 주지 않고 바로 정답을 요구하는 가장 기본적인 방법입니다. AI가 이미 학습한 방대한 지식에 의존합니다.",
        "실례: '블로그 포스팅을 위한 제목 5개를 지어줘'라고 요청하는 것입니다. 별도의 규칙 없이 AI의 직관에 맡길 때 사용합니다."))),
    TechniqueInfo(Cot, "단계별 사고", "Chain of Thought", "논리적인 단계를 거쳐 결론에 도달하게 합니다.", "BrainCircuit", "복잡한 문제 해결과 논리적 추론이 필요할 때 좋습니다.",
      Some(Detail(
        "AI에게 '단계별로 생각하라'고 지시하여 논리적 비약을 방지하는 기법입니다. 결과만 내놓는 것이 아니라 그 과정을 스스로 짚어보게 합니다.",
        "실례: 어려운 수학 문제나 복잡한 마케팅 전략을 짤 때 '먼저 시장을 분석하고, 그 다음 경쟁사를 파악한 뒤, 마지막으로 우리의 강점을 찾아줘'라고 단계를 나누어 요청하는 방식입니다."))),
    TechniqueInfo(FewShot, "예시 기반 학습", "Few-shot", "원하는 결과물의 예시를 제공하여 패턴을 학습시킵니다.", "Copy", "특정한 출력 형식이나 스타일을 유지해야 할 때 강력합니다.",
      Some(Detail(
        "결과물의 샘플(예시)을 1~3개 정도 보여주고 '이런 식으로 만들어줘'라고 지시하는 기법입니다. AI가 원하는 출력 형식을 정확히 파악하게 됩니다.",
        "실례: '리뷰를 한 줄로 요약해줘. 예시: 배송이 빨라요 -> 배송만족. 품질이 좋아요 -> 품질만족. 디자인이 예뻐요 -> ?' 와 같이 패턴을 보여주는 방식입니다."))),
    TechniqueInfo(Role, "전문가 페르소나", "Role Prompting", "AI에게 특정한 직업이나 관점을 부여합니다.", "UserRound", "전문적인 지식이나 특유의 문체가 필요할 때 효과적입니다.",
      Some(Detail(
        "AI에게 특정 인물이나 전문가의 역할을 부여하여 그 분야 특유의 지식과 말투를 사용하게 만드는 기법입니다.",
        "실례: '너는 10년 차 베테랑 카피라이터야'라고 설정하면 일반적인 문장이 아니라 훨씬 자극적이고 전문적인 광고 문구를 얻을 수 있습니다."))),
    TechniqueInfo(Emotion, "감성 및 톤앤매너", "Emotional Context", "출력물의 감정 상태나 태도를 지정합니다.", "Heart", "마케팅 카피나 공감형 콘텐츠 작성에 필수적입니다.",
      Some(Detail(
        "단순한 정보 전달을 넘어, AI에게 특정 감정이나 태도를 가지고 글을 쓰게 하여 독자의 마음을 움직이는 기법입니다.",
        "실례: '실패한 사람들을 위로하는 따뜻한 편지 형식으로 써줘' 또는 '당장 사지 않으면 손해일 것 같은 아주 긴박한 어조로 광고를 써줘'라고 요청하는 것입니다."))),
    TechniqueInfo(StepBack, "상위 목표 설정", "Step-back", "문제를 풀기 전 근본적인 원리와 목표를 먼저 정의합니다.", "Undo2", "전략적 사고가 필요한 기획 및 분석 작업에 유리합니다.",
      Some(Detail(
        "구체적인 문제로 들어가기 전에, 한 걸음 물러나(Step-back) 이 작업의 본질적인 목표나 원칙을 먼저 생각하게 한 뒤 작업을 수행하는 고도의 기법입니다.",
        "실례: '광고 문구를 써줘' 대신 '광고를 쓰는 이유는 고객의 신뢰를 얻기 위함이야. 이 원칙을 바탕으로 신뢰감이 느껴지는 문구를 써줘'라고 본질을 먼저 짚어주는 방식입니다.")))
  ]

  /** The task presets. */
  const Presets: seq<PresetTemplate> := [
    PresetTemplate("desc", "제품 상세페이지", "이 제품의 매력을 극대화하는 2000자 분량의 상세페이지 초안 작성", "FileText"),
    PresetTemplate("ad", "SNS 광고 카피", "인스타그램/페이스북용 클릭을 부르는 짧고 강렬한 광고 문구 5종 생성", "Megaphone"),
    PresetTemplate("blog", "블로그 포스팅", "정보 전달과 재미를 동시에 잡는 검색 엔진 최적화(SEO) 블로그 글 작성", "PenTool"),
    PresetTemplate("email", "뉴스레터/메일", "구독자의 행동을 유도하는 친근한 톤의 뉴스레터 본문 작성", "Mail"),
    PresetTemplate("report", "성과 요약 보고서", "주요 특징과 수치를 바탕으로 한 눈에 들어오는 성과 보고서 정리", "BarChart3"),
    PresetTemplate("faq", "FAQ 리스트", "잠재 고객이 궁금해할 만한 핵심 질문(FAQ) 10가지와 전문적인 답변 작성", "CircleHelp"),
    PresetTemplate("youtube", "유튜브 스크립트", "초반 5초에 시청자를 사로잡는 오프닝과 핵심 내용을 담은 영상 스크립트", "Youtube"),
    PresetTemplate("slogan", "브랜드 슬로건", "브랜드의 가치를 한 문장으로 관통하는 임팩트 있는 슬로건 10선 추천", "Trophy"),
    PresetTemplate("review_reply", "리뷰 답글", "구매 고객의 정성 어린 리뷰에 대해 진심을 담은 감사와 재구매 유도 답글 작성", "MessageSquareQuote"),
    PresetTemplate("yt_comment", "유튜브 댓글", "영상 업로드 후 시청자의 참여를 유도하는 매력적인 고정 댓글 가이드 작성", "MessageCircle"),
    PresetTemplate("press", "보도자료", "언론 홍보를 위한 신뢰감 있고 격식 있는 신제품 출시 보도자료 초안 작성", "Newspaper")
  ]

  /** The role choices; the last one is the sentinel that switches to direct input. */
  const Roles: seq<string> := ["마케터", "브랜드 전략가", "소설가", "데이터 분석가", "고객 만족 상담원", "심리학자", "경제 전문가", "직접 입력"]

  /** The emotion choices. */
  const Emotions: seq<string> := ["따뜻하고 친근한", "차갑고 논리적인", "급박하고 강렬한", "고급스럽고 우아한", "유머러스하고 재기발랄한", "신뢰감 있는"]

  /** The role choice that switches the role field to free-text input. */
  const DirectInput: string := "직접 입력"

  /** The icons the lookup table knows. */
  datatype Icon = Zap | BrainCircuit | Copy | UserRound | Heart | Undo2 | FileText | Megaphone | PenTool | Mail | BarChart3 | CircleHelp | Youtube | Trophy | MessageSquareQuote | MessageCircle | Newspaper

  /** The name under which each icon is registered. */
  function IconName(i: Icon): string {
    match i
    case Zap => "Zap"
    case BrainCircuit => "BrainCircuit"
    case Copy => "Copy"
    case UserRound => "UserRound"
    case Heart => "Heart"
    case Undo2 => "Undo2"
    case FileText => "FileText"
    case Megaphone => "Megaphone"
    case PenTool => "PenTool"
    case Mail => "Mail"
    case BarChart3 => "BarChart3"
    case CircleHelp => "CircleHelp"
    case Youtube => "Youtube"
    case Trophy => "Trophy"
    case MessageSquareQuote => "MessageSquareQuote"
    case MessageCircle => "MessageCircle"
    case Newspaper => "Newspaper"
  }

  /** The lookup table of `getIcon`. */
  const IconTable: map<string, Icon> := map[
      "Zap" := Zap,
      "BrainCircuit" := BrainCircuit,
      "Copy" := Copy,
      "UserRound" := UserRound,
      "Heart" := Heart,
      "Undo2" := Undo2,
      "FileText" := FileText,
      "Megaphone" := Megaphone,
      "PenTool" := PenTool,
      "Mail" := Mail,
      "BarChart3" := BarChart3,
      "CircleHelp" := CircleHelp,
      "Youtube" := Youtube,
      "Trophy" := Trophy,
      "MessageSquareQuote" := MessageSquareQuote,
      "MessageCircle" := MessageCircle,
      "Newspaper" := Newspaper
  ]

  /** The icon every known name maps to is the one registered under that name. */
  lemma IconTableMatchesNames()
    ensures forall i: Icon :: IconName(i) in IconTable && IconTable[IconName(i)] == i
    ensures forall name :: name in IconTable ==> IconName(IconTable[name]) == name
  {
  }

  /**
   * `getIcon`: the icon registered under `name`, and Zap for a name no icon
   * is registered under. Total over all strings.
   */
  function GetIcon(name: string): (icon: Icon)
    ensures (exists i :: IconName(i) == name) ==> IconName(icon) == name
    ensures (forall i :: IconName(i) != name) ==> icon == Zap
  {
    IconTableMatchesNames();
    if name in IconTable then IconTable[name] else Zap
  }

  /** The catalog lists exactly one entry per technique, in declaration order. */
  lemma TechniquesFollowDeclarationOrder()
    ensures |Techniques| == |AllTechniques|
    ensures forall i :: 0 <= i < |Techniques| ==> Techniques[i].kind == AllTechniques[i]
  {
  }

  /** Where the entry of technique `t` sits in the catalog. */
  function IndexOf(t: TechniqueType): (i: nat)
    ensures i < |AllTechniques| && AllTechniques[i] == t
  {
    match t
    case ZeroShot => 0
    case Cot => 1
    case FewShot => 2
    case Role => 3
    case Emotion => 4
    case StepBack => 5
  }

  /** The catalog entry of `t`: total over the closed enumeration. */
  function Lookup(t: TechniqueType): (info: TechniqueInfo)
    ensures info in Techniques && info.kind == t
  {
    TechniquesFollowDeclarationOrder();
    Techniques[IndexOf(t)]
  }

  /** Every catalog entry carries a detail with a concept and an example. */
  lemma EveryEntryHasDetail()
    ensures forall info :: info in Techniques ==>
      info.detail.Some? && info.detail.value.concept != "" && info.detail.value.example != ""
  {
  }

  /** The preset ids are pairwise distinct, and so are the preset tasks. */
  lemma PresetsDistinct()
    ensures forall i, j :: 0 <= i < j < |Presets| ==> Presets[i].id != Presets[j].id
    ensures forall i, j :: 0 <= i < j < |Presets| ==> Presets[i].task != Presets[j].task
  {
  }

  /** Every icon name the catalog and the presets use is registered, so none falls back. */
  lemma CatalogIconsRegistered()
    ensures forall info :: info in Techniques ==> info.icon in IconTable
    ensures forall p :: p in Presets ==> p.icon in IconTable
  {
  }

  /** The first role is the default; the direct-input sentinel is the last role and only the last. */
  lemma RolesEndWithSentinel()
    ensures |Roles| > 0 && |Emotions| > 0
    ensures Roles[|Roles| - 1] == DirectInput
    ensures forall i :: 0 <= i < |Roles| - 1 ==> Roles[i] != DirectInput
  {
  }

  /**
   * A preset is highlighted when its task is the current task; since the
   * preset tasks are distinct, at most one preset is highlighted at a time.
   */
  lemma AtMostOneHighlighted(task: string, p: PresetTemplate, q: PresetTemplate)
    requires p in Presets && q in Presets
    requires p.task == task && q.task == task
    ensures p == q
  {
    PresetsDistinct();
    var i :| 0 <= i < |Presets| && Presets[i] == p;
    var j :| 0 <= j < |Presets| && Presets[j] == q;
  }
}
