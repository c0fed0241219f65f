/** The symptom knowledge base: a fixed table of six symptoms, each with the keywords that
    signal it in free text and the advice the chatbot gives about it. */
module SymptomDatabase {

  /** The three advice tiers; one of them is chosen for a whole reply. */
  datatype Severity = Mild | Moderate | Severe

  /** The `severity` map of an entry: one advice sentence per tier. */
  datatype SeverityAdvice = SeverityAdvice(mild: string, moderate: string, severe: string)
  {
    /** `data.severity[level]`. */
    function For(level: Severity): string
    {
      match level
      case Mild => mild
      case Moderate => moderate
      case Severe => severe
    }
  }

  datatype SymptomEntry = SymptomEntry(
    keywords: seq<string>,
    categories: seq<string>,
    relatedSymptoms: seq<string>,
    possibleConditions: seq<string>,
    severity: SeverityAdvice,
    treatment: string,
    warning: string)

  /** A symptom's canonical name with its entry: one `[symptom, data]` pair of
      `Object.entries`, and one element of the analysis's `foundSymptoms`. */
  datatype Symptom = Symptom(name: string, data: SymptomEntry)

  /** The table, in the insertion order that `Object.entries` follows. */
  const Database: seq<Symptom> := [
    Symptom("두통", SymptomEntry(
      keywords := ["두통", "머리 아픔", "머리가 아프", "머리가 띵하", "편두통"],
      categories := ["신경계", "통증"],
      relatedSymptoms := ["어지러움", "구토", "발열", "목통증"],
      possibleConditions := ["긴장성 두통", "편두통", "군발성 두통", "부비동염"],
      severity := SeverityAdvice(
        mild := "가벼운 두통은 휴식과 충분한 수면으로 호전될 수 있습니다.",
        moderate := "진통제 복용을 고려해볼 수 있으며, 지속될 경우 진료가 필요합니다.",
        severe := "심한 두통이 지속되면 즉시 진료가 필요합니다."),
      treatment := "충분한 휴식, 규칙적인 수면, 스트레스 관리, 적절한 수분 섭취가 도움될 수 있습니다.",
      warning := "추가로 갑자기 발생한 극심한 두통, 발열이나 목이 뻣뻣한 증상이 동반될 때, 의식이 혼미하거나 어지러운 증상이 나타나면 ~병원에서 추가 처치를 받는 것을 추천드려요.")),
    Symptom("발열", SymptomEntry(
      keywords := ["열", "발열", "미열", "체온", "열이 나"],
      categories := ["전신증상"],
      relatedSymptoms := ["오한", "근육통", "두통", "피로"],
      possibleConditions := ["감기", "독감", "폐렴", "바이러스 감염"],
      severity := SeverityAdvice(
        mild := "미열은 휴식과 충분한 수분 섭취로 호전될 수 있습니다.",
        moderate := "38도 이상의 발열이 지속되면 진료가 필요할 수 있습니다.",
        severe := "고열이 지속되거나 다른 심각한 증상과 동반되면 즉시 진료가 필요합니다."),
      treatment := "충분한 휴식, 수분 보충, 해열제 복용을 고려해볼 수 있습니다.",
      warning := "추가로 39도 이상의 고열, 심한 오한과 근육통 동반, 의식이 흐릿해지는 증상이 나타나면 ~병원에서 추가 처치를 받는 것을 추천드려요.")),
    Symptom("복통", SymptomEntry(
      keywords := ["복통", "배 아픔", "배가 아프", "속이 아프", "위가 아프", "배가 걸리"],
      categories := ["소화기계", "통증"],
      relatedSymptoms := ["구토", "설사", "소화불량", "메스꺼움"],
      possibleConditions := ["소화불량", "위염", "장염", "과민성 대장증후군", "식중독"],
      severity := SeverityAdvice(
        mild := "가벼운 복통은 식이조절과 휴식으로 호전될 수 있습니다.",
        moderate := "증상이 지속되면 진료를 받아보시는 것이 좋습니다.",
        severe := "심한 복통이 지속되면 즉시 응급실을 방문하세요."),
      treatment := "소화가 잘되는 음식 섭취, 충분한 수분 섭취, 규칙적인 식사가 도움됩니다.",
      warning := "추가로 극심한 복통, 혈변, 지속적인 구토, 고열 동반 증상이 나타나면 ~병원에서 추가 처치를 받는 것을 추천드려요.")),
    Symptom("피로", SymptomEntry(
      keywords := ["피로", "피곤", "무기력", "에너지가 없", "졸림", "나른"],
      categories := ["전신증상"],
      relatedSymptoms := ["두통", "근육통", "집중력 저하", "식욕부진"],
      possibleConditions := ["수면부족", "스트레스", "빈혈", "갑상선 기능 저하증", "만성피로증후군"],
      severity := SeverityAdvice(
        mild := "일시적인 피로는 휴식으로 회복될 수 있습니다.",
        moderate := "지속적인 피로감이 있다면 기초 검사를 받아보세요.",
        severe := "심한 피로가 장기간 지속되면 전문의 상담이 필요합니다."),
      treatment := "규칙적인 수면, 균형 잡힌 영양 섭취, 적절한 운동이 도움됩니다.",
      warning := "추가로 3개월 이상 지속되는 피로, 일상생활이 어려울 정도의 피로, 다른 증상이 동반될 증상이 나타나면 ~병원에서 추가 처치를 받는 것을 추천드려요.")),
    Symptom("기침", SymptomEntry(
      keywords := ["기침", "켁켁", "가래", "기침이 나"],
      categories := ["호흡기계"],
      relatedSymptoms := ["가래", "인후통", "코막힘", "발열"],
      possibleConditions := ["감기", "기관지염", "폐렴", "알레르기"],
      severity := SeverityAdvice(
        mild := "가벼운 기침은 휴식과 수분 섭취로 호전될 수 있습니다.",
        moderate := "1주일 이상 지속되면 진료를 받아보세요.",
        severe := "심한 기침이 지속되거나 호흡곤란이 있으면 즉시 진료가 필요합니다."),
      treatment := "충분한 휴식, 수분 섭취, 가습기 사용이 도움될 수 있습니다.",
      warning := "추가로 호흡곤란 동반, 피가 섞인 가래, 고열 동반, 2주 이상 지속되는 기침 증상이 나타나면 ~병원에서 추가 처치를 받는 것을 추천드려요.")),
    Symptom("어지러움", SymptomEntry(
      keywords := ["어지럽", "어질어질", "현기증", "눈앞이 빙글", "회전성 어지러움"],
      categories := ["신경계"],
      relatedSymptoms := ["두통", "메스꺼움", "구토", "이명"],
      possibleConditions := ["빈혈", "저혈압", "메니에르병", "전정신경염"],
      severity := SeverityAdvice(
        mild := "가벼운 어지러움은 휴식으로 호전될 수 있습니다.",
        moderate := "반복되는 어지러움은 진료를 받아보세요.",
        severe := "심한 어지러움이 지속되면 즉시 진료가 필요합니다."),
      treatment := "충분한 휴식, 수분 섭취, 천천히 자세 변경하기가 도움됩니다.",
      warning := "추가로 의식 저하, 심한 두통 동반, 마비 증상, 말이 어눌해지는 증상이 나타나면 ~병원에서 추가 처치를 받는 것을 추천드려요."))
  ]

  /** No two entries of `db` share a name, as no two keys of an object can. */
  predicate NamesDistinct(db: seq<Symptom>)
  {
    forall i, j :: 0 <= i < j < |db| ==> db[i].name != db[j].name
  }

  /** The table has six symptoms, under distinct names. */
  lemma DatabaseNamesDistinct()
    ensures |Database| == 6 && NamesDistinct(Database)
  {
  }

  /** Every symptom of the table has at least one keyword to be found by. */
  lemma DatabaseKeywordsNonEmpty()
    ensures forall i :: 0 <= i < |Database| ==> |Database[i].data.keywords| > 0
  {
  }
}
