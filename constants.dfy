/**
 * The constant tables of constants.js: the views, the languages, the AI
 * provider catalogue, the planning standards with their detailed criteria,
 * and the key sets of the two translation tables.
 */
module Constants {
  import opened Wrappers

  /** The screens the application can show (`AppView`). */
  datatype AppView = Home | PMCAgent | About | Contact | Terms | Privacy {
    /** The string the frozen `AppView` object maps this view to. */
    function Value(): string {
      match this
      case Home => "home"
      case PMCAgent => "pmcAgent"
      case About => "about"
      case Contact => "contact"
      case Terms => "terms"
      case Privacy => "privacy"
    }
  }

  /** The view whose string is `s`, if there is one. */
  function ParseAppView(s: string): (r: Option<AppView>)
    ensures r.Some? ==> r.value.Value() == s
    ensures r.None? ==> forall v: AppView :: v.Value() != s
  {
    if s == "home" then Some(Home)
    else if s == "pmcAgent" then Some(PMCAgent)
    else if s == "about" then Some(About)
    else if s == "contact" then Some(Contact)
    else if s == "terms" then Some(Terms)
    else if s == "privacy" then Some(Privacy)
    else None
  }

  /** Distinct views have distinct strings, so a string names at most one view. */
  lemma AppViewValuesDistinct(a: AppView, b: AppView)
    ensures a.Value() == b.Value() ==> a == b
    ensures ParseAppView(a.Value()) == Some(a)
  {
  }

  /** The two interface languages (`Language`). */
  datatype Language = EN | AR {
    /** The language code the frozen `Language` object maps this language to. */
    function Code(): string {
      match this
      case EN => "en"
      case AR => "ar"
    }
  }

  /** The two language codes differ. */
  lemma LanguageCodesDistinct(a: Language, b: Language)
    ensures a.Code() == b.Code() ==> a == b
  {
  }

  /** A text in both interface languages. */
  datatype Bilingual = Bilingual(en: string, ar: string)

  /** Both language versions of a text are non-empty. */
  predicate FullyBilingual(b: Bilingual) {
    b.en != "" && b.ar != ""
  }

  /** A selectable model of an AI provider. */
  datatype ModelOption = ModelOption(id: string, name: string)

  /** An entry of `AI_PROVIDERS`. */
  datatype AiProvider = AiProvider(
    id: string, name: string, defaultModel: string, description: string,
    models: seq<ModelOption>, icon: string)

  /** `AI_PROVIDERS`, in table order. */
  const AiProviders: seq<AiProvider> := [
    AiProvider("gemini", "Google Gemini", "gemini-2.5-flash", "Required for default analysis", [
      ModelOption("gemini-2.5-flash", "Gemini 2.5 Flash"),
      ModelOption("gemini-3-pro-preview", "Gemini 3 Pro Preview"),
      ModelOption("gemini-2.0-flash", "Gemini 2.0 Flash"),
      ModelOption("gemini-1.5-pro", "Gemini 1.5 Pro"),
      ModelOption("gemini-1.5-flash", "Gemini 1.5 Flash")
    ], "⚡"),
    AiProvider("openai", "OpenAI GPT-4o", "gpt-4o", "Advanced reasoning", [
      ModelOption("gpt-4o", "GPT-4o"),
      ModelOption("gpt-4-turbo", "GPT-4 Turbo"),
      ModelOption("gpt-3.5-turbo", "GPT-3.5 Turbo")
    ], "🤖"),
    AiProvider("groq", "Groq (Llama 3)", "llama-3.3-70b-versatile", "High-speed Llama 3 inference", [
      ModelOption("llama-3.3-70b-versatile", "Llama 3.3 70B"),
      ModelOption("llama-3.1-70b-versatile", "Llama 3.1 70B"),
      ModelOption("llama3-70b-8192", "Llama 3 70B"),
      ModelOption("mixtral-8x7b-32768", "Mixtral 8x7b"),
      ModelOption("llama-3.2-90b-vision-preview", "Llama 3.2 90B Vision")
    ], "🚀"),
    AiProvider("openrouter", "OpenRouter", "google/gemini-2.0-flash-001", "Access to Claude, Llama, etc.", [
      ModelOption("google/gemini-2.0-flash-001", "Google Gemini 2.0 Flash"),
      ModelOption("anthropic/claude-3.5-sonnet", "Claude 3.5 Sonnet"),
      ModelOption("anthropic/claude-3-opus", "Claude 3 Opus"),
      ModelOption("meta-llama/llama-3-70b-instruct", "Llama 3 70B")
    ], "🔗"),
    AiProvider("perplexity", "Perplexity", "sonar", "Real-time web search capability", [
      ModelOption("sonar", "Sonar"),
      ModelOption("sonar-pro", "Sonar Pro")
    ], "🧠")
  ]

  /** No two providers share an id. */
  predicate DistinctProviderIds(ps: seq<AiProvider>) {
    forall i, j | 0 <= i < j < |ps| :: ps[i].id != ps[j].id
  }

  /** A provider's default model is one of its selectable models. */
  predicate DefaultModelListed(p: AiProvider) {
    exists k | 0 <= k < |p.models| :: p.models[k].id == p.defaultModel
  }

  /** The provider catalogue is keyed by id and every default model is selectable. */
  lemma AiProvidersWellFormed()
    ensures DistinctProviderIds(AiProviders)
    ensures forall p | p in AiProviders :: DefaultModelListed(p)
  {

    assert AiProviders[0].models[0].id == AiProviders[0].defaultModel;
    assert AiProviders[1].models[0].id == AiProviders[1].defaultModel;
    assert AiProviders[2].models[0].id == AiProviders[2].defaultModel;
    assert AiProviders[3].models[0].id == AiProviders[3].defaultModel;
    assert AiProviders[4].models[0].id == AiProviders[4].defaultModel;
  }

  /** An entry of `PLANNING_STANDARDS`. */
  datatype PlanningStandard = PlanningStandard(id: string, name: Bilingual)

  /** `PLANNING_STANDARDS`, in table order. */
  const PlanningStandards: seq<PlanningStandard> := [
    PlanningStandard("dcma", Bilingual("DCMA 14-Point Assessment", "تقييم DCMA (14 نقطة)")),
    PlanningStandard("aramco", Bilingual("Saudi Aramco Schedule Standards", "معايير أرامكو السعودية")),
    PlanningStandard("fidic", Bilingual("FIDIC Contract Requirements", "متطلبات عقود فيديك")),
    PlanningStandard("pmi", Bilingual("PMI Scheduling Practice", "ممارسات الجدولة (PMI)")),
    PlanningStandard("general", Bilingual("General Best Practices", "أفضل الممارسات العامة"))
  ]

  /** No two standards share an id. */
  predicate DistinctStandardIds(ss: seq<PlanningStandard>) {
    forall i, j | 0 <= i < j < |ss| :: ss[i].id != ss[j].id
  }

  /** The standards are keyed by id, include `general`, and are named in both languages. */
  lemma PlanningStandardsWellFormed()
    ensures DistinctStandardIds(PlanningStandards)
    ensures exists k | 0 <= k < |PlanningStandards| :: PlanningStandards[k].id == "general"
    ensures forall s | s in PlanningStandards :: FullyBilingual(s.name)
  {
    assert PlanningStandards[4].id == "general";
  }

  /** One criterion of a standard, named and described in both languages. */
  datatype Criterion = Criterion(name: Bilingual, desc: Bilingual)

  /** An entry of `STANDARD_DETAILS`. */
  datatype StandardDetail = StandardDetail(title: Bilingual, description: Bilingual, criteria: seq<Criterion>)

  /** `STANDARD_DETAILS.dcma` */
  const DcmaDetail: StandardDetail := StandardDetail(
    Bilingual("DCMA 14-Point Assessment",
              "تقييم وكالة إدارة عقود الدفاع (14 نقطة)"),
    Bilingual("A standard industry framework used to evaluate the quality and structural integrity of a project schedule.",
              "إطار عمل قياسي في الصناعة يستخدم لتقييم الجودة والسلامة الهيكلية للجدول الزمني للمشروع."),
    [
      Criterion(Bilingual("1. Logic", "1. المنطق"),
                Bilingual("Incomplete logic. Max 5% of activities can lack predecessors or successors.",
                          "المنطق غير المكتمل. يُسمح بحد أقصى 5% من الأنشطة بدون سابق أو لاحق.")),
      Criterion(Bilingual("2. Leads", "2. التداخلات السلبية (Leads)"),
                Bilingual("Negative lags (Leads) should not be used. Target 0%.",
                          "يجب عدم استخدام التداخلات السلبية. الهدف 0%.")),
      Criterion(Bilingual("3. Lags", "3. التداخلات الإيجابية (Lags)"),
                Bilingual("Lags should be minimized. Max 5% of relationships.",
                          "يجب تقليل التداخلات الإيجابية. الحد الأقصى 5% من العلاقات.")),
      Criterion(Bilingual("4. Relationship Types", "4. أنواع العلاقات"),
                Bilingual("Finish-to-Start (FS) should be dominant (>90%). Minimize SS/FF/SF.",
                          "يجب أن تكون علاقة النهاية-للبداية (FS) هي السائدة (>90%).")),
      Criterion(Bilingual("5. Hard Constraints", "5. القيود الصارمة"),
                Bilingual("Constraints that prevent logic from driving dates (e.g., Must Finish On). Max 5%.",
                          "القيود التي تمنع المنطق من تحديد التواريخ (مثل 'يجب أن ينتهي في'). الحد الأقصى 5%.")),
      Criterion(Bilingual("6. High Float", "6. السماحية العالية"),
                Bilingual("Activities with total float > 44 working days. Max 5%.",
                          "الأنشطة ذات السماحية الكلية > 44 يوم عمل. الحد الأقصى 5%.")),
      Criterion(Bilingual("7. Negative Float", "7. السماحية السالبة"),
                Bilingual("Activities with float < 0. Indicates schedule is behind. Target 0%.",
                          "الأنشطة ذات السماحية < 0. تشير إلى تأخر الجدول. الهدف 0%.")),
      Criterion(Bilingual("8. High Duration", "8. المدة الطويلة"),
                Bilingual("Activities taking longer than 2 reporting periods (44 days). Max 5%.",
                          "الأنشطة التي تستغرق أكثر من فترتي تقرير (44 يومًا). الحد الأقصى 5%.")),
      Criterion(Bilingual("9. Invalid Dates", "9. تواريخ غير صالحة"),
                Bilingual("Forecast dates in the past or actual dates in the future. Target 0%.",
                          "تواريخ متوقعة في الماضي أو تواريخ فعلية في المستقبل. الهدف 0%.")),
      Criterion(Bilingual("10. Resources", "10. الموارد"),
                Bilingual("All activities should be resource/cost loaded (Check if required).",
                          "يجب تحميل جميع الأنشطة بالموارد/التكلفة (تحقق إذا كان مطلوبًا).")),
      Criterion(Bilingual("11. Missed Tasks", "11. المهام الفائتة"),
                Bilingual("Activities that should have finished by data date but haven't. Max 5%.",
                          "الأنشطة التي كان يجب أن تنتهي بحلول تاريخ البيانات ولم تنتهِ. الحد الأقصى 5%.")),
      Criterion(Bilingual("12. Critical Path Test", "12. اختبار المسار الحرج"),
                Bilingual("Critical path must be continuous and unbroken.",
                          "يجب أن يكون المسار الحرج متصلاً وغير مقطوع.")),
      Criterion(Bilingual("13. CPLI", "13. مؤشر طول المسار الحرج"),
                Bilingual("Critical Path Length Index. Target > 1.0.",
                          "مؤشر طول المسار الحرج. الهدف > 1.0.")),
      Criterion(Bilingual("14. BEI", "14. مؤشر التنفيذ الأساسي"),
                Bilingual("Baseline Execution Index. Target > 1.0.",
                          "مؤشر تنفيذ خط الأساس. الهدف > 1.0."))
    ])

  /** `STANDARD_DETAILS.aramco` */
  const AramcoDetail: StandardDetail := StandardDetail(
    Bilingual("Saudi Aramco Schedule Specifications",
              "مواصفات الجدول الزمني لأرامكو السعودية"),
    Bilingual("Based on typical Schedule 'A' requirements for EPC/Construction contracts in Saudi Aramco.",
              "بناءً على متطلبات الجدول 'أ' النموذجية لعقود الهندسة والتوريد والبناء في أرامكو السعودية."),
    [
      Criterion(Bilingual("Level 1-4 Structure", "هيكلية المستويات 1-4"),
                Bilingual("Schedule must clearly rollup from Activity (L4) to WBS (L3), Area (L2), and Project (L1).",
                          "يجب أن يترابط الجدول بوضوح من النشاط (م4) إلى هيكل العمل (م3)، والمنطقة (م2)، والمشروع (م1).")),
      Criterion(Bilingual("Resource Loading", "تحميل الموارد"),
                Bilingual("Manhours must be assigned to construction activities. Costs/Weight for procurement.",
                          "يجب تعيين ساعات العمل لأنشطة البناء. والتكلفة/الوزن للمشتريات.")),
      Criterion(Bilingual("Activity Durations", "مدد الأنشطة"),
                Bilingual("Construction activities should generally not exceed 30 days.",
                          "يجب ألا تتجاوز أنشطة البناء عمومًا 30 يومًا.")),
      Criterion(Bilingual("Coding Structure", "هيكل الترميز"),
                Bilingual("Mandatory Activity Codes: Phase, Area, Discipline, Responsibility.",
                          "أكواد الأنشطة الإلزامية: المرحلة، المنطقة، التخصص، المسؤولية.")),
      Criterion(Bilingual("Procurement Cycle", "دورة المشتريات"),
                Bilingual("Must show: PO Issue, Manufacturing, FAT, Delivery to Site.",
                          "يجب إظهار: إصدار أمر الشراء، التصنيع، فحص المصنع، التوصيل للموقع.")),
      Criterion(Bilingual("Logic Constraints", "قيود المنطق"),
                Bilingual("Minimize use of 'Start-to-Start' without lag. Avoid 'Finish-to-Finish'.",
                          "تقليل استخدام 'بداية-لبداية'. تجنب 'نهاية-لنهاية'."))
    ])

  /** `STANDARD_DETAILS.fidic` */
  const FidicDetail: StandardDetail := StandardDetail(
    Bilingual("FIDIC Contract Requirements (Clause 8.3)",
              "متطلبات عقود فيديك (المادة 8.3)"),
    Bilingual("Requirements typically found in FIDIC Red/Yellow Books regarding the Programme of Works.",
              "المتطلبات الموجودة عادة في كتب فيديك الحمراء/الصفراء بخصوص برنامج الأعمال."),
    [
      Criterion(Bilingual("Time for Completion", "وقت الإنجاز"),
                Bilingual("Schedule must respect the Time for Completion as stated in the Appendix to Tender.",
                          "يجب أن يحترم الجدول وقت الإنجاز المذكور في ملحق العطاء.")),
      Criterion(Bilingual("Order of Works", "ترتيب الأعمال"),
                Bilingual("Must show the order in which Contractor intends to carry out Works.",
                          "يجب إظهار الترتيب الذي ينوي المقاول تنفيذ الأعمال به.")),
      Criterion(Bilingual("Contractor's Documents", "وثائق المقاول"),
                Bilingual("Include periods for review and approval of Contractor's Documents.",
                          "تضمين فترات مراجعة واعتماد وثائق المقاول.")),
      Criterion(Bilingual("Inspections & Tests", "الفحوصات والاختبارات"),
                Bilingual("Sequence of specified tests and inspections must be visible.",
                          "يجب أن يكون تسلسل الاختبارات والفحوصات المحدد مرئيًا.")),
      Criterion(Bilingual("Supporting Report", "التقرير الداعم"),
                Bilingual("Submission must include a general description of methods and resources.",
                          "يجب أن يتضمن التقديم وصفًا عامًا للطرق والموارد.")),
      Criterion(Bilingual("Critical Path", "المسار الحرج"),
                Bilingual("Although not explicitly named 'CPM' in older versions, modern FIDIC requires logical links showing criticality.",
                          "على الرغم من عدم تسميته صراحة بـ CPM قديمًا، تتطلب النسخ الحديثة روابط منطقية تظهر المسار الحرج."))
    ])

  /** `STANDARD_DETAILS.pmi` */
  const PmiDetail: StandardDetail := StandardDetail(
    Bilingual("PMI Scheduling Practice",
              "ممارسات الجدولة (PMI)"),
    Bilingual("Best practices defined in the PMBOK Guide and Practice Standard for Scheduling.",
              "أفضل الممارسات المحددة في دليل PMBOK ومعيار ممارسة الجدولة."),
    [
      Criterion(Bilingual("Schedule Model Validity", "صلاحية نموذج الجدول"),
                Bilingual("Network logic must be complete (Activities have predecessors/successors).",
                          "يجب أن يكون منطق الشبكة مكتملاً (الأنشطة لها سابق ولاحق).")),
      Criterion(Bilingual("Float Management", "إدارة السماحية"),
                Bilingual("Total Float must be calculated accurately. Excessive float suggests missing logic.",
                          "يجب حساب السماحية الكلية بدقة. السماحية المفرطة تشير إلى منطق مفقود.")),
      Criterion(Bilingual("Baseline Maintenance", "صيانة خط الأساس"),
                Bilingual("Comparison against approved baseline is mandatory for variance analysis.",
                          "المقارنة مع خط الأساس المعتمد إلزامية لتحليل التباين.")),
      Criterion(Bilingual("Resource Optimization", "تحسين الموارد"),
                Bilingual("Schedule should be leveled to avoid resource over-allocation.",
                          "يجب تسوية الجدول لتجنب التخصيص المفرط للموارد."))
    ])

  /** `STANDARD_DETAILS.general` */
  const GeneralDetail: StandardDetail := StandardDetail(
    Bilingual("General Best Practices",
              "أفضل الممارسات العامة"),
    Bilingual("A mix of standard checks suitable for non-contractual or internal reviews.",
              "مزيج من الفحوصات القياسية المناسبة للمراجعات الداخلية أو غير التعاقدية."),
    [
      Criterion(Bilingual("Logical Sequence", "التسلسل المنطقي"),
                Bilingual("Ensures dates flow logically.",
                          "يضمن تدفق التواريخ بشكل منطقي.")),
      Criterion(Bilingual("Negative Float", "السماحية السالبة"),
                Bilingual("Checks for delays.",
                          "يتحقق من وجود تأخيرات.")),
      Criterion(Bilingual("Activity Durations", "مدد الأنشطة"),
                Bilingual("Flags usually long durations.",
                          "يحدد المدد الطويلة بشكل غير معتاد.")),
      Criterion(Bilingual("Dangling Activities", "الأنشطة المعلقة"),
                Bilingual("Open ends check.",
                          "فحص النهايات المفتوحة."))
    ])

  /** `STANDARD_DETAILS`, keyed by standard id. */
  const StandardDetails: map<string, StandardDetail> := map[
    "dcma" := DcmaDetail,
    "aramco" := AramcoDetail,
    "fidic" := FidicDetail,
    "pmi" := PmiDetail,
    "general" := GeneralDetail
  ]

  /** Title, description and every criterion carry both languages. */
  predicate DetailFullyBilingual(d: StandardDetail) {
    && FullyBilingual(d.title)
    && FullyBilingual(d.description)
    && forall k | 0 <= k < |d.criteria| :: FullyBilingual(d.criteria[k].name) && FullyBilingual(d.criteria[k].desc)
  }

  /** The DCMA details carry both languages throughout. */
  lemma DcmaDetailBilingual()
    ensures DetailFullyBilingual(DcmaDetail)
  {
  }

  /** The Saudi Aramco details carry both languages throughout. */
  lemma AramcoDetailBilingual()
    ensures DetailFullyBilingual(AramcoDetail)
  {
  }

  /** The FIDIC details carry both languages throughout. */
  lemma FidicDetailBilingual()
    ensures DetailFullyBilingual(FidicDetail)
  {
  }

  /** The PMI details carry both languages throughout. */
  lemma PmiDetailBilingual()
    ensures DetailFullyBilingual(PmiDetail)
  {
  }

  /** The general best-practice details carry both languages throughout. */
  lemma GeneralDetailBilingual()
    ensures DetailFullyBilingual(GeneralDetail)
  {
  }

  /**
   * Every planning standard has detailed criteria, the DCMA assessment lists
   * its fourteen points, and every text of the details is bilingual.
   */
  lemma StandardDetailsWellFormed()
    ensures forall s | s in PlanningStandards :: s.id in StandardDetails
    ensures |StandardDetails["dcma"].criteria| == 14
    ensures forall id | id in StandardDetails :: DetailFullyBilingual(StandardDetails[id])
  {
    DcmaDetailBilingual();
    AramcoDetailBilingual();
    FidicDetailBilingual();
    PmiDetailBilingual();
    GeneralDetailBilingual();
    assert StandardDetails.Keys == {"dcma", "aramco", "fidic", "pmi", "general"};
  }

  /** The keys of the English translation table `i18n[Language.EN]`, in order. */
  const I18nEnKeys: seq<string> := [
    "title", "navHome", "navAgent", "navAbout",
    "navContact", "navTerms", "navPrivacy", "homeWelcome",
    "homeDescription", "homeAgentTitle", "homeAgentDesc", "agentTitle",
    "agentDescription", "inputLabel", "inputPlaceholder", "dragDrop",
    "dragDropSub", "selectStandard", "selectProvider", "analyzeButton",
    "analyzing", "reportViews", "tabOverview", "tabHealthCheck",
    "tabActivityRegister", "tabSequence", "statTotalActivities", "statCriticalActivities",
    "statDuration", "statFinishDate", "statRiskLevel", "activityList",
    "logicSequenceAnalysis", "colId", "colActivity", "colDuration",
    "colStart", "colFinish", "colFloat", "colStatus",
    "colCheck", "colDescription", "colTarget", "colActual",
    "colFound", "colTotal", "lblDays", "lblDataDate",
    "lblTarget", "lblPassingMetrics", "lblReportFooter", "lblStdFooter",
    "filterAll", "filterCritical", "filterHighFloat", "valHigh",
    "valMedium", "valLow", "valCritical", "valNormal",
    "valPass", "valFail", "analysisReport", "riskAssessment",
    "technicalFindings", "recommendations", "nonCompliance", "contractorNote",
    "copy", "copied", "aboutTitle", "aboutText",
    "aboutVisionTitle", "aboutVisionText", "aboutMissionTitle", "aboutMissionText",
    "aboutValuesTitle", "aboutValuePrivacy", "aboutValuePrivacyDesc", "aboutValueTransparency",
    "aboutValueTransparencyDesc", "aboutValueImprovement", "aboutValueImprovementDesc", "aboutStoryTitle",
    "aboutStoryText", "apiKeyError", "errorOccurred", "connectWithUs",
    "contactTitle", "contactDescription", "contactEmailTitle", "contactEmailDescription",
    "contactEmailAddress", "contactTelegramTitle", "contactTelegramDescription", "contactTelegramHandle",
    "login", "register", "fullName", "emailAddress",
    "password", "confirmPassword", "createAccount", "dontHaveAccount",
    "alreadyHaveAccount", "errorFullNameRequired", "errorInvalidEmail", "errorPasswordLength",
    "errorPasswordMismatch", "registrationSuccess", "authRegistrationDisclaimer_p1", "authRegistrationDisclaimer_terms",
    "authRegistrationDisclaimer_p2", "authRegistrationDisclaimer_privacy", "authRegistrationDisclaimer_p3", "continueWithGoogle",
    "orWithEmail", "forgotPassword", "enterEmailForReset", "sendResetLink",
    "backToLogin", "resetLinkSent", "emailRequiredForReset", "authRequiredTitle",
    "authRequiredMessage", "getStarted", "noCreditCardRequired"
  ]

  /** The keys of the Arabic translation table `i18n[Language.AR]`, in order. */
  const I18nArKeys: seq<string> := [
    "title", "navHome", "navAgent", "navAbout",
    "navContact", "navTerms", "navPrivacy", "homeWelcome",
    "homeDescription", "homeAgentTitle", "homeAgentDesc", "agentTitle",
    "agentDescription", "inputLabel", "inputPlaceholder", "dragDrop",
    "dragDropSub", "selectStandard", "selectProvider", "analyzeButton",
    "analyzing", "reportViews", "tabOverview", "tabHealthCheck",
    "tabActivityRegister", "tabSequence", "statTotalActivities", "statCriticalActivities",
    "statDuration", "statFinishDate", "statRiskLevel", "activityList",
    "logicSequenceAnalysis", "colId", "colActivity", "colDuration",
    "colStart", "colFinish", "colFloat", "colStatus",
    "colCheck", "colDescription", "colTarget", "colActual",
    "colFound", "colTotal", "lblDays", "lblDataDate",
    "lblTarget", "lblPassingMetrics", "lblReportFooter", "lblStdFooter",
    "filterAll", "filterCritical", "filterHighFloat", "valHigh",
    "valMedium", "valLow", "valCritical", "valNormal",
    "valPass", "valFail", "analysisReport", "riskAssessment",
    "technicalFindings", "recommendations", "nonCompliance", "contractorNote",
    "copy", "copied", "aboutTitle", "aboutText",
    "aboutVisionTitle", "aboutVisionText", "aboutMissionTitle", "aboutMissionText",
    "aboutValuesTitle", "aboutValuePrivacy", "aboutValuePrivacyDesc", "aboutValueTransparency",
    "aboutValueTransparencyDesc", "aboutValueImprovement", "aboutValueImprovementDesc", "aboutStoryTitle",
    "aboutStoryText", "apiKeyError", "errorOccurred", "connectWithUs",
    "contactTitle", "contactDescription", "contactEmailTitle", "contactEmailDescription",
    "contactEmailAddress", "contactTelegramTitle", "contactTelegramDescription", "contactTelegramHandle",
    "login", "register", "fullName", "emailAddress",
    "password", "confirmPassword", "createAccount", "dontHaveAccount",
    "alreadyHaveAccount", "errorFullNameRequired", "errorInvalidEmail", "errorPasswordLength",
    "errorPasswordMismatch", "registrationSuccess", "authRegistrationDisclaimer_p1", "authRegistrationDisclaimer_terms",
    "authRegistrationDisclaimer_p2", "authRegistrationDisclaimer_privacy", "authRegistrationDisclaimer_p3", "continueWithGoogle",
    "orWithEmail", "forgotPassword", "enterEmailForReset", "sendResetLink",
    "backToLogin", "resetLinkSent", "emailRequiredForReset", "authRequiredTitle",
    "authRequiredMessage", "getStarted", "noCreditCardRequired"
  ]

  /** The two translation tables define exactly the same keys. */
  lemma I18nTablesHaveSameKeys()
    ensures forall k :: k in I18nEnKeys <==> k in I18nArKeys
  {
  }
}
