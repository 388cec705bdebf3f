/** The data model of the application: the unions and records of types.ts.
    String unions become closed datatypes with their wire names. Records produced by
    `JSON.parse(...) as AnalysisResult` keep the enumerated fields as the raw strings
    that arrived, because nothing checks them at run time; `WellTyped` states what the
    TypeScript declaration promises about them. JavaScript numbers are `real`, `Date`s
    are millisecond timestamps. */
module Types {
  import opened Optional

  /** `Finding.severity`. */
  datatype Severity = Low | Medium | High | Critical {
    function Name(): string
    {
      match this
      case Low => "low"
      case Medium => "medium"
      case High => "high"
      case Critical => "critical"
    }
  }

  function ParseSeverity(s: string): (r: Option<Severity>)
    ensures r.Some? ==> r.value.Name() == s
    ensures r.None? ==> forall v: Severity :: v.Name() != s
  {
    if s == "low" then Some(Severity.Low)
    else if s == "medium" then Some(Severity.Medium)
    else if s == "high" then Some(Severity.High)
    else if s == "critical" then Some(Severity.Critical)
    else None
  }

  /** `AnalysisResult.riskLevel`. */
  datatype RiskLevel = Low | Medium | High {
    function Name(): string
    {
      match this
      case Low => "low"
      case Medium => "medium"
      case High => "high"
    }
  }

  function ParseRiskLevel(s: string): (r: Option<RiskLevel>)
    ensures r.Some? ==> r.value.Name() == s
    ensures r.None? ==> forall v: RiskLevel :: v.Name() != s
  {
    if s == "low" then Some(RiskLevel.Low)
    else if s == "medium" then Some(RiskLevel.Medium)
    else if s == "high" then Some(RiskLevel.High)
    else None
  }

  /** `Finding.modalitySource` elements and `FileAttachment.type`. */
  datatype Modality = Report | Image | Video {
    function Name(): string
    {
      match this
      case Report => "report"
      case Image => "image"
      case Video => "video"
    }
  }

  function ParseModality(s: string): (r: Option<Modality>)
    ensures r.Some? ==> r.value.Name() == s
    ensures r.None? ==> forall v: Modality :: v.Name() != s
  {
    if s == "report" then Some(Report)
    else if s == "image" then Some(Image)
    else if s == "video" then Some(Video)
    else None
  }

  /** The `trend` of a historical comparison entry. */
  datatype Trend = Improving | Stable | Worsening {
    function Name(): string
    {
      match this
      case Improving => "improving"
      case Stable => "stable"
      case Worsening => "worsening"
    }
  }

  function ParseTrend(s: string): (r: Option<Trend>)
    ensures r.Some? ==> r.value.Name() == s
    ensures r.None? ==> forall v: Trend :: v.Name() != s
  {
    if s == "improving" then Some(Improving)
    else if s == "stable" then Some(Stable)
    else if s == "worsening" then Some(Worsening)
    else None
  }

  /** Every value of the four enumerations is recovered from its wire name. */
  lemma NamesRoundTrip(sv: Severity, rl: RiskLevel, m: Modality, t: Trend)
    ensures ParseSeverity(sv.Name()) == Some(sv)
    ensures ParseRiskLevel(rl.Name()) == Some(rl)
    ensures ParseModality(m.Name()) == Some(m)
    ensures ParseTrend(t.Name()) == Some(t)
  {
  }

  /** `ChatMessage.role`, `ChatMessage.type`, `AppState`, `View`. */
  datatype Role = User | Model
  datatype MessageKind = TextKind | AnalysisKind
  datatype AppState = Landing | Dashboard
  datatype View = DashboardView | HistoryView | MedicinesView | SettingsView

  /** `box2d`: `[ymin, xmin, ymax, xmax]`, documented as normalised to 0..1000. */
  datatype Box = Box(ymin: real, xmin: real, ymax: real, xmax: real)

  ghost predicate InUnitRange(v: real)
  {
    0.0 <= v <= 1000.0
  }

  /** A box inside the normalised frame with its corners in order. */
  ghost predicate ValidBox(b: Box)
  {
    InUnitRange(b.ymin) && InUnitRange(b.xmin) && InUnitRange(b.ymax) && InUnitRange(b.xmax) &&
    b.ymin <= b.ymax && b.xmin <= b.xmax
  }

  datatype Vitals = Vitals(bp: string, heartRate: string, temperature: string, spo2: string)

  datatype Finding = Finding(
    id: string,
    title: string,
    description: string,
    severity: string,
    modalitySource: seq<string>,
    confidence: real)

  /** `label` is a Dafny keyword, hence `labelText`. */
  datatype Annotation = Annotation(labelText: string, description: string, box2d: Option<Box>)

  /** One entry of `historicalComparison`. */
  datatype Comparison = Comparison(metric: string, previous: real, current: real, unit: string, trend: string)

  datatype AnalysisResult = AnalysisResult(
    patientName: string,
    patientId: string,
    age: real,
    vitals: Vitals,
    riskLevel: string,
    riskScore: real,
    summary: string,
    findings: seq<Finding>,
    annotations: seq<Annotation>,
    recommendations: seq<string>,
    historicalComparison: Option<seq<Comparison>>)

  /** What the TypeScript declaration promises about a parsed analysis and nothing enforces:
      every enumerated field holds one of its declared names, and `riskScore` is in 0..100. */
  ghost predicate WellTyped(a: AnalysisResult)
  {
    ParseRiskLevel(a.riskLevel).Some? &&
    0.0 <= a.riskScore <= 100.0 &&
    (forall f :: f in a.findings ==>
       ParseSeverity(f.severity).Some? &&
       forall m :: m in f.modalitySource ==> ParseModality(m).Some?) &&
    (a.historicalComparison.Some? ==>
       forall c :: c in a.historicalComparison.value ==> ParseTrend(c.trend).Some?)
  }

  /** A browser `File`: its name, declared media type and byte size. `readable` says whether
      `FileReader` can read it; the bytes themselves are not modelled. */
  datatype LocalFile = LocalFile(name: string, mimeType: string, size: nat, readable: bool)

  datatype FileAttachment = FileAttachment(
    file: Option<LocalFile>,
    name: string,
    kind: Modality,
    previewUrl: Option<string>,
    isDemo: bool)

  datatype PharmacyPrice = PharmacyPrice(name: string, price: real, url: string, isCheapest: bool)

  datatype MedicineDetails = MedicineDetails(
    name: string,
    strength: string,
    quantity: string,
    prices: seq<PharmacyPrice>,
    savings: real)

  /** `SavedMedicine extends MedicineDetails` with an id, a date and a favourite flag. */
  datatype SavedMedicine = SavedMedicine(details: MedicineDetails, id: string, dateAdded: nat, isFavorite: bool)

  datatype ChatMessage = ChatMessage(
    id: string,
    role: Role,
    kind: MessageKind,
    text: Option<string>,
    simpleExplanation: Option<string>,
    visualData: Option<AnalysisResult>,
    medicineData: Option<MedicineDetails>,
    actionItems: Option<seq<string>>,
    technicalDetails: Option<string>,
    attachments: Option<seq<FileAttachment>>,
    timestamp: nat)

  datatype MockResponse = MockResponse(simple: string, actions: seq<string>, technical: string)

  datatype DemoScenario = DemoScenario(
    id: string,
    title: string,
    description: string,
    prompt: string,
    mockAttachment: FileAttachment,
    mockAnalysis: AnalysisResult,
    mockResponse: MockResponse)

  datatype UserProfile = UserProfile(id: string, name: string, email: string, avatar: string)

  datatype ChatSession = ChatSession(id: string, title: string, date: nat, preview: string, messages: seq<ChatMessage>)
}
