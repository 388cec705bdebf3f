/** The application shell of App.tsx: one object holding the React state cells, one method per
    event handler, and the pure decisions the handlers make (file validation and classification,
    avatar initials, attachment selection, query choice, medicine and session list updates).
    `localStorage`, the DOM, timers and `Date.now()` are outside the model: timestamps arrive
    as parameters, and each remote call is an oracle sequence as in GeminiService. */
module App {
  import opened Optional
  import opened Strings
  import opened Seqs
  import opened Types
  import opened GeminiService

  const DefaultDisplayName := "Alex Mercer"
  const MockUserId := "u123"
  const MockUserEmail := "alex.mercer@gmail.com"
  const UploadLimit: nat := 50 * 1024 * 1024
  /** The part after '/' of each allowed type: application/pdf, image/jpeg, image/png,
      image/webp, video/mp4, video/webm. */
  const AllowedSubtypes: seq<string> := ["pdf", "jpeg", "png", "webp", "mp4", "webm"]
  const DefaultQuery := "Please analyze these documents and explain the findings simply."
  const QueryMinLength: nat := 5
  const EmergencyKeywords: seq<string> := ["suicide", "kill myself", "chest pain", "severe bleeding"]
  const MedicineScenarioId := "medicine"
  const SessionTitleLength: nat := 40
  const SessionPreviewLength: nat := 60
  const SessionTitleFallback := "Medical Analysis"
  const SessionPreviewFallback := "No preview"

  datatype ToastKind = ErrorToast | InfoToast
  datatype Toast = Toast(message: string, kind: ToastKind)

  const OfflineMessage := "You are offline."
  const EmergencyMessage := "🚑 EMERGENCY DETECTED: Calling emergency services is recommended."
  const UnsupportedTypeMessage := "Unsupported file type."
  const ProfileUpdatedMessage := "Profile updated successfully."
  const AccountDeletedMessage := "Account and data deleted successfully."
  const AnalyzeFallbackMessage := "Failed to analyze files"

  function TooLargeMessage(name: string): string
  {
    "File \"" + name + "\" is too large. Limit is 50MB."
  }

  /** MEDICINE_DETAILS_MOCK, the medicine the demo scenario saves. */
  const MedicineMock: MedicineDetails := MedicineDetails(
    "Paracetamol", "500mg", "Strip of 15 Tablets",
    [ PharmacyPrice("Flipkart Health+", 145.0, "https://www.flipkart.com/search?q=Paracetamol+500mg", true),
      PharmacyPrice("PharmEasy", 148.0, "https://www.pharmeasy.in/search?name=Paracetamol+500mg", false),
      PharmacyPrice("Amazon Pharmacy", 150.0, "https://amazon.in/s?field-keywords=Paracetamol+500mg", false),
      PharmacyPrice("Tata 1mg", 152.0, "https://www.1mg.com/search?q=Paracetamol+500mg", false),
      PharmacyPrice("Apollo Pharmacy", 160.0, "https://www.apollopharmacy.in/search?q=Paracetamol+500mg", false) ],
    15.0)

  /** The three demo entries the sidebar list starts with. */
  const SampleUploads: seq<FileAttachment> := [
    FileAttachment(None, "sample1.pdf", Report, None, true),
    FileAttachment(None, "sample2.pdf", Report, None, true),
    FileAttachment(None, "sample3.pdf", Image, None, true)]

  /** The context the chat receives when no analysis exists yet. */
  const GuestContext: AnalysisResult := AnalysisResult(
    "Guest", "N/A", 0.0, Vitals("-", "-", "-", "-"), "low", 0.0,
    "No medical data has been uploaded yet.", [], [], [], None)

  // ---------------------------------------------------------------- user profile

  /** The avatar: the upper-cased first letters of the first two space-separated words of the
      name (a word start is a non-space after a space or at the beginning). */
  function Initials(name: string): (r: string)
    ensures |r| == if |WordStarts(name)| < 2 then |WordStarts(name)| else 2
    ensures forall i :: 0 <= i < |r| ==> r[i] == UpperChar(WordStarts(name)[i])
  {
    ToUpper(Take(WordStarts(name), 2))
  }

  /** The avatar as `name.split(' ').map(n => n[0]).join('').substring(0, 2).toUpperCase()`
      computes it: an empty piece contributes nothing, so the letters are the word starts. */
  lemma InitialsOfSplit(name: string)
    ensures Initials(name) == ToUpper(Take(FirstLetters(Split(name, ' ')), 2))
  {
    FirstLettersOfSplit(name, 0);
    assert name[0..] == name;
  }

  function LoginName(saved: Option<string>): (r: string)
    ensures saved.Some? && saved.value != "" ==> r == saved.value
    ensures saved.None? || saved.value == "" ==> r == DefaultDisplayName
  {
    if saved.Some? && saved.value != "" then saved.value else DefaultDisplayName
  }

  /** The profile `handleLogin` signs in with. */
  function MockUser(name: string): (u: UserProfile)
    ensures u.id == MockUserId && u.email == MockUserEmail
    ensures u.name == name && u.avatar == Initials(name)
  {
    UserProfile(MockUserId, name, MockUserEmail, Initials(name))
  }

  // ---------------------------------------------------------------- file upload

  /** `allowedTypes.some(t => type.includes(t.split('/')[1]))`: some allowed subtype occurs
      in the media type. */
  predicate MatchesAllowedSubtype(mime: string)
  {
    Any(AllowedSubtypes, (t: string) => Contains(mime, t))
  }

  lemma PdfTypeMatchesSubtype(mime: string)
    ensures mime == "application/pdf" ==> Contains(mime, AllowedSubtypes[0])
  {
    if mime == "application/pdf" {
      assert OccursAt(mime, "pdf", 12);
    }
  }

  /** The two nested checks of `handleFileUpload`: a type is refused only when it contains no
      allowed subtype AND is neither an image type, a video type nor `application/pdf`. The last test
      never decides anything, since "application/pdf" contains "pdf". */
  function IsSupportedType(mime: string): (b: bool)
    ensures b <==> MatchesAllowedSubtype(mime) || StartsWith(mime, "image/") || StartsWith(mime, "video/")
  {
    PdfTypeMatchesSubtype(mime);
    MatchesAllowedSubtype(mime) ||
    StartsWith(mime, "image/") || StartsWith(mime, "video/") || mime == "application/pdf"
  }

  /** The attachment type: `image` for an "image/" type, else `video` for a "video/" type, else `report`. */
  function Classify(mime: string): (k: Modality)
    ensures k == Image <==> StartsWith(mime, "image/")
    ensures k == Video <==> !StartsWith(mime, "image/") && StartsWith(mime, "video/")
    ensures k == Report <==> !StartsWith(mime, "image/") && !StartsWith(mime, "video/")
  {
    if StartsWith(mime, "image/") then Image
    else if StartsWith(mime, "video/") then Video
    else Report
  }

  /** The toast that refuses a picked file, if any: size first, then type. */
  function UploadRejection(file: LocalFile): (r: Option<Toast>)
    ensures r.None? <==> file.size <= UploadLimit && IsSupportedType(file.mimeType)
    ensures file.size > UploadLimit ==> r == Some(Toast(TooLargeMessage(file.name), ErrorToast))
    ensures file.size <= UploadLimit && !IsSupportedType(file.mimeType) ==> r == Some(Toast(UnsupportedTypeMessage, ErrorToast))
  {
    if file.size > UploadLimit then Some(Toast(TooLargeMessage(file.name), ErrorToast))
    else if !IsSupportedType(file.mimeType) then Some(Toast(UnsupportedTypeMessage, ErrorToast))
    else None
  }

  /** Any image type passes, even one the list does not name. */
  lemma AnyImageTypeAccepted()
    ensures IsSupportedType("image/gif") && Classify("image/gif") == Image
  {
    assert StartsWith("image/gif", "image/");
  }

  /** A type in which some allowed subtype occurs passes the type check. */
  lemma SubtypeOccurrenceAccepted(mime: string, k: nat)
    requires k < |AllowedSubtypes| && Contains(mime, AllowedSubtypes[k])
    ensures IsSupportedType(mime)
  {
  }

  /** A type starting with neither 'i' nor 'v' is neither an image nor a video type, so its
      attachment is filed as a report. */
  lemma OtherTypesFiledAsReports(mime: string)
    requires |mime| > 0 && mime[0] != 'i' && mime[0] != 'v'
    ensures Classify(mime) == Report
  {
    if |mime| >= 6 {
      assert mime[..6][0] == mime[0];
    }
  }

  /** The subtype test matches anywhere in the type, so audio in an MP4 container passes and
      is filed as a report. */
  lemma AudioMp4AcceptedAsReport()
    ensures IsSupportedType("audio/mp4") && Classify("audio/mp4") == Report
  {
    var mime := "audio/mp4";
    assert OccursAt(mime, "mp4", 6);
    SubtypeOccurrenceAccepted(mime, 4);
    OtherTypesFiledAsReports(mime);
  }

  /** A text type is refused. */
  lemma CsvRefused()
    ensures !IsSupportedType("text/csv")
  {
    forall k | 0 <= k < |AllowedSubtypes|
      ensures !Contains("text/csv", AllowedSubtypes[k])
    {
      assert 'p' !in "text/csv" && 'j' !in "text/csv" && 'w' !in "text/csv" && 'm' !in "text/csv";
      NotContainedByLetter("text/csv", AllowedSubtypes[k]);
    }
    assert "text/csv"[..6][0] == 't';
  }

  /** The attachment `handleFileUpload` builds for an accepted file; `objectUrl` stands for
      `URL.createObjectURL(file)`. */
  function UploadedAttachment(file: LocalFile, objectUrl: string): (a: FileAttachment)
    ensures a.file == Some(file) && a.name == file.name && !a.isDemo
    ensures a.kind == Classify(file.mimeType)
    ensures a.previewUrl.Some? <==> a.kind == Image
    ensures UploadRejection(file).None? ==> CheckedUpload(a)
  {
    var kind := Classify(file.mimeType);
    FileAttachment(Some(file), file.name, kind, if kind == Image then Some(objectUrl) else None, false)
  }

  // ---------------------------------------------------------------- submit

  /** The submit guard: nothing to send, or a submission already in flight. */
  predicate SubmitBlocked(input: string, atts: seq<FileAttachment>, processing: bool)
    ensures processing ==> SubmitBlocked(input, atts, processing)
    ensures !processing && |atts| > 0 ==> !SubmitBlocked(input, atts, processing)
    ensures !processing && |atts| == 0 ==> (SubmitBlocked(input, atts, processing) <==> IsBlank(input))
  {
    (IsBlank(input) && |atts| == 0) || processing
  }

  predicate IsEmergency(input: string)
  {
    var lower := ToLower(input);
    exists k :: 0 <= k < |EmergencyKeywords| && Contains(lower, EmergencyKeywords[k])
  }

  /** A text of only the ideographic space counts as blank, as `trim()` has it, so it alone
      cannot be sent. */
  lemma IdeographicSpaceBlocksSubmit()
    ensures SubmitBlocked("\U{3000}", [], false)
  {
  }

  /** The check looks at the lower-cased text, so it ignores the case of the message. */
  lemma EmergencyCheckIgnoresCase(input: string)
    ensures IsEmergency(ToLower(input)) == IsEmergency(input)
  {
    ToLowerIdempotent(input);
  }

  /** The toast after the emergency check. */
  function EmergencyToast(input: string, prior: Option<Toast>): (t: Option<Toast>)
    ensures IsEmergency(input) ==> t == Some(Toast(EmergencyMessage, ErrorToast))
    ensures !IsEmergency(input) ==> t == prior
  {
    if IsEmergency(input) then Some(Toast(EmergencyMessage, ErrorToast)) else prior
  }

  /** The demo path runs only with an active scenario and some demo attachment. */
  predicate InDemoMode(scenario: Option<DemoScenario>, atts: seq<FileAttachment>)
    ensures InDemoMode(scenario, atts) ==> scenario.Some? && |atts| > 0
    ensures scenario.None? ==> !InDemoMode(scenario, atts)
  {
    scenario.Some? && HasDemoAttachment(atts)
  }

  /** `attachments.some(a => a.isDemo)`. */
  predicate HasDemoAttachment(atts: seq<FileAttachment>)
    ensures HasDemoAttachment(atts) <==> exists i :: 0 <= i < |atts| && atts[i].isDemo
  {
    Any(atts, (a: FileAttachment) => a.isDemo)
  }

  /** `attachments.find(a => a.type === kind)`. */
  function FirstOfKind(atts: seq<FileAttachment>, kind: Modality): Option<FileAttachment>
  {
    Find(atts, (a: FileAttachment) => a.kind == kind)
  }

  /** The attachment found is the first one of that type, and none is found only when no
      attachment has that type. */
  lemma FirstOfKindIsFirst(atts: seq<FileAttachment>, kind: Modality)
    ensures FirstOfKind(atts, kind).None? <==> forall j :: 0 <= j < |atts| ==> atts[j].kind != kind
    ensures FirstOfKind(atts, kind).Some? ==>
              exists k :: 0 <= k < |atts| && atts[k] == FirstOfKind(atts, kind).value && atts[k].kind == kind &&
                          forall j :: 0 <= j < k ==> atts[j].kind != kind
  {
  }

  function FileOf(att: Option<FileAttachment>): Option<LocalFile>
  {
    if att.Some? then att.value.file else None
  }

  datatype FileSelection = FileSelection(report: Option<LocalFile>, image: Option<LocalFile>, video: Option<LocalFile>)

  /** The file of the FIRST attachment of each type; a later attachment of a type never
      replaces the first one, even when the first carries no file. */
  function SelectFiles(atts: seq<FileAttachment>): FileSelection
  {
    FileSelection(FileOf(FirstOfKind(atts, Report)), FileOf(FirstOfKind(atts, Image)), FileOf(FirstOfKind(atts, Video)))
  }

  /** Each selected file belongs to the first attachment of its type. */
  lemma SelectFilesTakesFirstOfEachKind(atts: seq<FileAttachment>)
    ensures var r := SelectFiles(atts);
            && (r.report.Some? ==> exists k :: 0 <= k < |atts| && atts[k].kind == Report && atts[k].file == r.report &&
                                               forall j :: 0 <= j < k ==> atts[j].kind != Report)
            && (r.image.Some? ==> exists k :: 0 <= k < |atts| && atts[k].kind == Image && atts[k].file == r.image &&
                                              forall j :: 0 <= j < k ==> atts[j].kind != Image)
            && (r.video.Some? ==> exists k :: 0 <= k < |atts| && atts[k].kind == Video && atts[k].file == r.video &&
                                              forall j :: 0 <= j < k ==> atts[j].kind != Video)
  {
    FirstOfKindIsFirst(atts, Report);
    FirstOfKindIsFirst(atts, Image);
    FirstOfKindIsFirst(atts, Video);
  }

  /** A full analysis runs only when some selected attachment carries a file. */
  predicate RunsAnalysis(sel: FileSelection)
  {
    sel.report.Some? || sel.image.Some? || sel.video.Some?
  }

  /** After a new analysis, a text shorter than five characters is replaced by the default query. */
  function ChooseQuery(isNewAnalysis: bool, text: string): (q: string)
    ensures isNewAnalysis && |text| < QueryMinLength ==> q == DefaultQuery
    ensures !(isNewAnalysis && |text| < QueryMinLength) ==> q == text
    ensures |q| >= QueryMinLength || q == text
  {
    if isNewAnalysis && (text == "" || |text| < QueryMinLength) then DefaultQuery else text
  }

  /** `err.message || "Failed to analyze files"`. */
  function ErrorText(e: JsError): (t: string)
    ensures t != ""
    ensures e.message.Some? && e.message.value != "" ==> t == e.message.value
    ensures e.message.None? || e.message.value == "" ==> t == AnalyzeFallbackMessage
  {
    if e.message.Some? && e.message.value != "" then e.message.value else AnalyzeFallbackMessage
  }

  function UserMessage(now: nat, text: string, atts: seq<FileAttachment>): (m: ChatMessage)
    ensures m.role == User && m.kind == TextKind && m.id == DecimalString(now) && m.timestamp == now
    ensures m.text == Some(text) && m.attachments == Some(atts)
    ensures m.visualData.None? && m.medicineData.None?
  {
    ChatMessage(DecimalString(now), User, TextKind, Some(text), None, None, None, None, None, Some(atts), now)
  }

  /** The canned reply of a demo scenario; the medicine scenario carries the price card. */
  function DemoReply(now: nat, scenario: DemoScenario): (m: ChatMessage)
    ensures m.role == Model && m.kind == AnalysisKind && m.id == DecimalString(now + 1)
    ensures m.text == Some("") && m.visualData == Some(scenario.mockAnalysis)
    ensures m.medicineData.Some? <==> scenario.id == MedicineScenarioId
    ensures m.medicineData.Some? ==> m.medicineData.value == MedicineMock
  {
    ChatMessage(DecimalString(now + 1), Model, AnalysisKind, Some(""), Some(scenario.mockResponse.simple),
                Some(scenario.mockAnalysis),
                if scenario.id == MedicineScenarioId then Some(MedicineMock) else None,
                Some(scenario.mockResponse.actions), Some(scenario.mockResponse.technical), None, now)
  }

  /** The model's reply; the dashboard data is attached only for a new analysis. */
  function AiMessage(now: nat, text: string, visual: Option<AnalysisResult>): (m: ChatMessage)
    ensures m.role == Model && m.kind == AnalysisKind && m.id == DecimalString(now + 1)
    ensures m.text == Some(text) && m.visualData == visual && m.medicineData.None?
  {
    ChatMessage(DecimalString(now + 1), Model, AnalysisKind, Some(text), None, visual, None, None, None, None, now)
  }

  function DemoMedicine(now: nat): (m: SavedMedicine)
    ensures m.details == MedicineMock && m.id == DecimalString(now) && m.dateAdded == now && !m.isFavorite
  {
    SavedMedicine(MedicineMock, DecimalString(now), now, false)
  }

  // ---------------------------------------------------------------- medicines and sessions

  ghost predicate HasMedicineNamed(meds: seq<SavedMedicine>, name: string)
  {
    exists j :: 0 <= j < |meds| && meds[j].details.name == name
  }

  /** The names of the saved medicines are pairwise distinct. */
  ghost predicate DistinctNames(meds: seq<SavedMedicine>)
  {
    forall i, j :: 0 <= i < j < |meds| ==> meds[i].details.name != meds[j].details.name
  }

  /** The demo medicine is prepended only when no saved medicine has its name. */
  function AddMedicineIfNew(meds: seq<SavedMedicine>, m: SavedMedicine): (r: seq<SavedMedicine>)
    ensures HasMedicineNamed(meds, m.details.name) ==> r == meds
    ensures !HasMedicineNamed(meds, m.details.name) ==> r == [m] + meds
  {
    if SavedNamed(meds, m.details.name).None? then [m] + meds else meds
  }

  /** `meds.find(m => m.name === name)`. */
  function SavedNamed(meds: seq<SavedMedicine>, name: string): (r: Option<SavedMedicine>)
    ensures r.None? <==> !HasMedicineNamed(meds, name)
  {
    Find(meds, (x: SavedMedicine) => x.details.name == name)
  }

  /** Adding keeps the names distinct, and afterwards the name is present, so a second
      demo run adds nothing. */
  lemma AddMedicineKeepsNamesDistinct(meds: seq<SavedMedicine>, m: SavedMedicine, m': SavedMedicine)
    requires DistinctNames(meds)
    requires m'.details.name == m.details.name
    ensures DistinctNames(AddMedicineIfNew(meds, m))
    ensures AddMedicineIfNew(AddMedicineIfNew(meds, m), m') == AddMedicineIfNew(meds, m)
  {
    var r := AddMedicineIfNew(meds, m);
    if !HasMedicineNamed(meds, m.details.name) {
      assert r == [m] + meds;
      forall i, j | 0 <= i < j < |r|
        ensures r[i].details.name != r[j].details.name
      {
        if i == 0 {
          assert r[j] == meds[j - 1];
        } else {
          assert r[i] == meds[i - 1] && r[j] == meds[j - 1];
        }
      }
      assert r[0].details.name == m'.details.name;
    } else {
      assert r == meds;
    }
    assert HasMedicineNamed(r, m'.details.name);
  }

  /** `meds.map(m => m.id === id ? {...m, isFavorite: !m.isFavorite} : m)`. */
  function ToggleFavoriteIn(meds: seq<SavedMedicine>, id: string): (r: seq<SavedMedicine>)
    ensures |r| == |meds|
    ensures forall i :: 0 <= i < |meds| ==>
              r[i].details == meds[i].details && r[i].id == meds[i].id && r[i].dateAdded == meds[i].dateAdded &&
              r[i].isFavorite == (if meds[i].id == id then !meds[i].isFavorite else meds[i].isFavorite)
  {
    seq(|meds|, i requires 0 <= i < |meds| =>
      if meds[i].id == id then meds[i].(isFavorite := !meds[i].isFavorite) else meds[i])
  }

  /** Toggling the same id twice restores the list. */
  lemma ToggleFavoriteTwice(meds: seq<SavedMedicine>, id: string)
    ensures ToggleFavoriteIn(ToggleFavoriteIn(meds, id), id) == meds
  {
    var r := ToggleFavoriteIn(ToggleFavoriteIn(meds, id), id);
    assert |r| == |meds|;
    forall i | 0 <= i < |meds|
      ensures r[i] == meds[i]
    {
    }
  }

  /** `meds.filter(m => m.id !== id)`: every entry with that id goes, every other stays. */
  function RemoveMedicineIn(meds: seq<SavedMedicine>, id: string): (r: seq<SavedMedicine>)
    ensures forall i :: 0 <= i < |r| ==> r[i].id != id && r[i] in meds
    ensures forall i :: 0 <= i < |meds| && meds[i].id != id ==> meds[i] in r
  {
    Filter(meds, (m: SavedMedicine) => m.id != id)
  }

  /** `sessions.filter(s => s.id !== id)`. */
  function DeleteSessionIn(sessions: seq<ChatSession>, id: string): (r: seq<ChatSession>)
    ensures forall i :: 0 <= i < |r| ==> r[i].id != id && r[i] in sessions
    ensures forall i :: 0 <= i < |sessions| && sessions[i].id != id ==> sessions[i] in r
  {
    Filter(sessions, (s: ChatSession) => s.id != id)
  }

  /** Removing a medicine from a split list removes it from each part, in order. */
  lemma RemoveMedicineKeepsOrder(front: seq<SavedMedicine>, back: seq<SavedMedicine>, id: string)
    ensures RemoveMedicineIn(front + back, id) == RemoveMedicineIn(front, id) + RemoveMedicineIn(back, id)
  {
    FilterConcat(front, back, (m: SavedMedicine) => m.id != id);
  }

  /** The title and preview of a saved session AS WRITTEN:
      `text?.substring(0, n) + '...' || fallback`. The concatenation is never falsy (an absent
      text gives "undefined..."), so the fallback is never chosen. */
  function SessionTextAsWritten(text: Option<string>, n: nat, fallback: string): (r: string)
    ensures text.None? ==> r == "undefined..."
    ensures text.Some? ==>
              |r| == |Take(text.value, n)| + 3 && r[..|r| - 3] == text.value[..|r| - 3] && r[|r| - 3..] == "..."
  {
    var shown := if text.Some? then Take(text.value, n) else "undefined";
    var joined := shown + "...";
    if joined != "" then joined else fallback
  }

  lemma SessionFallbackUnreachable(text: Option<string>)
    ensures SessionTextAsWritten(text, SessionTitleLength, SessionTitleFallback) != SessionTitleFallback
    ensures SessionTextAsWritten(Some(""), SessionTitleLength, SessionTitleFallback) == "..."
    ensures SessionTextAsWritten(None, SessionTitleLength, SessionTitleFallback) == "undefined..."
  {
    var r := SessionTextAsWritten(text, SessionTitleLength, SessionTitleFallback);
    assert r[|r| - 1] == '.';
    assert SessionTitleFallback[|SessionTitleFallback| - 1] == 's';
  }

  /** The title and preview as evidently intended: the first `n` characters of the text
      followed by "...", or the fallback when the message has no text. */
  function SessionText(text: Option<string>, n: nat, fallback: string): (r: string)
    ensures text.None? || text.value == "" ==> r == fallback
    ensures text.Some? && text.value != "" ==>
              |r| == |Take(text.value, n)| + 3 && r[..|r| - 3] == text.value[..|r| - 3] && r[|r| - 3..] == "..."
  {
    if text.None? || text.value == "" then fallback else Take(text.value, n) + "..."
  }

  /** The two readings agree whenever the message has a non-empty text. */
  lemma SessionTextAgreesOnText(text: Option<string>, n: nat, fallback: string)
    requires text.Some? && text.value != ""
    ensures SessionText(text, n, fallback) == SessionTextAsWritten(text, n, fallback)
  {
  }

  /** They differ after a demo: the canned reply has the empty text, so the code as written
      stores the preview "..." where the fallback was meant. */
  lemma DemoReplyPreviewDiffers(first: ChatMessage, now: nat, scenario: DemoScenario, id: string)
    ensures SessionTextAsWritten(DemoReply(now, scenario).text, SessionPreviewLength, SessionPreviewFallback) == "..."
    ensures NewSession([first, DemoReply(now, scenario)], id, now).preview == SessionPreviewFallback
  {
  }

  /** The session `saveCurrentSession` builds from a non-empty chat, titled after the first
      message and previewed by the last one, with the fallbacks for a message without text. */
  function NewSession(messages: seq<ChatMessage>, id: string, date: nat): (s: ChatSession)
    requires |messages| > 0
    ensures s.messages == messages && s.id == id && s.date == date
    ensures var t := messages[0].text;
            if t.None? || t.value == "" then s.title == SessionTitleFallback
            else s.title == Take(t.value, SessionTitleLength) + "..."
    ensures var t := messages[|messages| - 1].text;
            if t.None? || t.value == "" then s.preview == SessionPreviewFallback
            else s.preview == Take(t.value, SessionPreviewLength) + "..."
  {
    ChatSession(id,
                SessionText(messages[0].text, SessionTitleLength, SessionTitleFallback),
                date,
                SessionText(messages[|messages| - 1].text, SessionPreviewLength, SessionPreviewFallback),
                messages)
  }

  /** What the live branch of `handleSubmit` produces: the reply appended to the chat (none
      when the analysis failed), the analysis shown afterwards, and the error toast, if any. */
  datatype Answer = Answer(reply: Option<ChatMessage>, analysis: Option<AnalysisResult>, failure: Option<Toast>)

  /** The live branch of `handleSubmit`: the first file of each type is analysed if there is
      one; a failed analysis ends the submission with its error and no chat call; otherwise the
      chat is asked with the EARLIER messages as history, the analysis (or the one shown so far,
      or the guest context) as context and, after a new analysis, the default query in place
      of a text shorter than five characters. */
  function ModelAnswer(now: nat, hasKey: bool, history: seq<ChatMessage>, text: string, sent: seq<FileAttachment>,
                       prior: Option<AnalysisResult>, analysisOutcomes: seq<Outcome<Reply>>,
                       parseJson: string -> Outcome<AnalysisResult>, chatOutcomes: seq<Outcome<Reply>>): (a: Answer)
    requires |analysisOutcomes| > DefaultRetries && |chatOutcomes| > DefaultRetries
    ensures a.failure.Some? <==> a.reply.None?
    ensures a.failure.Some? ==> a.analysis == prior && RunsAnalysis(SelectFiles(sent)) && a.failure.value.kind == ErrorToast
    ensures !RunsAnalysis(SelectFiles(sent)) ==> a.analysis == prior && a.reply.Some? && a.reply.value.visualData.None?
    ensures RunsAnalysis(SelectFiles(sent)) && a.reply.Some? ==>
              a.analysis.Some? && a.reply.value.visualData == a.analysis
    ensures a.reply.Some? ==> a.reply.value.role == Model && a.reply.value.text.Some? && a.reply.value.text.value != ""
    ensures !hasKey && !RunsAnalysis(SelectFiles(sent)) ==> a.reply == Some(AiMessage(now, DemoModeReply, None))
    ensures !hasKey && RunsAnalysis(SelectFiles(sent)) ==> a.failure == Some(Toast(MissingKeyMessage, ErrorToast))
  {
    var sel := SelectFiles(sent);
    var run := Analysis(hasKey, sel.report, sel.image, sel.video, analysisOutcomes, parseJson);
    if RunsAnalysis(sel) && run.result.Threw? then
      Answer(None, prior, Some(Toast(ErrorText(run.result.error), ErrorToast)))
    else
      var context := if RunsAnalysis(sel) then Some(run.result.value) else prior;
      var query := ChooseQuery(RunsAnalysis(sel), text);
      var chat := ChatWithMedicalContext(hasKey, history, query, context.GetOr(GuestContext), chatOutcomes);
      Answer(Some(AiMessage(now, chat.reply, if RunsAnalysis(sel) then context else None)), context, None)
  }

  /** What the live branch computes: with the first file of each type selected, a failed
      analysis shows its own error text; a successful one becomes the analysis; and the reply
      is the chat's answer to the chosen query, asked with the analysis (or the guest context)
      as context. */
  lemma ModelAnswerComputes(now: nat, hasKey: bool, history: seq<ChatMessage>, text: string, sent: seq<FileAttachment>,
                            prior: Option<AnalysisResult>, analysisOutcomes: seq<Outcome<Reply>>,
                            parseJson: string -> Outcome<AnalysisResult>, chatOutcomes: seq<Outcome<Reply>>)
    requires |analysisOutcomes| > DefaultRetries && |chatOutcomes| > DefaultRetries
    ensures var a := ModelAnswer(now, hasKey, history, text, sent, prior, analysisOutcomes, parseJson, chatOutcomes);
            var sel := SelectFiles(sent);
            var run := Analysis(hasKey, sel.report, sel.image, sel.video, analysisOutcomes, parseJson);
            && (RunsAnalysis(sel) && run.result.Threw? ==> a.failure == Some(Toast(ErrorText(run.result.error), ErrorToast)))
            && (RunsAnalysis(sel) && !run.result.Threw? ==> a.analysis == Some(run.result.value))
            && (a.reply.Some? ==>
                  a.reply.value.text ==
                  Some(ChatWithMedicalContext(hasKey, history, ChooseQuery(RunsAnalysis(sel), text),
                                              a.analysis.GetOr(GuestContext), chatOutcomes).reply))
  {
  }

  /** The file of an attachment, if it has one, passed the upload checks, and the attachment
      carries the type its media type gives. */
  ghost predicate CheckedUpload(a: FileAttachment)
  {
    a.file.Some? ==> UploadRejection(a.file.value).None? && a.kind == Classify(a.file.value.mimeType)
  }

  /** Every attachment in the list is a checked upload. */
  ghost predicate UploadsChecked(files: seq<FileAttachment>)
  {
    files == [] || (CheckedUpload(files[0]) && UploadsChecked(files[1..]))
  }

  // ---------------------------------------------------------------- the state object

  /** The state cells of the `App` component. */
  class ClinicalApp {
    var appState: AppState
    var currentView: View
    var user: Option<UserProfile>
    var messages: seq<ChatMessage>
    var savedMedicines: seq<SavedMedicine>
    var sessions: seq<ChatSession>
    var currentAnalysis: Option<AnalysisResult>
    var inputValue: string
    var isProcessing: bool
    var attachments: seq<FileAttachment>
    var activeScenario: Option<DemoScenario>
    var toast: Option<Toast>
    var isOffline: bool
    var uploadedFiles: seq<FileAttachment>

    /** The landing page has no signed-in user, and the sidebar list holds checked files only. */
    ghost predicate Valid()
      reads this
    {
      (appState == Landing ==> user.None?) && UploadsChecked(uploadedFiles)
    }

    /** The first render and the mount effect: `offline` is `!navigator.onLine`; `savedUser`
        is the stored user, if any, which opens the dashboard and loads that user's stored
        medicines and sessions (empty lists when nothing is stored). */
    constructor(offline: bool, savedUser: Option<UserProfile>,
                storedMedicines: seq<SavedMedicine>, storedSessions: seq<ChatSession>)
      ensures Valid()
      ensures user == savedUser && appState == (if savedUser.Some? then Dashboard else Landing)
      ensures savedMedicines == (if savedUser.Some? then storedMedicines else [])
      ensures sessions == (if savedUser.Some? then storedSessions else [])
      ensures currentView == DashboardView && messages == [] && currentAnalysis == None
      ensures inputValue == "" && !isProcessing && attachments == [] && activeScenario == None
      ensures toast == None && isOffline == offline && uploadedFiles == SampleUploads
    {
      appState := Landing;
      currentView := DashboardView;
      user := None;
      messages := [];
      savedMedicines := [];
      sessions := [];
      currentAnalysis := None;
      inputValue := "";
      isProcessing := false;
      attachments := [];
      activeScenario := None;
      toast := None;
      isOffline := offline;
      uploadedFiles := SampleUploads;
      new;
      if savedUser.Some? {
        user := savedUser;
        appState := Dashboard;
        savedMedicines := storedMedicines;
        sessions := storedSessions;
      }
    }

    /** `handleLogin` on the landing page, followed by the effect that loads the new user's
        stored medicines and sessions (empty lists when nothing is stored). `savedName` is
        the stored display name. */
    method HandleLogin(savedName: Option<string>, storedMedicines: seq<SavedMedicine>,
                       storedSessions: seq<ChatSession>)
      requires Valid() && appState == Landing
      modifies this`user, this`appState, this`currentView, this`savedMedicines, this`sessions
      ensures Valid()
      ensures user == Some(MockUser(LoginName(savedName)))
      ensures appState == Dashboard && currentView == DashboardView
      ensures savedMedicines == storedMedicines && sessions == storedSessions
    {
      var profile := MockUser(LoginName(savedName));
      user := Some(profile);
      appState := Dashboard;
      currentView := DashboardView;
      savedMedicines := storedMedicines;
      sessions := storedSessions;
    }

    /** `updateUserProfile(name)`: a no-op without a user. */
    method UpdateUserProfile(name: string)
      requires Valid()
      modifies this`user, this`toast
      ensures Valid()
      ensures old(user).None? ==> user == old(user) && toast == old(toast)
      ensures old(user).Some? ==>
                user == Some(old(user).value.(name := name, avatar := Initials(name))) &&
                toast == Some(Toast(ProfileUpdatedMessage, InfoToast))
    {
      if user.None? {
        return;
      }
      user := Some(user.value.(name := name, avatar := Initials(name)));
      toast := Some(Toast(ProfileUpdatedMessage, InfoToast));
    }

    /** The settings view's save button: a blank name is not saved. */
    method SaveDisplayName(displayName: string)
      requires Valid()
      modifies this`user, this`toast
      ensures Valid()
      ensures IsBlank(displayName) ==> user == old(user) && toast == old(toast)
      ensures !IsBlank(displayName) && old(user).Some? ==>
                user == Some(old(user).value.(name := displayName, avatar := Initials(displayName))) &&
                toast == Some(Toast(ProfileUpdatedMessage, InfoToast))
      ensures old(user).None? ==> user == old(user) && toast == old(toast)
    {
      if !IsBlank(displayName) {
        UpdateUserProfile(displayName);
      }
    }

    /** `handleGuest` on the landing page; the user stays absent, so nothing is loaded. */
    method HandleGuest()
      requires Valid() && appState == Landing
      modifies this`user, this`appState, this`currentView
      ensures Valid()
      ensures user == None && appState == Dashboard && currentView == DashboardView
    {
      user := None;
      appState := Dashboard;
      currentView := DashboardView;
    }

    /** `handleLogout`: the in-memory data is emptied and the landing page shown. */
    method HandleLogout()
      requires Valid()
      modifies this`user, this`messages, this`sessions, this`savedMedicines, this`currentAnalysis, this`appState
      ensures Valid()
      ensures user == None && messages == [] && sessions == [] && savedMedicines == []
      ensures currentAnalysis == None && appState == Landing
    {
      user := None;
      messages := [];
      sessions := [];
      savedMedicines := [];
      currentAnalysis := None;
      appState := Landing;
    }

    /** `handleDeleteAccount`: a logout followed by a confirmation toast. */
    method HandleDeleteAccount()
      requires Valid()
      modifies this`user, this`messages, this`sessions, this`savedMedicines, this`currentAnalysis, this`appState, this`toast
      ensures Valid()
      ensures user == None && messages == [] && sessions == [] && savedMedicines == []
      ensures currentAnalysis == None && appState == Landing
      ensures toast == Some(Toast(AccountDeletedMessage, InfoToast))
    {
      HandleLogout();
      toast := Some(Toast(AccountDeletedMessage, InfoToast));
    }

    /** `saveCurrentSession`; `now` is `Date.now()`. Nothing happens for an empty chat. */
    method SaveCurrentSession(now: nat)
      requires Valid()
      modifies this`sessions, this`messages, this`activeScenario, this`currentAnalysis
      ensures Valid()
      ensures old(messages) == [] ==>
                sessions == old(sessions) && messages == old(messages) &&
                activeScenario == old(activeScenario) && currentAnalysis == old(currentAnalysis)
      ensures old(messages) != [] ==>
                sessions == [NewSession(old(messages), DecimalString(now), now)] + old(sessions) &&
                messages == [] && activeScenario == None && currentAnalysis == None
    {
      if |messages| == 0 {
        return;
      }
      var session := NewSession(messages, DecimalString(now), now);
      sessions := [session] + sessions;
      messages := [];
      activeScenario := None;
      currentAnalysis := None;
    }

    /** `handleFileUpload` for the first picked file, if any; `objectUrl` stands for the
        preview URL the browser creates for an image. */
    method HandleFileUpload(picked: Option<LocalFile>, objectUrl: string)
      requires Valid()
      modifies this`attachments, this`uploadedFiles, this`toast
      ensures Valid()
      ensures picked.None? ==>
                attachments == old(attachments) && uploadedFiles == old(uploadedFiles) && toast == old(toast)
      ensures picked.Some? && UploadRejection(picked.value).Some? ==>
                attachments == old(attachments) && uploadedFiles == old(uploadedFiles) &&
                toast == UploadRejection(picked.value)
      ensures picked.Some? && UploadRejection(picked.value).None? ==>
                var att := UploadedAttachment(picked.value, objectUrl);
                attachments == old(attachments) + [att] && uploadedFiles == [att] + old(uploadedFiles) &&
                toast == old(toast)
    {
      if picked.None? {
        return;
      }
      var file := picked.value;
      if file.size > UploadLimit {
        toast := Some(Toast(TooLargeMessage(file.name), ErrorToast));
        return;
      }
      if !MatchesAllowedSubtype(file.mimeType) {
        if !StartsWith(file.mimeType, "image/") && !StartsWith(file.mimeType, "video/") && file.mimeType != "application/pdf" {
          toast := Some(Toast(UnsupportedTypeMessage, ErrorToast));
          return;
        }
      }
      var kind := Report;
      if StartsWith(file.mimeType, "image/") {
        kind := Image;
      } else if StartsWith(file.mimeType, "video/") {
        kind := Video;
      }
      var att := FileAttachment(Some(file), file.name, kind, if kind == Image then Some(objectUrl) else None, false);
      attachments := attachments + [att];
      assert ([att] + uploadedFiles)[1..] == uploadedFiles;
      uploadedFiles := [att] + uploadedFiles;
    }

    /** `removeAttachment(index)`. */
    method RemoveAttachment(index: int)
      requires Valid()
      modifies this`attachments
      ensures Valid()
      ensures attachments == RemoveAt(old(attachments), index)
      ensures 0 <= index < |old(attachments)| ==>
                attachments == old(attachments)[..index] + old(attachments)[index + 1..]
      ensures !(0 <= index < |old(attachments)|) ==> attachments == old(attachments)
    {
      RemoveAtSplice(attachments, index);
      attachments := RemoveAt(attachments, index);
    }

    /** `handleScenarioSelect(scenario)`. */
    method HandleScenarioSelect(scenario: DemoScenario)
      requires Valid()
      modifies this`activeScenario, this`currentAnalysis, this`inputValue, this`attachments
      ensures Valid()
      ensures activeScenario == Some(scenario) && currentAnalysis == Some(scenario.mockAnalysis)
      ensures inputValue == scenario.prompt && attachments == [scenario.mockAttachment]
    {
      activeScenario := Some(scenario);
      currentAnalysis := Some(scenario.mockAnalysis);
      inputValue := scenario.prompt;
      attachments := [scenario.mockAttachment];
    }

    /** The text area's `onChange`. */
    method SetInput(value: string)
      requires Valid()
      modifies this`inputValue
      ensures Valid() && inputValue == value
    {
      inputValue := value;
    }

    /** The window's `online` / `offline` events. */
    method SetOffline(offline: bool)
      requires Valid()
      modifies this`isOffline
      ensures Valid() && isOffline == offline
    {
      isOffline := offline;
    }

    /** The toast's close button and timer. */
    method DismissToast()
      requires Valid()
      modifies this`toast
      ensures Valid() && toast == None
    {
      toast := None;
    }

    /** What a submission past the guard and the offline check leaves behind: the input
        cleared and the processing flag lowered; in demo mode the user's message and the
        scenario's reply, the medicine saved for the medicine scenario, and the emergency
        warning if the text names one; otherwise the user's message followed by the answer of
        `ModelAnswer`, whose error toast, if any, replaces the emergency warning. */
    twostate predicate Submitted(now: nat, hasKey: bool, analysisOutcomes: seq<Outcome<Reply>>,
                                 parseJson: string -> Outcome<AnalysisResult>, chatOutcomes: seq<Outcome<Reply>>)
      requires |analysisOutcomes| > DefaultRetries && |chatOutcomes| > DefaultRetries
      reads this
    {
      && inputValue == "" && attachments == [] && !isProcessing
      && (InDemoMode(old(activeScenario), old(attachments)) ==>
            var scenario := old(activeScenario).value;
            && messages == old(messages) + [UserMessage(now, old(inputValue), old(attachments))] + [DemoReply(now, scenario)]
            && savedMedicines == (if scenario.id == MedicineScenarioId
                                  then AddMedicineIfNew(old(savedMedicines), DemoMedicine(now))
                                  else old(savedMedicines))
            && currentAnalysis == old(currentAnalysis)
            && toast == EmergencyToast(old(inputValue), old(toast)))
      && (!InDemoMode(old(activeScenario), old(attachments)) ==>
            var a := ModelAnswer(now, hasKey, old(messages), old(inputValue), old(attachments), old(currentAnalysis),
                                 analysisOutcomes, parseJson, chatOutcomes);
            && savedMedicines == old(savedMedicines)
            && messages == old(messages) + [UserMessage(now, old(inputValue), old(attachments))] +
                           (if a.reply.Some? then [a.reply.value] else [])
            && currentAnalysis == a.analysis
            && toast == (if a.failure.Some? then a.failure else EmergencyToast(old(inputValue), old(toast))))
    }

    /** `handleSubmit`, run to completion as one step. `now` is the time of the submission,
        `hasKey` whether an API key is configured, and the two outcome sequences are how the
        analysis and chat calls settle. */
    method HandleSubmit(now: nat, hasKey: bool, analysisOutcomes: seq<Outcome<Reply>>,
                        parseJson: string -> Outcome<AnalysisResult>, chatOutcomes: seq<Outcome<Reply>>)
      requires Valid()
      requires |analysisOutcomes| > DefaultRetries && |chatOutcomes| > DefaultRetries
      modifies this`messages, this`inputValue, this`attachments, this`isProcessing, this`toast,
               this`savedMedicines, this`currentAnalysis
      ensures Valid()
      ensures SubmitBlocked(old(inputValue), old(attachments), old(isProcessing)) ==>
                messages == old(messages) && inputValue == old(inputValue) && attachments == old(attachments) &&
                isProcessing == old(isProcessing) && toast == old(toast) &&
                savedMedicines == old(savedMedicines) && currentAnalysis == old(currentAnalysis)
      ensures !SubmitBlocked(old(inputValue), old(attachments), old(isProcessing)) && old(isOffline) ==>
                messages == old(messages) && inputValue == old(inputValue) && attachments == old(attachments) &&
                isProcessing == old(isProcessing) && toast == Some(Toast(OfflineMessage, ErrorToast)) &&
                savedMedicines == old(savedMedicines) && currentAnalysis == old(currentAnalysis)
      ensures !SubmitBlocked(old(inputValue), old(attachments), old(isProcessing)) && !old(isOffline) ==>
                Submitted(now, hasKey, analysisOutcomes, parseJson, chatOutcomes)
    {
      if SubmitBlocked(inputValue, attachments, isProcessing) {
        return;
      }
      if isOffline {
        toast := Some(Toast(OfflineMessage, ErrorToast));
        return;
      }
      Send(now, hasKey, analysisOutcomes, parseJson, chatOutcomes);
    }

    /** `handleSubmit` past its guard and the offline check. */
    method Send(now: nat, hasKey: bool, analysisOutcomes: seq<Outcome<Reply>>,
                parseJson: string -> Outcome<AnalysisResult>, chatOutcomes: seq<Outcome<Reply>>)
      requires |analysisOutcomes| > DefaultRetries && |chatOutcomes| > DefaultRetries
      modifies this`messages, this`inputValue, this`attachments, this`isProcessing, this`toast,
               this`savedMedicines, this`currentAnalysis
      ensures Submitted(now, hasKey, analysisOutcomes, parseJson, chatOutcomes)
    {
      // The handler's closure keeps the values of the render it belongs to.
      var history, sent, text := messages, attachments, inputValue;
      RecordUserTurn(now);
      if InDemoMode(activeScenario, sent) {
        AnswerDemo(now, activeScenario.value);
      } else {
        AnswerWithModel(now, hasKey, history, text, sent, analysisOutcomes, parseJson, chatOutcomes);
      }
      isProcessing := false;
    }

    /** The first half of a submission: the emergency warning when the text names an
        emergency, the user's message appended, the input and attachments cleared and the
        processing flag raised. */
    method RecordUserTurn(now: nat)
      modifies this`messages, this`inputValue, this`attachments, this`isProcessing, this`toast
      ensures messages == old(messages) + [UserMessage(now, old(inputValue), old(attachments))]
      ensures toast == EmergencyToast(old(inputValue), old(toast))
      ensures inputValue == "" && attachments == [] && isProcessing
    {
      if IsEmergency(inputValue) {
        toast := Some(Toast(EmergencyMessage, ErrorToast));
      }
      messages := messages + [UserMessage(now, inputValue, attachments)];
      inputValue := "";
      attachments := [];
      isProcessing := true;
    }

    /** The demo branch of `handleSubmit`: the scenario's canned reply, and for the medicine
        scenario the medicine saved unless one of that name is already saved. */
    method AnswerDemo(now: nat, scenario: DemoScenario)
      modifies this`messages, this`savedMedicines
      ensures messages == old(messages) + [DemoReply(now, scenario)]
      ensures savedMedicines == (if scenario.id == MedicineScenarioId
                                 then AddMedicineIfNew(old(savedMedicines), DemoMedicine(now))
                                 else old(savedMedicines))
    {
      var aiMsg := DemoReply(now, scenario);
      if scenario.id == MedicineScenarioId {
        var newMed := DemoMedicine(now);
        if SavedNamed(savedMedicines, newMed.details.name).None? {
          savedMedicines := [newMed] + savedMedicines;
        }
      }
      messages := messages + [aiMsg];
    }

    /** The live branch of `handleSubmit`: analyse the first file of each type if there is
        one, then ask the chat with the earlier `history`. A failed analysis ends the
        submission with an error toast and no chat call. */
    method AnswerWithModel(now: nat, hasKey: bool, history: seq<ChatMessage>, text: string, sent: seq<FileAttachment>,
                           analysisOutcomes: seq<Outcome<Reply>>, parseJson: string -> Outcome<AnalysisResult>,
                           chatOutcomes: seq<Outcome<Reply>>)
      requires |analysisOutcomes| > DefaultRetries && |chatOutcomes| > DefaultRetries
      modifies this`messages, this`currentAnalysis, this`toast
      ensures var a := ModelAnswer(now, hasKey, history, text, sent, old(currentAnalysis),
                                   analysisOutcomes, parseJson, chatOutcomes);
              && messages == old(messages) + (if a.reply.Some? then [a.reply.value] else [])
              && currentAnalysis == a.analysis
              && toast == (if a.failure.Some? then a.failure else old(toast))
    {
      var analysisContext := currentAnalysis;
      var isNewAnalysis := false;
      if |sent| > 0 {
        var report := FileOf(FirstOfKind(sent, Report));
        var image := FileOf(FirstOfKind(sent, Image));
        var video := FileOf(FirstOfKind(sent, Video));
        if report.Some? || image.Some? || video.Some? {
          var run := AnalyzeMedicalCase(hasKey, report, image, video, analysisOutcomes, parseJson);
          if run.result.Threw? {
            toast := Some(Toast(ErrorText(run.result.error), ErrorToast));
            return;
          }
          analysisContext := Some(run.result.value);
          currentAnalysis := analysisContext;
          isNewAnalysis := true;
        }
      }
      var safeContext := analysisContext.GetOr(GuestContext);
      var query := ChooseQuery(isNewAnalysis, text);
      var chat := ChatWithMedicalContext(hasKey, history, query, safeContext, chatOutcomes);
      messages := messages + [AiMessage(now, chat.reply, if isNewAnalysis then Some(safeContext) else None)];
    }

    /** A history entry was opened: its messages become the chat. */
    method SelectSession(session: ChatSession)
      requires Valid()
      modifies this`messages, this`currentView
      ensures Valid() && messages == session.messages && currentView == DashboardView
    {
      messages := session.messages;
      currentView := DashboardView;
    }

    method DeleteSession(id: string)
      requires Valid()
      modifies this`sessions
      ensures Valid() && sessions == DeleteSessionIn(old(sessions), id)
    {
      sessions := DeleteSessionIn(sessions, id);
    }

    method ToggleFavorite(id: string)
      requires Valid()
      modifies this`savedMedicines
      ensures Valid() && savedMedicines == ToggleFavoriteIn(old(savedMedicines), id)
    {
      savedMedicines := ToggleFavoriteIn(savedMedicines, id);
    }

    method RemoveMedicine(id: string)
      requires Valid()
      modifies this`savedMedicines
      ensures Valid() && savedMedicines == RemoveMedicineIn(old(savedMedicines), id)
    {
      savedMedicines := RemoveMedicineIn(savedMedicines, id);
    }

    /** The sidebar's navigation: leaving the dashboard with a chat open saves it first. */
    method Navigate(view: View, now: nat)
      requires Valid()
      modifies this`sessions, this`messages, this`activeScenario, this`currentAnalysis, this`currentView
      ensures Valid() && currentView == view
      ensures view != DashboardView && old(messages) != [] ==>
                sessions == [NewSession(old(messages), DecimalString(now), now)] + old(sessions) && messages == [] &&
                activeScenario == None && currentAnalysis == None
      ensures view == DashboardView || old(messages) == [] ==>
                sessions == old(sessions) && messages == old(messages) &&
                activeScenario == old(activeScenario) && currentAnalysis == old(currentAnalysis)
    {
      if view != DashboardView && |messages| > 0 {
        SaveCurrentSession(now);
      }
      currentView := view;
    }
  }
}
