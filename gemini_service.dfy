/** The service layer of services/geminiService.ts: the bounded retry helper, the request
    assembly and error mapping of the analysis call, and the short-circuit rules of the chat
    call. The remote generation service is an oracle: a sequence of settled promises, one per
    attempt, of which a run consumes a prefix. `JSON.parse` is the parameter `parseJson`. */
module GeminiService {
  import opened Optional
  import opened Strings
  import opened Types

  /** A thrown JavaScript error, as far as the service inspects it. */
  datatype JsError = JsError(message: Option<string>, status: Option<int>)

  /** How a promise settled. */
  datatype Outcome<+T> = Returned(value: T) | Threw(error: JsError)

  /** `throw new Error(message)`. */
  function Fail<T>(message: string): Outcome<T>
  {
    Threw(JsError(Some(message), None))
  }

  /** `error.message?.includes('fetch') || error.status >= 500`; an absent message or status
      makes its half false. */
  predicate IsRetryable(e: JsError)
    ensures IsRetryable(e) ==> e.message.Some? || e.status.Some?
    ensures e.status.Some? && e.status.value >= 500 ==> IsRetryable(e)
    ensures e.message.Some? && Contains(e.message.value, "fetch") ==> IsRetryable(e)
  {
    (e.message.Some? && Contains(e.message.value, "fetch")) || (e.status.Some? && e.status.value >= 500)
  }

  /** The defaults of `withRetry`. */
  const DefaultRetries: nat := 2
  const BaseDelay: nat := 1000

  function Pow2(k: nat): (r: nat)
    ensures r >= 1
  {
    if k == 0 then 1 else 2 * Pow2(k - 1)
  }

  lemma ScaledPow2(d: nat, k: nat)
    ensures d * Pow2(k + 1) == (2 * d) * Pow2(k)
  {
    calc {
      d * Pow2(k + 1);
      d * (2 * Pow2(k));
      (2 * d) * Pow2(k);
    }
  }

  /** The first wait followed by the doubled schedule is the schedule from the first wait. */
  lemma DelaysShift(delay: nat, rest: seq<nat>)
    requires forall k :: 0 <= k < |rest| ==> rest[k] == (delay * 2) * Pow2(k)
    ensures forall k :: 0 <= k < |[delay] + rest| ==> ([delay] + rest)[k] == delay * Pow2(k)
  {
    forall k | 0 <= k < |[delay] + rest|
      ensures ([delay] + rest)[k] == delay * Pow2(k)
    {
      if k > 0 {
        ScaledPow2(delay, k - 1);
        assert ([delay] + rest)[k] == rest[k - 1];
      }
    }
  }

  /** What a run of `withRetry` did: the settled value it passed on, how many times it called
      the remote function, and the waits it made between calls (in milliseconds). */
  datatype RetryRun<T> = RetryRun(result: Outcome<T>, calls: nat, delays: seq<nat>)

  /** Attempt number `k` ends the run: it returned, no retries were left, or its error is
      not retryable. */
  predicate Stops<T>(o: Outcome<T>, k: nat, retries: nat)
  {
    o.Returned? || k == retries || !IsRetryable(o.error)
  }

  /** `withRetry(fn, retries, delay)` where `outcomes[k]` is how the `k`-th call of `fn` settles. */
  function WithRetry<T>(outcomes: seq<Outcome<T>>, retries: nat, delay: nat): (r: RetryRun<T>)
    requires |outcomes| > retries
    ensures 1 <= r.calls <= retries + 1
    ensures r.result == outcomes[r.calls - 1]
    ensures Stops(outcomes[r.calls - 1], r.calls - 1, retries)
    ensures forall k :: 0 <= k < r.calls - 1 ==> !Stops(outcomes[k], k, retries)
    ensures |r.delays| == r.calls - 1
    ensures forall k :: 0 <= k < |r.delays| ==> r.delays[k] == delay * Pow2(k)
    decreases retries
  {
    match outcomes[0]
    case Returned(_) => RetryRun(outcomes[0], 1, [])
    case Threw(e) =>
      if retries == 0 || !IsRetryable(e) then RetryRun(outcomes[0], 1, [])
      else
        var rest := WithRetry(outcomes[1..], retries - 1, delay * 2);
        DelaysShift(delay, rest.delays);
        RetryRun(rest.result, rest.calls + 1, [delay] + rest.delays)
  }

  /** A success at attempt `k`, after only retryable failures, is returned at once: exactly
      `k + 1` calls are made and the waits are the first `k` doublings of the base delay. */
  lemma SuccessReturnedImmediately<T>(outcomes: seq<Outcome<T>>, retries: nat, delay: nat, k: nat)
    requires |outcomes| > retries && k <= retries
    requires forall j :: 0 <= j < k ==> outcomes[j].Threw? && IsRetryable(outcomes[j].error)
    requires outcomes[k].Returned?
    ensures WithRetry(outcomes, retries, delay).result == outcomes[k]
    ensures WithRetry(outcomes, retries, delay).calls == k + 1
  {
  }

  /** A non-retryable error is rethrown after that single attempt, with no wait. */
  /** A client error, whose message does not mention "fetch", is not retried; this covers a
      rate-limit refusal (status 429). */
  lemma ClientErrorNotRetryable(e: JsError)
    requires e.status.Some? && e.status.value < 500
    requires e.message.None? || !Contains(e.message.value, "fetch")
    ensures !IsRetryable(e)
  {
  }

  lemma TerminalErrorNotRetried<T>(outcomes: seq<Outcome<T>>, retries: nat, delay: nat)
    requires |outcomes| > retries
    requires outcomes[0].Threw? && !IsRetryable(outcomes[0].error)
    ensures WithRetry(outcomes, retries, delay) == RetryRun(outcomes[0], 1, [])
  {
  }

  /** When every allowed attempt fails retryably, the last error surfaces after exactly
      `retries + 1` calls. */
  lemma ExhaustedRetriesRethrowLast<T>(outcomes: seq<Outcome<T>>, retries: nat, delay: nat)
    requires |outcomes| > retries
    requires forall j :: 0 <= j <= retries ==> outcomes[j].Threw? && IsRetryable(outcomes[j].error)
    ensures WithRetry(outcomes, retries, delay).calls == retries + 1
    ensures WithRetry(outcomes, retries, delay).result == outcomes[retries]
  {
  }

  /** Each wait doubles the one before it; with the defaults the waits are a prefix of
      1000 ms then 2000 ms, and at most three calls are made. */
  lemma {:induction false} DelaysDouble<T>(outcomes: seq<Outcome<T>>, retries: nat, delay: nat)
    requires |outcomes| > retries
    ensures var d := WithRetry(outcomes, retries, delay).delays;
            forall k :: 0 <= k < |d| - 1 ==> d[k + 1] == 2 * d[k]
  {
    var d := WithRetry(outcomes, retries, delay).delays;
    forall k | 0 <= k < |d| - 1
      ensures d[k + 1] == 2 * d[k]
    {
      assert d[k + 1] == delay * Pow2(k + 1) && d[k] == delay * Pow2(k);
      DoubleScaled(delay, Pow2(k));
    }
  }

  lemma DoubleScaled(d: nat, p: nat)
    ensures d * (2 * p) == 2 * (d * p)
  {
  }

  lemma DefaultSchedule<T>(outcomes: seq<Outcome<T>>)
    requires |outcomes| > DefaultRetries
    ensures var r := WithRetry(outcomes, DefaultRetries, BaseDelay);
            r.calls <= 3 && r.delays <= [1000, 2000]
  {
    var r := WithRetry(outcomes, DefaultRetries, BaseDelay);
    assert Pow2(1) == 2;
    if |r.delays| == 2 {
      assert r.delays == [1000, 2000];
    } else if |r.delays| == 1 {
      assert r.delays == [1000];
    }
  }

  // ---------------------------------------------------------------- analyzeMedicalCase

  const MiB: nat := 1024 * 1024
  /** Ceiling for the report and the image. */
  const DocumentLimit: nat := 50 * MiB
  const VideoLimit: nat := 100 * MiB

  const MissingKeyMessage := "API Key is missing. Please check your configuration."
  const ReportTooLarge := "Report file exceeds 50MB limit."
  const ImageTooLarge := "Image file exceeds 50MB limit."
  const VideoTooLarge := "Video file exceeds 100MB limit."
  /** `FileReader` rejects with a `ProgressEvent`, whose `message` is `undefined`. */
  const ReadFailureDetail := "undefined"
  const FileFailurePrefix := "File processing failed: "
  const ReportLabel := "Here is the medical report."
  const ImageLabel := "Here is the medical scan."
  const VideoLabel := "Here is a video context."
  const EmptyAnalysisMessage := "AI returned empty analysis."
  const BusyMessage := "System is busy. Please try again in a moment."
  const SafetyMessage := "Content flagged by safety filters. Unable to analyze."
  const GenericMessage := "Unable to complete analysis. Please check your internet connection."

  /** One element of the request's `parts`: the fixed extraction prompt, an encoded file
      (`inlineData` with the file's media type) or a text label. */
  datatype Part = Instructions | InlineData(file: LocalFile) | TextPart(text: string)

  /** A `GenerateContentResponse`, of which only `text` is read. */
  datatype Reply = Reply(text: Option<string>)

  /** The detail of the error that preparing one optional file throws, if any: the size
      ceiling is checked first, then the file is read. */
  function FileCheck(f: Option<LocalFile>, limit: nat, tooLarge: string): (r: Option<string>)
    ensures r.None? <==> f.None? || (f.value.size <= limit && f.value.readable)
  {
    if f.None? then None
    else if f.value.size > limit then Some(tooLarge)
    else if !f.value.readable then Some(ReadFailureDetail)
    else None
  }

  /** The first failure among report, image and video, in that order. */
  function FirstFileFailure(report: Option<LocalFile>, image: Option<LocalFile>, video: Option<LocalFile>): (r: Option<string>)
    ensures r.None? <==> FileCheck(report, DocumentLimit, ReportTooLarge).None? &&
                         FileCheck(image, DocumentLimit, ImageTooLarge).None? &&
                         FileCheck(video, VideoLimit, VideoTooLarge).None?
    ensures FileCheck(report, DocumentLimit, ReportTooLarge).Some? ==> r == FileCheck(report, DocumentLimit, ReportTooLarge)
    ensures FileCheck(report, DocumentLimit, ReportTooLarge).None? && FileCheck(image, DocumentLimit, ImageTooLarge).Some? ==>
              r == FileCheck(image, DocumentLimit, ImageTooLarge)
    ensures FileCheck(report, DocumentLimit, ReportTooLarge).None? && FileCheck(image, DocumentLimit, ImageTooLarge).None? ==>
              r == FileCheck(video, VideoLimit, VideoTooLarge)
  {
    var r := FileCheck(report, DocumentLimit, ReportTooLarge);
    if r.Some? then r
    else
      var i := FileCheck(image, DocumentLimit, ImageTooLarge);
      if i.Some? then i else FileCheck(video, VideoLimit, VideoTooLarge)
  }

  /** The two parts a present file contributes: its data, then its label. */
  function FileParts(f: Option<LocalFile>, caption: string): (r: seq<Part>)
    ensures |r| == 2 * Present(f)
    ensures f.Some? ==> r[0] == InlineData(f.value) && r[1] == TextPart(caption)
  {
    if f.None? then [] else [InlineData(f.value), TextPart(caption)]
  }

  /** The file parts of the request; the extraction prompt is never among them. */
  function RequestParts(report: Option<LocalFile>, image: Option<LocalFile>, video: Option<LocalFile>): (r: seq<Part>)
    ensures |r| == 2 * (Present(report) + Present(image) + Present(video))
    ensures forall i :: 0 <= i < |r| ==> r[i] != Instructions
  {
    FileParts(report, ReportLabel) + FileParts(image, ImageLabel) + FileParts(video, VideoLabel)
  }

  function Present(f: Option<LocalFile>): nat
  {
    if f.Some? then 1 else 0
  }

  /** The `parts` array holds two entries per present file, report first, then image, then
      video, each file's data immediately followed by its label. */
  lemma RequestPartsLayout(report: Option<LocalFile>, image: Option<LocalFile>, video: Option<LocalFile>)
    ensures var p := RequestParts(report, image, video);
            var i := 2 * Present(report);
            var v := i + 2 * Present(image);
            && |p| == 2 * (Present(report) + Present(image) + Present(video))
            && (report.Some? ==> p[0] == InlineData(report.value) && p[1] == TextPart(ReportLabel))
            && (image.Some? ==> p[i] == InlineData(image.value) && p[i + 1] == TextPart(ImageLabel))
            && (video.Some? ==> p[v] == InlineData(video.value) && p[v + 1] == TextPart(VideoLabel))
  {
  }

  /** The catch block of the analysis call: the user-facing message for a failure. */
  function AnalysisFailureMessage(e: JsError): (m: string)
    ensures m == BusyMessage <==> e.message.Some? && Contains(e.message.value, "429")
    ensures m == SafetyMessage <==>
              e.message.Some? && !Contains(e.message.value, "429") && Contains(e.message.value, "SAFETY")
    ensures m == GenericMessage <==>
              e.message.None? || (!Contains(e.message.value, "429") && !Contains(e.message.value, "SAFETY"))
  {
    if e.message.Some? && Contains(e.message.value, "429") then BusyMessage
    else if e.message.Some? && Contains(e.message.value, "SAFETY") then SafetyMessage
    else GenericMessage
  }

  /** What the analysis yields once `withRetry` has settled. */
  function InterpretReply(o: Outcome<Reply>, parseJson: string -> Outcome<AnalysisResult>): (r: Outcome<AnalysisResult>)
    ensures r.Returned? <==> o.Returned? && o.value.text.Some? && o.value.text.value != "" &&
                             parseJson(o.value.text.value).Returned?
    ensures r.Returned? ==> r == parseJson(o.value.text.value)
    ensures r.Threw? ==> r.error.status.None? &&
                         r.error.message in {Some(BusyMessage), Some(SafetyMessage), Some(GenericMessage)}
  {
    match o
    case Threw(e) => Fail(AnalysisFailureMessage(e))
    case Returned(reply) =>
      if reply.text.None? || reply.text.value == "" then
        Fail(AnalysisFailureMessage(JsError(Some(EmptyAnalysisMessage), None)))
      else
        match parseJson(reply.text.value)
        case Returned(a) => Returned(a)
        case Threw(e) => Fail(AnalysisFailureMessage(e))
  }

  /** The empty-response error carries neither "429" nor "SAFETY", so an empty response is
      reported with the generic message. */
  lemma EmptyReplyIsGeneric(parseJson: string -> Outcome<AnalysisResult>)
    ensures InterpretReply(Returned(Reply(None)), parseJson) == Fail(GenericMessage)
    ensures InterpretReply(Returned(Reply(Some(""))), parseJson) == Fail(GenericMessage)
  {
    EmptyAnalysisIsGeneric();
  }

  lemma EmptyAnalysisIsGeneric()
    ensures AnalysisFailureMessage(JsError(Some(EmptyAnalysisMessage), None)) == GenericMessage
  {
    assert '4' !in EmptyAnalysisMessage && 'S' !in EmptyAnalysisMessage;
    GenericWithoutCodes(EmptyAnalysisMessage);
  }

  /** A message with neither a '4' nor an 'S' in it maps to the generic message. */
  lemma GenericWithoutCodes(m: string)
    requires '4' !in m && 'S' !in m
    ensures AnalysisFailureMessage(JsError(Some(m), None)) == GenericMessage
  {
    NotContainedByLetter(m, "429");
    NotContainedByLetter(m, "SAFETY");
  }

  /** A text without the first character of `sub` does not contain `sub`. */
  lemma NotContainedByLetter(s: string, sub: string)
    requires |sub| > 0 && sub[0] !in s
    ensures !Contains(s, sub)
  {
    forall i: nat | i + |sub| <= |s|
      ensures !OccursAt(s, sub, i)
    {
      assert s[i..i + |sub|][0] == s[i];
    }
  }

  /** What one call of `analyzeMedicalCase` did: the settled result, the parts it sent (none
      if it never reached the remote service), the remote calls and the waits. */
  datatype AnalysisRun = AnalysisRun(result: Outcome<AnalysisResult>, request: Option<seq<Part>>, calls: nat, delays: seq<nat>)

  /** The specification of `analyzeMedicalCase(report, image, video)`; `hasKey` says whether
      an API key is configured. */
  function Analysis(hasKey: bool, report: Option<LocalFile>, image: Option<LocalFile>, video: Option<LocalFile>,
                    outcomes: seq<Outcome<Reply>>, parseJson: string -> Outcome<AnalysisResult>): (r: AnalysisRun)
    requires |outcomes| > DefaultRetries
    ensures r.calls <= DefaultRetries + 1
    ensures r.request.None? <==> r.calls == 0
    ensures r.request.Some? <==> hasKey && FirstFileFailure(report, image, video).None?
    ensures r.request.Some? ==> r.request.value == [Instructions] + RequestParts(report, image, video)
    ensures r.request.Some? ==>
              |r.request.value| == 1 + 2 * (Present(report) + Present(image) + Present(video)) &&
              r.request.value[0] == Instructions
    ensures !hasKey ==> r.result == Fail(MissingKeyMessage)
    ensures hasKey && FirstFileFailure(report, image, video).Some? ==>
              r.result == Fail(FileFailurePrefix + FirstFileFailure(report, image, video).value)
    ensures r.request.Some? && r.result.Threw? ==>
              r.result.error.message in {Some(BusyMessage), Some(SafetyMessage), Some(GenericMessage)}
    ensures r.request.Some? ==>
              var w := WithRetry(outcomes, DefaultRetries, BaseDelay);
              r.result == InterpretReply(w.result, parseJson) && r.calls == w.calls && r.delays == w.delays
  {
    if !hasKey then AnalysisRun(Fail(MissingKeyMessage), None, 0, [])
    else
      var failure := FirstFileFailure(report, image, video);
      if failure.Some? then AnalysisRun(Fail(FileFailurePrefix + failure.value), None, 0, [])
      else
        RequestPartsLayout(report, image, video);
        var run := WithRetry(outcomes, DefaultRetries, BaseDelay);
        AnalysisRun(InterpretReply(run.result, parseJson), Some([Instructions] + RequestParts(report, image, video)),
                    run.calls, run.delays)
  }

  /** A file over its ceiling is rejected with "File processing failed: ..." before any call,
      provided the files checked before it passed. */
  lemma OversizeRejectedBeforeAnyCall(hasKey: bool, report: Option<LocalFile>, image: Option<LocalFile>, video: Option<LocalFile>,
                                      outcomes: seq<Outcome<Reply>>, parseJson: string -> Outcome<AnalysisResult>)
    requires |outcomes| > DefaultRetries && hasKey
    ensures report.Some? && report.value.size > DocumentLimit ==>
              Analysis(hasKey, report, image, video, outcomes, parseJson) ==
              AnalysisRun(Fail(FileFailurePrefix + ReportTooLarge), None, 0, [])
    ensures FileCheck(report, DocumentLimit, ReportTooLarge).None? && image.Some? && image.value.size > DocumentLimit ==>
              Analysis(hasKey, report, image, video, outcomes, parseJson) ==
              AnalysisRun(Fail(FileFailurePrefix + ImageTooLarge), None, 0, [])
    ensures FileCheck(report, DocumentLimit, ReportTooLarge).None? && FileCheck(image, DocumentLimit, ImageTooLarge).None? &&
            video.Some? && video.value.size > VideoLimit ==>
              Analysis(hasKey, report, image, video, outcomes, parseJson) ==
              AnalysisRun(Fail(FileFailurePrefix + VideoTooLarge), None, 0, [])
  {
  }

  /** Sizes exactly at the ceilings pass the size check. */
  lemma SizesAtLimitAccepted(name: string, mime: string)
    ensures FileCheck(Some(LocalFile(name, mime, 52428800, true)), DocumentLimit, ReportTooLarge).None?
    ensures FileCheck(Some(LocalFile(name, mime, 52428801, true)), DocumentLimit, ReportTooLarge) == Some(ReportTooLarge)
    ensures FileCheck(Some(LocalFile(name, mime, 104857600, true)), VideoLimit, VideoTooLarge).None?
    ensures FileCheck(Some(LocalFile(name, mime, 104857601, true)), VideoLimit, VideoTooLarge) == Some(VideoTooLarge)
  {
  }

  /** `analyzeMedicalCase`, building `parts` with successive pushes as the source does. */
  method AnalyzeMedicalCase(hasKey: bool, report: Option<LocalFile>, image: Option<LocalFile>, video: Option<LocalFile>,
                            outcomes: seq<Outcome<Reply>>, parseJson: string -> Outcome<AnalysisResult>)
    returns (run: AnalysisRun)
    requires |outcomes| > DefaultRetries
    ensures run == Analysis(hasKey, report, image, video, outcomes, parseJson)
  {
    if !hasKey {
      return AnalysisRun(Fail(MissingKeyMessage), None, 0, []);
    }
    var parts: seq<Part> := [];
    if report.Some? {
      if report.value.size > DocumentLimit {
        return AnalysisRun(Fail(FileFailurePrefix + ReportTooLarge), None, 0, []);
      }
      if !report.value.readable {
        return AnalysisRun(Fail(FileFailurePrefix + ReadFailureDetail), None, 0, []);
      }
      parts := parts + [InlineData(report.value)];
      parts := parts + [TextPart(ReportLabel)];
    }
    if image.Some? {
      if image.value.size > DocumentLimit {
        return AnalysisRun(Fail(FileFailurePrefix + ImageTooLarge), None, 0, []);
      }
      if !image.value.readable {
        return AnalysisRun(Fail(FileFailurePrefix + ReadFailureDetail), None, 0, []);
      }
      parts := parts + [InlineData(image.value)];
      parts := parts + [TextPart(ImageLabel)];
    }
    if video.Some? {
      if video.value.size > VideoLimit {
        return AnalysisRun(Fail(FileFailurePrefix + VideoTooLarge), None, 0, []);
      }
      if !video.value.readable {
        return AnalysisRun(Fail(FileFailurePrefix + ReadFailureDetail), None, 0, []);
      }
      parts := parts + [InlineData(video.value)];
      parts := parts + [TextPart(VideoLabel)];
    }
    assert parts == RequestParts(report, image, video);
    var retry := WithRetry(outcomes, DefaultRetries, BaseDelay);
    run := AnalysisRun(InterpretReply(retry.result, parseJson), Some([Instructions] + parts), retry.calls, retry.delays);
  }

  // ---------------------------------------------------------------- chatWithMedicalContext

  const DemoModeReply := "Demo Mode: I can't generate new responses, but feel free to browse the sample data."
  const PrescriptionRefusal := "‚ö†Ô∏è **I cannot write prescriptions.** \n\nI can explain what medications are typically used for this condition, but you must see a licensed doctor to get a valid prescription."
  const NoContextText := "NO SPECIFIC MEDICAL FILE UPLOADED YET."
  const TroubleReply := "I'm having trouble thinking right now. Please try again."
  const ConnectionReply := "Connection error. Please check your internet and try again."

  /** The text of one chat turn: the system instruction, whose template embeds
      `JSON.stringify(context)` for `Some(context)` and `NoContextText` for `None`, or plain text. */
  datatype TurnText = SystemInstruction(context: Option<AnalysisResult>) | Plain(text: string)

  datatype Turn = Turn(role: Role, text: TurnText)

  /** The lower-cased message mentions a prescription. */
  predicate AsksForPrescription(message: string)
  {
    var lower := ToLower(message);
    Contains(lower, "prescribe") || Contains(lower, "prescription")
  }

  /** The check looks at the lower-cased text, so it ignores the case of the message. */
  lemma PrescriptionCheckIgnoresCase(message: string)
    ensures AsksForPrescription(ToLower(message)) == AsksForPrescription(message)
  {
    ToLowerIdempotent(message);
  }

  /** The context counts only when it has findings. */
  function ContextFor(context: AnalysisResult): (r: Option<AnalysisResult>)
    ensures r.Some? <==> |context.findings| > 0
    ensures r.Some? ==> r.value == context
  {
    if |context.findings| > 0 then Some(context) else None
  }

  /** `history.map(h => ({ role: h.role, parts: [{ text: h.text || '' }] }))`. */
  function HistoryTurns(history: seq<ChatMessage>): (r: seq<Turn>)
    ensures |r| == |history|
    ensures forall i :: 0 <= i < |history| ==> r[i] == Turn(history[i].role, Plain(history[i].text.GetOr("")))
  {
    seq(|history|, i requires 0 <= i < |history| => Turn(history[i].role, Plain(history[i].text.GetOr(""))))
  }

  /** What one call of `chatWithMedicalContext` did: the reply string, the contents it sent
      (none if it never reached the service), the remote calls and the waits. */
  datatype ChatRun = ChatRun(reply: string, request: Option<seq<Turn>>, calls: nat, delays: seq<nat>)

  /** `chatWithMedicalContext(history, newMessage, context)`. */
  function ChatWithMedicalContext(hasKey: bool, history: seq<ChatMessage>, newMessage: string, context: AnalysisResult,
                                  outcomes: seq<Outcome<Reply>>): (r: ChatRun)
    requires |outcomes| > DefaultRetries
    ensures r.reply != ""
    ensures r.calls <= DefaultRetries + 1
    ensures r.request.None? <==> r.calls == 0
    ensures r.request.None? <==> !hasKey || AsksForPrescription(newMessage)
    ensures !hasKey ==> r.reply == DemoModeReply
    ensures hasKey && AsksForPrescription(newMessage) ==> r.reply == PrescriptionRefusal
    ensures r.request.Some? ==>
              var c := r.request.value;
              && |c| == |history| + 2
              && c[0] == Turn(User, SystemInstruction(ContextFor(context)))
              && (forall i :: 0 <= i < |history| ==> c[i + 1] == Turn(history[i].role, Plain(history[i].text.GetOr(""))))
              && c[|c| - 1] == Turn(User, Plain(newMessage))
    ensures r.request.Some? ==>
              var last := outcomes[r.calls - 1];
              r.reply == if last.Threw? then ConnectionReply
                         else if last.value.text.GetOr("") == "" then TroubleReply
                         else last.value.text.value
    ensures r.request.Some? ==>
              var w := WithRetry(outcomes, DefaultRetries, BaseDelay);
              r.calls == w.calls && r.delays == w.delays
  {
    if !hasKey then ChatRun(DemoModeReply, None, 0, [])
    else if AsksForPrescription(newMessage) then ChatRun(PrescriptionRefusal, None, 0, [])
    else
      var turns := HistoryTurns(history);
      var contents := [Turn(User, SystemInstruction(ContextFor(context)))] + turns + [Turn(User, Plain(newMessage))];
      assert forall i :: 0 <= i < |history| ==> contents[i + 1] == turns[i];
      var run := WithRetry(outcomes, DefaultRetries, BaseDelay);
      var reply := match run.result
        case Threw(_) => ConnectionReply
        case Returned(resp) => if resp.text.None? || resp.text.value == "" then TroubleReply else resp.text.value;
      ChatRun(reply, Some(contents), run.calls, run.delays)
  }
}
