/** The upload-and-analyze page (src/pages/AnalyzePage.tsx): which dropped files are
    taken, when a location goes with the request, which notification a reply produces,
    what the quick segmentation test stores, and how the handlers update the page. */
module AnalyzePage {
  import opened Wrappers
  import opened JsString
  import I18n
  import opened Api

  /** A dropped file is taken only when its MIME type starts with "image/" or "video/". */
  predicate AcceptsMime(mimeType: string) {
    StartsWith(mimeType, "image/") || StartsWith(mimeType, "video/")
  }

  /** The prefix must be complete, slash included. */
  lemma AcceptsMimeExamples()
    ensures AcceptsMime("image/png") && AcceptsMime("video/mp4")
    ensures !AcceptsMime("image") && !AcceptsMime("application/pdf") && !AcceptsMime("")
  {
    assert !StartsWith("image", "image/");
    assert !StartsWith("image", "video/") by { assert "image"[0] != "video/"[0]; }
    assert !StartsWith("application/pdf", "image/") by { assert "application/pdf"[0] != "image/"[0]; }
    assert !StartsWith("application/pdf", "video/") by { assert "application/pdf"[0] != "video/"[0]; }
  }

  /** `location.lat && location.lng ? location : undefined`: the typed location goes with the
      request only when both coordinates are non-empty. */
  function LocationArgument(location: LocationInput): (arg: Option<LocationInput>)
    ensures arg.Some? <==> location.lat != "" && location.lng != ""
    ensures arg.Some? ==> arg.value == location
  {
    if location.lat != "" && location.lng != "" then Some(location) else None
  }

  /** A notification's description: a text, or `String(error)` of what the call threw, whose
      wording is left to the browser. */
  datatype NoticeText = Plain(text: string) | ErrorString(error: ClientError)

  datatype Notice = Notice(title: string, description: NoticeText, destructive: bool)

  /** `${response.soldier_count}`: the template renders an absent count as "undefined". */
  function SoldierCountText(count: Option<int>): (text: string)
    ensures count.Some? && count.value >= 0 ==> text == NatToDecimal(count.value)
    ensures count.Some? && count.value >= 0 ==> ParseDigits(text) == count.value
    ensures count.None? ==> text == "undefined"
  {
    match count
    case Some(n) =>
      NatToDecimalRoundTrip(if n >= 0 then n else 0);
      IntToDecimal(n)
    case None => "undefined"
  }

  /** The notification for a reply that arrived: a successful detection names the
      detection and the soldier count, a successful analysis without one says so, and an
      unsuccessful reply gives no notification at all. */
  function AnalyzeNotice(response: AnalyzeMediaResponse, lang: I18n.Language): (notice: Option<Notice>)
    ensures notice.None? <==> !response.success
    ensures response.success && response.detection == Some(true) ==>
      notice == Some(Notice(I18n.Entry(lang, I18n.DetectionFound),
                            Plain(SoldierCountText(response.soldierCount) + " " + I18n.Entry(lang, I18n.Soldiers)),
                            false))
    ensures response.success && response.detection != Some(true) ==>
      notice == Some(Notice(I18n.Entry(lang, I18n.AnalysisComplete), Plain(I18n.Entry(lang, I18n.NoDetection)), false))
  {
    I18n.TranslateIsEntry(I18n.DetectionFound, lang);
    I18n.TranslateIsEntry(I18n.Soldiers, lang);
    I18n.TranslateIsEntry(I18n.AnalysisComplete, lang);
    I18n.TranslateIsEntry(I18n.NoDetection, lang);
    if response.success && response.detection == Some(true) then
      Some(Notice(I18n.Translate(I18n.DetectionFound, lang),
                  Plain(SoldierCountText(response.soldierCount) + " " + I18n.Translate(I18n.Soldiers, lang)),
                  false))
    else if response.success then
      Some(Notice(I18n.Translate(I18n.AnalysisComplete, lang), Plain(I18n.Translate(I18n.NoDetection, lang)), false))
    else
      None
  }

  /** A detection of `n` soldiers is announced with a description that starts with exactly
      the digits of `n`, followed by a space. */
  lemma DetectionNoticeNamesSoldierCount(response: AnalyzeMediaResponse, lang: I18n.Language, n: nat)
    requires response.success && response.detection == Some(true) && response.soldierCount == Some(n)
    ensures var notice := AnalyzeNotice(response, lang);
            && notice.Some? && notice.value.description.Plain?
            && var digits := NatToDecimal(n);
               && notice.value.description.text[..|digits|] == digits
               && notice.value.description.text[|digits|] == ' '
               && ParseDigits(digits) == n
  {
    var digits := NatToDecimal(n);
    var text := digits + " " + I18n.Entry(lang, I18n.Soldiers);
    assert AnalyzeNotice(response, lang).value.description.text == text;
    assert text[..|digits|] == digits;
    NatToDecimalRoundTrip(n);
  }

  /** The destructive notification shown when a call threw. */
  function ErrorNotice(error: ClientError, lang: I18n.Language): (notice: Notice)
    ensures notice.title == I18n.Entry(lang, I18n.ErrorOccurred)
    ensures notice.description == ErrorString(error) && notice.destructive
  {
    I18n.TranslateIsEntry(I18n.ErrorOccurred, lang);
    Notice(I18n.Translate(I18n.ErrorOccurred, lang), ErrorString(error), true)
  }

  /** What the quick test stores: only a successful reply with a (non-empty) overlay image
      yields a result, which then holds that overlay, `success` and "no detection", and no
      other field. */
  function QuickTestResult(response: SegmentationResponse): (result: Option<AnalyzeMediaResponse>)
    ensures result.Some? <==> response.success && response.overlayImage.Some? && response.overlayImage.value != ""
    ensures result.Some? ==> result.value == AnalyzeMediaResponse(
              success := true, detection := Some(false), soldierCount := None, civilianCount := None,
              totalDetections := None, overlayImage := response.overlayImage, originalImage := None,
              message := None, error := None)
  {
    if response.success && response.overlayImage.Some? && response.overlayImage.value != "" then
      Some(AnalyzeMediaResponse(true, Some(false), None, None, None, response.overlayImage, None, None, None))
    else
      None
  }

  /** The soldier-count line under the result headline is shown only for a count that is
      present and positive. */
  predicate ShowsSoldierLine(result: AnalyzeMediaResponse) {
    result.soldierCount.Some? && result.soldierCount.value > 0
  }

  /** The headline of the result panel: `result.detection ? t('detectionFound') : t('noDetection')`. */
  function ResultHeadline(result: AnalyzeMediaResponse, lang: I18n.Language): (headline: string)
    ensures result.detection == Some(true) ==> headline == I18n.Entry(lang, I18n.DetectionFound)
    ensures result.detection != Some(true) ==> headline == I18n.Entry(lang, I18n.NoDetection)
  {
    I18n.TranslateIsEntry(I18n.DetectionFound, lang);
    I18n.TranslateIsEntry(I18n.NoDetection, lang);
    if result.detection == Some(true) then I18n.Translate(I18n.DetectionFound, lang)
    else I18n.Translate(I18n.NoDetection, lang)
  }

  /** A quick-test result reads as "no detection" and shows no soldier line. */
  lemma QuickTestResultShowsNoDetection(response: SegmentationResponse, lang: I18n.Language)
    requires QuickTestResult(response).Some?
    ensures var result := QuickTestResult(response).value;
            && !ShowsSoldierLine(result)
            && ResultHeadline(result, lang) == I18n.Entry(lang, I18n.NoDetection)
  {
  }

  /** The page's state, updated in place by its handlers. The preview image, which a
      `FileReader` fills in later, is not part of the model. */
  class AnalyzeState {
    var file: Option<File>
    var loading: bool
    var result: Option<AnalyzeMediaResponse>
    var location: LocationInput

    constructor ()
      ensures file == None && !loading && result == None && location == LocationInput("", "")
    {
      file, loading, result, location := None, false, None, LocationInput("", "");
    }

    /** `handleFileSelect`: the file is stored and any earlier result cleared. */
    method HandleFileSelect(selected: File)
      modifies this
      ensures file == Some(selected) && result == None
      ensures loading == old(loading) && location == old(location)
    {
      file := Some(selected);
      result := None;
    }

    /** `handleDrop`: the first dropped file (if any) is selected when its MIME type is
        accepted; otherwise nothing changes. */
    method HandleDrop(dropped: Option<File>)
      modifies this
      ensures dropped.Some? && AcceptsMime(dropped.value.mimeType) ==>
                file == dropped && result == None && loading == old(loading) && location == old(location)
      ensures !(dropped.Some? && AcceptsMime(dropped.value.mimeType)) ==>
                file == old(file) && result == old(result) && loading == old(loading) && location == old(location)
    {
      if dropped.Some? && AcceptsMime(dropped.value.mimeType) {
        HandleFileSelect(dropped.value);
      }
    }

    /** The latitude box's change handler: the longitude is kept. */
    method SetLatitude(lat: string)
      modifies this
      ensures location == LocationInput(lat, old(location.lng))
      ensures file == old(file) && result == old(result) && loading == old(loading)
    {
      location := location.(lat := lat);
    }

    /** The longitude box's change handler: the latitude is kept. */
    method SetLongitude(lng: string)
      modifies this
      ensures location == LocationInput(old(location.lat), lng)
      ensures file == old(file) && result == old(result) && loading == old(loading)
    {
      location := location.(lng := lng);
    }

    /** `handleAnalyze`, answered by `reply`. Without a file nothing happens. Otherwise the
        request carries the file and, only when both coordinates are filled in, the
        location; a reply that arrived is stored whatever its `success` flag and chooses the
        notification; a failed call keeps the old result and shows the error; loading is
        over on both paths. */
    method HandleAnalyze(base: string, reply: Result<AnalyzeMediaResponse, ClientError>, lang: I18n.Language)
      returns (request: Option<Request>, notice: Option<Notice>)
      modifies this
      ensures old(file).None? ==> request == None && notice == None && result == old(result) && loading == old(loading)
      ensures old(file).Some? ==>
                && request.Some? && request.value.verb == Post
                && request.value.url == base + "/api/analyze_media" && request.value.query == []
                && request.value.body.Multipart?
                && EntryNames(request.value.body.entries)
                   == (if location.lat != "" && location.lng != "" then ["file", "location"] else ["file"])
                && FormGet(request.value.body.entries, "file") == Some(FileValue(old(file).value))
                && FormGet(request.value.body.entries, "location")
                   == (if location.lat != "" && location.lng != "" then Some(LocationJson(location)) else None)
                && !loading
      ensures old(file).Some? && reply.Success? ==> result == Some(reply.value) && notice == AnalyzeNotice(reply.value, lang)
      ensures old(file).Some? && reply.Failure? ==> result == old(result) && notice == Some(ErrorNotice(reply.error, lang))
      ensures file == old(file) && location == old(location)
    {
      if file.None? {
        request, notice := None, None;
        return;
      }
      loading := true;
      var r := AnalyzeMediaRequest(base, file.value, LocationArgument(location));
      request := Some(r);
      match reply {
        case Success(response) =>
          result := Some(response);
          notice := AnalyzeNotice(response, lang);
        case Failure(error) =>
          notice := Some(ErrorNotice(error, lang));
      }
      loading := false;
    }

    /** `handleQuickTest`, answered by `reply`. Without a file nothing happens. Otherwise
        the result is replaced only by a usable segmentation reply, a failed call shows the
        error, and loading is over on both paths. */
    method HandleQuickTest(base: string, reply: Result<SegmentationResponse, ClientError>, lang: I18n.Language)
      returns (request: Option<Request>, notice: Option<Notice>)
      modifies this
      ensures old(file).None? ==> request == None && notice == None && result == old(result) && loading == old(loading)
      ensures old(file).Some? ==>
                && request == Some(Request(Post, base + "/api/test_segmentation", [],
                                           Multipart([FormEntry("file", FileValue(old(file).value))])))
                && !loading
      ensures old(file).Some? && reply.Success? ==>
                notice == None
                && result == (if QuickTestResult(reply.value).Some? then QuickTestResult(reply.value) else old(result))
      ensures old(file).Some? && reply.Failure? ==> result == old(result) && notice == Some(ErrorNotice(reply.error, lang))
      ensures file == old(file) && location == old(location)
    {
      if file.None? {
        request, notice := None, None;
        return;
      }
      loading := true;
      var r := TestSegmentationRequest(base, file.value);
      request := Some(r);
      notice := None;
      match reply {
        case Success(response) =>
          var stored := QuickTestResult(response);
          if stored.Some? {
            result := stored;
          }
        case Failure(error) =>
          notice := Some(ErrorNotice(error, lang));
      }
      loading := false;
    }
  }
}
