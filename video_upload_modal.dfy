/**
 * The video upload dialog: the react-hook-form rules on its four fields and
 * the progress state its submit handler drives while the video is published.
 */
module VideoUploadModal {
  import opened Wrappers
  import opened JsModel

  /**
   * The form values react-hook-form hands over: the two texts, and for each
   * file input its `FileList` (empty when no file was chosen).
   */
  datatype UploadInput = UploadInput(title: string, description: string, videoFile: seq<FileMeta>, thumbnail: seq<FileMeta>)

  const MaxVideoBytes: nat := 100 * 1024 * 1024
  const MaxThumbnailBytes: nat := 6 * 1024 * 1024

  const TitleRequired := "Title is required"
  const DescriptionRequired := "Description is required"
  const VideoRequired := "Video file is required"
  const VideoTooLarge := "Upload a file with size less than 100 MB"
  const ThumbnailRequired := "Thumbnail is required"
  const ThumbnailTooLarge := "Upload a file with size less than 6 MB"

  /** A value a `validate` callback can receive: a file input's `FileList`, or one `File`. */
  datatype Validated = FileListValue(files: seq<FileMeta>) | FileValue(file: FileMeta)

  /** `value.size`: a `File` has one, a `FileList` does not. */
  function SizeProperty(v: Validated): (r: JsValue)
    ensures v.FileListValue? ==> r == Undefined
    ensures v.FileValue? ==> r == Number(v.file.size)
  {
    match v
    case FileListValue(_) => Undefined
    case FileValue(file) => Number(file.size)
  }

  /**
   * The `validate` callbacks: `if (file && file.size > limit) return message`.
   * The value is always an object, hence truthy; `undefined > limit` is false.
   */
  function SizeRule(v: Validated, limit: nat, message: string): (r: Option<string>)
    ensures r.Some? <==> SizeProperty(v).Number? && SizeProperty(v).n > limit
    ensures r.Some? ==> r.value == message
  {
    var size := SizeProperty(v);
    if size.Number? && size.n > limit then Some(message) else None
  }

  /**
   * The error react-hook-form reports for a required file input as the
   * component is written: an empty `FileList` fails `required` (and the
   * callback is then skipped); otherwise the callback receives the `FileList`.
   */
  function FileRuleAsWritten(files: seq<FileMeta>, required: string, limit: nat, tooLarge: string): (r: Option<string>)
    ensures files == [] <==> r == Some(required)
  {
    if files == [] then Some(required) else SizeRule(FileListValue(files), limit, tooLarge)
  }

  /** As written, the size limit never fires: any chosen file passes, whatever its size. */
  lemma AsWrittenSizeLimitNeverFires(files: seq<FileMeta>, required: string, limit: nat, tooLarge: string)
    requires files != []
    ensures FileRuleAsWritten(files, required, limit, tooLarge).None?
  {
  }

  /** A 200 MiB video is accepted by the rule as written, though the limit is 100 MiB. */
  lemma OversizedVideoPassesAsWritten()
    ensures var movie := FileMeta("movie.mp4", "video/mp4", 200 * 1024 * 1024);
      movie.size > MaxVideoBytes && FileRuleAsWritten([movie], VideoRequired, MaxVideoBytes, VideoTooLarge).None?
  {
  }

  /** The rule as intended: the size limit applies to the chosen file, `FileList[0]`. */
  function FileRule(files: seq<FileMeta>, required: string, limit: nat, tooLarge: string): (r: Option<string>)
    ensures r.None? <==> files != [] && files[0].size <= limit
    ensures files == [] ==> r == Some(required)
    ensures files != [] && files[0].size > limit ==> r == Some(tooLarge)
  {
    if files == [] then Some(required) else SizeRule(FileValue(files[0]), limit, tooLarge)
  }

  /** `required` on a text field: only the empty string fails. */
  function TextRule(text: string, required: string): (r: Option<string>)
    ensures r.None? <==> text != ""
    ensures r.Some? ==> r.value == required
  {
    if text == "" then Some(required) else None
  }

  function FieldIssue(path: string, error: Option<string>): (r: seq<Issue>)
    ensures r == [] <==> error.None?
  {
    match error
    case None => []
    case Some(message) => [Issue(path, message)]
  }

  /**
   * The errors of the four fields as the component is written: the files
   * are only required, because the size callbacks never fire.
   */
  function UploadIssuesAsWritten(form: UploadInput): (r: seq<Issue>)
    ensures r == [] <==> form.title != "" && form.description != "" && form.videoFile != [] && form.thumbnail != []
  {
    FieldIssue("title", TextRule(form.title, TitleRequired))
    + FieldIssue("description", TextRule(form.description, DescriptionRequired))
    + FieldIssue("videoFile", FileRuleAsWritten(form.videoFile, VideoRequired, MaxVideoBytes, VideoTooLarge))
    + FieldIssue("thumbnail", FileRuleAsWritten(form.thumbnail, ThumbnailRequired, MaxThumbnailBytes, ThumbnailTooLarge))
  }

  /** As written, a form with a 200 MiB video and a small thumbnail reports no error and is submitted. */
  lemma OversizedUploadAcceptedAsWritten()
    ensures var movie := FileMeta("movie.mp4", "video/mp4", 200 * 1024 * 1024);
      var form := UploadInput("t", "d", [movie], [FileMeta("t.png", "image/png", 1024)]);
      movie.size > MaxVideoBytes && UploadIssuesAsWritten(form) == [] && Issue("videoFile", VideoTooLarge) in UploadIssues(form)
  {
  }

  /**
   * The errors of the four fields, at most one each, with the size limits
   * applied to the chosen files, as the component evidently intends.
   */
  function UploadIssues(form: UploadInput): (r: seq<Issue>)
    ensures r == [] <==>
      form.title != "" && form.description != ""
      && form.videoFile != [] && form.videoFile[0].size <= MaxVideoBytes
      && form.thumbnail != [] && form.thumbnail[0].size <= MaxThumbnailBytes
    ensures form.videoFile != [] && form.videoFile[0].size > MaxVideoBytes ==> Issue("videoFile", VideoTooLarge) in r
    ensures form.thumbnail != [] && form.thumbnail[0].size > MaxThumbnailBytes ==> Issue("thumbnail", ThumbnailTooLarge) in r
  {
    FieldIssue("title", TextRule(form.title, TitleRequired))
    + FieldIssue("description", TextRule(form.description, DescriptionRequired))
    + FieldIssue("videoFile", FileRule(form.videoFile, VideoRequired, MaxVideoBytes, VideoTooLarge))
    + FieldIssue("thumbnail", FileRule(form.thumbnail, ThumbnailRequired, MaxThumbnailBytes, ThumbnailTooLarge))
  }

  /** A video of at most 100 MiB and a thumbnail of at most 6 MiB pass; one byte more is refused. */
  lemma SizeLimitBoundaries(title: string, description: string, video: FileMeta, thumbnail: FileMeta)
    requires title != "" && description != ""
    ensures video.size == MaxVideoBytes && thumbnail.size == MaxThumbnailBytes ==>
      UploadIssues(UploadInput(title, description, [video], [thumbnail])) == []
    ensures video.size == MaxVideoBytes + 1 ==>
      Issue("videoFile", VideoTooLarge) in UploadIssues(UploadInput(title, description, [video], [thumbnail]))
    ensures thumbnail.size == MaxThumbnailBytes + 1 ==>
      Issue("thumbnail", ThumbnailTooLarge) in UploadIssues(UploadInput(title, description, [video], [thumbnail]))
  {
  }

  /** The intended rules refuse exactly what the rules as written refuse, plus the oversize files. */
  lemma IntendedRulesAddSizeLimits(form: UploadInput)
    ensures UploadIssues(form) == [] <==>
      UploadIssuesAsWritten(form) == []
      && form.videoFile[0].size <= MaxVideoBytes && form.thumbnail[0].size <= MaxThumbnailBytes
  {
  }

  /** What the progress view shows about the upload. */
  datatype UploadedData = UploadedData(title: string, thumbnailUrl: Option<string>)

  /** The progress shown after the events `events`, starting from `initial`: the latest event's value. */
  function ProgressAfter(initial: int, events: seq<int>): (r: int)
    ensures events != [] ==> r == events[|events| - 1]
    ensures events == [] ==> r == initial
  {
    if events == [] then initial else events[|events| - 1]
  }

  const PublishedToast := "Video Published successfully"

  /** The dialog's state. */
  class UploadModal {
    var uploadProgress: int
    var showUploadProgress: bool
    var uploadedData: Option<UploadedData>
    var toasts: seq<Toast>

    constructor ()
      ensures uploadProgress == 0 && !showUploadProgress && uploadedData.None? && toasts == []
    {
      uploadProgress := 0;
      showUploadProgress := false;
      uploadedData := None;
      toasts := [];
    }

    /**
     * `handleFormSubmit`: records the title and thumbnail preview, shows the
     * progress view, follows the upload's progress events, and then either
     * reaches 100 with a success toast (when the response reports success) or,
     * when the request fails, shows an error toast and hides the progress view.
     * A `null` or `undefined` response makes `response.success` throw, so it
     * ends like a failure whose error has no `data`: the toast reads "undefined".
     * `objectUrl` is what `URL.createObjectURL` returns for the thumbnail.
     */
    method HandleFormSubmit(data: UploadInput, objectUrl: string, progressEvents: seq<int>, outcome: Settled)
      modifies this
      ensures uploadedData == Some(UploadedData(data.title, if data.thumbnail != [] then Some(objectUrl) else None))
      ensures showUploadProgress <==> outcome.Fulfilled? && !Nullish(outcome.response)
      ensures uploadProgress ==
        if outcome.Fulfilled? && Truthy(Get(outcome.response, "success")) then 100
        else ProgressAfter(old(uploadProgress), progressEvents)
      ensures toasts == old(toasts) +
        match outcome
        case Fulfilled(response) =>
          if Nullish(response) then [Error("undefined")]
          else if Truthy(Get(response, "success")) then [Success(PublishedToast)] else []
        case Rejected(err) => [Error(ErrorToastText(err))]
    {
      var thumbnailFile := if data.thumbnail != [] then Some(data.thumbnail[0]) else None;
      uploadedData := Some(UploadedData(data.title, if thumbnailFile.Some? then Some(objectUrl) else None));
      showUploadProgress := true;
      ghost var initial := uploadProgress;
      for i := 0 to |progressEvents|
        invariant uploadProgress == ProgressAfter(initial, progressEvents[..i])
        invariant showUploadProgress && toasts == old(toasts)
        invariant uploadedData == Some(UploadedData(data.title, if data.thumbnail != [] then Some(objectUrl) else None))
      {
        uploadProgress := progressEvents[i];
      }
      assert progressEvents[..|progressEvents|] == progressEvents;
      match outcome {
        case Fulfilled(response) =>
          if Nullish(response) {
            toasts := toasts + [Error(ErrorToastText(ThrownTypeError))];
            showUploadProgress := false;
          } else if Truthy(Get(response, "success")) {
            uploadProgress := 100;
            toasts := toasts + [Success(PublishedToast)];
          }
        case Rejected(err) =>
          toasts := toasts + [Error(ErrorToastText(err))];
          showUploadProgress := false;
      }
    }

    /**
     * `handleSubmit(handleFormSubmit)` as written: the handler runs when no
     * field reports an error, which includes an oversize file.
     */
    method Submit(data: UploadInput, objectUrl: string, progressEvents: seq<int>, outcome: Settled)
      modifies this
      ensures UploadIssuesAsWritten(data) != [] ==>
        uploadProgress == old(uploadProgress) && showUploadProgress == old(showUploadProgress)
        && uploadedData == old(uploadedData) && toasts == old(toasts)
      ensures UploadIssuesAsWritten(data) == [] ==> uploadedData == Some(UploadedData(data.title, Some(objectUrl)))
      ensures UploadIssuesAsWritten(data) == [] ==> (showUploadProgress <==> outcome.Fulfilled? && !Nullish(outcome.response))
      ensures UploadIssuesAsWritten(data) == [] && outcome.Fulfilled? && Truthy(Get(outcome.response, "success")) ==>
        uploadProgress == 100 && toasts == old(toasts) + [Success(PublishedToast)]
    {
      if UploadIssuesAsWritten(data) == [] {
        HandleFormSubmit(data, objectUrl, progressEvents, outcome);
      }
    }

    /** The submission as intended: the handler runs only when the files are also within the size limits. */
    method SubmitIntended(data: UploadInput, objectUrl: string, progressEvents: seq<int>, outcome: Settled)
      modifies this
      ensures UploadIssues(data) != [] ==>
        uploadProgress == old(uploadProgress) && showUploadProgress == old(showUploadProgress)
        && uploadedData == old(uploadedData) && toasts == old(toasts)
      ensures UploadIssues(data) == [] ==> uploadedData == Some(UploadedData(data.title, Some(objectUrl)))
      ensures UploadIssues(data) == [] ==> (showUploadProgress <==> outcome.Fulfilled? && !Nullish(outcome.response))
      ensures UploadIssues(data) == [] && outcome.Fulfilled? && Truthy(Get(outcome.response, "success")) ==>
        uploadProgress == 100 && toasts == old(toasts) + [Success(PublishedToast)]
    {
      if UploadIssues(data) == [] {
        HandleFormSubmit(data, objectUrl, progressEvents, outcome);
      }
    }
  }
}
