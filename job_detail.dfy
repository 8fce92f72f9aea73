/**
 * The job detail page: loading the job by slug, the application form and its
 * field updates, the storage path given to each uploaded file, and the submit
 * handler with its guards in a fixed order followed by upload, insert and a
 * best-effort notification.
 */
module JobDetail {
  import opened Wrappers
  import opened Text
  import opened Json
  import opened Records
  import Http
  import ApplicationEmail

  const DefaultBucket := "resumes"
  const JobNotLoaded := "Job is not loaded"
  const ConsentRequired := "Please agree to share your data for recruitment purposes."
  const FieldsRequired := "Please fill in all required fields and upload your resume."
  const Submitted := "Application submitted successfully. Thank you!"

  /** A file chosen in a file input; only its name matters here. */
  datatype File = File(name: string)

  /** `Date.now()` and `Math.round(Math.random() * 1e6)` at the moment of an upload. */
  datatype Stamp = Stamp(millis: nat, random: nat)

  // ---------------------------------------------------------------------------
  // Upload paths
  // ---------------------------------------------------------------------------

  /** `name.split('.').pop()`: the text after the last dot, the whole name when there is none. */
  function Extension(name: string): string {
    Last(Split(name, '.'))
  }

  /** `<ts>-<rand>.<ext>`. */
  function FileName(stamp: Stamp, ext: string): string {
    Decimal(stamp.millis) + "-" + Decimal(stamp.random) + "." + ext
  }

  /** `uploadFile`'s path: `<folder>/<ts>-<rand>.<ext>`. */
  function UploadPath(folder: string, file: File, stamp: Stamp): string {
    folder + "/" + FileName(stamp, Extension(file.name))
  }

  /** The folder the submit handler uploads into: `applications/<slug>`. */
  function UploadFolder(job: Job): string {
    "applications/" + job.slug
  }

  /** The position of the first `c` in `s`, or `|s|` when there is none. */
  function FirstIndex(s: string, c: char): (i: nat)
    ensures i <= |s|
    ensures c !in s[..i]
    ensures i < |s| ==> s[i] == c
  {
    if s == [] then 0
    else if s[0] == c then 0
    else
      var j := FirstIndex(s[1..], c);
      assert s[..1 + j] == [s[0]] + s[1..][..j];
      1 + j
  }

  lemma {:induction false} FirstIndexAfter(x: string, c: char, y: string)
    requires c !in x
    ensures FirstIndex(x + [c] + y, c) == |x|
    decreases |x|
  {
    if x != [] {
      assert x[0] in x;
      assert (x + [c] + y)[1..] == x[1..] + [c] + y;
      assert forall d :: d in x[1..] ==> d in x;
      FirstIndexAfter(x[1..], c, y);
    }
  }

  /** What a stored file name records: the stamp of the upload and the original extension. */
  datatype StoredName = StoredName(stamp: Stamp, ext: string)

  /** Reads `<ts>-<rand>.<ext>` back; `None` when the name does not have that shape. */
  function ParseFileName(fileName: string): Option<StoredName> {
    var i := FirstIndex(fileName, '-');
    if i == |fileName| then None
    else
      var millis := fileName[..i];
      var rest := fileName[i + 1..];
      var k := FirstIndex(rest, '.');
      if k == |rest| then None
      else
        var random := rest[..k];
        if millis == [] || random == [] || !AllDigits(millis) || !AllDigits(random) then None
        else Some(StoredName(Stamp(DecimalValue(millis), DecimalValue(random)), rest[k + 1..]))
  }

  lemma DigitsLack(s: string, c: char)
    requires AllDigits(s) && !IsDigit(c)
    ensures c !in s
  {
    assert forall i :: 0 <= i < |s| ==> s[i] != c;
  }

  /** A stored file name gives back the stamp and the extension it was built from. */
  lemma FileNameRoundTrip(stamp: Stamp, ext: string)
    ensures ParseFileName(FileName(stamp, ext)) == Some(StoredName(stamp, ext))
  {
    var m, r := Decimal(stamp.millis), Decimal(stamp.random);
    var rest := r + "." + ext;
    DigitsLack(m, '-');
    DigitsLack(r, '.');
    assert FileName(stamp, ext) == m + ['-'] + rest;
    FirstIndexAfter(m, '-', rest);
    assert (m + ['-'] + rest)[..|m|] == m;
    assert (m + ['-'] + rest)[|m| + 1..] == rest;
    assert rest == r + ['.'] + ext;
    FirstIndexAfter(r, '.', ext);
    assert rest[..|r|] == r;
    assert rest[|r| + 1..] == ext;
    DecimalRoundTrip(stamp.millis);
    DecimalRoundTrip(stamp.random);
  }

  /** The extension is the text after the last dot: it holds no dot, and it is the whole name when there is none. */
  lemma ExtensionAfterLastDot(name: string)
    ensures '.' !in Extension(name)
    ensures '.' !in name ==> Extension(name) == name
    ensures '.' in name ==>
      var ext := Extension(name);
      |ext| < |name| && name[|name| - |ext| - 1..] == "." + ext
  {
    var parts := Split(name, '.');
    SplitPieces(name, '.');
    assert Last(parts) == parts[|parts| - 1];
    if '.' in name {
      JoinSplit(name, '.');
      JoinFrame(parts, '.');
    }
  }

  /**
   * An upload path lies in its folder, and its file name records the upload's
   * stamp and the chosen file's extension.
   */
  lemma UploadPathParts(folder: string, file: File, stamp: Stamp)
    ensures var p := UploadPath(folder, file, stamp);
      && folder + "/" <= p
      && ParseFileName(p[|folder| + 1..]) == Some(StoredName(stamp, Extension(file.name)))
  {
    var fn := FileName(stamp, Extension(file.name));
    assert UploadPath(folder, file, stamp)[|folder| + 1..] == fn;
    FileNameRoundTrip(stamp, Extension(file.name));
  }

  /** The stored object keeps the chosen file's extension. */
  lemma UploadPathKeepsExtension(folder: string, file: File, stamp: Stamp)
    ensures Extension(UploadPath(folder, file, stamp)) == Extension(file.name)
  {
    var ext := Extension(file.name);
    var x := folder + "/" + Decimal(stamp.millis) + "-" + Decimal(stamp.random);
    assert UploadPath(folder, file, stamp) == x + ['.'] + ext;
    SplitAround(x, '.', ext);
    ExtensionAfterLastDot(file.name);
    SplitPieces(ext, '.');
  }

  /** Two uploads with different stamps never share a path. */
  lemma DistinctStampsDistinctPaths(folder: string, file1: File, file2: File, stamp1: Stamp, stamp2: Stamp)
    requires stamp1 != stamp2
    ensures UploadPath(folder, file1, stamp1) != UploadPath(folder, file2, stamp2)
  {
    UploadPathParts(folder, file1, stamp1);
    UploadPathParts(folder, file2, stamp2);
  }

  // ---------------------------------------------------------------------------
  // The application form
  // ---------------------------------------------------------------------------

  datatype Form = Form(
    fullName: string,
    email: string,
    phoneNumber: string,
    location: string,
    howHeard: string,
    whyInterested: string,
    experience: string,
    resume: Option<File>,
    coverLetter: Option<File>,
    agreeDataSharing: bool)

  /** The form as first shown and as reset after a successful submission. */
  const EmptyForm := Form("", "", "", "", "", "", "", None, None, false)

  /** The seven text inputs, all of them required. */
  datatype TextField = FullName | Email | PhoneNumber | Location | HowHeard | WhyInterested | Experience

  /** The two file inputs. */
  datatype FileField = Resume | CoverLetter

  function FieldText(form: Form, field: TextField): string {
    match field
    case FullName => form.fullName
    case Email => form.email
    case PhoneNumber => form.phoneNumber
    case Location => form.location
    case HowHeard => form.howHeard
    case WhyInterested => form.whyInterested
    case Experience => form.experience
  }

  function WithText(form: Form, field: TextField, value: string): Form {
    match field
    case FullName => form.(fullName := value)
    case Email => form.(email := value)
    case PhoneNumber => form.(phoneNumber := value)
    case Location => form.(location := value)
    case HowHeard => form.(howHeard := value)
    case WhyInterested => form.(whyInterested := value)
    case Experience => form.(experience := value)
  }

  function FieldFile(form: Form, field: FileField): Option<File> {
    match field
    case Resume => form.resume
    case CoverLetter => form.coverLetter
  }

  /** `files?.[0] ?? null`. */
  function FirstFile(files: seq<File>): (f: Option<File>)
    ensures f.Some? <==> files != []
    ensures f.Some? ==> f.value == files[0]
  {
    if files == [] then None else Some(files[0])
  }

  /** A change event: a text input's new value, or the consent checkbox's new state. */
  datatype Change = Edited(field: TextField, value: string) | Ticked(checked: bool)

  /**
   * The submit guards, in order: the job is loaded, consent is given, the
   * seven text fields are filled and a resume is chosen. `None` lets the
   * submission go ahead.
   */
  function Rejection(job: Option<Job>, form: Form): (r: Option<string>)
    ensures job.None? ==> r == Some(JobNotLoaded)
    ensures job.Some? && !form.agreeDataSharing ==> r == Some(ConsentRequired)
    ensures job.Some? && form.agreeDataSharing && r.Some? ==> r == Some(FieldsRequired)
    ensures r.None? <==>
      && job.Some? && form.agreeDataSharing
      && (forall f: TextField :: FieldText(form, f) != "")
      && form.resume.Some?
  {
    if job.None? then Some(JobNotLoaded)
    else if !form.agreeDataSharing then Some(ConsentRequired)
    else if form.fullName == "" || form.email == "" || form.phoneNumber == "" || form.location == ""
         || form.howHeard == "" || form.whyInterested == "" || form.experience == "" || form.resume.None? then
      assert FieldText(form, FullName) == "" || FieldText(form, Email) == "" || FieldText(form, PhoneNumber) == ""
          || FieldText(form, Location) == "" || FieldText(form, HowHeard) == "" || FieldText(form, WhyInterested) == ""
          || FieldText(form, Experience) == "" || form.resume.None?;
      Some(FieldsRequired)
    else
      None
  }

  /** The cover letter never decides whether a submission goes ahead. */
  lemma CoverLetterNeverRequired(job: Option<Job>, form: Form, cover: Option<File>)
    ensures Rejection(job, form.(coverLetter := cover)) == Rejection(job, form)
  {
  }

  /** `message || fallback`. */
  function OrElse(message: string, fallback: string): (r: string)
    requires fallback != ""
    ensures r != ""
    ensures message != "" ==> r == message
    ensures message == "" ==> r == fallback
  {
    if message != "" then message else fallback
  }

  // ---------------------------------------------------------------------------
  // What a submission sends
  // ---------------------------------------------------------------------------

  /** An external call the submit handler makes, in order. */
  datatype Call =
    | Upload(bucket: string, path: string, file: File)
    | InsertApplication(row: Value)
    | Notify(url: string, body: Value)

  datatype UploadReply = Uploaded | UploadFailed(message: string)

  /** The inserted row the database hands back, or its error. */
  datatype InsertReply = Inserted(row: Value) | InsertFailed(message: string)

  /** The row inserted into `applications`: form fields, stored paths (not URLs), the job id and the consent. */
  function NewApplication(job: Job, form: Form, resumePath: string, coverLetterPath: Option<string>): Value {
    Obj(map[
      "job_id" := Str(job.id),
      "full_name" := Str(form.fullName),
      "email" := Str(form.email),
      "phone_number" := Str(form.phoneNumber),
      "location" := Str(form.location),
      "how_heard" := Str(form.howHeard),
      "why_interested" := Str(form.whyInterested),
      "experience" := Str(form.experience),
      "resume_path" := Str(resumePath),
      "cover_letter_path" := OptionalStr(coverLetterPath),
      "agree_data_sharing" := Bool(form.agreeDataSharing)])
  }

  /** The body of the notification request: `{ application: inserted, job }`. */
  function NotifyBody(inserted: Value, job: Job): Value {
    Obj(map["application" := inserted, "job" := JobJson(job)])
  }

  /** The path of the cover letter, when one is chosen. */
  function CoverLetterPath(job: Job, form: Form, stamp: Stamp): Option<string> {
    if form.coverLetter.Some? then Some(UploadPath(UploadFolder(job), form.coverLetter.value, stamp)) else None
  }

  /** The uploads a submission starts with: the resume, then the cover letter when there is one. */
  function Uploads(bucket: string, job: Job, form: Form, resumeStamp: Stamp, coverStamp: Stamp): seq<Call>
    requires form.resume.Some?
  {
    [Upload(bucket, UploadPath(UploadFolder(job), form.resume.value, resumeStamp), form.resume.value)]
    + (if form.coverLetter.Some? then [Upload(bucket, CoverLetterPath(job, form, coverStamp).value, form.coverLetter.value)] else [])
  }

  /** Every chosen file was stored. */
  predicate UploadsSucceed(form: Form, resumeReply: UploadReply, coverReply: UploadReply) {
    resumeReply.Uploaded? && (form.coverLetter.None? || coverReply.Uploaded?)
  }

  /** The inserted row stores the resume path always and the cover-letter path exactly when a cover letter was chosen. */
  lemma StoredPaths(job: Job, form: Form, resumeStamp: Stamp, coverStamp: Stamp)
    requires form.resume.Some?
    ensures var row := NewApplication(job, form, UploadPath(UploadFolder(job), form.resume.value, resumeStamp),
                                      CoverLetterPath(job, form, coverStamp));
      && Truthy(Member(row, "resume_path"))
      && (Member(row, "cover_letter_path") == Null <==> form.coverLetter.None?)
      && Member(row, "job_id") == Str(job.id)
  {
  }

  /**
   * The notification the page sends passes the notification handler's
   * validation once the handler is configured, and its subject names the job
   * and the applicant.
   */
  lemma NotifyAccepted(inserted: Value, job: Job, name: string, env: Http.Env)
    requires inserted.Obj? && Member(inserted, "full_name") == Str(name)
    requires ApplicationEmail.Configured(env)
    ensures var d := ApplicationEmail.Dispatch(Http.Request("POST", Some(NotifyBody(inserted, job))), env);
      d.Send? && d.mail.subject == "New application: " + job.title + " \U{2014} " + name
  {
  }

  /** The message of the first failing step of a submission that passed its guards; `None` when every step succeeds. */
  function SubmitError(form: Form, resumeReply: UploadReply, coverReply: UploadReply, insertReply: InsertReply): Option<string> {
    if resumeReply.UploadFailed? then Some(resumeReply.message)
    else if form.coverLetter.Some? && coverReply.UploadFailed? then Some(coverReply.message)
    else if insertReply.InsertFailed? then Some(insertReply.message)
    else None
  }

  /**
   * The external calls of a submission that passed its guards: the uploads,
   * stopping at the first failed one, then the insert, then the notification
   * when the insert succeeded and a functions base is set.
   */
  function SubmitCalls(bucket: string, functionBase: string, job: Job, form: Form, resumeStamp: Stamp, coverStamp: Stamp,
                       resumeReply: UploadReply, coverReply: UploadReply, insertReply: InsertReply): seq<Call>
    requires form.resume.Some?
  {
    var uploads := Uploads(bucket, job, form, resumeStamp, coverStamp);
    if resumeReply.UploadFailed? then uploads[..1]
    else if !UploadsSucceed(form, resumeReply, coverReply) then uploads
    else
      var row := NewApplication(job, form, UploadPath(UploadFolder(job), form.resume.value, resumeStamp),
                                CoverLetterPath(job, form, coverStamp));
      uploads + [InsertApplication(row)]
      + (if insertReply.Inserted? && functionBase != "" then
           [Notify(functionBase + "/send-application-email", NotifyBody(insertReply.row, job))]
         else [])
  }

  /**
   * The `try` block of `handleSubmit`: upload the resume, then the cover letter
   * when one is chosen, then insert the row, then notify when a functions base
   * is set. The first failure stops the sequence and is returned.
   */
  method Submit(bucket: string, functionBase: string, job: Job, form: Form, resumeStamp: Stamp, coverStamp: Stamp,
                resumeReply: UploadReply, coverReply: UploadReply, insertReply: InsertReply)
    returns (calls: seq<Call>, error: Option<string>)
    requires form.resume.Some?
    ensures calls == SubmitCalls(bucket, functionBase, job, form, resumeStamp, coverStamp, resumeReply, coverReply, insertReply)
    ensures error == SubmitError(form, resumeReply, coverReply, insertReply)
  {
    var folder := UploadFolder(job);
    var resumePath := UploadPath(folder, form.resume.value, resumeStamp);
    calls := [Upload(bucket, resumePath, form.resume.value)];
    if resumeReply.UploadFailed? {
      return calls, Some(resumeReply.message);
    }
    var coverPath: Option<string> := None;
    if form.coverLetter.Some? {
      var p := UploadPath(folder, form.coverLetter.value, coverStamp);
      calls := calls + [Upload(bucket, p, form.coverLetter.value)];
      if coverReply.UploadFailed? {
        return calls, Some(coverReply.message);
      }
      coverPath := Some(p);
    }
    calls := calls + [InsertApplication(NewApplication(job, form, resumePath, coverPath))];
    if insertReply.InsertFailed? {
      return calls, Some(insertReply.message);
    }
    if functionBase != "" {
      calls := calls + [Notify(functionBase + "/send-application-email", NotifyBody(insertReply.row, job))];
    }
    error := None;
  }

  /**
   * The order of a submission's calls: the resume upload comes first, every
   * upload lands in the job's folder of the bucket, the row is inserted exactly
   * when every chosen file was stored, and the notification, when sent, comes
   * last and only after a successful insert. The submission succeeds exactly
   * when the uploads and the insert do, whatever becomes of the notification.
   */
  lemma SubmitSteps(bucket: string, functionBase: string, job: Job, form: Form, resumeStamp: Stamp, coverStamp: Stamp,
                    resumeReply: UploadReply, coverReply: UploadReply, insertReply: InsertReply)
    requires form.resume.Some?
    ensures var calls := SubmitCalls(bucket, functionBase, job, form, resumeStamp, coverStamp, resumeReply, coverReply, insertReply);
      && 1 <= |calls| <= 4
      && calls[0] == Upload(bucket, UploadPath(UploadFolder(job), form.resume.value, resumeStamp), form.resume.value)
      && (forall i :: 0 <= i < |calls| && calls[i].Upload? ==>
            calls[i].bucket == bucket && UploadFolder(job) + "/" <= calls[i].path)
      && ((exists i :: 0 <= i < |calls| && calls[i].InsertApplication?) <==> UploadsSucceed(form, resumeReply, coverReply))
      && (calls[|calls| - 1].Notify? <==>
            UploadsSucceed(form, resumeReply, coverReply) && insertReply.Inserted? && functionBase != "")
      && (forall i :: 0 <= i < |calls| - 1 ==> !calls[i].Notify?)
    ensures SubmitError(form, resumeReply, coverReply, insertReply).None? <==>
      UploadsSucceed(form, resumeReply, coverReply) && insertReply.Inserted?
  {
    var calls := SubmitCalls(bucket, functionBase, job, form, resumeStamp, coverStamp, resumeReply, coverReply, insertReply);
    var uploads := Uploads(bucket, job, form, resumeStamp, coverStamp);
    if UploadsSucceed(form, resumeReply, coverReply) {
      assert calls[|uploads|].InsertApplication?;
    } else {
      assert forall i :: 0 <= i < |calls| ==> calls[i].Upload?;
    }
  }

  /**
   * What a submission uploads and inserts: the cover letter is the second call
   * exactly when one is chosen (and the resume upload succeeded), stored under
   * its own path, and the inserted row records the paths the files were
   * uploaded to.
   */
  lemma SubmitUploadsAndRow(bucket: string, functionBase: string, job: Job, form: Form, resumeStamp: Stamp, coverStamp: Stamp,
                            resumeReply: UploadReply, coverReply: UploadReply, insertReply: InsertReply)
    requires form.resume.Some?
    ensures var calls := SubmitCalls(bucket, functionBase, job, form, resumeStamp, coverStamp, resumeReply, coverReply, insertReply);
      && (resumeReply.Uploaded? ==> (form.coverLetter.Some? <==> |calls| >= 2 && calls[1].Upload?))
      && (resumeReply.Uploaded? && form.coverLetter.Some? ==>
            calls[1] == Upload(bucket, CoverLetterPath(job, form, coverStamp).value, form.coverLetter.value))
      && (forall i :: 0 <= i < |calls| && calls[i].InsertApplication? ==>
            calls[i].row == NewApplication(job, form, UploadPath(UploadFolder(job), form.resume.value, resumeStamp),
                                           CoverLetterPath(job, form, coverStamp)))
  {
    var calls := SubmitCalls(bucket, functionBase, job, form, resumeStamp, coverStamp, resumeReply, coverReply, insertReply);
    var uploads := Uploads(bucket, job, form, resumeStamp, coverStamp);
    assert forall i :: 0 <= i < |uploads| ==> uploads[i].Upload?;
    if UploadsSucceed(form, resumeReply, coverReply) {
      assert forall i :: 0 <= i < |calls| && calls[i].InsertApplication? ==> i == |uploads|;
    } else {
      assert forall i :: 0 <= i < |calls| ==> calls[i].Upload?;
    }
  }

  /** How the job query ended: a row, no row, or an error with its message. */
  datatype JobReply = Found(job: Job) | NotFound | QueryFailed(message: string)

  // ---------------------------------------------------------------------------
  // Page state
  // ---------------------------------------------------------------------------

  /** The job detail component's state. */
  class JobDetailPage {
    /** The route's slug. */
    const slug: string
    /** The storage bucket: `VITE_STORAGE_BUCKET`, or `"resumes"` when unset. */
    const bucket: string
    /** The functions base URL; the empty string when unset. */
    const functionBase: string
    var job: Option<Job>
    var loading: bool
    var msg: Option<string>
    var form: Form
    var submitting: bool

    constructor (slug: string, storageBucket: string, functionBase: string)
      ensures this.slug == slug && this.functionBase == functionBase
      ensures bucket == if storageBucket != "" then storageBucket else DefaultBucket
      ensures job == None && loading && msg == None && form == EmptyForm && !submitting
    {
      this.slug := slug;
      bucket := if storageBucket != "" then storageBucket else DefaultBucket;
      this.functionBase := functionBase;
      job := None;
      loading := true;
      msg := None;
      form := EmptyForm;
      submitting := false;
    }

    /** `fetchJob`: the row when found, "Job not found" when absent, the error's message when the query fails. */
    method FetchJob(reply: JobReply)
      modifies this`job, this`loading, this`msg
      ensures !loading
      ensures reply.Found? ==> job == Some(reply.job) && msg == None
      ensures reply.NotFound? ==> job == None && msg == Some("Job not found")
      ensures reply.QueryFailed? ==> job == old(job) && msg == Some(OrElse(reply.message, "Error loading job"))
    {
      loading := true;
      msg := None;
      match reply {
        case Found(j) =>
          job := Some(j);
        case NotFound =>
          msg := Some("Job not found");
          job := None;
        case QueryFailed(message) =>
          msg := Some(OrElse(message, "Error loading job"));
      }
      loading := false;
    }

    /** The mount effect: fetch only when the route has a slug; otherwise the page stays as it is. */
    method Mount(reply: JobReply) returns (fetched: bool)
      modifies this`job, this`loading, this`msg
      ensures fetched <==> slug != ""
      ensures !fetched ==> unchanged(this)
      ensures fetched ==> !loading
      ensures fetched && reply.Found? ==> job == Some(reply.job) && msg == None
      ensures fetched && reply.NotFound? ==> job == None && msg == Some("Job not found")
      ensures fetched && reply.QueryFailed? ==> job == old(job) && msg == Some(OrElse(reply.message, "Error loading job"))
    {
      fetched := slug != "";
      if fetched {
        FetchJob(reply);
      }
    }

    /** `handleChange`: set the named text field, or the consent for the checkbox; nothing else changes. */
    method HandleChange(change: Change)
      modifies this`form
      ensures change.Edited? ==> FieldText(form, change.field) == change.value
      ensures change.Edited? ==> forall f :: f != change.field ==> FieldText(form, f) == FieldText(old(form), f)
      ensures change.Edited? ==>
        && form.resume == old(form).resume && form.coverLetter == old(form).coverLetter
        && form.agreeDataSharing == old(form).agreeDataSharing
      ensures change.Ticked? ==> form == old(form).(agreeDataSharing := change.checked)
    {
      match change {
        case Edited(field, value) =>
          form := WithText(form, field, value);
        case Ticked(checked) =>
          form := form.(agreeDataSharing := checked);
      }
    }

    /** `handleFile`: set the named file input to the first chosen file, or to none; nothing else changes. */
    method HandleFile(field: FileField, files: seq<File>)
      modifies this`form
      ensures FieldFile(form, field) == FirstFile(files)
      ensures field == Resume ==> form.coverLetter == old(form).coverLetter
      ensures field == CoverLetter ==> form.resume == old(form).resume
      ensures forall f :: FieldText(form, f) == FieldText(old(form), f)
      ensures form.agreeDataSharing == old(form).agreeDataSharing
    {
      match field {
        case Resume => form := form.(resume := FirstFile(files));
        case CoverLetter => form := form.(coverLetter := FirstFile(files));
      }
    }

    /**
     * `handleSubmit`. A rejected submission only sets the message. Otherwise
     * the calls are those of `SubmitCalls`; the first failure sets its message
     * and keeps the form, and success resets the form.
     */
    method HandleSubmit(resumeStamp: Stamp, coverStamp: Stamp, resumeReply: UploadReply, coverReply: UploadReply,
                        insertReply: InsertReply) returns (calls: seq<Call>)
      modifies this`msg, this`form, this`submitting
      ensures Rejection(job, old(form)).Some? ==>
        calls == [] && msg == Rejection(job, old(form)) && form == old(form) && submitting == old(submitting)
      ensures Rejection(job, old(form)).None? ==>
        && !submitting
        && calls == SubmitCalls(bucket, functionBase, job.value, old(form), resumeStamp, coverStamp, resumeReply, coverReply, insertReply)
      ensures Rejection(job, old(form)).None? && SubmitError(old(form), resumeReply, coverReply, insertReply).Some? ==>
        && msg == Some(OrElse(SubmitError(old(form), resumeReply, coverReply, insertReply).value, "Submission failed"))
        && form == old(form)
      ensures Rejection(job, old(form)).None? && SubmitError(old(form), resumeReply, coverReply, insertReply).None? ==>
        msg == Some(Submitted) && form == EmptyForm
    {
      msg := None;
      calls := [];
      var rejection := Rejection(job, form);
      if rejection.Some? {
        msg := rejection;
        return;
      }
      submitting := true;
      var error;
      calls, error := Submit(bucket, functionBase, job.value, form, resumeStamp, coverStamp, resumeReply, coverReply, insertReply);
      if error.Some? {
        msg := Some(OrElse(error.value, "Submission failed"));
      } else {
        msg := Some(Submitted);
        form := EmptyForm;
      }
      submitting := false;
    }
  }
}
