/** The `UploadTemplate` form of components/upload-template.tsx: the
    submit check, the simulated progress that an interval advances, and the
    completion that a two-second timeout runs. The timers are left to the
    caller: `Tick` is one run of the interval's callback and `Complete` the
    run of the oldest scheduled timeout. The timeout's closure sees the
    form as it was when the form was submitted, so each submission records
    that snapshot. `added` lists the `onAddTemplate` calls and `toasts` the
    toasts shown, oldest first. */
module UploadTemplate {
  import opened Wrappers
  import opened Text
  import opened Types
  import opened Templates

  const PLACEHOLDER_IMAGE := "/placeholder.svg?height=400&width=300"
  const CUSTOM_PATH := "templates/latex/custom/"
  const CUSTOM_ID_PREFIX := "custom-"

  datatype Toast = Toast(title: string, description: string, destructive: bool)

  const MISSING_INFORMATION := Toast("Missing Information", "Please fill in all required fields.", true)
  const TEMPLATE_ADDED := Toast("Template Added", "Your custom template has been added successfully.", false)

  /** The values the timeout's closure captured at submission. */
  datatype Submission = Submission(name: string, description: string, templateFile: File, previewImage: Option<File>)

  /** One step of the simulated progress: five more, until it is at least 95. */
  function ProgressStep(prev: int): (next: int)
    ensures prev >= 95 ==> next == prev
    ensures prev < 95 ==> next == prev + 5
    ensures 0 <= prev <= 95 && prev % 5 == 0 ==> 0 <= next <= 95 && next % 5 == 0
  {
    if prev >= 95 then prev else prev + 5
  }

  /** The progress after k steps from p. */
  function ProgressAfter(p: int, k: nat): int
    decreases k
  {
    if k == 0 then p else ProgressStep(ProgressAfter(p, k - 1))
  }

  /** From 0, the progress after k steps is 5k until it reaches 95, and 95
      from then on: a multiple of five that never passes 95. */
  lemma {:induction false} ProgressFromZero(k: nat)
    ensures ProgressAfter(0, k) == if 5 * k <= 95 then 5 * k else 95
    ensures ProgressAfter(0, k) % 5 == 0 && 0 <= ProgressAfter(0, k) <= 95
    decreases k
  {
    if k > 0 {
      ProgressFromZero(k - 1);
    }
  }

  /** The template a completion passes to `onAddTemplate`; `now` is
      `Date.now()` and `objectUrl` what `URL.createObjectURL` gives for the
      preview image. */
  function NewTemplate(s: Submission, now: nat, objectUrl: string): (t: Template)
    ensures |CUSTOM_ID_PREFIX| < |t.id| && t.id[..|CUSTOM_ID_PREFIX|] == CUSTOM_ID_PREFIX
    ensures forall i :: |CUSTOM_ID_PREFIX| <= i < |t.id| ==> IsDigit(t.id[i])
    ensures t.name == s.name && t.description == s.description
    ensures t.image == (if s.previewImage.Some? then objectUrl else PLACEHOLDER_IMAGE)
    ensures t.path == CUSTOM_PATH + s.templateFile.name
  {
    Template(CUSTOM_ID_PREFIX + NatToString(now), s.name, s.description,
      if s.previewImage.Some? then objectUrl else PLACEHOLDER_IMAGE,
      CUSTOM_PATH + s.templateFile.name)
  }

  /** Templates completed at different times get different ids. */
  lemma DistinctTimesDistinctIds(s1: Submission, now1: nat, u1: string, s2: Submission, now2: nat, u2: string)
    requires now1 != now2
    ensures NewTemplate(s1, now1, u1).id != NewTemplate(s2, now2, u2).id
  {
    var a, b := NewTemplate(s1, now1, u1).id, NewTemplate(s2, now2, u2).id;
    if a == b {
      assert a[|CUSTOM_ID_PREFIX|..] == NatToString(now1);
      assert b[|CUSTOM_ID_PREFIX|..] == NatToString(now2);
      NatToStringInjective(now1, now2);
    }
  }

  class UploadTemplateForm {
    var isExpanded: bool
    var name: string
    var description: string
    var templateFile: Option<File>
    var previewImage: Option<File>
    var isUploading: bool
    var uploadProgress: int
    var intervalActive: bool
    var pending: seq<Submission>
    var added: seq<Template>
    var toasts: seq<Toast>

    constructor()
      ensures !isExpanded && name == "" && description == "" && templateFile == None && previewImage == None
      ensures !isUploading && uploadProgress == 0 && !intervalActive
      ensures pending == [] && added == [] && toasts == []
    {
      isExpanded := false;
      name := "";
      description := "";
      templateFile := None;
      previewImage := None;
      isUploading := false;
      uploadProgress := 0;
      intervalActive := false;
      pending := [];
      added := [];
      toasts := [];
    }

    /** `handleTemplateUpload`, the `onFileSelect` of the ".tex" uploader. */
    method TemplateUpload(file: File)
      modifies this
      ensures templateFile == Some(file)
      ensures isExpanded == old(isExpanded) && name == old(name) && description == old(description)
      ensures previewImage == old(previewImage) && isUploading == old(isUploading)
      ensures uploadProgress == old(uploadProgress) && intervalActive == old(intervalActive)
      ensures pending == old(pending) && added == old(added) && toasts == old(toasts)
    {
      templateFile := Some(file);
    }

    /** `handlePreviewUpload`, the `onFileSelect` of the image uploader. */
    method PreviewUpload(file: File)
      modifies this
      ensures previewImage == Some(file)
      ensures isExpanded == old(isExpanded) && name == old(name) && description == old(description)
      ensures templateFile == old(templateFile) && isUploading == old(isUploading)
      ensures uploadProgress == old(uploadProgress) && intervalActive == old(intervalActive)
      ensures pending == old(pending) && added == old(added) && toasts == old(toasts)
    {
      previewImage := Some(file);
    }

    /** `handleSubmit`. An empty name, an empty description or no template
        file shows the missing-information toast and starts nothing.
        Otherwise the upload starts: the interval runs and the completion
        is scheduled with the form as it is now. */
    method HandleSubmit()
      modifies this
      ensures name == old(name) && description == old(description)
      ensures templateFile == old(templateFile) && previewImage == old(previewImage)
      ensures isExpanded == old(isExpanded) && uploadProgress == old(uploadProgress) && added == old(added)
      ensures old(name) == "" || old(description) == "" || old(templateFile).None? ==>
        && toasts == old(toasts) + [MISSING_INFORMATION]
        && isUploading == old(isUploading) && intervalActive == old(intervalActive) && pending == old(pending)
      ensures old(name) != "" && old(description) != "" && old(templateFile).Some? ==>
        && toasts == old(toasts) && isUploading && intervalActive
        && pending == old(pending) + [Submission(old(name), old(description), old(templateFile).value, old(previewImage))]
    {
      if name == "" || description == "" || templateFile.None? {
        toasts := toasts + [MISSING_INFORMATION];
        return;
      }
      isUploading := true;
      intervalActive := true;
      pending := pending + [Submission(name, description, templateFile.value, previewImage)];
    }

    /** One run of the interval's callback: it steps the progress, and
        stops the interval once the progress is at least 95. */
    method Tick()
      modifies this
      ensures old(intervalActive) ==> uploadProgress == ProgressStep(old(uploadProgress))
      ensures old(intervalActive) ==> (intervalActive <==> old(uploadProgress) < 95)
      ensures !old(intervalActive) ==> uploadProgress == old(uploadProgress) && !intervalActive
      ensures isExpanded == old(isExpanded) && name == old(name) && description == old(description)
      ensures templateFile == old(templateFile) && previewImage == old(previewImage)
      ensures isUploading == old(isUploading) && pending == old(pending)
      ensures added == old(added) && toasts == old(toasts)
    {
      if intervalActive {
        if uploadProgress >= 95 {
          intervalActive := false;
        }
        uploadProgress := ProgressStep(uploadProgress);
      }
    }

    /** The timeout's callback: it stops the interval, passes the new
        template to `onAddTemplate` once, resets and collapses the form and
        shows the success toast. It sets the progress to 100 and, in the
        same callback, back to 0, so only 0 is ever rendered. */
    method Complete(now: nat, objectUrl: string)
      requires pending != []
      modifies this
      ensures added == old(added) + [NewTemplate(old(pending)[0], now, objectUrl)]
      ensures pending == old(pending)[1..]
      ensures name == "" && description == "" && templateFile == None && previewImage == None
      ensures !isUploading && uploadProgress == 0 && !isExpanded && !intervalActive
      ensures toasts == old(toasts) + [TEMPLATE_ADDED]
    {
      var submission := pending[0];
      pending := pending[1..];
      intervalActive := false;
      uploadProgress := 100;
      var newTemplate := NewTemplate(submission, now, objectUrl);
      added := added + [newTemplate];
      ResetForm();
      toasts := toasts + [TEMPLATE_ADDED];
    }

    /** The reset after a completion: empty fields, no upload, collapsed. */
    method ResetForm()
      modifies this
      ensures name == "" && description == "" && templateFile == None && previewImage == None
      ensures !isUploading && uploadProgress == 0 && !isExpanded
      ensures intervalActive == old(intervalActive) && pending == old(pending)
      ensures added == old(added) && toasts == old(toasts)
    {
      name := "";
      description := "";
      templateFile := None;
      previewImage := None;
      isUploading := false;
      uploadProgress := 0;
      isExpanded := false;
    }
  }
}
