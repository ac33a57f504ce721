/** The admin page's add-only form. It shares the schema of the dictation form
    with the audio always required, reports through `alert`, and resets itself
    after a successful add. Storage, the database and the signed-in user are
    parameters, as in the dictation form. */
module AdminPage {
  import opened Wrappers
  import opened Media
  import opened Schema
  import DictationForm

  const SuccessAlert: string := "Dictation added successfully!"
  const ErrorAlert: string := "Error adding dictation. Please try again."

  /** The page's default values: no type, the other strings empty. */
  const AdminDefaults: FormData := FormData(Undefined, None, Some(""), Some(""), Some(""))

  /** The page never keeps an existing audio, so a valid form always holds a file
      within the size limit and of an accepted type. */
  lemma AdminAudioAlwaysRequired(d: FormData)
    requires Validate(d, false).Success?
    ensures d.audioFile.FileValue?
    ensures SizeAllowed(d.audioFile.file.size) && MimeAllowed(d.audioFile.file.mime)
    ensures Validate(d, false).value.audio == Some(d.audioFile.file)
  {
    ValidateAccepts(d, false);
    ValidateOutput(d, false);
  }

  /** The submit button with fresh defaults, an empty audio field is refused with
      the file message among the others. */
  lemma EmptyPageRefused()
    ensures Validate(AdminDefaults, false) == Failure({InvalidType})
    ensures Validate(AdminDefaults.(kind := Some("Texte")), false).Failure?
    ensures AudioNotFile in Validate(AdminDefaults.(kind := Some("Texte")), false).error
  {
  }

  /** `onSubmit` on values the schema accepted: the signed-in check, the upload
      of `data.audioFile` (a `TypeError` if there were none), the add. */
  function AdminAttempt(v: ValidForm, signedIn: bool, millis: nat, now: int,
                        storage: string -> Option<string>, writeOk: bool): (o: Outcome)
    ensures o.Attempted?
    ensures o.upload == (if signedIn && v.audio.Some? then Some(UploadPath(millis, v.audio.value.name)) else None)
    ensures o.succeeded <==> o.write.Some?
    ensures o.succeeded <==>
      signedIn && v.audio.Some? && writeOk && storage(UploadPath(millis, v.audio.value.name)).Some?
    ensures o.notice == (if o.succeeded then SuccessAlert else ErrorAlert)
    ensures o.succeeded ==>
      && o.write.value.Added?
      && o.write.value.doc.audioUrl == storage(o.upload.value)
      && o.write.value.doc.kind == v.Kind() && o.write.value.doc.content == v.content
      && (v.choice.LetterChoice? ==> o.write.value.doc.letter == Some(v.choice.letter))
      && (v.choice.TextChoice? ==> o.write.value.doc.difficulty == Some(v.choice.difficulty))
      && o.write.value.doc.createdAt == now
  {
    if !signedIn || v.audio.None? then Attempted(None, None, ErrorAlert, false)
    else
      var path := UploadPath(millis, v.audio.value.name);
      var url := storage(path);
      if url.None? || !writeOk then Attempted(Some(path), None, ErrorAlert, false)
      else Attempted(Some(path), Some(Added(BuildDocument(v, url, now))), SuccessAlert, true)
  }

  function AdminSubmission(d: FormData, signedIn: bool, millis: nat, now: int,
                           storage: string -> Option<string>, writeOk: bool): Outcome
  {
    match Validate(d, false)
    case Failure(errs) => Rejected(errs)
    case Success(v) => AdminAttempt(v, signedIn, millis, now, storage, writeOk)
  }

  /** A successful add uploads the chosen file to its timestamped path and
      stores that file's download URL; any failure writes nothing. */
  lemma AdminWrites(d: FormData, signedIn: bool, millis: nat, now: int,
                    storage: string -> Option<string>, writeOk: bool)
    ensures var o := AdminSubmission(d, signedIn, millis, now, storage, writeOk);
      && (o.Rejected? <==> !Acceptable(d, false))
      && (o.Attempted? ==>
            && (o.succeeded <==> o.write.Some?)
            && (o.succeeded <==> signedIn && writeOk && storage(UploadPath(millis, d.audioFile.file.name)).Some?)
            && o.notice == (if o.succeeded then SuccessAlert else ErrorAlert)
            && (signedIn <==> o.upload == Some(UploadPath(millis, d.audioFile.file.name)))
            && (!signedIn ==> o.upload.None?)
            && (o.succeeded ==>
                  && o.write.value.Added?
                  && o.write.value.doc.audioUrl == storage(o.upload.value)
                  && o.write.value.doc.createdAt == now
                  && d.content == Some(o.write.value.doc.content)
                  && d.kind == Some(o.write.value.doc.kind.Name())
                  && (o.write.value.doc.kind == Lettre ==> o.write.value.doc.letter == d.selectedLetter)
                  && (o.write.value.doc.kind == Texte ==>
                        && o.write.value.doc.difficulty.Some?
                        && d.difficulty == Some(o.write.value.doc.difficulty.value.Name()))))
  {
    ValidateAccepts(d, false);
    if Validate(d, false).Success? {
      AdminAudioAlwaysRequired(d);
      ValidateOutput(d, false);
    }
  }

  /** For the same values, a successful add here writes the same record as
      the dictation form does when it adds. */
  lemma SameRecordAsAddForm(d: FormData, millis: nat, now: int, storage: string -> Option<string>)
    ensures var admin := AdminSubmission(d, true, millis, now, storage, true);
            var form := DictationForm.Submission(None, d, false, true, millis, now, storage, true);
      && (admin.Rejected? <==> form.Rejected?)
      && (admin.Attempted? ==> admin.write == form.write && admin.upload == form.upload)
  {
    assert !DictationForm.HasExistingAudio(None, false);
    if Validate(d, false).Success? {
      AdminAudioAlwaysRequired(d);
    }
  }

  class AdminForm {
    var values: FormData
    var selectedIndex: Option<int>
    var isSubmitting: bool
    var fileName: string
    var resetKey: nat
    var errors: set<FormError>
    // the outside
    var alerts: seq<string>
    var uploads: seq<string>
    var writes: seq<Write>

    constructor ()
      ensures values == AdminDefaults && selectedIndex.None? && !isSubmitting && fileName == ""
      ensures resetKey == 0 && errors == {} && alerts == [] && uploads == [] && writes == []
    {
      values := AdminDefaults;
      selectedIndex := None;
      isSubmitting := false;
      fileName := "";
      resetKey := 0;
      errors := {};
      alerts := [];
      uploads := [];
      writes := [];
    }

    /** The recorder's `onAudioChange`: the field and the shown file name. */
    method OnAudioChange(file: Option<AudioFile>)
      modifies this
      ensures values == old(values).(audioFile := if file.Some? then FileValue(file.value) else Null)
      ensures fileName == (if file.Some? then file.value.name else "")
    {
      values := values.(audioFile := if file.Some? then FileValue(file.value) else Null);
      fileName := if file.Some? then file.value.name else "";
    }

    method SetKind(tag: string)
      modifies this
      ensures values == old(values).(kind := Some(tag))
    {
      values := values.(kind := Some(tag));
    }

    method SetContent(text: string)
      modifies this
      ensures values == old(values).(content := Some(text))
    {
      values := values.(content := Some(text));
    }

    method SelectLetter(key: nat)
      requires key < |ArabicLetters|
      modifies this
      ensures values == old(values).(selectedLetter := Some(ArabicLetters[key])) && selectedIndex == Some(key)
      ensures forall k: nat :: DictationForm.Highlighted(selectedIndex, k) <==> k <= key
    {
      values := values.(selectedLetter := Some(ArabicLetters[key]));
      selectedIndex := Some(key);
    }

    method SelectDifficulty(level: Difficulty)
      modifies this
      ensures values == old(values).(difficulty := Some(level.Name()))
    {
      values := values.(difficulty := Some(level.Name()));
    }

    /** `resetForm`: the defaults back, the file name cleared, and a new key,
        which mounts a fresh recorder. */
    method ResetForm()
      modifies this
      ensures values == AdminDefaults && selectedIndex.None? && fileName == "" && errors == {}
      ensures resetKey == old(resetKey) + 1
      ensures alerts == old(alerts) && writes == old(writes) && uploads == old(uploads)
      ensures isSubmitting == old(isSubmitting)
    {
      values := AdminDefaults;
      selectedIndex := None;
      fileName := "";
      errors := {};
      resetKey := resetKey + 1;
    }

    /** The submit button: the schema, then `onSubmit`. */
    method Submit(signedIn: bool, millis: nat, now: int, storage: string -> Option<string>, writeOk: bool)
      modifies this
      ensures var o := AdminSubmission(old(values), signedIn, millis, now, storage, writeOk);
        && errors == (if o.Rejected? then o.errors else {})
        && alerts == old(alerts) + (if o.Attempted? then [o.notice] else [])
        && uploads == old(uploads) + (if o.Attempted? && o.upload.Some? then [o.upload.value] else [])
        && writes == old(writes) + (if o.Attempted? && o.write.Some? then [o.write.value] else [])
        && isSubmitting == (if o.Rejected? then old(isSubmitting) else false)
        && (o.Attempted? && o.succeeded ==>
              values == AdminDefaults && selectedIndex.None? && fileName == "" && resetKey == old(resetKey) + 1)
        && (!(o.Attempted? && o.succeeded) ==>
              values == old(values) && selectedIndex == old(selectedIndex) && fileName == old(fileName) && resetKey == old(resetKey))
    {
      var parsed := Validate(values, false);
      if parsed.Failure? {
        errors := parsed.error;
        return;
      }
      errors := {};
      OnSubmit(parsed.value, signedIn, millis, now, storage, writeOk);
    }

    /** `onSubmit`: the try block, its catch and its finally. */
    method OnSubmit(v: ValidForm, signedIn: bool, millis: nat, now: int, storage: string -> Option<string>, writeOk: bool)
      modifies this
      ensures var o := AdminAttempt(v, signedIn, millis, now, storage, writeOk);
        && alerts == old(alerts) + [o.notice]
        && uploads == old(uploads) + (if o.upload.Some? then [o.upload.value] else [])
        && writes == old(writes) + (if o.write.Some? then [o.write.value] else [])
        && (o.succeeded ==>
              values == AdminDefaults && selectedIndex.None? && fileName == "" && resetKey == old(resetKey) + 1)
        && (!o.succeeded ==>
              values == old(values) && selectedIndex == old(selectedIndex) && fileName == old(fileName) && resetKey == old(resetKey))
      ensures !isSubmitting && errors == (if AdminAttempt(v, signedIn, millis, now, storage, writeOk).succeeded then {} else old(errors))
    {
      isSubmitting := true;
      if !signedIn || v.audio.None? {
        alerts := alerts + [ErrorAlert];
        isSubmitting := false;
        return;
      }
      var path := UploadPath(millis, v.audio.value.name);
      uploads := uploads + [path];
      var audioUrl := storage(path);
      if audioUrl.None? || !writeOk {
        alerts := alerts + [ErrorAlert];
        isSubmitting := false;
        return;
      }
      writes := writes + [Added(BuildDocument(v, audioUrl, now))];
      ResetForm();
      alerts := alerts + [SuccessAlert];
      isSubmitting := false;
    }
  }
}
