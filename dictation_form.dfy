/** The dictation form used both to add a record and to edit one. Its values
    live in the form library's store; the submit handler validates them,
    uploads a new audio file if there is one, writes the record and reports
    the result through the flash message. Storage, the database and the
    signed-in user are parameters: `storage` maps a storage path to the
    download URL, or to `None` when the upload or the URL request fails. */
module DictationForm {
  import opened Wrappers
  import opened Media
  import opened Schema
  import Flash
  import AudioRecorder

  /** The record being edited, with its id. */
  datatype Initial = Initial(id: string, doc: Document)

  const AddedNotice: string := "Dictée ajoutée avec succès !"
  const UpdatedNotice: string := "Dictée modifiée avec succès !"
  const ErrorNotice: string := "Erreur lors de l'ajout de la dictée. Veuillez réessayer."

  /** `initialData?.audioUrl`. */
  function InitialAudioUrl(init: Option<Initial>): Option<string> {
    if init.Some? then init.value.doc.audioUrl else None
  }

  /** `!!initialData?.audioUrl && !isEditingAudio`: the stored audio is kept. */
  predicate HasExistingAudio(init: Option<Initial>, editingAudio: bool) {
    InitialAudioUrl(init).Some? && InitialAudioUrl(init).value != "" && !editingAudio
  }

  /** `value || ''` on an optional stored string. */
  function OrEmpty(s: Option<string>): string {
    if s.Some? && s.value != "" then s.value else ""
  }

  /** The form's default values. */
  function Defaults(init: Option<Initial>): FormData {
    match init
    case None => FormData(Undefined, Some(""), Some(""), Some(""), Some(""))
    case Some(i) =>
      FormData(Undefined, Some(i.doc.kind.Name()), Some(OrEmpty(Some(i.doc.content))),
               Some(OrEmpty(i.doc.letter)),
               Some(if i.doc.difficulty.Some? then i.doc.difficulty.value.Name() else ""))
  }

  /** The values after the effect that copies the record into the form. */
  function Prefilled(init: Option<Initial>): FormData {
    var d := Defaults(init);
    match init
    case None => d
    case Some(i) =>
      var d := d.(kind := Some(i.doc.kind.Name()), content := Some(i.doc.content));
      if i.doc.kind == Lettre then d.(selectedLetter := i.doc.letter)
      else d.(difficulty := if i.doc.difficulty.Some? then Some(i.doc.difficulty.value.Name()) else None)
  }

  /** Editing a record this form wrote, without touching anything, validates
      back to the same content and classification, keeping the stored audio. */
  lemma PrefilledRevalidates(id: string, v: ValidForm, url: string, createdAt: int)
    requires url != "" && v.content != ""
    requires v.choice.LetterChoice? ==> v.choice.letter in ArabicLetters
    ensures var init := Some(Initial(id, BuildDocument(v, Some(url), createdAt)));
      && HasExistingAudio(init, false)
      && Validate(Prefilled(init), true) == Success(ValidForm(None, v.content, v.choice))
  {
    var d := Prefilled(Some(Initial(id, BuildDocument(v, Some(url), createdAt))));
    PrefilledFields(id, v, url, createdAt);
    KindNameRoundTrip(v.Kind());
    assert ParseKind(d.kind) == Some(v.Kind());
    assert AudioIssues(d.audioFile, true) == {} && ContentIssues(d.content) == {};
    match v.choice
    case LetterChoice(letter) =>
      assert ChoiceIssues(Lettre, d) == {};
    case TextChoice(level) =>
      DifficultyNameRoundTrip(level);
      assert ChoiceIssues(Texte, d) == {};
  }

  lemma PrefilledFields(id: string, v: ValidForm, url: string, createdAt: int)
    ensures var d := Prefilled(Some(Initial(id, BuildDocument(v, Some(url), createdAt))));
      && d.audioFile == Undefined && d.kind == Some(v.Kind().Name()) && d.content == Some(v.content)
      && (v.choice.LetterChoice? ==> d.selectedLetter == Some(v.choice.letter))
      && (v.choice.TextChoice? ==> d.difficulty == Some(v.choice.difficulty.Name()))
  {
  }

  /** A letter button is highlighted when the selected index is at least its key. */
  predicate Highlighted(selectedIndex: Option<int>, key: nat) {
    selectedIndex.Some? && selectedIndex.value >= key
  }

  /** The highlighted letters are the prefix of the alphabet up to the selection. */
  lemma HighlightIsPrefix(selectedIndex: Option<int>, i: nat, j: nat)
    requires i <= j
    ensures Highlighted(selectedIndex, j) ==> Highlighted(selectedIndex, i)
    ensures selectedIndex.Some? ==> (Highlighted(selectedIndex, j) <==> j <= selectedIndex.value)
    ensures selectedIndex.None? ==> !Highlighted(selectedIndex, i)
  {
  }

  /** What `onSubmit` does with values the schema accepted: no user, a failed
      upload or a failed write end in the error notice; otherwise the record
      is updated (when editing) or added. */
  function Attempt(init: Option<Initial>, v: ValidForm, signedIn: bool, millis: nat, now: int,
                   storage: string -> Option<string>, writeOk: bool): (o: Outcome)
    ensures o.Attempted?
    ensures o.upload == (if signedIn && v.audio.Some? then Some(UploadPath(millis, v.audio.value.name)) else None)
    ensures o.succeeded <==> o.write.Some?
    ensures o.succeeded <==>
      signedIn && writeOk && (v.audio.Some? ==> storage(UploadPath(millis, v.audio.value.name)).Some?)
    ensures o.notice == (if !o.succeeded then ErrorNotice else if init.Some? then UpdatedNotice else AddedNotice)
    ensures o.write.Some? ==>
      && (o.write.value.Updated? <==> init.Some?)
      && (o.write.value.Updated? ==> o.write.value.id == init.value.id)
      && o.write.value.doc.audioUrl == (if v.audio.Some? then storage(o.upload.value) else InitialAudioUrl(init))
      && o.write.value.doc.kind == v.Kind() && o.write.value.doc.content == v.content
      && (v.choice.LetterChoice? ==> o.write.value.doc.letter == Some(v.choice.letter))
      && (v.choice.TextChoice? ==> o.write.value.doc.difficulty == Some(v.choice.difficulty))
      && o.write.value.doc.createdAt == now
  {
    if !signedIn then Attempted(None, None, ErrorNotice, false)
    else
      var upload := if v.audio.Some? then Some(UploadPath(millis, v.audio.value.name)) else None;
      var url := if upload.Some? then storage(upload.value) else InitialAudioUrl(init);
      if upload.Some? && url.None? then Attempted(upload, None, ErrorNotice, false)
      else if !writeOk then Attempted(upload, None, ErrorNotice, false)
      else
        var doc := BuildDocument(v, url, now);
        if init.Some? then Attempted(upload, Some(Updated(init.value.id, doc)), UpdatedNotice, true)
        else Attempted(upload, Some(Added(doc)), AddedNotice, true)
  }

  /** The submit button, as a value: validation with the schema of the
      current render, then the attempt. */
  function Submission(init: Option<Initial>, d: FormData, editingAudio: bool, signedIn: bool,
                      millis: nat, now: int, storage: string -> Option<string>, writeOk: bool): Outcome
  {
    match Validate(d, HasExistingAudio(init, editingAudio))
    case Failure(errs) => Rejected(errs)
    case Success(v) => Attempt(init, v, signedIn, millis, now, storage, writeOk)
  }

  /** Nothing happens unless the schema accepts; its messages are shown otherwise. */
  lemma SubmissionNeedsValidation(init: Option<Initial>, d: FormData, editing: bool, signedIn: bool,
                                  millis: nat, now: int, storage: string -> Option<string>, writeOk: bool)
    ensures var o := Submission(init, d, editing, signedIn, millis, now, storage, writeOk);
      && (o.Rejected? <==> !Acceptable(d, HasExistingAudio(init, editing)))
      && (o.Rejected? ==> o == Rejected(Validate(d, HasExistingAudio(init, editing)).error))
  {
    ValidateAccepts(d, HasExistingAudio(init, editing));
  }

  /** Success means the record was written; failures show the one error notice. */
  lemma SubmissionNotices(init: Option<Initial>, d: FormData, editing: bool, signedIn: bool,
                          millis: nat, now: int, storage: string -> Option<string>, writeOk: bool)
    ensures var o := Submission(init, d, editing, signedIn, millis, now, storage, writeOk);
      o.Attempted? ==>
        && (o.succeeded <==> o.write.Some?)
        && (o.succeeded ==> signedIn && writeOk)
        && (!signedIn ==> o.upload.None? && o.write.None?)
        && (!o.succeeded <==> o.notice == ErrorNotice)
        && (o.succeeded ==> o.notice == if init.Some? then UpdatedNotice else AddedNotice)
  {
  }

  /** A written record always has an audio URL: the new file's download URL when
      a file was supplied, else the kept URL of the record being edited. */
  lemma WrittenAudioUrl(init: Option<Initial>, d: FormData, editing: bool, signedIn: bool,
                        millis: nat, now: int, storage: string -> Option<string>, writeOk: bool)
    ensures var o := Submission(init, d, editing, signedIn, millis, now, storage, writeOk);
      o.Attempted? && o.write.Some? ==>
        && o.write.value.doc.audioUrl.Some?
        && (d.audioFile.FileValue? ==>
              && o.upload == Some(UploadPath(millis, d.audioFile.file.name))
              && o.write.value.doc.audioUrl == storage(o.upload.value))
        && (!d.audioFile.FileValue? ==>
              && o.upload.None? && HasExistingAudio(init, editing)
              && o.write.value.doc.audioUrl == InitialAudioUrl(init))
  {
    var h := HasExistingAudio(init, editing);
    if Validate(d, h).Success? {
      ValidateOutput(d, h);
      AudioIssuesExact(d.audioFile, h);
      ValidateAccepts(d, h);
    }
  }

  /** Editing updates the record by its id, adding creates one; either way
      `createdAt` is the submission time, and a letter record's index points
      back at its letter. */
  lemma WrittenRecord(init: Option<Initial>, d: FormData, editing: bool, signedIn: bool,
                      millis: nat, now: int, storage: string -> Option<string>, writeOk: bool)
    ensures var o := Submission(init, d, editing, signedIn, millis, now, storage, writeOk);
      o.Attempted? && o.write.Some? ==>
        && (o.write.value.Updated? <==> init.Some?)
        && (o.write.value.Updated? ==> o.write.value.id == init.value.id)
        && o.write.value.doc.createdAt == now
        && d.content == Some(o.write.value.doc.content)
        && d.kind == Some(o.write.value.doc.kind.Name())
        && (o.write.value.doc.kind == Lettre ==>
              && o.write.value.doc.letter == d.selectedLetter
              && 0 <= o.write.value.doc.letterIndex.value < |ArabicLetters|
              && ArabicLetters[o.write.value.doc.letterIndex.value] == o.write.value.doc.letter.value)
        && (o.write.value.doc.kind == Texte ==>
              && o.write.value.doc.difficulty.Some?
              && d.difficulty == Some(o.write.value.doc.difficulty.value.Name()))
  {
    var h := HasExistingAudio(init, editing);
    if Validate(d, h).Success? {
      ValidateOutput(d, h);
      var o := Submission(init, d, editing, signedIn, millis, now, storage, writeOk);
      if o.Attempted? && o.write.Some? {
        ValidatedLetterIndex(d, h, o.write.value.doc.audioUrl, now);
      }
    }
  }

  /** The recorder checks only the type, so a file it accepts can still be too
      large for this form: such a file is held and reported, then refused on submit. */
  lemma RecorderLeavesSizeToForm(file: AudioFile)
    requires MimeAllowed(file.mime) && file.size > MaxAudioBytes
    ensures AudioRecorder.UploadTypeAccepted(file.mime)
    ensures AudioIssues(FileValue(file), false) == {AudioTooLarge}
  {
    AudioRecorder.UploadTypesAreFormTypes(file.mime);
  }

  class Form {
    const initialData: Option<Initial>
    const flash: Flash.FlashProvider
    var values: FormData
    var selectedIndex: Option<int>
    var isSubmitting: bool
    var fileName: string
    var resetKey: nat
    var isEditingAudio: bool
    var errors: set<FormError>
    // the outside
    var uploads: seq<string>
    var writes: seq<Write>
    var successCalls: nat

    /** The first render and the effect that copies the record into the form. */
    constructor (initialData: Option<Initial>, flash: Flash.FlashProvider)
      ensures this.initialData == initialData && this.flash == flash
      ensures values == Prefilled(initialData)
      ensures selectedIndex == (if initialData.Some? && initialData.value.doc.kind == Lettre then initialData.value.doc.letterIndex else None)
      ensures !isSubmitting && fileName == "" && resetKey == 0 && !isEditingAudio && errors == {}
      ensures uploads == [] && writes == [] && successCalls == 0
    {
      this.initialData := initialData;
      this.flash := flash;
      values := Defaults(initialData);
      selectedIndex := None;
      isSubmitting := false;
      fileName := "";
      resetKey := 0;
      isEditingAudio := false;
      errors := {};
      uploads := [];
      writes := [];
      successCalls := 0;
      new;
      if initialData.Some? {
        var doc := initialData.value.doc;
        values := values.(kind := Some(doc.kind.Name()), content := Some(doc.content));
        if doc.kind == Lettre {
          values := values.(selectedLetter := doc.letter);
          selectedIndex := doc.letterIndex;
        } else {
          values := values.(difficulty := if doc.difficulty.Some? then Some(doc.difficulty.value.Name()) else None);
        }
      }
    }

    /** "Modifier audio": the recorder replaces the player. */
    method HandleEditAudio()
      modifies this
      ensures isEditingAudio && values == old(values)
      ensures !HasExistingAudio(initialData, isEditingAudio)
    {
      isEditingAudio := true;
    }

    /** "Annuler la modification": back to the stored audio, the new file dropped. */
    method CancelEditAudio()
      modifies this
      ensures !isEditingAudio && values == old(values).(audioFile := Undefined)
      ensures HasExistingAudio(initialData, isEditingAudio) <==> InitialAudioUrl(initialData).Some? && InitialAudioUrl(initialData).value != ""
    {
      isEditingAudio := false;
      values := values.(audioFile := Undefined);
    }

    /** The recorder's `onAudioChange`: a file, or `null` after a delete. */
    method OnAudioChange(file: Option<AudioFile>)
      modifies this
      ensures values == old(values).(audioFile := if file.Some? then FileValue(file.value) else Null)
    {
      values := values.(audioFile := if file.Some? then FileValue(file.value) else Null);
    }

    /** The type select, disabled while editing. */
    method SetKind(tag: string)
      modifies this
      ensures values == if initialData.Some? then old(values) else old(values).(kind := Some(tag))
    {
      if initialData.None? {
        values := values.(kind := Some(tag));
      }
    }

    method SetContent(text: string)
      modifies this
      ensures values == old(values).(content := Some(text))
    {
      values := values.(content := Some(text));
    }

    /** A letter button: the letter and its index. */
    method SelectLetter(key: nat)
      requires key < |ArabicLetters|
      modifies this
      ensures values == old(values).(selectedLetter := Some(ArabicLetters[key]))
      ensures selectedIndex == Some(key)
      ensures forall k: nat :: Highlighted(selectedIndex, k) <==> k <= key
    {
      values := values.(selectedLetter := Some(ArabicLetters[key]));
      selectedIndex := Some(key);
    }

    /** A difficulty button. */
    method SelectDifficulty(level: Difficulty)
      modifies this
      ensures values == old(values).(difficulty := Some(level.Name()))
    {
      values := values.(difficulty := Some(level.Name()));
    }

    /** `resetForm`: the defaults back, the file name cleared, a new recorder key. */
    method ResetForm()
      modifies this
      ensures values == Defaults(initialData) && selectedIndex.None? && fileName == "" && errors == {}
      ensures resetKey == old(resetKey) + 1
      ensures isSubmitting == old(isSubmitting) && isEditingAudio == old(isEditingAudio)
      ensures uploads == old(uploads) && writes == old(writes) && successCalls == old(successCalls)
    {
      values := Defaults(initialData);
      selectedIndex := None;
      fileName := "";
      errors := {};
      resetKey := resetKey + 1;
    }

    /** The submit button: the schema first, then `onSubmit` with the parsed values. */
    method Submit(signedIn: bool, millis: nat, now: int, storage: string -> Option<string>, writeOk: bool)
      modifies this, flash
      ensures var o := Submission(initialData, old(values), old(isEditingAudio), signedIn, millis, now, storage, writeOk);
        && errors == (if o.Rejected? then o.errors else {})
        && uploads == old(uploads) + (if o.Attempted? && o.upload.Some? then [o.upload.value] else [])
        && writes == old(writes) + (if o.Attempted? && o.write.Some? then [o.write.value] else [])
        && flash.flash == (if o.Rejected? then old(flash.flash)
                           else Flash.FlashState(true, o.notice, if o.succeeded then "success" else "error"))
        && successCalls == old(successCalls) + (if o.Attempted? && o.succeeded then 1 else 0)
        && isSubmitting == (if o.Rejected? then old(isSubmitting) else false)
      ensures values == old(values) && isEditingAudio == old(isEditingAudio) && resetKey == old(resetKey)
    {
      var parsed := Validate(values, HasExistingAudio(initialData, isEditingAudio));
      if parsed.Failure? {
        errors := parsed.error;
        return;
      }
      errors := {};
      OnSubmit(parsed.value, signedIn, millis, now, storage, writeOk);
    }

    /** `onSubmit`: the try block, its catch and its finally. */
    method OnSubmit(v: ValidForm, signedIn: bool, millis: nat, now: int, storage: string -> Option<string>, writeOk: bool)
      modifies this, flash
      ensures var o := Attempt(initialData, v, signedIn, millis, now, storage, writeOk);
        && uploads == old(uploads) + (if o.upload.Some? then [o.upload.value] else [])
        && writes == old(writes) + (if o.write.Some? then [o.write.value] else [])
        && flash.flash == Flash.FlashState(true, o.notice, if o.succeeded then "success" else "error")
        && successCalls == old(successCalls) + (if o.succeeded then 1 else 0)
      ensures !isSubmitting && errors == old(errors)
      ensures values == old(values) && isEditingAudio == old(isEditingAudio) && resetKey == old(resetKey)
    {
      isSubmitting := true;
      if !signedIn {
        flash.ShowFlash(ErrorNotice, Some("error"));
        isSubmitting := false;
        return;
      }
      var audioUrl := InitialAudioUrl(initialData);
      if v.audio.Some? {
        var path := UploadPath(millis, v.audio.value.name);
        uploads := uploads + [path];
        audioUrl := storage(path);
        if audioUrl.None? {
          flash.ShowFlash(ErrorNotice, Some("error"));
          isSubmitting := false;
          return;
        }
      }
      var doc := BuildDocument(v, audioUrl, now);
      if !writeOk {
        flash.ShowFlash(ErrorNotice, Some("error"));
        isSubmitting := false;
        return;
      }
      if initialData.Some? {
        writes := writes + [Updated(initialData.value.id, doc)];
        flash.ShowFlash(UpdatedNotice, None);
      } else {
        writes := writes + [Added(doc)];
        flash.ShowFlash(AddedNotice, None);
      }
      successCalls := successCalls + 1;
      isSubmitting := false;
    }
  }
}
