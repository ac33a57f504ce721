/** The dictation record: the form schema shared by the add page and the
    add/edit form, and the document the form writes to the store. */
module Schema {
  import opened Wrappers
  import opened Decimal
  import opened Media
  import TimeFormat

  /** The 28 letters offered by the letter grid, in teaching order. */
  const ArabicLetters: seq<string> := [
    "\U{0628}", "\U{062A}", "\U{062F}", "\U{0631}", "\U{0643}", "\U{0633}", "\U{0644}",
    "\U{062C}", "\U{0645}", "\U{062D}", "\U{062E}", "\U{0627}", "\U{0648}", "\U{064A}",
    "\U{0646}", "\U{0647}", "\U{062B}", "\U{0642}", "\U{0634}", "\U{0641}", "\U{0632}",
    "\U{0637}", "\U{0639}", "\U{063A}", "\U{0630}", "\U{0635}", "\U{0636}", "\U{0638}"
  ]

  /** `Array.prototype.indexOf`: the first position of `x`, or -1. */
  function IndexOf(xs: seq<string>, x: string): (i: int)
    ensures -1 <= i < |xs|
    ensures i == -1 <==> x !in xs
    ensures 0 <= i ==> xs[i] == x && x !in xs[..i]
  {
    if xs == [] then -1
    else if xs[0] == x then 0
    else
      var j := IndexOf(xs[1..], x);
      assert j >= 0 ==> xs[1..][..j] == xs[1..j + 1];
      if j < 0 then -1 else j + 1
  }

  lemma LettersDistinct()
    ensures |ArabicLetters| == 28
    ensures forall i, j :: 0 <= i < j < |ArabicLetters| ==> ArabicLetters[i] != ArabicLetters[j]
  {
  }

  /** Because the letters are distinct, `indexOf` finds each one at its own position. */
  lemma LetterIndexRoundTrip(i: nat)
    requires i < |ArabicLetters|
    ensures IndexOf(ArabicLetters, ArabicLetters[i]) == i
  {
    LettersDistinct();
  }

  /** The type tag of a dictation. */
  datatype Kind = Lettre | Texte {
    function Name(): string {
      match this
      case Lettre => "Lettre"
      case Texte => "Texte"
    }
  }

  /** The discriminator check of the union: only the two literal tags select a variant. */
  function ParseKind(tag: Option<string>): (k: Option<Kind>)
    ensures k.Some? <==> tag == Some("Lettre") || tag == Some("Texte")
    ensures k.Some? ==> tag == Some(k.value.Name())
  {
    match tag
    case Some("Lettre") => Some(Lettre)
    case Some("Texte") => Some(Texte)
    case _ => None
  }

  /** The three difficulty levels of a text dictation. */
  datatype Difficulty = Facile | Moyen | Difficile {
    function Name(): string {
      match this
      case Facile => "Facile"
      case Moyen => "Moyen"
      case Difficile => "Difficile"
    }
  }

  /** `z.enum(['Facile', 'Moyen', 'Difficile'])`. */
  function ParseDifficulty(value: Option<string>): (d: Option<Difficulty>)
    ensures d.Some? <==> value == Some("Facile") || value == Some("Moyen") || value == Some("Difficile")
    ensures d.Some? ==> value == Some(d.value.Name())
  {
    match value
    case Some("Facile") => Some(Facile)
    case Some("Moyen") => Some(Moyen)
    case Some("Difficile") => Some(Difficile)
    case _ => None
  }

  lemma KindNameRoundTrip(k: Kind)
    ensures ParseKind(Some(k.Name())) == Some(k)
  {
  }

  lemma DifficultyNameRoundTrip(d: Difficulty)
    ensures ParseDifficulty(Some(d.Name())) == Some(d)
  {
  }

  /** The value held by the form's audio field: nothing yet (`undefined`), the
      `null` the recorder reports after a delete, or a file. */
  datatype FileField = Undefined | Null | FileValue(file: AudioFile)

  /** The raw values of the form; an absent entry is `undefined`. */
  datatype FormData = FormData(
    audioFile: FileField,
    kind: Option<string>,
    content: Option<string>,
    selectedLetter: Option<string>,
    difficulty: Option<string>)

  /** One tag per distinct validation message. */
  datatype FormError =
    | InvalidType        // the discriminator is neither tag
    | AudioNotFile       // "Veuillez sélectionner un fichier valide."
    | AudioTooLarge      // "La taille du fichier doit être inférieur à 10MB"
    | AudioBadMime       // "Seuls les fichiers .mp3, .ogg .mpeg et .wav sont autorisés."
    | ContentEmpty       // "Veuillez entrer un contenu."
    | LetterInvalid      // "Veuillez sélectionner une lettre."
    | DifficultyInvalid  // "Veuillez sélectionner un niveau de difficulté."

  /** The variant-specific part of a parsed form. */
  datatype Choice = LetterChoice(letter: string) | TextChoice(difficulty: Difficulty)

  /** What the schema hands to the submit handler. */
  datatype ValidForm = ValidForm(audio: Option<AudioFile>, content: string, choice: Choice) {
    function Kind(): Kind {
      if choice.LetterChoice? then Lettre else Texte
    }
  }

  /** The audio field's issues. With an existing audio kept the field is
      `z.instanceof(File).optional()`: absent or any file passes, `null` does
      not. Otherwise it must be a file, and size and MIME type are both checked. */
  function AudioIssues(f: FileField, hasExistingAudio: bool): set<FormError> {
    if hasExistingAudio then
      (if f.Null? then {AudioNotFile} else {})
    else
      match f
      case FileValue(file) =>
        (if SizeAllowed(file.size) then {} else {AudioTooLarge})
        + (if MimeAllowed(file.mime) then {} else {AudioBadMime})
      case _ => {AudioNotFile}
  }

  /** `z.string().min(1)`: present and of length at least one. */
  function ContentIssues(content: Option<string>): set<FormError> {
    if content.Some? && |content.value| >= 1 then {} else {ContentEmpty}
  }

  /** The field that only the selected variant requires. */
  function ChoiceIssues(k: Kind, d: FormData): set<FormError> {
    match k
    case Lettre =>
      if d.selectedLetter.Some? && d.selectedLetter.value in ArabicLetters then {} else {LetterInvalid}
    case Texte =>
      if ParseDifficulty(d.difficulty).Some? then {} else {DifficultyInvalid}
  }

  /** The discriminated union over the type tag. An unknown tag is the only
      issue reported; for a known tag every field of that variant is checked. */
  function Validate(d: FormData, hasExistingAudio: bool): Result<ValidForm, set<FormError>> {
    match ParseKind(d.kind)
    case None => Failure({InvalidType})
    case Some(k) =>
      var audio, content, choice :=
        AudioIssues(d.audioFile, hasExistingAudio), ContentIssues(d.content), ChoiceIssues(k, d);
      if audio != {} || content != {} || choice != {} then Failure(audio + content + choice)
      else
        Success(ValidForm(
          if d.audioFile.FileValue? then Some(d.audioFile.file) else None,
          d.content.value,
          match k
          case Lettre => LetterChoice(d.selectedLetter.value)
          case Texte => TextChoice(ParseDifficulty(d.difficulty).value)))
  }

  /** When the audio field is acceptable, stated without error tags. */
  predicate AudioAcceptable(f: FileField, hasExistingAudio: bool) {
    if hasExistingAudio then !f.Null?
    else f.FileValue? && f.file.size <= 10000000 && f.file.mime in {"audio/mp3", "audio/ogg", "audio/mpeg", "audio/wav"}
  }

  /** When a form is valid, stated field by field. */
  predicate Acceptable(d: FormData, hasExistingAudio: bool) {
    && (d.kind == Some("Lettre") || d.kind == Some("Texte"))
    && AudioAcceptable(d.audioFile, hasExistingAudio)
    && d.content.Some? && d.content.value != ""
    && (d.kind == Some("Lettre") ==> d.selectedLetter.Some? && d.selectedLetter.value in ArabicLetters)
    && (d.kind == Some("Texte") ==>
          d.difficulty == Some("Facile") || d.difficulty == Some("Moyen") || d.difficulty == Some("Difficile"))
  }

  lemma AudioIssuesExact(f: FileField, h: bool)
    ensures AudioIssues(f, h) == {} <==> AudioAcceptable(f, h)
  {
  }

  /** The schema accepts exactly the acceptable forms. */
  lemma ValidateAccepts(d: FormData, h: bool)
    ensures Validate(d, h).Success? <==> Acceptable(d, h)
  {
    AudioIssuesExact(d.audioFile, h);
  }

  /** A parsed form carries the submitted values of its own variant. */
  lemma ValidateOutput(d: FormData, h: bool)
    requires Validate(d, h).Success?
    ensures var v := Validate(d, h).value;
      && d.kind == Some(v.Kind().Name())
      && d.content == Some(v.content)
      && (v.audio.Some? <==> d.audioFile.FileValue?)
      && (v.audio.Some? ==> d.audioFile == FileValue(v.audio.value))
      && (v.choice.LetterChoice? ==> d.selectedLetter == Some(v.choice.letter) && v.choice.letter in ArabicLetters)
      && (v.choice.TextChoice? ==> d.difficulty == Some(v.choice.difficulty.Name()))
  {
  }

  /** Which issues the schema reports for a rejected form. */
  lemma ValidateErrors(d: FormData, h: bool)
    requires Validate(d, h).Failure?
    ensures var errs := Validate(d, h).error;
      && (InvalidType in errs <==> ParseKind(d.kind).None?)
      && (ParseKind(d.kind).None? ==> errs == {InvalidType})
      && (ParseKind(d.kind).Some? ==>
            && (AudioTooLarge in errs <==> !h && d.audioFile.FileValue? && d.audioFile.file.size > MaxAudioBytes)
            && (AudioBadMime in errs <==> !h && d.audioFile.FileValue? && !MimeAllowed(d.audioFile.file.mime))
            && (AudioNotFile in errs <==> if h then d.audioFile.Null? else !d.audioFile.FileValue?)
            && (ContentEmpty in errs <==> d.content.None? || d.content.value == "")
            && (LetterInvalid in errs <==>
                  d.kind == Some("Lettre") && (d.selectedLetter.None? || d.selectedLetter.value !in ArabicLetters))
            && (DifficultyInvalid in errs <==> d.kind == Some("Texte") && ParseDifficulty(d.difficulty).None?))
  {
  }

  /** A letter dictation carrying `file`, used to state the file limits. */
  function LetterForm(file: AudioFile, content: string, letter: nat): FormData
    requires letter < |ArabicLetters|
  {
    FormData(FileValue(file), Some("Lettre"), Some(content), Some(ArabicLetters[letter]), None)
  }

  /** The size limit is inclusive: 10,000,000 bytes pass, one more byte does not;
      a type outside the four is refused whatever the size. */
  lemma SizeBoundary(name: string, content: string, letter: nat)
    requires content != "" && letter < |ArabicLetters|
    ensures Validate(LetterForm(AudioFile(name, "audio/wav", 10000000), content, letter), false).Success?
    ensures Validate(LetterForm(AudioFile(name, "audio/wav", 9999999), content, letter), false).Success?
    ensures Validate(LetterForm(AudioFile(name, "audio/wav", 10000001), content, letter), false) == Failure({AudioTooLarge})
    ensures Validate(LetterForm(AudioFile(name, "text/plain", 10), content, letter), false) == Failure({AudioBadMime})
    ensures Validate(LetterForm(AudioFile(name, "text/plain", 10000001), content, letter), false)
            == Failure({AudioTooLarge, AudioBadMime})
  {
    ValidateAccepts(LetterForm(AudioFile(name, "audio/wav", 10000000), content, letter), false);
    ValidateAccepts(LetterForm(AudioFile(name, "audio/wav", 9999999), content, letter), false);
    assert {AudioTooLarge} + {AudioBadMime} == {AudioTooLarge, AudioBadMime};
  }

  /** With an existing audio kept, no size or type check applies and the field
      may be absent: the form passes exactly when it passes with no file at all,
      and without the kept audio the same form with no file is refused. */
  lemma ExistingAudioRelaxed(d: FormData)
    requires !d.audioFile.Null?
    ensures AudioIssues(d.audioFile, true) == {}
    ensures Validate(d, true).Success? <==> Validate(d.(audioFile := Undefined), true).Success?
    ensures Validate(d.(audioFile := Undefined), false).Failure?
  {
    ValidateAccepts(d, true);
    ValidateAccepts(d.(audioFile := Undefined), true);
    ValidateAccepts(d.(audioFile := Undefined), false);
  }

  /** The document written to the `dictations` collection. Absent fields are
      the ones the spread of `false` leaves out. */
  datatype Document = Document(
    audioUrl: Option<string>,
    kind: Kind,
    content: string,
    letter: Option<string>,
    letterIndex: Option<int>,
    difficulty: Option<Difficulty>,
    createdAt: int)

  /** The `dictationData` object literal. */
  function BuildDocument(v: ValidForm, audioUrl: Option<string>, createdAt: int): Document {
    Document(
      audioUrl, v.Kind(), v.content,
      if v.choice.LetterChoice? then Some(v.choice.letter) else None,
      if v.choice.LetterChoice? then Some(IndexOf(ArabicLetters, v.choice.letter)) else None,
      if v.choice.TextChoice? then Some(v.choice.difficulty) else None,
      createdAt)
  }

  /** Exactly one classification is stored: a letter with its index, or a difficulty. */
  lemma BuildShape(v: ValidForm, audioUrl: Option<string>, createdAt: int)
    ensures var doc := BuildDocument(v, audioUrl, createdAt);
      && doc.audioUrl == audioUrl && doc.content == v.content && doc.createdAt == createdAt
      && (doc.kind == Lettre <==> doc.letter.Some? && doc.letterIndex.Some?)
      && (doc.kind == Lettre <==> doc.difficulty.None?)
      && (doc.kind == Texte <==> doc.difficulty.Some? && doc.letter.None? && doc.letterIndex.None?)
      && (doc.kind == Lettre ==> doc.letter == Some(v.choice.letter))
      && (doc.kind == Texte ==> doc.difficulty == Some(v.choice.difficulty))
  {
  }

  /** For a form the schema accepted, the stored index points back at the stored letter. */
  lemma ValidatedLetterIndex(d: FormData, h: bool, audioUrl: Option<string>, createdAt: int)
    requires Validate(d, h).Success?
    ensures var doc := BuildDocument(Validate(d, h).value, audioUrl, createdAt);
      doc.kind == Lettre ==>
        && doc.letter == d.selectedLetter
        && 0 <= doc.letterIndex.value < 28
        && ArabicLetters[doc.letterIndex.value] == doc.letter.value
  {
    var v := Validate(d, h).value;
    ValidateOutput(d, h);
    if v.choice.LetterChoice? {
      LettersDistinct();
    }
  }

  /** A completed Firestore write: `addDoc` to the collection, or `updateDoc` of one record. */
  datatype Write = Added(doc: Document) | Updated(id: string, doc: Document)

  /** What one press of the submit button leads to: the schema's messages, or
      an attempt that may upload a file to `upload`, may complete a write, and
      ends with a message to the user. */
  datatype Outcome =
    | Rejected(errors: set<FormError>)
    | Attempted(upload: Option<string>, write: Option<Write>, notice: string, succeeded: bool)

  /** The storage path of an uploaded file: `dictations/<millis>_<name>`. */
  function UploadPath(millis: nat, name: string): string {
    "dictations/" + Show(millis) + "_" + name
  }

  /** Reads a storage path back into its timestamp and file name. */
  function ParseUploadPath(path: string): Option<(nat, string)> {
    if |path| < 11 || path[..11] != "dictations/" then None
    else
      var rest := path[11..];
      var i := TimeFormat.FirstIndex(rest, '_');
      if i <= 0 || !AllDigits(rest[..i]) then None
      else Some((Parse(rest[..i]), rest[i + 1..]))
  }

  /** The timestamp never runs into the name, so both can be recovered. */
  lemma UploadPathRoundTrip(millis: nat, name: string)
    ensures ParseUploadPath(UploadPath(millis, name)) == Some((millis, name))
  {
    var path := UploadPath(millis, name);
    var digits := Show(millis);
    assert path[..11] == "dictations/";
    var rest := path[11..];
    assert rest == digits + "_" + name;
    assert '_' !in digits;
    assert rest[|digits|] == '_';
    assert rest[..|digits|] == digits;
    assert TimeFormat.FirstIndex(rest, '_') == |digits|;
    assert rest[|digits| + 1..] == name;
    ParseShow(millis);
  }
}
