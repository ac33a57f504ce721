/** The text-to-speech endpoint: its input checks, the rewriting of the Arabic
    text before it is sent to the speech service, the request parameters and
    the mapping from failures to HTTP status codes. */
module GenerateAudio {
  import opened Wrappers
  import Decimal

  // ---------------------------------------------------------------------
  // Characters

  /** The seven short-vowel and sukun marks of the first replace:
      fathatan, dammatan, kasratan, fatha, damma, kasra, sukun. */
  const ShortVowels: set<char> :=
    {'\U{064B}', '\U{064C}', '\U{064D}', '\U{064E}', '\U{064F}', '\U{0650}', '\U{0652}'}

  /** The shadda of the second replace. */
  const Shadda: char := '\U{0651}'

  const Marks: set<char> := ShortVowels + {Shadda}

  /** JavaScript's `\s`: the ECMAScript WhiteSpace and LineTerminator characters. */
  predicate IsSpace(c: char) {
    || c == ' '
    || '\U{0009}' <= c <= '\U{000D}'
    || c == '\U{00A0}' || c == '\U{1680}'
    || '\U{2000}' <= c <= '\U{200A}'
    || c == '\U{2028}' || c == '\U{2029}' || c == '\U{202F}' || c == '\U{205F}'
    || c == '\U{3000}' || c == '\U{FEFF}'
  }

  predicate IsTerminal(c: char) {
    c == '.' || c == '!' || c == '?'
  }

  // ---------------------------------------------------------------------
  // The rewriting chain

  /** `s.replace(/([<chars>])/g, '$1 ')`: a space after every character of `chars`. */
  function InsertAfter(s: string, chars: set<char>): (r: string)
    ensures |r| >= |s|
    ensures s != [] ==> r != [] && r[0] == s[0]
  {
    if s == [] then []
    else (if s[0] in chars then [s[0], ' '] else [s[0]]) + InsertAfter(s[1..], chars)
  }

  /** The characters from the start of `s` up to the first non-space are dropped. */
  function DropSpaces(s: string): (r: string)
    ensures |r| <= |s| && r == s[|s| - |r|..]
    ensures forall i :: 0 <= i < |s| - |r| ==> IsSpace(s[i])
    ensures r == [] || !IsSpace(r[0])
  {
    if s != [] && IsSpace(s[0]) then DropSpaces(s[1..]) else s
  }

  /** `s.replace(/\s+/g, ' . ')`: every maximal run of whitespace becomes " . ". */
  function Collapse(s: string): string
    decreases |s|
  {
    if s == [] then []
    else if IsSpace(s[0]) then " . " + Collapse(DropSpaces(s))
    else [s[0]] + Collapse(s[1..])
  }

  /** `s.replace(/([^.!?])$/, '$1.')`: a final '.' unless the text already ends in
      '.', '!' or '?' (or is empty). */
  function EnsureTerminal(s: string): string {
    if s != [] && !IsTerminal(s[|s| - 1]) then s + "." else s
  }

  /** The `enhancedText` expression: the four replaces, then a trailing space. */
  function Enhance(text: string): string {
    EnsureTerminal(Collapse(InsertAfter(InsertAfter(text, ShortVowels), {Shadda}))) + " "
  }

  /** `params.input.replace(/([.!?])$/, ' $1')`: a space before a final '.', '!' or '?'. */
  function SpaceBeforeFinalPunctuation(s: string): string {
    if s != [] && IsTerminal(s[|s| - 1]) then s[..|s| - 1] + " " + [s[|s| - 1]] else s
  }

  // ---------------------------------------------------------------------
  // Properties of the rewriting

  lemma {:induction false} InsertAfterConcat(a: string, b: string, chars: set<char>)
    ensures InsertAfter(a + b, chars) == InsertAfter(a, chars) + InsertAfter(b, chars)
  {
    if a != [] {
      assert (a + b)[1..] == a[1..] + b;
      InsertAfterConcat(a[1..], b, chars);
    } else {
      assert a + b == b;
    }
  }

  /** The two mark replaces act as one replace over all eight marks. */
  lemma {:induction false} TwoInsertsAsOne(s: string)
    ensures InsertAfter(InsertAfter(s, ShortVowels), {Shadda}) == InsertAfter(s, Marks)
  {
    if s != [] {
      var head := if s[0] in ShortVowels then [s[0], ' '] else [s[0]];
      InsertAfterConcat(head, InsertAfter(s[1..], ShortVowels), {Shadda});
      if s[0] in ShortVowels {
        assert InsertAfter(head, {Shadda}) == head by {
          assert head[1..] == [' '];
          assert InsertAfter([' '], {Shadda}) == [' '];
        }
      }
      TwoInsertsAsOne(s[1..]);
    }
  }

  /** After the mark replaces, every mark is followed by a whitespace character. */
  predicate MarksThenSpace(s: string) {
    forall i :: 0 <= i < |s| && s[i] in Marks ==> i + 1 < |s| && IsSpace(s[i + 1])
  }

  lemma {:induction false} InsertAfterMarks(s: string)
    ensures MarksThenSpace(InsertAfter(s, Marks))
  {
    if s != [] {
      var r := InsertAfter(s, Marks);
      var tail := InsertAfter(s[1..], Marks);
      InsertAfterMarks(s[1..]);
      var k := if s[0] in Marks then 2 else 1;
      assert r[k..] == tail;
      forall i | 0 <= i < |r| && r[i] in Marks
        ensures i + 1 < |r| && IsSpace(r[i + 1])
      {
        if i >= k {
          assert r[i] == tail[i - k];
        }
      }
    }
  }

  /** In the rewritten text, each mark is followed immediately by " . ". */
  predicate MarksThenSeparator(s: string) {
    forall i :: 0 <= i < |s| && s[i] in Marks ==> i + 3 < |s| && s[i + 1..i + 4] == " . "
  }

  lemma PrependKeepsSeparators(prefix: string, s: string)
    requires forall i :: 0 <= i < |prefix| ==> prefix[i] !in Marks
    requires MarksThenSeparator(s)
    ensures MarksThenSeparator(prefix + s)
  {
    var r := prefix + s;
    forall i | 0 <= i < |r| && r[i] in Marks
      ensures i + 3 < |r| && r[i + 1..i + 4] == " . "
    {
      if i < |prefix| {
        assert false;
      }
      var j := i - |prefix|;
      assert r[i] == s[j];
      assert s[j] in Marks;
      assert j + 3 < |s|;
      assert r[i + 1..i + 4] == s[j + 1..j + 4];
    }
  }

  lemma AppendKeepsSeparators(s: string, suffix: string)
    requires MarksThenSeparator(s)
    requires forall i :: 0 <= i < |suffix| ==> suffix[i] !in Marks
    ensures MarksThenSeparator(s + suffix)
  {
    var r := s + suffix;
    forall i | 0 <= i < |r| && r[i] in Marks
      ensures i + 3 < |r| && r[i + 1..i + 4] == " . "
    {
      if i < |s| {
        assert r[i] == s[i];
        assert r[i + 1..i + 4] == s[i + 1..i + 4];
      }
    }
  }

  lemma MarksThenSpaceSuffix(s: string, k: nat)
    requires MarksThenSpace(s) && k <= |s|
    ensures MarksThenSpace(s[k..])
  {
    var t := s[k..];
    forall i | 0 <= i < |t| && t[i] in Marks ensures i + 1 < |t| && IsSpace(t[i + 1]) {
      assert t[i] == s[i + k];
    }
  }

  lemma MarkBeforeSeparator(c: char, x: string)
    requires MarksThenSeparator(x) && |x| >= 3 && x[..3] == " . "
    ensures MarksThenSeparator([c] + x)
  {
    var r := [c] + x;
    forall i | 0 <= i < |r| && r[i] in Marks
      ensures i + 3 < |r| && r[i + 1..i + 4] == " . "
    {
      if i > 0 {
        assert r[i] == x[i - 1];
        assert r[i + 1..i + 4] == x[i..i + 3];
      } else {
        assert r[1..4] == x[..3];
      }
    }
  }

  lemma {:induction false} CollapseKeepsSeparators(s: string)
    requires MarksThenSpace(s)
    ensures MarksThenSeparator(Collapse(s))
    decreases |s|
  {
    if s == [] {
    } else if IsSpace(s[0]) {
      var d := DropSpaces(s);
      MarksThenSpaceSuffix(s, |s| - |d|);
      CollapseKeepsSeparators(d);
      PrependKeepsSeparators(" . ", Collapse(d));
    } else {
      var t := s[1..];
      MarksThenSpaceSuffix(s, 1);
      CollapseKeepsSeparators(t);
      if s[0] in Marks {
        assert IsSpace(t[0]);
        MarkBeforeSeparator(s[0], Collapse(t));
      } else {
        PrependKeepsSeparators([s[0]], Collapse(t));
      }
    }
  }

  /** Each of the eight marks of the input comes out followed by " . ". */
  lemma EnhanceSeparatesMarks(text: string)
    ensures MarksThenSeparator(Enhance(text))
  {
    var u := InsertAfter(InsertAfter(text, ShortVowels), {Shadda});
    TwoInsertsAsOne(text);
    InsertAfterMarks(text);
    CollapseKeepsSeparators(u);
    var c := Collapse(u);
    if c != [] && !IsTerminal(c[|c| - 1]) {
      AppendKeepsSeparators(c, ".");
      AppendKeepsSeparators(c + ".", " ");
    } else {
      AppendKeepsSeparators(c, " ");
    }
  }

  lemma CollapseNonEmpty(s: string)
    ensures s != [] ==> Collapse(s) != []
  {
  }

  /** A non-empty text comes out ending in '.', '!' or '?' followed by one space. */
  lemma EnhanceEnding(text: string)
    requires text != []
    ensures var r := Enhance(text);
      |r| >= 2 && r[|r| - 1] == ' ' && IsTerminal(r[|r| - 2])
  {
    var u := InsertAfter(InsertAfter(text, ShortVowels), {Shadda});
    CollapseNonEmpty(u);
  }

  /** The later replace never fires, since the text ends with the appended space. */
  lemma FinalReplaceIsIdentity(text: string)
    ensures SpaceBeforeFinalPunctuation(Enhance(text)) == Enhance(text)
  {
  }

  // ---------------------------------------------------------------------
  // Whitespace runs

  function NonSpace(s: string): string {
    if s == [] then [] else (if IsSpace(s[0]) then [] else [s[0]]) + NonSpace(s[1..])
  }

  /** Each maximal run of whitespace replaced by a single ' '. */
  function Squash(s: string): string
    decreases |s|
  {
    if s == [] then []
    else if IsSpace(s[0]) then " " + Squash(DropSpaces(s))
    else [s[0]] + Squash(s[1..])
  }

  /** Each ' ' replaced by " . ". */
  function Expand(t: string): string {
    if t == [] then [] else (if t[0] == ' ' then " . " else [t[0]]) + Expand(t[1..])
  }

  /** Each " . " replaced by ' ', scanning from the left. */
  function Unexpand(r: string): string {
    if |r| >= 3 && r[..3] == " . " then " " + Unexpand(r[3..])
    else if r == [] then []
    else [r[0]] + Unexpand(r[1..])
  }

  /** The whitespace replace is "one space per run", then "each space becomes ' . '". */
  lemma {:induction false} CollapseFactors(s: string)
    ensures Collapse(s) == Expand(Squash(s))
    decreases |s|
  {
    if s == [] {
    } else if IsSpace(s[0]) {
      CollapseFactors(DropSpaces(s));
      assert (" " + Squash(DropSpaces(s)))[1..] == Squash(DropSpaces(s));
    } else {
      CollapseFactors(s[1..]);
      assert ([s[0]] + Squash(s[1..]))[1..] == Squash(s[1..]);
    }
  }

  lemma {:induction false} UnexpandExpand(t: string)
    ensures Unexpand(Expand(t)) == t
  {
    if t != [] {
      UnexpandExpand(t[1..]);
      var e := Expand(t);
      if t[0] == ' ' {
        assert e[..3] == " . " && e[3..] == Expand(t[1..]);
      } else {
        assert e[0] == t[0] && e[1..] == Expand(t[1..]);
      }
    }
  }

  /** The separators can be read back: replacing each " . " by a space gives
      the text with one space per whitespace run. */
  lemma CollapseRoundTrip(s: string)
    ensures Unexpand(Collapse(s)) == Squash(s)
  {
    CollapseFactors(s);
    UnexpandExpand(Squash(s));
  }

  lemma {:induction false} NonSpaceConcat(a: string, b: string)
    ensures NonSpace(a + b) == NonSpace(a) + NonSpace(b)
  {
    if a != [] {
      assert (a + b)[1..] == a[1..] + b;
      NonSpaceConcat(a[1..], b);
    } else {
      assert a + b == b;
    }
  }

  lemma DropSpacesNonSpace(s: string)
    ensures NonSpace(DropSpaces(s)) == NonSpace(s)
  {
    var d := DropSpaces(s);
    var k := |s| - |d|;
    var pre := s[..k];
    assert d == s[k..];
    assert s == pre + d;
    assert forall i :: 0 <= i < |pre| ==> IsSpace(pre[i]) by {
      forall i | 0 <= i < |pre| ensures IsSpace(pre[i]) {
        assert pre[i] == s[i];
      }
    }
    NonSpaceConcat(pre, d);
    AllSpacesNonSpace(pre);
  }

  /** A mark replace only adds whitespace: the other characters are kept, in order. */
  lemma {:induction false} InsertAfterNonSpace(s: string, chars: set<char>)
    ensures NonSpace(InsertAfter(s, chars)) == NonSpace(s)
  {
    if s != [] {
      var tail := InsertAfter(s[1..], chars);
      InsertAfterNonSpace(s[1..], chars);
      NonSpaceCons(s[0], s[1..]);
      assert s == [s[0]] + s[1..];
      if s[0] in chars {
        assert InsertAfter(s, chars) == [s[0]] + ([' '] + tail);
        NonSpaceCons(s[0], [' '] + tail);
        NonSpaceCons(' ', tail);
      } else {
        assert InsertAfter(s, chars) == [s[0]] + tail;
        NonSpaceCons(s[0], tail);
      }
    }
  }

  lemma NonSpaceCons(c: char, t: string)
    ensures NonSpace([c] + t) == (if IsSpace(c) then [] else [c]) + NonSpace(t)
  {
    assert ([c] + t)[1..] == t;
  }

  /** Reading the separators back as spaces, the rewritten text holds exactly the
      non-whitespace characters of the input, in order. */
  lemma EnhanceKeepsText(text: string)
    ensures NonSpace(Unexpand(Collapse(InsertAfter(InsertAfter(text, ShortVowels), {Shadda})))) == NonSpace(text)
  {
    var v := InsertAfter(text, ShortVowels);
    var u := InsertAfter(v, {Shadda});
    CollapseRoundTrip(u);
    SquashKeepsText(u);
    InsertAfterNonSpace(v, {Shadda});
    InsertAfterNonSpace(text, ShortVowels);
  }

  lemma {:induction false} AllSpacesNonSpace(s: string)
    requires forall i :: 0 <= i < |s| ==> IsSpace(s[i])
    ensures NonSpace(s) == []
  {
    if s != [] {
      AllSpacesNonSpace(s[1..]);
    }
  }

  /** Squashing keeps every non-whitespace character, in order. */
  lemma {:induction false} SquashKeepsText(s: string)
    ensures NonSpace(Squash(s)) == NonSpace(s)
    decreases |s|
  {
    if s == [] {
    } else if IsSpace(s[0]) {
      var d := DropSpaces(s);
      SquashKeepsText(d);
      NonSpaceConcat(" ", Squash(d));
      DropSpacesNonSpace(s);
    } else {
      SquashKeepsText(s[1..]);
      NonSpaceConcat([s[0]], Squash(s[1..]));
    }
  }

  /** No two whitespace characters are adjacent. */
  predicate NoSpaceRun(s: string) {
    forall i :: 0 <= i < |s| - 1 ==> !(IsSpace(s[i]) && IsSpace(s[i + 1]))
  }

  lemma SquashStart(s: string)
    ensures Squash(s) != [] <==> s != []
    ensures s != [] ==> (IsSpace(Squash(s)[0]) <==> IsSpace(s[0]))
  {
  }

  /** After squashing, the only whitespace is ' ' and no two are adjacent. */
  lemma {:induction false} SquashSingleSpaces(s: string)
    ensures NoSpaceRun(Squash(s))
    ensures forall i :: 0 <= i < |Squash(s)| && IsSpace(Squash(s)[i]) ==> Squash(s)[i] == ' '
    decreases |s|
  {
    if s == [] {
    } else {
      var t := if IsSpace(s[0]) then DropSpaces(s) else s[1..];
      SquashSingleSpaces(t);
      SquashStart(t);
      var head := if IsSpace(s[0]) then " " else [s[0]];
      var r := Squash(s);
      assert r == head + Squash(t);
      forall i | 0 <= i < |r| - 1 ensures !(IsSpace(r[i]) && IsSpace(r[i + 1])) {
        if i > 0 {
          assert r[i] == Squash(t)[i - 1] && r[i + 1] == Squash(t)[i];
        }
      }
      forall i | 0 <= i < |r| && IsSpace(r[i]) ensures r[i] == ' ' {
        if i > 0 {
          assert r[i] == Squash(t)[i - 1];
        }
      }
    }
  }

  /** The rewritten text has no whitespace run either: every space stands next to a '.'. */
  lemma {:induction false} CollapseSingleSpaces(s: string)
    ensures NoSpaceRun(Collapse(s))
    decreases |s|
  {
    if s == [] {
    } else {
      var t := if IsSpace(s[0]) then DropSpaces(s) else s[1..];
      CollapseSingleSpaces(t);
      var c := Collapse(t);
      if IsSpace(s[0]) {
        assert Collapse(s) == " . " + c;
        assert c == [] || !IsSpace(c[0]);
        assert NoSpaceRun(" . ") by {
          assert !IsSpace('.');
        }
        NoSpaceRunConcat(" . ", c);
      } else {
        assert Collapse(s) == [s[0]] + c;
        NoSpaceRunConcat([s[0]], c);
      }
    }
  }

  /** Two texts without a whitespace run, not both whitespace at the seam. */
  lemma NoSpaceRunConcat(a: string, b: string)
    requires NoSpaceRun(a) && NoSpaceRun(b)
    requires a != [] && (b == [] || !(IsSpace(a[|a| - 1]) && IsSpace(b[0])))
    ensures NoSpaceRun(a + b)
  {
    var r := a + b;
    forall i | 0 <= i < |r| - 1 ensures !(IsSpace(r[i]) && IsSpace(r[i + 1])) {
      if i + 1 < |a| {
        assert r[i] == a[i] && r[i + 1] == a[i + 1];
      } else if i + 1 == |a| {
        assert r[i] == a[i] && r[i + 1] == b[0];
      } else {
        assert r[i] == b[i - |a|] && r[i + 1] == b[i + 1 - |a|];
      }
    }
  }

  // ---------------------------------------------------------------------
  // The request handler

  /** The JSON values a body field can hold, as far as the handler tells them apart. */
  datatype JsValue = Undefined | Null | Bool(b: bool) | Num(n: real) | Str(s: string) | Composite

  predicate Truthy(v: JsValue) {
    match v
    case Undefined => false
    case Null => false
    case Bool(b) => b
    case Num(n) => n != 0.0
    case Str(s) => s != ""
    case Composite => true
  }

  /** `v || fallback`. */
  function Or(v: JsValue, fallback: JsValue): (r: JsValue)
    ensures Truthy(v) ==> r == v
    ensures !Truthy(v) ==> r == fallback
    ensures r == v || r == fallback
    ensures Truthy(r) <==> Truthy(v) || Truthy(fallback)
  {
    if Truthy(v) then v else fallback
  }

  /** The destructured request body. */
  datatype Body = Body(text: JsValue, voice: JsValue, model: JsValue, speed: JsValue)

  /** The parameters of the speech call. */
  datatype Params = Params(model: JsValue, voice: JsValue, input: string, speed: JsValue, responseFormat: string)

  /** A thrown error: its `name` and its `code` (absent for most errors). */
  datatype ApiError = ApiError(name: string, code: Option<string>)

  datatype Response =
    | JsonError(status: nat, error: string)
    | Audio(bytes: seq<bv8>, contentType: string, contentLength: string)

  /** The `catch` block: the two name checks first, then the connection codes. */
  function StatusFor(e: ApiError): nat {
    if e.name == "AuthenticationError" then 401
    else if e.name == "RateLimitError" then 429
    else if e.code == Some("ECONNREFUSED") || e.code == Some("ENOTFOUND") then 503
    else 500
  }

  function MessageFor(e: ApiError): string {
    if e.name == "AuthenticationError" then "Erreur d'authentification avec l'API OpenAI"
    else if e.name == "RateLimitError" then "Limite de taux de l'API OpenAI dépassée"
    else if e.code == Some("ECONNREFUSED") || e.code == Some("ENOTFOUND") then "Impossible de se connecter au service OpenAI"
    else "Erreur lors de la génération de l'audio"
  }

  function ErrorResponse(e: ApiError): Response {
    JsonError(StatusFor(e), MessageFor(e))
  }

  /** The `params` object for a text, with the defaults of the `||` expressions
      and the later replace on `input` applied. */
  function BuildParams(body: Body, text: string): Params {
    var p := Params(Or(body.model, Str("tts-1-hd")), Or(body.voice, Str("onyx")), Enhance(text), Or(body.speed, Num(0.8)), "mp3");
    p.(input := SpaceBeforeFinalPunctuation(p.input))
  }

  /** The `POST` handler. `apiKey` is `process.env.OPENAI_API_KEY`; `body` is what
      `request.json()` yields or throws; `speech` stands for the speech service. */
  function Post(apiKey: Option<string>, body: Result<Body, ApiError>, speech: Params -> Result<seq<bv8>, ApiError>): Response {
    if apiKey.None? || apiKey.value == "" then JsonError(500, "Configuration serveur incorrecte: Clé API manquante")
    else match body
      case Failure(e) => ErrorResponse(e)
      case Success(b) =>
        if !Truthy(b.text) then JsonError(400, "Le texte est requis")
        else if !b.text.Str? then ErrorResponse(ApiError("TypeError", None))  // `text.replace` is not a function
        else
          match speech(BuildParams(b, b.text.s))
          case Failure(e) => ErrorResponse(e)
          case Success(bytes) => Audio(bytes, "audio/mpeg", Decimal.Show(|bytes|))
  }

  /** Without an API key the answer is 500, whatever the body and the service do. */
  lemma MissingKeyFirst(apiKey: Option<string>, body: Result<Body, ApiError>, speech: Params -> Result<seq<bv8>, ApiError>)
    requires apiKey.None? || apiKey == Some("")
    ensures Post(apiKey, body, speech).JsonError? && Post(apiKey, body, speech).status == 500
  {
  }

  /** With a key, a missing or empty text is a 400 and the service is not called. */
  lemma MissingTextIs400(key: string, b: Body, speech: Params -> Result<seq<bv8>, ApiError>)
    requires key != ""
    requires b.text in {Undefined, Null, Str(""), Bool(false), Num(0.0)}
    ensures Post(Some(key), Success(b), speech) == JsonError(400, "Le texte est requis")
  {
  }

  /** The order of the checks classifies every error. */
  lemma StatusMapping(e: ApiError)
    ensures StatusFor(e) in {401, 429, 503, 500}
    ensures StatusFor(e) == 401 <==> e.name == "AuthenticationError"
    ensures StatusFor(e) == 429 <==> e.name == "RateLimitError"
    ensures StatusFor(e) == 503 <==>
      e.name != "AuthenticationError" && e.name != "RateLimitError" && e.code in {Some("ECONNREFUSED"), Some("ENOTFOUND")}
  {
  }

  /** The name checks come first: an authentication error with a connection code is still a 401. */
  lemma NameBeforeCode()
    ensures StatusFor(ApiError("AuthenticationError", Some("ECONNREFUSED"))) == 401
    ensures StatusFor(ApiError("RateLimitError", Some("ENOTFOUND"))) == 429
    ensures StatusFor(ApiError("Error", Some("ENOTFOUND"))) == 503
    ensures StatusFor(ApiError("SyntaxError", None)) == 500
  {
  }

  /** What the service is asked for: the defaults, mp3, and the rewritten text unchanged by the later replace. */
  lemma ParamsShape(b: Body, text: string)
    ensures var p := BuildParams(b, text);
      && p.input == Enhance(text)
      && p.responseFormat == "mp3"
      && p.model == (if Truthy(b.model) then b.model else Str("tts-1-hd"))
      && p.voice == (if Truthy(b.voice) then b.voice else Str("onyx"))
      && p.speed == (if Truthy(b.speed) then b.speed else Num(0.8))
  {
    FinalReplaceIsIdentity(text);
  }

  /** A successful call returns the service's bytes as `audio/mpeg` with their length. */
  lemma SuccessResponse(key: string, b: Body, speech: Params -> Result<seq<bv8>, ApiError>)
    requires key != "" && b.text.Str? && b.text.s != ""
    ensures var p := BuildParams(b, b.text.s);
      && p.input == Enhance(b.text.s)
      && (speech(p).Success? ==>
            Post(Some(key), Success(b), speech) == Audio(speech(p).value, "audio/mpeg", Decimal.Show(|speech(p).value|)))
      && (speech(p).Failure? ==>
            Post(Some(key), Success(b), speech).JsonError? && Post(Some(key), Success(b), speech).status == StatusFor(speech(p).error))
  {
    ParamsShape(b, b.text.s);
  }
}
