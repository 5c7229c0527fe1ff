/** The sticker panel: a drop zone and file picker for the front sticker
    image, a text field with an "Add Text Sticker" button, and four preset
    images. It reports to the application through `onImageUpload(url, type)`
    and `onTextAdd(text)`. Unlike the bottom-logo panel it never clears its
    own text field. */
module StickerUI {
  import opened Common

  /** An alert, or a call of one of the two callbacks. */
  datatype Call = Alert(message: string) | ImageUpload(url: string, mimeType: string) | TextAdd(text: string)

  const BadTypeMessage: string := "Please upload only PNG, SVG, or WebP images with transparent backgrounds."

  datatype PresetSticker = Heart | Star | Roses | Sample

  /** The path and MIME type each preset button passes. */
  function PresetImage(sticker: PresetSticker): (r: (string, string))
  {
    match sticker
    case Heart => ("/heart-logo.svg", "image/svg+xml")
    case Star => ("/star-logo.svg", "image/svg+xml")
    case Roses => ("/roses.png", "image/png")
    case Sample => ("/sample-logo.svg", "image/svg+xml")
  }

  /** Every preset declares the type its extension implies, and that type
      is on the allow-list the file handlers check. */
  lemma PresetTypesMatchPaths(sticker: PresetSticker, url: string, mimeType: string)
    requires (url, mimeType) == PresetImage(sticker)
    ensures IsAllowedImageType(mimeType)
    ensures mimeType == "image/svg+xml" <==> IsSvgUrl(url)
    ensures mimeType == "image/png" <==> EndsWith(url, ".png")
  {
    if sticker == Roses {
      PngPath(url, mimeType);
    } else {
      SvgPath(url, mimeType);
    }
  }

  lemma PngPath(url: string, mimeType: string)
    requires mimeType == "image/png" && EndsWith(url, ".png")
    ensures IsAllowedImageType(mimeType) && !IsSvgUrl(url) && mimeType != "image/svg+xml"
  {
    var stem := url[..|url| - 4];
    assert url == stem + ".png";
    OtherSuffixesRejected(stem);
    assert |mimeType| != |"image/svg+xml"|;
  }

  lemma SvgPath(url: string, mimeType: string)
    requires mimeType == "image/svg+xml" && EndsWith(url, ".svg")
    ensures IsAllowedImageType(mimeType) && IsSvgUrl(url) && !EndsWith(url, ".png") && mimeType != "image/png"
  {
    var stem := url[..|url| - 4];
    assert url == stem + ".svg";
    SvgSuffixCaseInsensitive(stem);
    assert url[|url| - 4..][1] == 's';
    assert |mimeType| != |"image/png"|;
  }

  /** What the user can do to the panel. */
  datatype Action =
    | DragOver
    | DragLeave
    | Drop(files: seq<File>)
    | FileInput(files: seq<File>)
    | SubmitText
    | EditText(text: string)
    | Preset(sticker: PresetSticker)

  /** The panel's own state; the text field starts empty. */
  datatype Panel = Panel(isDragging: bool, textInput: string)

  const InitialPanel: Panel := Panel(false, "")

  /** `handleFile`: an alert for a type outside the allow-list, otherwise
      the object URL and the declared type go to the application. */
  function FileOutcome(file: File): (calls: seq<Call>)
  {
    if !IsAllowedImageType(file.mimeType) then [Alert(BadTypeMessage)]
    else [ImageUpload(file.objectUrl, file.mimeType)]
  }

  /** `handleTextSubmit`: the text goes to the application unless the
      trimmed text is empty, that is, unless it is all white space
      (`TrimEmptyIffBlank`). */
  function SubmitCalls(textInput: string): seq<Call>
  {
    if !AllWhitespace(textInput) then [TextAdd(textInput)] else []
  }

  /** One handler: the new panel state and the calls it makes. */
  function Step(s: Panel, a: Action): (r: (Panel, seq<Call>))
    ensures r.0.isDragging == (if a.DragOver? then true else if a.DragLeave? || a.Drop? then false else s.isDragging)
    ensures r.0.textInput == (if a.EditText? then a.text else s.textInput)
    ensures |r.1| <= 1
  {
    match a
    case DragOver => (s.(isDragging := true), [])
    case DragLeave => (s.(isDragging := false), [])
    case Drop(files) => (s.(isDragging := false), if |files| > 0 then FileOutcome(files[0]) else [])
    case FileInput(files) => (s, if |files| > 0 then FileOutcome(files[0]) else [])
    case SubmitText => (s, SubmitCalls(s.textInput))
    case EditText(text) => (s.(textInput := text), [])
    case Preset(sticker) => (s, [ImageUpload(PresetImage(sticker).0, PresetImage(sticker).1)])
  }

  /** Handlers one after another, with all the calls they make. */
  function Run(s: Panel, actions: seq<Action>): (Panel, seq<Call>)
    decreases |actions|
  {
    if actions == [] then (s, [])
    else
      var (s1, c1) := Step(s, actions[0]);
      var (s2, c2) := Run(s1, actions[1..]);
      (s2, c1 + c2)
  }

  /** Only the first file of a drop or a selection matters; an empty list
      calls nothing. A rejected file raises exactly one alert. */
  lemma OnlyFirstFileMatters(s: Panel, files: seq<File>, others: seq<File>)
    requires files != [] && others != [] && files[0] == others[0]
    ensures Step(s, Drop(files)) == Step(s, Drop(others))
    ensures Step(s, FileInput(files)) == Step(s, FileInput(others))
    ensures Step(s, Drop([])).1 == [] && Step(s, FileInput([])).1 == []
    ensures !IsAllowedImageType(files[0].mimeType) ==> Step(s, FileInput(files)).1 == [Alert(BadTypeMessage)]
  {
  }

  /** Text is submitted exactly when the field holds something besides
      white space; it is passed untrimmed and the field keeps it. */
  lemma SubmitIffTrimmed(s: Panel)
    ensures Step(s, SubmitText).1 != [] <==> Trim(s.textInput) != ""
    ensures Step(s, SubmitText).1 != [] ==> Step(s, SubmitText).1 == [TextAdd(s.textInput)]
    ensures Step(s, SubmitText).0 == s
  {
    TrimEmptyIffBlank(s.textInput);
  }

  /** What the application can be told: an image whose type is on the
      allow-list, or text that is not blank. */
  predicate SoundCall(c: Call)
  {
    && (c.ImageUpload? ==> IsAllowedImageType(c.mimeType))
    && (c.TextAdd? ==> !AllWhitespace(c.text))
  }

  predicate SoundCalls(calls: seq<Call>)
  {
    forall i :: 0 <= i < |calls| ==> SoundCall(calls[i])
  }

  lemma StepIsSound(s: Panel, a: Action)
    ensures SoundCalls(Step(s, a).1)
  {
    match a
    case Preset(sticker) => PresetTypesMatchPaths(sticker, PresetImage(sticker).0, PresetImage(sticker).1);
    case _ =>
  }

  /** Whatever the user does, every callback carries an allowed type or
      non-blank text. */
  lemma {:induction false} RunIsSound(s: Panel, actions: seq<Action>)
    ensures SoundCalls(Run(s, actions).1)
    decreases |actions|
  {
    if actions != [] {
      var (s1, c1) := Step(s, actions[0]);
      var (s2, c2) := Run(s1, actions[1..]);
      StepIsSound(s, actions[0]);
      RunIsSound(s1, actions[1..]);
      assert Run(s, actions).1 == c1 + c2;
      forall i | 0 <= i < |c1 + c2| ensures SoundCall((c1 + c2)[i]) {
        if i >= |c1| {
          assert (c1 + c2)[i] == c2[i - |c1|];
        }
      }
    }
  }

  // ---------------------------------------------------------------------------
  // The component

  class StickerPanel {
    var isDragging: bool
    var textInput: string
    /** Alerts and callbacks, in the order they happened. */
    var calls: seq<Call>

    function State(): Panel
      reads this
    {
      Panel(isDragging, textInput)
    }

    constructor ()
      ensures State() == InitialPanel && calls == []
    {
      isDragging, textInput, calls := false, "", [];
    }

    method HandleDragOver()
      modifies this
      ensures State() == Step(old(State()), DragOver).0
      ensures calls == old(calls) + Step(old(State()), DragOver).1
    {
      isDragging := true;
    }

    method HandleDragLeave()
      modifies this
      ensures State() == Step(old(State()), DragLeave).0
      ensures calls == old(calls) + Step(old(State()), DragLeave).1
    {
      isDragging := false;
    }

    method HandleFile(file: File)
      modifies this
      ensures State() == old(State())
      ensures calls == old(calls) + FileOutcome(file)
    {
      if !IsAllowedImageType(file.mimeType) {
        calls := calls + [Alert(BadTypeMessage)];
        return;
      }
      var url := file.objectUrl;
      calls := calls + [ImageUpload(url, file.mimeType)];
    }

    method HandleDrop(files: seq<File>)
      modifies this
      ensures State() == Step(old(State()), Drop(files)).0
      ensures calls == old(calls) + Step(old(State()), Drop(files)).1
    {
      isDragging := false;
      if |files| > 0 {
        HandleFile(files[0]);
      }
    }

    method HandleFileInput(files: seq<File>)
      modifies this
      ensures State() == Step(old(State()), FileInput(files)).0
      ensures calls == old(calls) + Step(old(State()), FileInput(files)).1
    {
      if |files| > 0 {
        HandleFile(files[0]);
      }
    }

    method HandleTextSubmit()
      modifies this
      ensures State() == Step(old(State()), SubmitText).0
      ensures calls == old(calls) + Step(old(State()), SubmitText).1
    {
      TrimEmptyIffBlank(textInput);
      if Trim(textInput) != "" {
        calls := calls + [TextAdd(textInput)];
      }
    }

    method HandleTextEdit(text: string)
      modifies this
      ensures State() == Step(old(State()), EditText(text)).0
      ensures calls == old(calls) + Step(old(State()), EditText(text)).1
    {
      textInput := text;
    }

    method HandlePreset(sticker: PresetSticker)
      modifies this
      ensures State() == Step(old(State()), Preset(sticker)).0
      ensures calls == old(calls) + Step(old(State()), Preset(sticker)).1
    {
      var (url, mimeType) := PresetImage(sticker);
      calls := calls + [ImageUpload(url, mimeType)];
    }
  }
}
