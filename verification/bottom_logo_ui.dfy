/** The bottom-logo panel: a drop zone and file picker for a logo image, a
    "Clear Logo" button, four preset logos and a text field. Every handler
    that sets a logo also clears the text, and adding text clears the logo.
    The panel talks to its parent only through `onLogoUpload` and
    `onTextChange`; the parent component is not part of this model, so it is
    represented by `Parent`, which keeps the last value each callback
    delivered. */
module BottomLogoUI {
  import opened Common

  /** An alert, or a call of one of the parent's two callbacks. */
  datatype Call = Alert(message: string) | LogoUpload(url: Option<string>) | TextChange(text: string)

  const BadTypeMessage: string := "Please upload only PNG, SVG, or WebP images with transparent backgrounds."

  /** The logo "Clear Logo" puts back. */
  const ClearedLogoUrl: string := "/tux.png"

  datatype PresetLogo = Heart | Star | Rose | Sample

  function PresetUrl(logo: PresetLogo): string
  {
    match logo
    case Heart => "/heart-logo.svg"
    case Star => "/star-logo.svg"
    case Rose => "/rose.svg"
    case Sample => "/sample-logo.svg"
  }

  /** Every preset is an SVG, so the engraver extrudes it rather than
      tracing it. */
  lemma PresetsAreSvg(logo: PresetLogo, url: string)
    requires url == PresetUrl(logo)
    ensures IsSvgUrl(url)
  {
    var stem := url[..|url| - 4];
    assert url == stem + ".svg";
    SvgSuffixCaseInsensitive(stem);
  }

  /** What the user can do to the panel. */
  datatype Action =
    | DragOver
    | DragLeave
    | Drop(files: seq<File>)
    | FileInput(files: seq<File>)
    | Clear
    | AddText
    | EditText(text: string)
    | Preset(logo: PresetLogo)

  /** The panel's own state. */
  datatype Panel = Panel(isDragging: bool, textInput: string)

  /** `handleFile`: a file outside the allow-list only raises an alert; an
      accepted one becomes the logo and clears both texts. */
  function FileOutcome(s: Panel, file: File): (r: (Panel, seq<Call>))
    ensures r.0.isDragging == s.isDragging
  {
    if !IsAllowedImageType(file.mimeType) then (s, [Alert(BadTypeMessage)])
    else (s.(textInput := ""), [LogoUpload(Some(file.objectUrl)), TextChange("")])
  }

  /** `handleAddText`: the text goes to the parent, then the logo is
      cleared, unless the trimmed text is empty, that is, unless the text is
      all white space (`TrimEmptyIffBlank`). */
  function AddTextCalls(textInput: string): seq<Call>
  {
    if !AllWhitespace(textInput) then [TextChange(textInput), LogoUpload(None)] else []
  }

  /** One handler: the new panel state and the calls it makes, in order. */
  function Step(s: Panel, a: Action): (r: (Panel, seq<Call>))
    ensures r.0.isDragging == (if a.DragOver? then true else if a.DragLeave? || a.Drop? then false else s.isDragging)
    ensures |r.1| <= 2
  {
    match a
    case DragOver => (s.(isDragging := true), [])
    case DragLeave => (s.(isDragging := false), [])
    case Drop(files) =>
      var t := s.(isDragging := false);
      if |files| > 0 then FileOutcome(t, files[0]) else (t, [])
    case FileInput(files) =>
      if |files| > 0 then FileOutcome(s, files[0]) else (s, [])
    case Clear => (s.(textInput := ""), [LogoUpload(Some(ClearedLogoUrl)), TextChange("")])
    case AddText => (s, AddTextCalls(s.textInput))
    case EditText(text) => (s.(textInput := text), [])
    case Preset(logo) => (s.(textInput := ""), [LogoUpload(Some(PresetUrl(logo))), TextChange("")])
  }

  /** Handlers one after another, with all the calls they make. */
  function Run(s: Panel, actions: seq<Action>): (Panel, seq<Call>)
    decreases |actions|
  {
    if actions == [] then (s, [])
    else
      var (s1, c1) := Step(s, actions[0]);
      var (s2, c2) := Run(s1, actions[1..]);
      (s2, c1 + c2)
  }

  /** Only the first file of a drop or a selection matters, and an empty
      list does nothing but end the drag. */
  lemma OnlyFirstFileMatters(s: Panel, files: seq<File>, others: seq<File>)
    requires files != [] && others != [] && files[0] == others[0]
    ensures Step(s, Drop(files)) == Step(s, Drop(others))
    ensures Step(s, FileInput(files)) == Step(s, FileInput(others))
    ensures Step(s, Drop([])) == (s.(isDragging := false), [])
    ensures Step(s, FileInput([])) == (s, [])
  {
  }

  /** A rejected file raises exactly one alert and changes no text. */
  lemma RejectedFileOnlyAlerts(s: Panel, file: File)
    requires !IsAllowedImageType(file.mimeType)
    ensures Step(s, FileInput([file])) == (s, [Alert(BadTypeMessage)])
    ensures Step(s, Drop([file])).1 == [Alert(BadTypeMessage)]
    ensures Step(s, Drop([file])).0.textInput == s.textInput
  {
  }

  /** "Add Text" fires exactly when the field holds something besides white
      space, and then passes the field untrimmed and clears the logo. */
  lemma AddTextIffTrimmed(s: Panel)
    ensures Step(s, AddText).1 != [] <==> Trim(s.textInput) != ""
    ensures Step(s, AddText).1 != [] ==> Step(s, AddText).1 == [TextChange(s.textInput), LogoUpload(None)]
    ensures Step(s, AddText).0 == s
  {
    TrimEmptyIffBlank(s.textInput);
  }

  // ---------------------------------------------------------------------------
  // The parent, as far as the callbacks reach it

  datatype Parent = Parent(logoUrl: Option<string>, text: string)

  function Deliver(p: Parent, c: Call): Parent
  {
    match c
    case Alert(_) => p
    case LogoUpload(url) => p.(logoUrl := url)
    case TextChange(text) => p.(text := text)
  }

  function Receive(p: Parent, calls: seq<Call>): Parent
    decreases |calls|
  {
    if calls == [] then p else Receive(Deliver(p, calls[0]), calls[1..])
  }

  predicate OnlyAlerts(calls: seq<Call>)
  {
    forall i :: 0 <= i < |calls| ==> calls[i].Alert?
  }

  predicate SetsLogo(calls: seq<Call>)
  {
    exists i :: 0 <= i < |calls| && calls[i].LogoUpload? && calls[i].url.Some?
  }

  /** The parent never holds both a logo and some text. */
  predicate Exclusive(p: Parent)
  {
    p.logoUrl.None? || p.text == ""
  }

  lemma {:induction false} ReceiveAppend(p: Parent, a: seq<Call>, b: seq<Call>)
    ensures Receive(p, a + b) == Receive(Receive(p, a), b)
    decreases |a|
  {
    if a == [] {
      assert a + b == b;
    } else {
      assert (a + b)[0] == a[0];
      assert (a + b)[1..] == a[1..] + b;
      ReceiveAppend(Deliver(p, a[0]), a[1..], b);
    }
  }

  lemma ReceivePair(p: Parent, c0: Call, c1: Call)
    ensures Receive(p, [c0]) == Deliver(p, c0)
    ensures Receive(p, [c0, c1]) == Deliver(Deliver(p, c0), c1)
  {
    var q := Deliver(p, c0);
    assert [c0][1..] == [];
    assert Receive(p, [c0]) == Receive(q, []);
    assert [c0, c1][1..] == [c1];
    assert Receive(p, [c0, c1]) == Receive(q, [c1]);
    assert [c1][1..] == [];
    assert Receive(q, [c1]) == Receive(Deliver(q, c1), []);
  }

  /** The call sequences a single handler can produce. */
  predicate Batch(calls: seq<Call>)
  {
    || calls == []
    || (|calls| == 1 && calls[0].Alert?)
    || (|calls| == 2 && calls[0].LogoUpload? && calls[0].url.Some? && calls[1] == TextChange(""))
    || (|calls| == 2 && calls[0].TextChange? && calls[1] == LogoUpload(None))
  }

  /** Every handler produces one of those sequences, and one that sets a
      logo has also emptied the text field. */
  lemma StepIsBatch(s: Panel, a: Action)
    ensures Batch(Step(s, a).1)
    ensures SetsLogo(Step(s, a).1) ==> Step(s, a).0.textInput == ""
  {
    var calls := Step(s, a).1;
    if SetsLogo(calls) {
      var i :| 0 <= i < |calls| && calls[i].LogoUpload? && calls[i].url.Some?;
    }
  }

  /** A batch that calls the parent at all leaves it exclusive, whatever it
      held before; an alert leaves it as it was. A logo arrives together
      with cleared text. */
  lemma BatchLeavesParentExclusive(calls: seq<Call>, p: Parent)
    requires Batch(calls)
    ensures OnlyAlerts(calls) ==> Receive(p, calls) == p
    ensures !OnlyAlerts(calls) ==> Exclusive(Receive(p, calls))
    ensures SetsLogo(calls) ==> Receive(p, calls).text == ""
  {
    if |calls| == 2 {
      assert calls == [calls[0], calls[1]];
      ReceivePair(p, calls[0], calls[1]);
    } else if |calls| == 1 {
      assert calls == [calls[0]];
      ReceivePair(p, calls[0], calls[0]);
    }
  }

  /** Whatever the user does, a parent that starts exclusive stays so. */
  lemma {:induction false} RunLeavesParentExclusive(s: Panel, actions: seq<Action>, p: Parent)
    requires Exclusive(p)
    ensures Exclusive(Receive(p, Run(s, actions).1))
    decreases |actions|
  {
    if actions != [] {
      var (s1, c1) := Step(s, actions[0]);
      var (s2, c2) := Run(s1, actions[1..]);
      ReceiveAppend(p, c1, c2);
      StepIsBatch(s, actions[0]);
      BatchLeavesParentExclusive(c1, p);
      RunLeavesParentExclusive(s1, actions[1..], Receive(p, c1));
    }
  }

  // ---------------------------------------------------------------------------
  // The component

  class BottomLogoPanel {
    var isDragging: bool
    var textInput: string
    /** Alerts and parent callbacks, in the order they happened. */
    var calls: seq<Call>

    function State(): Panel
      reads this
    {
      Panel(isDragging, textInput)
    }

    /** The field starts with the parent's current text. */
    constructor (currentText: string)
      ensures State() == Panel(false, currentText) && calls == []
    {
      isDragging, textInput, calls := false, currentText, [];
    }

    method HandleDragOver()
      modifies this
      ensures State() == Step(old(State()), DragOver).0
      ensures calls == old(calls) + Step(old(State()), DragOver).1
    {
      isDragging := true;
    }

    method HandleDragLeave()
      modifies this
      ensures State() == Step(old(State()), DragLeave).0
      ensures calls == old(calls) + Step(old(State()), DragLeave).1
    {
      isDragging := false;
    }

    method HandleFile(file: File)
      modifies this
      ensures State() == FileOutcome(old(State()), file).0
      ensures calls == old(calls) + FileOutcome(old(State()), file).1
    {
      if !IsAllowedImageType(file.mimeType) {
        calls := calls + [Alert(BadTypeMessage)];
        return;
      }
      var url := file.objectUrl;
      calls := calls + [LogoUpload(Some(url))];
      textInput := "";
      calls := calls + [TextChange("")];
    }

    method HandleDrop(files: seq<File>)
      modifies this
      ensures State() == Step(old(State()), Drop(files)).0
      ensures calls == old(calls) + Step(old(State()), Drop(files)).1
    {
      isDragging := false;
      if |files| > 0 {
        HandleFile(files[0]);
      }
    }

    method HandleFileInput(files: seq<File>)
      modifies this
      ensures State() == Step(old(State()), FileInput(files)).0
      ensures calls == old(calls) + Step(old(State()), FileInput(files)).1
    {
      if |files| > 0 {
        HandleFile(files[0]);
      }
    }

    method HandleClear()
      modifies this
      ensures State() == Step(old(State()), Clear).0
      ensures calls == old(calls) + Step(old(State()), Clear).1
    {
      calls := calls + [LogoUpload(Some(ClearedLogoUrl))];
      textInput := "";
      calls := calls + [TextChange("")];
    }

    method HandleAddText()
      modifies this
      ensures State() == Step(old(State()), AddText).0
      ensures calls == old(calls) + Step(old(State()), AddText).1
    {
      TrimEmptyIffBlank(textInput);
      if Trim(textInput) != "" {
        calls := calls + [TextChange(textInput)];
        calls := calls + [LogoUpload(None)];
      }
    }

    method HandleTextEdit(text: string)
      modifies this
      ensures State() == Step(old(State()), EditText(text)).0
      ensures calls == old(calls) + Step(old(State()), EditText(text)).1
    {
      textInput := text;
    }

    method HandlePreset(logo: PresetLogo)
      modifies this
      ensures State() == Step(old(State()), Preset(logo)).0
      ensures calls == old(calls) + Step(old(State()), Preset(logo)).1
    {
      calls := calls + [LogoUpload(Some(PresetUrl(logo)))];
      textInput := "";
      calls := calls + [TextChange("")];
    }
  }
}
