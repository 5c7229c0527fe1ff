/** The application shell: three pieces of state (`stickerUrl`,
    `stickerType`, `textSticker`) and the two handlers it passes to the
    sticker panel. An uploaded image clears the text, and added text clears
    the image. */
module App {
  import opened Common
  import StickerUI

  datatype AppState = AppState(stickerUrl: Option<string>, stickerType: Option<string>, textSticker: string)

  /** `useState(null)`, `useState(null)`, `useState('')`. */
  const Initial: AppState := AppState(None, None, "")

  /** The state after `handleImageUpload(url, type)`. */
  function ImageUploaded(s: AppState, url: string, mimeType: string): (r: AppState)
    ensures r.stickerUrl == Some(url) && r.stickerType == Some(mimeType) && r.textSticker == ""
  {
    s.(stickerUrl := Some(url), stickerType := Some(mimeType), textSticker := "")
  }

  /** The state after `handleTextAdd(text)`: the type of the previous image
      is left behind. */
  function TextAdded(s: AppState, text: string): (r: AppState)
    ensures r.textSticker == text && r.stickerUrl == None && r.stickerType == s.stickerType
  {
    s.(textSticker := text, stickerUrl := None)
  }

  /** Never an image and some text at once. */
  predicate Exclusive(s: AppState)
  {
    s.stickerUrl.None? || s.textSticker == ""
  }

  /** Both handlers leave the state exclusive, whatever it was. */
  lemma HandlersMakeExclusive(s: AppState, url: string, mimeType: string, text: string)
    ensures Exclusive(ImageUploaded(s, url, mimeType))
    ensures Exclusive(TextAdded(s, text))
    ensures Exclusive(Initial)
  {
  }

  // ---------------------------------------------------------------------------
  // The application wired to the sticker panel

  /** How the application reacts to one call of the panel. */
  function Deliver(s: AppState, c: StickerUI.Call): AppState
  {
    match c
    case Alert(_) => s
    case ImageUpload(url, mimeType) => ImageUploaded(s, url, mimeType)
    case TextAdd(text) => TextAdded(s, text)
  }

  function Receive(s: AppState, calls: seq<StickerUI.Call>): AppState
    decreases |calls|
  {
    if calls == [] then s else Receive(Deliver(s, calls[0]), calls[1..])
  }

  /** What holds in every reachable state: image and text exclude each
      other, a shown image has a type, every type is on the allow-list, and
      any text is more than white space. */
  predicate Consistent(s: AppState)
  {
    && Exclusive(s)
    && (s.stickerUrl.Some? ==> s.stickerType.Some?)
    && (s.stickerType.Some? ==> IsAllowedImageType(s.stickerType.value))
    && (s.textSticker != "" ==> !AllWhitespace(s.textSticker))
  }

  lemma {:induction false} ReceiveKeepsConsistent(s: AppState, calls: seq<StickerUI.Call>)
    requires Consistent(s) && StickerUI.SoundCalls(calls)
    ensures Consistent(Receive(s, calls))
    decreases |calls|
  {
    if calls != [] {
      assert StickerUI.SoundCall(calls[0]);
      assert StickerUI.SoundCalls(calls[1..]) by {
        forall i | 0 <= i < |calls[1..]| ensures StickerUI.SoundCall(calls[1..][i]) {
          assert calls[1..][i] == calls[i + 1];
        }
      }
      ReceiveKeepsConsistent(Deliver(s, calls[0]), calls[1..]);
    }
  }

  /** Whatever the user does on the sticker panel, from the start of the
      application, the state stays consistent. */
  lemma SessionStaysConsistent(actions: seq<StickerUI.Action>)
    ensures Consistent(Receive(Initial, StickerUI.Run(StickerUI.InitialPanel, actions).1))
  {
    StickerUI.RunIsSound(StickerUI.InitialPanel, actions);
    ReceiveKeepsConsistent(Initial, StickerUI.Run(StickerUI.InitialPanel, actions).1);
  }

  // ---------------------------------------------------------------------------
  // The component

  class AppView {
    var stickerUrl: Option<string>
    var stickerType: Option<string>
    var textSticker: string

    function State(): AppState
      reads this
    {
      AppState(stickerUrl, stickerType, textSticker)
    }

    constructor ()
      ensures State() == Initial
    {
      stickerUrl, stickerType, textSticker := None, None, "";
    }

    method HandleImageUpload(url: string, mimeType: string)
      modifies this
      ensures State() == ImageUploaded(old(State()), url, mimeType)
      ensures Exclusive(State())
    {
      stickerUrl := Some(url);
      stickerType := Some(mimeType);
      textSticker := "";
    }

    method HandleTextAdd(text: string)
      modifies this
      ensures State() == TextAdded(old(State()), text)
      ensures Exclusive(State())
    {
      textSticker := text;
      stickerUrl := None;
    }
  }
}
