/** The UI store: which side panel is open. */
module UiStore {
  import opened Common

  class UiStoreState {
    /** null, or any value; 'sticker' and 'bottom' are the intended ones. */
    var activePanel: Option<string>

    constructor ()
      ensures activePanel == None
    {
      activePanel := None;
    }

    method SetActivePanel(panel: Option<string>)
      modifies this
      ensures activePanel == panel
    {
      activePanel := panel;
    }
  }

  /** The panel after a series of `setActivePanel` calls. */
  function PanelAfter(current: Option<string>, calls: seq<Option<string>>): Option<string>
    decreases |calls|
  {
    if calls == [] then current else PanelAfter(calls[0], calls[1..])
  }

  /** The last call wins, whatever came before it. */
  lemma {:induction false} LastCallWins(current: Option<string>, calls: seq<Option<string>>)
    requires calls != []
    ensures PanelAfter(current, calls) == calls[|calls| - 1]
    decreases |calls|
  {
    if |calls| > 1 {
      LastCallWins(calls[0], calls[1..]);
    }
  }

  /** Repeating a call changes nothing, and no calls change nothing. */
  lemma {:induction false} RepeatIsIdempotent(current: Option<string>, calls: seq<Option<string>>, panel: Option<string>)
    ensures PanelAfter(current, calls + [panel, panel]) == PanelAfter(current, calls + [panel])
    ensures PanelAfter(current, []) == current
  {
    LastCallWins(current, calls + [panel, panel]);
    LastCallWins(current, calls + [panel]);
  }
}
