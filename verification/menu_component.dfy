/** The add/remove mode of src/components/menu/MenuComponent.jsx. */
module MenuComponent {

  /** Which button was clicked last: add, remove, or neither yet. */
  datatype Modes = Modes(addClicked: bool, removeClicked: bool)

  const InitialModes: Modes := Modes(false, false)

  /** The value passed to `onClickedButton`. */
  datatype ButtonSignal = AddSignal | RemoveSignal

  /** `handleAdd`: add mode on, remove mode off, then "add" is signalled. */
  function HandleAdd(m: Modes): (r: (Modes, ButtonSignal))
    ensures r.0.addClicked && !r.0.removeClicked && r.1 == AddSignal
  {
    (m.(addClicked := true, removeClicked := false), AddSignal)
  }

  /** `handleRemove`: remove mode on, add mode off, then "remove" is
      signalled. */
  function HandleRemove(m: Modes): (r: (Modes, ButtonSignal))
    ensures r.0.removeClicked && !r.0.addClicked && r.1 == RemoveSignal
  {
    (m.(removeClicked := true, addClicked := false), RemoveSignal)
  }

  /** The word on the action button. */
  function ActionLabel(m: Modes): (caption: string)
    ensures caption == "Add" <==> m.addClicked
    ensures caption == "Add" || caption == "Remove"
  {
    if m.addClicked then "Add" else "Remove"
  }

  /** How many copies of the option list are rendered: one per active mode. */
  function ListedOptionLists(m: Modes): nat
  {
    (if m.addClicked then 1 else 0) + (if m.removeClicked then 1 else 0)
  }

  datatype ModeClick = AddClick | RemoveClick

  /** The modes after a sequence of clicks, first click first; the second
      part lists the signals sent, in order. */
  function Run(m: Modes, clicks: seq<ModeClick>): (Modes, seq<ButtonSignal>)
    decreases |clicks|
  {
    if clicks == [] then (m, [])
    else
      var step := if clicks[0] == AddClick then HandleAdd(m) else HandleRemove(m);
      var rest := Run(step.0, clicks[1..]);
      (rest.0, [step.1] + rest.1)
  }

  /** Never both modes at once. */
  predicate Exclusive(m: Modes)
  {
    !(m.addClicked && m.removeClicked)
  }

  /** From the initial modes, any sequence of clicks keeps the modes
      exclusive; after at least one click exactly one mode is on and it is
      the one of the last click; every click sends its own signal. */
  lemma {:induction false} RunKeepsModesExclusive(m: Modes, clicks: seq<ModeClick>)
    requires Exclusive(m)
    ensures Exclusive(Run(m, clicks).0)
    ensures |Run(m, clicks).1| == |clicks|
    ensures forall i :: 0 <= i < |clicks| ==> (Run(m, clicks).1[i] == AddSignal <==> clicks[i] == AddClick)
    ensures clicks != [] ==> (Run(m, clicks).0.addClicked <==> clicks[|clicks| - 1] == AddClick)
    ensures clicks != [] ==> ListedOptionLists(Run(m, clicks).0) == 1
    decreases |clicks|
  {
    if clicks != [] {
      var step := if clicks[0] == AddClick then HandleAdd(m) else HandleRemove(m);
      RunKeepsModesExclusive(step.0, clicks[1..]);
      if |clicks| > 1 {
        assert clicks[1..][|clicks[1..]| - 1] == clicks[|clicks| - 1];
      }
    }
  }

  /** Option lists are rendered only while a mode is active, and never twice. */
  lemma OptionsListedWhileActive(m: Modes)
    requires Exclusive(m)
    ensures ListedOptionLists(m) <= 1
    ensures ListedOptionLists(m) == 1 <==> m.addClicked || m.removeClicked
  {
  }

  lemma InitialModesExclusive()
    ensures Exclusive(InitialModes) && ListedOptionLists(InitialModes) == 0
  {
  }
}
