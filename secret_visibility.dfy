/** Per-item show/hide switches for secrets (passwords, API keys), kept as
    a map from item id to a flag; an id with no entry is hidden. */
module SecretVisibility {
  /** The secret of item `id` is shown in clear text. */
  predicate IsShown(shown: map<string, bool>, id: string)
  {
    id in shown && shown[id]
  }

  /** The eye button of item `id`: set its flag to the negation of what
      is shown now. */
  function ToggleShown(shown: map<string, bool>, id: string): (r: map<string, bool>)
    ensures IsShown(r, id) <==> !IsShown(shown, id)
    ensures forall other :: other != id ==> (IsShown(r, other) <==> IsShown(shown, other))
  {
    shown[id := !IsShown(shown, id)]
  }

  /** Nothing is shown at first. */
  lemma StartsHidden(id: string)
    ensures !IsShown(map[], id)
  {
  }

  /** Pressing the same eye button twice shows exactly what was shown
      before. */
  lemma ToggleShownTwice(shown: map<string, bool>, id: string)
    ensures forall k :: IsShown(ToggleShown(ToggleShown(shown, id), id), k) <==> IsShown(shown, k)
  {
  }
}
