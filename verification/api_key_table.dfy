/**
 * The key table of the dashboard (blingo/app/dashboards/_components/ApiKeyTable.tsx): which
 * keys are shown in full, and the eye button that shows or hides one of them.
 *
 * The masking function lives outside this model and is a parameter.
 */
module ApiKeyTable {
  import opened UseApiKeys

  /** The set after toggling `id`: it leaves the set if it was in it, and joins it otherwise. */
  function Toggled(visible: set<string>, id: string): (r: set<string>)
    ensures id in r <==> id !in visible
    ensures forall other :: other != id ==> (other in r <==> other in visible)
  {
    if id in visible then visible - {id} else visible + {id}
  }

  /** Toggling twice gives back the original set. */
  lemma ToggleTwice(visible: set<string>, id: string)
    ensures Toggled(Toggled(visible, id), id) == visible
  {
  }

  /** Toggles of different ids commute. */
  lemma TogglesCommute(visible: set<string>, a: string, b: string)
    ensures Toggled(Toggled(visible, a), b) == Toggled(Toggled(visible, b), a)
  {
  }

  /** What the key cell shows: the key itself when its id is visible, its masked form otherwise. */
  function DisplayedKey(entry: ApiKey, visible: set<string>, mask: string -> string): (r: string)
    ensures entry.id in visible ==> r == entry.key
    ensures entry.id !in visible ==> r == mask(entry.key)
  {
    if entry.id in visible then entry.key else mask(entry.key)
  }

  /**
   * Pressing a row's eye button swaps that row between the full and the masked key, whenever
   * the mask actually hides something; every other row keeps what it showed.
   */
  lemma ToggleSwapsDisplay(visible: set<string>, id: string, entry: ApiKey, mask: string -> string)
    requires mask(entry.key) != entry.key
    ensures entry.id == id ==>
      (DisplayedKey(entry, Toggled(visible, id), mask) == entry.key <==> DisplayedKey(entry, visible, mask) != entry.key)
    ensures entry.id != id ==> DisplayedKey(entry, Toggled(visible, id), mask) == DisplayedKey(entry, visible, mask)
  {
  }

  /** The table's own state. */
  class KeyTable {
    var visibleKeys: set<string>

    /** Every key starts masked. */
    constructor ()
      ensures visibleKeys == {}
    {
      visibleKeys := {};
    }

    /** toggleKeyVisibility: a copy of the set with the id removed or added replaces it. */
    method ToggleKeyVisibility(id: string)
      modifies this
      ensures visibleKeys == Toggled(old(visibleKeys), id)
    {
      var newVisible := visibleKeys;
      if id in newVisible {
        newVisible := newVisible - {id};
      } else {
        newVisible := newVisible + {id};
      }
      visibleKeys := newVisible;
    }
  }
}
