/**
 * The values the view restores from browser storage at start-up. Reading
 * storage and parsing JSON are outside the model: what they produce is
 * given as a `Stored` value.
 */
module Preferences {
  import opened Wrappers
  import opened Feed

  /** What reading and parsing one storage key yields. */
  datatype Stored<T> = Missing | Malformed | Saved(value: T)

  /**
   * The favorites list at start-up: the saved list, or the empty list
   * when nothing is saved (`|| '[]'`) or the saved text does not parse.
   */
  function InitialFavorites(stored: Stored<seq<PostId>>): (r: seq<PostId>)
    ensures stored.Saved? ==> r == stored.value
    ensures !stored.Saved? ==> r == []
  {
    if stored.Saved? then stored.value else []
  }

  /**
   * The theme at start-up: the saved flag; with none saved, the platform's
   * dark-scheme preference (`prefersDark`, None when querying it throws);
   * and dark whenever reading fails.
   */
  function InitialDarkMode(stored: Stored<bool>, prefersDark: Option<bool>): (r: bool)
    ensures stored.Saved? ==> r == stored.value
    ensures stored.Malformed? ==> r
    ensures stored.Missing? ==> r == (prefersDark.None? || prefersDark.value)
  {
    match stored
    case Saved(b) => b
    case Malformed => true
    case Missing => if prefersDark.Some? then prefersDark.value else true
  }
}
