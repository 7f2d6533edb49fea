/**
 * The shapes the selectors' cuts take: an activation flag held together
 * with the bounds or ids it switches on. A cut that is off keeps zeroed
 * bounds, which is what the selectors' `clear` leaves.
 */
module CutTypes {
  /** An open interval cut (min < value < max). */
  datatype Window = Window(active: bool, min: real, max: real)

  /** An upper-bound cut (value < max). */
  datatype Limit = Limit(active: bool, max: real)

  /** A lower-bound cut (value > min). */
  datatype Floor = Floor(active: bool, min: real)

  /** A set of ids with its activation flag. */
  datatype IdCut = IdCut(active: bool, ids: set<nat>)

  const Off := Window(false, 0.0, 0.0)
  const NoLimit := Limit(false, 0.0)
  const NoFloor := Floor(false, 0.0)
  const NoIds := IdCut(false, {})

  predicate InWindow(w: Window, x: real) { w.min < x < w.max }

  /** Active windows are non-empty; inactive ones are zeroed. */
  predicate WindowValid(w: Window)
  {
    if w.active then w.max > w.min else w == Off
  }

  /** Active limits are positive; inactive ones are zeroed. */
  predicate LimitValid(l: Limit)
  {
    if l.active then l.max > 0.0 else l == NoLimit
  }

  /** Active floors are positive; inactive ones are zeroed. */
  predicate FloorValid(f: Floor)
  {
    if f.active then f.min > 0.0 else f == NoFloor
  }

  /** An id cut is active exactly when it holds ids. */
  predicate IdCutValid(c: IdCut)
  {
    c.active == (c.ids != {})
  }
}
