/**
 * What a prompt button does to the engine's input-action system. The system
 * itself is outside this model; a button's effect on it is summarised by the
 * registration it still references and the registrations it has lost track of.
 */
module SystemInputActions {
  import opened Values

  datatype InputAction = IA_PRIMARY | IA_SECONDARY

  /**
   * `stored` is the action of the registration the button's field points to and
   * `storedLive` whether that one is still added; `orphaned` counts added
   * registrations whose reference was overwritten, which nothing can remove any more.
   */
  datatype Registrations = Registrations(orphaned: nat, stored: Option<InputAction>, storedLive: bool)

  const NoRegistrations := Registrations(0, None, false)

  /** Number of registrations of this button that are currently added. */
  function Live(r: Registrations): nat
  {
    r.orphaned + if r.storedLive then 1 else 0
  }

  /**
   * `new SystemInputActions({...})` followed by `.add()`, assigned over the stored
   * reference: one more registration is live, and a still-live previous one is orphaned.
   */
  function Add(r: Registrations, action: InputAction): (r': Registrations)
    ensures Live(r') == Live(r) + 1
    ensures r'.stored == Some(action) && r'.storedLive
    ensures r'.orphaned == Live(r)
  {
    Registrations(Live(r), Some(action), true)
  }

  /**
   * `this._buttonSystemInputAction?.remove()`: takes back the stored registration if it
   * is still added. The reference is kept, so a second remove targets the same,
   * already removed registration, which this model treats as having no effect.
   */
  function RemoveStored(r: Registrations): (r': Registrations)
    ensures Live(r') == if r.storedLive then Live(r) - 1 else Live(r)
    ensures !r'.storedLive && r'.stored == r.stored && r'.orphaned == r.orphaned
  {
    r.(storedLive := false)
  }

  /** Removing twice is the same as removing once. */
  lemma RemoveStoredIdempotent(r: Registrations)
    ensures RemoveStored(RemoveStored(r)) == RemoveStored(r)
  {
  }

  /** A button can only ever take back its latest registration: after a remove, exactly the orphaned ones stay live. */
  lemma OrphansOutliveRemove(r: Registrations, action: InputAction)
    ensures Live(RemoveStored(Add(r, action))) == Live(r)
    ensures Live(RemoveStored(Add(Add(r, action), action))) == Live(r) + 1
  {
  }
}
