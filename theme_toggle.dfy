/**
 * The header's theme button (`ThemeToggle`): it keeps its own mode and,
 * on each click, switches it and hands it to the theme controller.
 */
module ThemeSwitch {
  import opened Wrappers
  import opened Theme

  /** The mode a click switches to: `light` from `dark`, `dark` from anything else. */
  function NextMode(mode: string): (next: string)
    ensures IsExplicit(next)
    ensures IsExplicit(mode) ==> next != mode
  {
    if mode == Dark then Light else Dark
  }

  /** Toggling twice gives back the mode exactly when it was `light` or `dark`. */
  lemma ToggleTwice(mode: string)
    ensures NextMode(NextMode(mode)) == mode <==> IsExplicit(mode)
  {
  }

  /**
   * The button's first mode: the document attribute when it is `light` or
   * `dark`, otherwise the colour-scheme preference.
   */
  function InitialMode(attr: Option<string>, prefersDark: bool): (mode: string)
    ensures IsExplicit(mode)
    ensures attr.Some? && IsExplicit(attr.value) ==> mode == attr.value
    ensures !(attr.Some? && IsExplicit(attr.value)) ==> (mode == Dark <==> prefersDark)
  {
    if attr == Some(Light) || attr == Some(Dark) then attr.value
    else if prefersDark then Dark else Light
  }

  /** After `initTheme` read an explicit saved mode, the button starts on that mode. */
  lemma {:induction false} ButtonStartsOnSavedMode(s: State, writeOk: bool, prefersDark: bool)
    requires s.stored.Some? && IsExplicit(s.stored.value)
    ensures InitialMode(AfterInitTheme(s, true, writeOk).attr, prefersDark) == s.stored.value
  {
    assert Consistent(AfterInitTheme(s, true, writeOk));
  }

  class ThemeToggle {
    var mode: string
    const controller: ThemeController

    /** The button shows what the document shows. */
    ghost predicate InSync()
      reads this, controller
    {
      controller.attr == Some(mode)
    }

    constructor (controller: ThemeController, prefersDark: bool)
      ensures this.controller == controller
      ensures mode == InitialMode(controller.attr, prefersDark)
      ensures IsExplicit(mode)
      ensures controller.attr.Some? && IsExplicit(controller.attr.value) ==> InSync()
    {
      this.controller := controller;
      mode := InitialMode(controller.attr, prefersDark);
    }

    /** A click: switch the mode and apply it through the controller. */
    method Toggle(writeOk: bool)
      modifies this, controller
      ensures mode == NextMode(old(mode))
      ensures controller.Current() == AfterSetTheme(old(controller.Current()), mode, writeOk)
      ensures InSync()
    {
      var next := NextMode(mode);
      mode := next;
      controller.SetTheme(next, writeOk);
    }
  }
}
