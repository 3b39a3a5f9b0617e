/**
 * The theme controller: `setTheme` and `initTheme` as transitions of the
 * pair (the document's `data-theme` attribute, the stored `theme` value).
 * A storage access that throws is a `false` flag; the controller swallows it.
 */
module Theme {
  import opened Wrappers

  const Light := "light"
  const Dark := "dark"
  const System := "system"

  /** A mode the document attribute carries explicitly. */
  predicate IsExplicit(mode: string)
  {
    mode == Light || mode == Dark
  }

  /** A value `initTheme` accepts from storage. */
  predicate IsSaved(value: string)
  {
    IsExplicit(value) || value == System
  }

  /** The document attribute and the stored preference; `None` is an absent attribute or key. */
  datatype State = State(attr: Option<string>, stored: Option<string>)

  /** The value `setTheme(mode)` writes to storage. */
  function StoredFor(mode: string): (v: string)
    ensures IsSaved(v)
    ensures IsSaved(mode) ==> v == mode
  {
    if IsExplicit(mode) then mode else System
  }

  /** The state after `setTheme(mode)`; `writeOk` is false when the storage write throws. */
  function AfterSetTheme(s: State, mode: string, writeOk: bool): (t: State)
    ensures t.attr.Some? ==> IsExplicit(t.attr.value)
    ensures writeOk ==> Consistent(t)
    ensures !writeOk ==> t.stored == s.stored
  {
    if IsExplicit(mode) then
      State(Some(mode), if writeOk then Some(mode) else s.stored)
    else
      State(None, if writeOk then Some(System) else s.stored)
  }

  /**
   * The state after `initTheme()`; `readOk` is false when reading storage
   * throws, `writeOk` when the write inside `setTheme` does.
   */
  function AfterInitTheme(s: State, readOk: bool, writeOk: bool): (t: State)
    ensures !(readOk && s.stored.Some? && IsSaved(s.stored.value)) ==> t == s
    ensures readOk && s.stored.Some? && IsSaved(s.stored.value) ==> Consistent(t) && t.stored == s.stored
  {
    if readOk && s.stored.Some? && IsSaved(s.stored.value) then
      AfterSetTheme(s, s.stored.value, writeOk)
    else s
  }

  /** The attribute and the stored value say the same thing. */
  predicate Consistent(s: State)
  {
    s.stored.Some? && IsSaved(s.stored.value) &&
    s.attr == (if IsExplicit(s.stored.value) then s.stored else None)
  }

  /** `light` and `dark` set the attribute to the mode; anything else removes it. */
  lemma SetThemeAttribute(s: State, mode: string, writeOk: bool)
    ensures var t := AfterSetTheme(s, mode, writeOk);
      (t.attr == Some(mode) <==> IsExplicit(mode)) &&
      (t.attr.None? <==> !IsExplicit(mode))
  {
  }

  /**
   * A write that succeeds stores the mode for `light` and `dark` and
   * `system` for anything else, so the stored value is always one
   * `initTheme` accepts; a write that fails leaves storage as it was.
   */
  lemma SetThemeStored(s: State, mode: string, writeOk: bool)
    ensures var t := AfterSetTheme(s, mode, writeOk);
      (writeOk ==> t.stored == Some(StoredFor(mode)) && IsSaved(t.stored.value)) &&
      (!writeOk ==> t.stored == s.stored)
  {
  }

  /** A storage failure does not stop the attribute update. */
  lemma WriteFailureKeepsAttribute(s: State, mode: string)
    ensures AfterSetTheme(s, mode, false).attr == AfterSetTheme(s, mode, true).attr
  {
  }

  /** `setTheme` is idempotent; a second call only adds a write the first one missed. */
  lemma SetThemeIdempotent(s: State, mode: string, first: bool, second: bool)
    ensures AfterSetTheme(AfterSetTheme(s, mode, first), mode, second) == AfterSetTheme(s, mode, first || second)
    ensures AfterSetTheme(AfterSetTheme(s, mode, first), mode, first) == AfterSetTheme(s, mode, first)
  {
  }

  /** `system` and any value that is not a mode have the same effect. */
  lemma UnknownModeIsSystem(s: State, mode: string, writeOk: bool)
    requires !IsExplicit(mode)
    ensures AfterSetTheme(s, mode, writeOk) == AfterSetTheme(s, System, writeOk)
  {
  }

  /**
   * Persistence round trip: after `setTheme(mode)` has been stored, a fresh
   * document (no attribute) running `initTheme` gets the same attribute.
   */
  lemma {:induction false} ReloadRestoresTheme(s: State, mode: string, writeOk: bool)
    ensures var saved := AfterSetTheme(s, mode, true);
      AfterInitTheme(State(None, saved.stored), true, writeOk).attr == saved.attr
  {
    var saved := AfterSetTheme(s, mode, true);
    assert Consistent(saved);
    assert AfterInitTheme(State(None, saved.stored), true, writeOk).stored == saved.stored;
  }

  /**
   * The document root and browser storage, as far as the controller
   * touches them.
   */
  class ThemeController {
    var attr: Option<string>
    var stored: Option<string>

    function Current(): State
      reads this
    {
      State(attr, stored)
    }

    constructor (attr: Option<string>, stored: Option<string>)
      ensures Current() == State(attr, stored)
    {
      this.attr := attr;
      this.stored := stored;
    }

    /** `setTheme(mode)`. */
    method SetTheme(mode: string, writeOk: bool)
      modifies this
      ensures Current() == AfterSetTheme(old(Current()), mode, writeOk)
    {
      if mode == Light || mode == Dark {
        attr := Some(mode);
        if writeOk { stored := Some(mode); }
      } else {
        attr := None;
        if writeOk { stored := Some(System); }
      }
    }

    /** `initTheme()`. */
    method InitTheme(readOk: bool, writeOk: bool)
      modifies this
      ensures Current() == AfterInitTheme(old(Current()), readOk, writeOk)
    {
      if readOk {
        var saved := stored;
        if saved == Some(Light) || saved == Some(Dark) || saved == Some(System) {
          SetTheme(saved.value, writeOk);
        }
      }
    }
  }
}
