/**
 * The Twitter handle field of the profile settings (`ProfileSettings.tsx`):
 * the handle is kept without the `@` that the form shows in front of it.
 */
module Profile {

  /** The Twitter handle as stored: one leading `@` removed, if there is one. */
  function StripAt(value: string): (r: string)
    ensures |value| > 0 && value[0] == '@' ==> r == value[1..]
    ensures !(|value| > 0 && value[0] == '@') ==> r == value
    ensures |r| == |value| || |r| == |value| - 1
  {
    if |value| > 0 && value[0] == '@' then value[1..] else value
  }

  /** The handle the form shows as `@handle` is read back as it was. */
  lemma StripAtUndoesPrefix(handle: string)
    ensures StripAt("@" + handle) == handle
  {
  }

  /** Only one `@` goes: `@@x` keeps one, so a second pass changes the value again. */
  lemma StripAtNotIdempotent()
    ensures StripAt("@@x") == "@x"
    ensures StripAt(StripAt("@@x")) == "x"
  {
  }

  /** Stripping twice is stripping once, unless the value starts with two `@`. */
  lemma StripAtStable(value: string)
    requires |value| < 2 || value[..2] != "@@"
    ensures StripAt(StripAt(value)) == StripAt(value)
  {
    if |value| >= 2 && value[0] == '@' {
      assert value[..2] == [value[0], value[1]];
    }
  }

  /** The profile form's handle, as first shown. */
  const INITIAL_TWITTER := "kolink_es"
}
