/**
 * The blue-collar personal-info step: three inputs, each writing one key
 * of `formData`; none is required and next has no check.
 */
module BlueCollarPersonalInfo {
  import opened Forms

  /** The three inputs. */
  datatype PersonalField = FullName | Phone | Location

  /** The key each input writes. */
  function KeyOf(f: PersonalField): (key: string)
    ensures key in {"fullName", "phone", "location"}
  {
    match f
    case FullName => "fullName"
    case Phone => "phone"
    case Location => "location"
  }

  /** Different inputs write different keys. */
  lemma KeysDistinct(f: PersonalField, g: PersonalField)
    requires f != g
    ensures KeyOf(f) != KeyOf(g)
  {
  }

  /** An input's `onChange`: `{ ...formData, [key]: value }` for that input's key alone. */
  function HandleInput(fd: FormData, f: PersonalField, value: string): (next: FormData)
    ensures SameExcept(fd, next, KeyOf(f)) && next[KeyOf(f)] == Str(value)
    ensures forall g :: g != f && KeyOf(g) in fd ==> next[KeyOf(g)] == fd[KeyOf(g)]
  {
    Put(fd, KeyOf(f), Str(value))
  }

  /** Edits of two different inputs commute. */
  lemma InputsCommute(fd: FormData, f: PersonalField, g: PersonalField, v: string, w: string)
    requires f != g
    ensures HandleInput(HandleInput(fd, f, v), g, w) == HandleInput(HandleInput(fd, g, w), f, v)
  {
    KeysDistinct(f, g);
  }
}
