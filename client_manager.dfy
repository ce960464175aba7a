/**
 * The client form component: the three-character prefix derived from a
 * name, the normalisation of what is typed into a prefix field, and when
 * the save button is enabled.
 */
module ClientManager {
  import opened Text
  import opened Types

  const ShortPrefixLength: nat := 3

  predicate IsUpperCase(s: string) {
    forall i :: 0 <= i < |s| ==> UpperChar(s[i]) == s[i]
  }

  /** `slice(0, 3).toUpperCase()`: the form's `generatePrefix` and its prefix
      field normalisation. */
  function ShortPrefix(s: string): (r: string)
    ensures |r| == if |s| < ShortPrefixLength then |s| else ShortPrefixLength
    ensures IsUpperCase(r)
    ensures forall i :: 0 <= i < |r| ==> r[i] == UpperChar(s[i])
  {
    var r := Upper(Take(s, ShortPrefixLength));
    assert forall i :: 0 <= i < |r| ==> UpperChar(UpperChar(s[i])) == UpperChar(s[i]);
    r
  }

  /** Normalising an already normalised prefix changes nothing. */
  lemma ShortPrefixIdempotent(s: string)
    ensures ShortPrefix(ShortPrefix(s)) == ShortPrefix(s)
  {
  }

  /** Typing in the name field sets the name and regenerates the prefix. */
  function NameTyped(form: ClientForm, name: string): (r: ClientForm)
    ensures r.name == name && r.password == form.password
    ensures r.prefix == ShortPrefix(name)
    ensures name != "" ==> r.prefix != ""
  {
    form.(name := name, prefix := ShortPrefix(name))
  }

  /** Typing in the new client's prefix field stores the normalised text. */
  function PrefixTyped(form: ClientForm, text: string): (r: ClientForm)
    ensures r.name == form.name && r.password == form.password
    ensures |r.prefix| <= ShortPrefixLength && IsUpperCase(r.prefix)
    ensures r.prefix == ShortPrefix(text)
  {
    form.(prefix := ShortPrefix(text))
  }

  /** Typing in the prefix field of the client being edited: the same
      normalisation, and the id, name and password are kept. */
  function EditingPrefixTyped(c: Client, text: string): (r: Client)
    ensures r.id == c.id && r.name == c.name && r.password == c.password
    ensures |r.prefix| <= ShortPrefixLength && IsUpperCase(r.prefix)
    ensures r.prefix == ShortPrefix(text)
  {
    c.(prefix := ShortPrefix(text))
  }

  /** The save button is enabled only when name, password and prefix are all
      non-empty. */
  predicate CanSave(form: ClientForm) {
    form.name != "" && form.password != "" && form.prefix != ""
  }

  /** A form whose name was typed last can be saved exactly when the name and the
      password are non-empty: the generated prefix is then non-empty too. */
  lemma CanSaveAfterNameTyped(form: ClientForm, name: string)
    ensures CanSave(NameTyped(form, name)) <==> name != "" && form.password != ""
  {
  }
}
