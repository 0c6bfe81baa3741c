/**
 * The contact and address record of the create-location form and the point
 * update that `handleInputChange` performs on it.
 */
module Contact {

  /** The five inputs of the form, each identified by its `name` attribute. */
  datatype Field = Name | Email | Whatsapp | City | Uf

  datatype ContactData = ContactData(name: string, email: string, whatsapp: string, city: string, uf: string)

  /** The record the page starts with: every field empty. */
  const BLANK := ContactData("", "", "", "", "")

  /** The input's `name` attribute, which is also the record key and the payload key. */
  function Key(f: Field): string
  {
    match f
    case Name => "name"
    case Email => "email"
    case Whatsapp => "whatsapp"
    case City => "city"
    case Uf => "uf"
  }

  function Get(d: ContactData, f: Field): string
  {
    match f
    case Name => d.name
    case Email => d.email
    case Whatsapp => d.whatsapp
    case City => d.city
    case Uf => d.uf
  }

  /** `{ ...formData, [name]: value }` for one of the five known keys. */
  function Update(d: ContactData, f: Field, v: string): (r: ContactData)
    ensures Get(r, f) == v
    ensures forall g :: g != f ==> Get(r, g) == Get(d, g)
  {
    match f
    case Name => d.(name := v)
    case Email => d.(email := v)
    case Whatsapp => d.(whatsapp := v)
    case City => d.(city := v)
    case Uf => d.(uf := v)
  }

  /** Every field of the initial record is the empty string. */
  lemma BlankIsEmpty(f: Field)
    ensures Get(BLANK, f) == ""
  {
  }

  /** Distinct inputs have distinct keys, so an update reaches exactly one field. */
  lemma KeyInjective(f: Field, g: Field)
    ensures Key(f) == Key(g) ==> f == g
  {
  }

  /** Two records that agree on every field are the same record. */
  lemma {:induction false} Extensionality(a: ContactData, b: ContactData)
    requires forall f :: Get(a, f) == Get(b, f)
    ensures a == b
  {
    assert Get(a, Name) == Get(b, Name);
    assert Get(a, Email) == Get(b, Email);
    assert Get(a, Whatsapp) == Get(b, Whatsapp);
    assert Get(a, City) == Get(b, City);
    assert Get(a, Uf) == Get(b, Uf);
  }

  /** The update is determined by its two properties: any record with them is `Update(d, f, v)`. */
  lemma UpdateUnique(d: ContactData, f: Field, v: string, r: ContactData)
    requires Get(r, f) == v
    requires forall g :: g != f ==> Get(r, g) == Get(d, g)
    ensures r == Update(d, f, v)
  {
    Extensionality(r, Update(d, f, v));
  }

  /** A later change to the same input overwrites an earlier one. */
  lemma UpdateOverwrites(d: ContactData, f: Field, v: string, w: string)
    ensures Update(Update(d, f, v), f, w) == Update(d, f, w)
  {
  }

  /** Changes to two different inputs commute. */
  lemma UpdatesCommute(d: ContactData, f: Field, v: string, g: Field, w: string)
    requires f != g
    ensures Update(Update(d, f, v), g, w) == Update(Update(d, g, w), f, v)
  {
  }

  /** Re-entering the current value leaves the record as it is. */
  lemma UpdateSameValue(d: ContactData, f: Field)
    ensures Update(d, f, Get(d, f)) == d
  {
  }
}
