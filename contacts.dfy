/** One recommended contact as the contact form, the PDF route and both PDF exports see it. */
module Contacts {

  /** A row of the contact form; every field is free text and "" means not filled in. */
  datatype Person = Person(name: string, ort: string, alter: string, beruf: string, telefon: string, bemerkung: string)

  /** The keys of a `Person`. */
  datatype Field = Name | Ort | Alter | Beruf | Telefon | Bemerkung

  /** `person[field]`. */
  function Get(p: Person, f: Field): string {
    match f
    case Name => p.name
    case Ort => p.ort
    case Alter => p.alter
    case Beruf => p.beruf
    case Telefon => p.telefon
    case Bemerkung => p.bemerkung
  }

  /** `{ ...person, [field]: value }`: the same person with one field replaced. */
  function With(p: Person, f: Field, v: string): (q: Person)
    ensures Get(q, f) == v
    ensures forall g :: g != f ==> Get(q, g) == Get(p, g)
  {
    match f
    case Name => p.(name := v)
    case Ort => p.(ort := v)
    case Alter => p.(alter := v)
    case Beruf => p.(beruf := v)
    case Telefon => p.(telefon := v)
    case Bemerkung => p.(bemerkung := v)
  }

  /** A person with all six fields empty. */
  const Blank := Person("", "", "", "", "", "")

  /** A person is determined by its six fields. */
  lemma FieldsDetermine(p: Person, q: Person)
    requires forall f :: Get(p, f) == Get(q, f)
    ensures p == q
  {
    assert Get(p, Name) == Get(q, Name) && Get(p, Ort) == Get(q, Ort) && Get(p, Alter) == Get(q, Alter);
    assert Get(p, Beruf) == Get(q, Beruf) && Get(p, Telefon) == Get(q, Telefon) && Get(p, Bemerkung) == Get(q, Bemerkung);
  }

  /** Replacing a field by the value it already has changes nothing; replacing it twice keeps the last value. */
  lemma WithLaws(p: Person, f: Field, v: string, w: string)
    ensures With(p, f, Get(p, f)) == p
    ensures With(With(p, f, v), f, w) == With(p, f, w)
  {
    forall g ensures Get(With(p, f, Get(p, f)), g) == Get(p, g) { }
    FieldsDetermine(With(p, f, Get(p, f)), p);
    forall g ensures Get(With(With(p, f, v), f, w), g) == Get(With(p, f, w), g) { }
    FieldsDetermine(With(With(p, f, v), f, w), With(p, f, w));
  }
}
