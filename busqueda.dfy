/** The case-insensitive search the list screens share: a text field matches a search
    term when its lower-cased value contains the lower-cased term. */
module Busqueda {
  import opened Wrappers
  import opened Texto

  /** `texto.toLowerCase().includes(termino)`, where `termino` is already lower-cased. */
  predicate TextoContiene(texto: string, termino: string) {
    Contains(ToLower(texto), termino)
  }

  /** `campo?.toLowerCase().includes(termino)`: a missing field never matches. */
  predicate CampoContiene(campo: Option<string>, termino: string) {
    campo.Some? && TextoContiene(campo.value, termino)
  }

  /** A string containing `a + b` contains `a`. */
  lemma ContainsPrefix(s: string, a: string, b: string)
    requires Contains(s, a + b)
    ensures Contains(s, a)
  {
    ContainsAt(s, a + b);
    var k :| OccursAt(s, a + b, k);
    assert s[k..k + |a|] == (a + b)[..|a|] == a;
    assert OccursAt(s, a, k);
    ContainsAt(s, a);
  }

  /** Lower-casing works character by character, so it distributes over concatenation. */
  lemma ToLowerConcat(a: string, b: string)
    ensures ToLower(a + b) == ToLower(a) + ToLower(b)
  {
    assert forall i :: 0 <= i < |a + b| ==> ToLower(a + b)[i] == (ToLower(a) + ToLower(b))[i];
  }

  /** A text matching a longer term matches every prefix of it: typing more characters
      can only narrow a search. */
  lemma TextoContieneMasLargo(texto: string, a: string, b: string)
    requires TextoContiene(texto, ToLower(a + b))
    ensures TextoContiene(texto, ToLower(a))
  {
    ToLowerConcat(a, b);
    ContainsPrefix(ToLower(texto), ToLower(a), ToLower(b));
  }

  lemma CampoContieneMasLargo(campo: Option<string>, a: string, b: string)
    requires CampoContiene(campo, ToLower(a + b))
    ensures CampoContiene(campo, ToLower(a))
  {
    TextoContieneMasLargo(campo.value, a, b);
  }

  /** Lower-casing keeps whitespace and non-whitespace apart, so a term is blank exactly
      when its lower-cased form is. */
  lemma ToLowerBlank(s: string)
    ensures IsBlank(ToLower(s)) <==> IsBlank(s)
  {
    if IsBlank(ToLower(s)) {
      forall i | 0 <= i < |s| ensures IsSpace(s[i]) {
        assert IsSpace(ToLower(s)[i]);
      }
    }
  }

  /** Adding characters to a term that is not blank leaves it not blank. */
  lemma NoBlankConcat(a: string, b: string)
    requires !IsBlank(a)
    ensures !IsBlank(a + b)
  {
    var i :| 0 <= i < |a| && !IsSpace(a[i]);
    assert (a + b)[i] == a[i];
  }
}
