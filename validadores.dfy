/** The Angular form validators the clinic's forms use: `Validators.required`,
    `Validators.minLength(n)` and `Validators.email`. */
module Validadores {
  import opened Texto

  /** `Validators.required` on a text control: the empty string fails. */
  predicate Required(v: string) {
    v != []
  }

  /** `Validators.minLength(n)`: an empty value is left to `required`; any other value
      needs at least `n` characters. */
  predicate MinLength(v: string, n: nat) {
    v == [] || |v| >= n
  }

  predicate Alnum(c: char) {
    'a' <= c <= 'z' || 'A' <= c <= 'Z' || '0' <= c <= '9'
  }

  /** The characters allowed in the local part besides the dots. */
  predicate LocalChar(c: char) {
    Alnum(c) || c in "!#$%&'*+/=?^_`{|}~-"
  }

  /** A local part: dot-separated, non-empty runs of `LocalChar`. */
  predicate DotAtom(s: string) {
    forall p :: p in Split(s, '.') ==> p != [] && forall i :: 0 <= i < |p| ==> LocalChar(p[i])
  }

  /** A domain label: 1 to 63 letters, digits or hyphens, starting and ending with a
      letter or digit. */
  predicate Etiqueta(l: string) {
    1 <= |l| <= 63 && Alnum(l[0]) && Alnum(l[|l| - 1])
    && forall i :: 0 <= i < |l| ==> Alnum(l[i]) || l[i] == '-'
  }

  predicate Dominio(d: string) {
    forall p :: p in Split(d, '.') ==> Etiqueta(p)
  }

  /** `Validators.email`: the empty value passes (it is `required`'s business); otherwise
      at most 254 characters, a single "@", a local part of 1 to 64 characters that is a
      dot-atom, and a domain of dot-separated labels. */
  predicate EmailValido(s: string) {
    s == [] ||
    (|s| <= 254 &&
     var partes := Split(s, '@');
     |partes| == 2 && 1 <= |partes[0]| <= 64 && DotAtom(partes[0]) && Dominio(partes[1]))
  }

  /** A character that can appear in no valid address. */
  predicate AjenoAEmail(c: char) {
    !LocalChar(c) && !Alnum(c) && c != '-' && c != '.' && c != '@'
  }

  /** Joining pieces none of which holds `c`, with a separator other than `c`, gives a
      string without `c`. */
  lemma {:induction false} JoinSinCaracter(parts: seq<string>, sep: char, c: char)
    requires c != sep
    requires forall k :: 0 <= k < |parts| ==> c !in parts[k]
    ensures c !in Join(parts, sep)
    decreases |parts|
  {
    if |parts| > 1 {
      JoinSinCaracter(parts[1..], sep, c);
    }
  }

  /** A local part holds no character foreign to addresses. */
  lemma LocalSinAjenos(local: string, c: char)
    requires DotAtom(local) && AjenoAEmail(c)
    ensures c !in local
  {
    JoinSplit(local, '.');
    var piezas := Split(local, '.');
    forall k | 0 <= k < |piezas| ensures c !in piezas[k] {
      assert piezas[k] in piezas;
    }
    JoinSinCaracter(piezas, '.', c);
  }

  /** A domain holds no character foreign to addresses. */
  lemma DominioSinAjenos(dominio: string, c: char)
    requires Dominio(dominio) && AjenoAEmail(c)
    ensures c !in dominio
  {
    JoinSplit(dominio, '.');
    var piezas := Split(dominio, '.');
    forall k | 0 <= k < |piezas| ensures c !in piezas[k] {
      assert piezas[k] in piezas;
    }
    JoinSinCaracter(piezas, '.', c);
  }

  /** A valid address holds no character foreign to addresses. */
  lemma EmailValidoSinAjenos(s: string, c: char)
    requires EmailValido(s) && AjenoAEmail(c)
    ensures c !in s
  {
    if s != [] {
      var partes := Split(s, '@');
      JoinSplit(s, '@');
      LocalSinAjenos(partes[0], c);
      DominioSinAjenos(partes[1], c);
      JoinSinCaracter(partes, '@', c);
    }
  }

  lemma EspacioAjeno(c: char)
    requires c == ',' || IsSpace(c)
    ensures AjenoAEmail(c)
  {
  }

  /** Hence a valid address contains no comma and no whitespace. */
  lemma EmailValidoSinComaNiEspacios(s: string)
    requires EmailValido(s)
    ensures ',' !in s
    ensures forall i :: 0 <= i < |s| ==> !IsSpace(s[i])
  {
    EspacioAjeno(',');
    EmailValidoSinAjenos(s, ',');
    forall i | 0 <= i < |s| ensures !IsSpace(s[i]) {
      if IsSpace(s[i]) {
        EspacioAjeno(s[i]);
        EmailValidoSinAjenos(s, s[i]);
      }
    }
  }
}
