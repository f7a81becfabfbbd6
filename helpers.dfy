/**
 * utils/helpers.py (and its copies in main.py): reading the instrument out of a bot command,
 * and the Spanish title of the web page.
 */
module Helpers {
  import opened Wrappers
  import opened Text
  import opened Quotes

  /** A keyword of the command text and the instrument it selects. */
  datatype Keyword = Keyword(word: string, tipo: string)

  /** The `mapping` dict, in insertion order: "bolsa" is a second keyword for "mep". */
  const KEYWORDS: seq<Keyword> := [
    Keyword("oficial", "oficial"), Keyword("blue", "blue"), Keyword("mep", "mep"), Keyword("bolsa", "mep"),
    Keyword("ccl", "ccl"), Keyword("tarjeta", "tarjeta"), Keyword("cripto", "cripto"), Keyword("mayorista", "mayorista")]

  /** The first keyword from position `from` on that occurs in `text`. */
  function FirstKeyword(text: string, from: nat): (r: Option<string>)
    requires from <= |KEYWORDS|
    ensures r.Some? <==> exists j :: from <= j < |KEYWORDS| && Contains(text, KEYWORDS[j].word)
    ensures forall j :: (from <= j < |KEYWORDS| && Contains(text, KEYWORDS[j].word) &&
                         forall h :: from <= h < j ==> !Contains(text, KEYWORDS[h].word))
                        ==> r == Some(KEYWORDS[j].tipo)
    decreases |KEYWORDS| - from
  {
    if from == |KEYWORDS| then None
    else if Contains(text, KEYWORDS[from].word) then Some(KEYWORDS[from].tipo)
    else FirstKeyword(text, from + 1)
  }

  /**
   * `parse_tipo(text)`: the instrument of the first keyword, in mapping order, that occurs in
   * the text; None when none does.
   */
  function ParseTipo(text: string): (r: Option<string>)
    ensures r.Some? <==> exists j :: 0 <= j < |KEYWORDS| && Contains(text, KEYWORDS[j].word)
    ensures forall j :: (0 <= j < |KEYWORDS| && Contains(text, KEYWORDS[j].word) &&
                         forall h :: 0 <= h < j ==> !Contains(text, KEYWORDS[h].word))
                        ==> r == Some(KEYWORDS[j].tipo)
  {
    FirstKeyword(text, 0)
  }

  /** Whatever the text, the result is one of the seven instruments or None. */
  lemma {:induction false} ParseTipoInTypes(text: string, from: nat)
    requires from <= |KEYWORDS|
    ensures FirstKeyword(text, from).Some? ==> FirstKeyword(text, from).value in DOLAR_TYPES
    decreases |KEYWORDS| - from
  {
    if from < |KEYWORDS| && !Contains(text, KEYWORDS[from].word) {
      ParseTipoInTypes(text, from + 1);
    }
  }

  /** "bolsa" selects "mep" when no earlier keyword occurs. */
  lemma BolsaIsMep(text: string)
    requires Contains(text, "bolsa")
    requires !Contains(text, "oficial") && !Contains(text, "blue") && !Contains(text, "mep")
    ensures ParseTipo(text) == Some("mep")
  {
    assert KEYWORDS[3].word == "bolsa";
  }

  // ---------------------------------------------------------------- get_full_date

  const DIAS: seq<string> := ["lunes", "martes", "miércoles", "jueves", "viernes", "sábado", "domingo"]
  const MESES: seq<string> := ["enero", "febrero", "marzo", "abril", "mayo", "junio",
                               "julio", "agosto", "septiembre", "octubre", "noviembre", "diciembre"]
  const TITLE_PREFIX: string := "Cotización del dólar hoy "

  /**
   * `get_full_date()` for a date given as its weekday (0 is Monday), day of the month and month
   * (1 is January).
   */
  function FullDate(weekday: nat, day: nat, month: nat): (r: string)
    requires weekday < 7 && 1 <= month <= 12
    ensures StartsWith(r, TITLE_PREFIX)
    ensures r[|TITLE_PREFIX|..] ==
      Capitalize(DIAS[weekday]) + " " + NatToString(day) + " de " + Capitalize(MESES[month - 1])
  {
    var rest := Capitalize(DIAS[weekday]) + " " + NatToString(day) + " de " + Capitalize(MESES[month - 1]);
    assert (TITLE_PREFIX + rest)[..|TITLE_PREFIX|] == TITLE_PREFIX;
    assert (TITLE_PREFIX + rest)[|TITLE_PREFIX|..] == rest;
    TITLE_PREFIX + rest
  }

  lemma CapitalizedNames()
    ensures Capitalize(DIAS[0]) == "Lunes"
    ensures Capitalize(DIAS[2]) == "Miércoles"
    ensures Capitalize(MESES[9]) == "Octubre"
  {
    CapitalizeLowerWord(DIAS[0]);
    assert [UpperChar('l')] + "unes" == "Lunes";
    CapitalizeLowerWord(DIAS[2]);
    assert DIAS[2][1..] == "iércoles";
    assert [UpperChar('m')] + "iércoles" == "Miércoles";
    CapitalizeLowerWord(MESES[9]);
    assert [UpperChar('o')] + "ctubre" == "Octubre";
  }

  /** A word without capitals keeps its tail and gets its first letter upper-cased. */
  lemma CapitalizeLowerWord(w: string)
    requires |w| > 0
    requires forall i :: 0 <= i < |w| ==> !IsUpper(w[i])
    ensures Capitalize(w) == [UpperChar(w[0])] + w[1..]
  {
    assert Lower(w[1..]) == w[1..];
  }

  /** Weekday 2, day 29, month 10 reads "Miércoles 29 de Octubre", the docstring's own example. */
  lemma FullDateExample()
    ensures FullDate(2, 29, 10)[|TITLE_PREFIX|..] == "Miércoles 29 de Octubre"
  {
    CapitalizedNames();
    TwentyNine();
    ExampleWords();
  }

  lemma TwentyNine()
    ensures NatToString(29) == "29"
  {
    assert NatToString(2) == "2";
  }

  lemma ExampleWords()
    ensures "Miércoles" + " " + "29" + " de " + "Octubre" == "Miércoles 29 de Octubre"
  {
  }
}
