/**
 * The urgency detector `es_urgente`: lower-case the text and report true as soon as one of the
 * four `URGENCY_PATTERNS` matches it. Urgency is decided from the text alone, never from the category.
 */
module Urgency {
  import opened Text
  import opened Patterns

  /** `URGENCY_PATTERNS`, in order. */
  const UrgencyPatterns: seq<Pattern> := [
    // \b(urgente|inmediato|cr[íi]tico|asap|necesito ayuda ya)\b
    WordOf(["urgente", "inmediato", "crítico", "critico", "asap", "necesito ayuda ya"]),
    // \b(no funciona|error|fallo|roto|averiado|defectuoso|no sirve)\b
    WordOf(["no funciona", "error", "fallo", "roto", "averiado", "defectuoso", "no sirve"]),
    // !\s*!+
    BangRun,
    // \b(prioridad [1-3]|nivel [1-3])\b
    WordOf(["prioridad 1", "prioridad 2", "prioridad 3", "nivel 1", "nivel 2", "nivel 3"])
  ]

  /** The loop of `es_urgente`: true at the first pattern that matches, false after the last. */
  function AnyMatches(patterns: seq<Pattern>, s: string): bool
    decreases |patterns|
  {
    if patterns == [] then false
    else if Search(patterns[0], s) then true
    else AnyMatches(patterns[1..], s)
  }

  /** Stopping at the first match decides the same thing as asking whether any pattern matches. */
  lemma {:induction false} AnyMatchesSpec(patterns: seq<Pattern>, s: string)
    ensures AnyMatches(patterns, s) <==> exists k :: 0 <= k < |patterns| && Search(patterns[k], s)
    decreases |patterns|
  {
    if patterns != [] {
      AnyMatchesSpec(patterns[1..], s);
      if exists k :: 0 <= k < |patterns| && Search(patterns[k], s) {
        var k :| 0 <= k < |patterns| && Search(patterns[k], s);
        if k > 0 {
          assert Search(patterns[1..][k - 1], s);
        }
      }
      if AnyMatches(patterns[1..], s) {
        var k :| 0 <= k < |patterns| - 1 && Search(patterns[1..][k], s);
        assert Search(patterns[k + 1], s);
      }
    }
  }

  /** `es_urgente`. */
  function EsUrgente(text: string): bool
  {
    AnyMatches(UrgencyPatterns, Lower(text))
  }

  /** A text is urgent if and only if one of the four urgency patterns matches its lower-cased form. */
  lemma EsUrgenteIff(text: string)
    ensures EsUrgente(text) <==>
              exists k :: 0 <= k < |UrgencyPatterns| && Search(UrgencyPatterns[k], Lower(text))
  {
    AnyMatchesSpec(UrgencyPatterns, Lower(text));
  }

  /** The empty text is not urgent. */
  lemma EmptyNotUrgent()
    ensures !EsUrgente("")
  {
    EsUrgenteIff("");
    forall k | 0 <= k < |UrgencyPatterns| ensures !Search(UrgencyPatterns[k], Lower("")) {
      NothingMatchesEmpty(UrgencyPatterns[k]);
    }
  }

  /** Urgency ignores letter case: a text and its lower-cased form are equally urgent. */
  lemma UrgencyIgnoresCase(text: string)
    ensures EsUrgente(Lower(text)) == EsUrgente(text)
  {
    LowerIdempotent(text);
  }

  /** A listed urgency word standing as a whole word makes the text urgent, wherever it stands. */
  lemma UrgentWord(text: string, k: nat, i: nat)
    requires k < |UrgencyPatterns[0].alternatives|
    requires WordAt(Lower(text), i, UrgencyPatterns[0].alternatives[k])
    ensures EsUrgente(text)
  {
    EsUrgenteIff(text);
    assert Search(UrgencyPatterns[0], Lower(text));
  }

  /** "¡Es urgente!" is urgent: "urgente" stands between a space and "!". */
  lemma EsUrgenteExample()
    ensures EsUrgente("¡Es urgente!")
  {
    var s := Lower("¡Es urgente!");
    assert s[4..11] == "urgente";
    UrgentWord("¡Es urgente!", 0, 4);
  }

  /** "No funciona el producto" is urgent: "no funciona" opens the text, a failure phrase. */
  lemma NoFuncionaExample()
    ensures EsUrgente("No funciona el producto")
  {
    var s := Lower("No funciona el producto");
    assert s[0..11] == "no funciona";
    assert WordAt(s, 0, UrgencyPatterns[1].alternatives[0]);
    EsUrgenteIff("No funciona el producto");
    assert Search(UrgencyPatterns[1], s);
  }

  /** "Error en mi pago" is urgent: "error" is one of the failure words. */
  lemma ErrorEnMiPagoIsUrgent()
    ensures EsUrgente("Error en mi pago")
  {
    var s := Lower("Error en mi pago");
    assert s[0..5] == "error";
    assert WordAt(s, 0, UrgencyPatterns[1].alternatives[1]);
    EsUrgenteIff("Error en mi pago");
    assert Search(UrgencyPatterns[1], s);
  }

  /** "nivel 2" inside a text makes it urgent. */
  lemma NivelDosIsUrgent()
    ensures EsUrgente("ticket nivel 2")
  {
    var s := Lower("ticket nivel 2");
    assert s[7..14] == "nivel 2";
    assert WordAt(s, 7, UrgencyPatterns[3].alternatives[4]);
    EsUrgenteIff("ticket nivel 2");
    assert Search(UrgencyPatterns[3], s);
  }

  /** Two "!" with only blanks between them make a text urgent. */
  lemma SpacedBangsAreUrgent()
    ensures EsUrgente("ayuda! !")
  {
    var b := Lower("ayuda! !");
    BangRunMatches(b, 5, 7);
    EsUrgenteIff("ayuda! !");
    assert Search(UrgencyPatterns[2], b);
  }

  /** Two inverted exclamation marks alone are not urgent: the pattern counts "!", not "¡". */
  lemma InvertedBangsNotUrgent()
    ensures !EsUrgente("¡¡")
  {
    var s := Lower("¡¡");
    assert s == "¡¡";
    TooShortToMatch(UrgencyPatterns[0], s);
    TooShortToMatch(UrgencyPatterns[1], s);
    NoBangNoRun(s);
    TooShortToMatch(UrgencyPatterns[3], s);
    EsUrgenteIff("¡¡");
  }
}
