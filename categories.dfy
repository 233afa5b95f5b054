/**
 * The category taxonomy and the keyword classifier `clasificar_con_palabras_clave`: an ordered
 * table of category patterns (`CATEGORIAS`) searched in order over the lower-cased text, the
 * first match winning and "otros" standing for "no pattern matched".
 */
module Categories {
  import opened Text
  import opened Patterns

  datatype Category = Logistica | Pagos | ProductoDefectuoso | Cuenta | Facturacion | Otros

  /** The label under which the system reports a category. */
  function Name(c: Category): string
  {
    match c
    case Logistica => "logística"
    case Pagos => "pagos"
    case ProductoDefectuoso => "producto defectuoso"
    case Cuenta => "cuenta"
    case Facturacion => "facturación"
    case Otros => "otros"
  }

  /** Different categories are reported under different labels. */
  lemma NameInjective(a: Category, b: Category)
    ensures Name(a) == Name(b) ==> a == b
  {
  }

  datatype Rule = Rule(category: Category, pattern: Pattern)

  /** `CATEGORIAS`, in its insertion order: logística, pagos, producto defectuoso, cuenta, facturación. */
  const Categorias: seq<Rule> := [
    Rule(Logistica, AnyOf(["pedido", "entrega", "envío", "envio", "llegada", "reparto", "transporte",
                           "seguimiento"])),
    Rule(Pagos, AnyOf(["pago", "tarjeta", "cobro", "debito", "débito", "credito", "crédito",
                       "transaccion", "transacción"])),
    Rule(ProductoDefectuoso, AnyOf(["defectuoso", "roto", "rota", "dañado", "mal estado", "no funciona",
                                    "averiado", "falla", "pantalla"])),
    Rule(Cuenta, AnyOf(["cuenta", "login", "registro", "acceso", "contraseña", "usuario", "perfil"])),
    Rule(Facturacion, AnyOf(["factura", "recibo", "impuesto", "cargo", "precio", "valor", "subtotal"]))
  ]

  /** Rule `k` is the first rule of the table whose pattern matches `s`. */
  predicate IsFirstMatch(rules: seq<Rule>, s: string, k: int)
  {
    0 <= k < |rules| && Search(rules[k].pattern, s)
    && forall j :: 0 <= j < k ==> !Search(rules[j].pattern, s)
  }

  /** The loop of `clasificar_con_palabras_clave`: return the category of the first matching rule,
      "otros" once the table is exhausted. */
  function FirstMatch(rules: seq<Rule>, s: string): Category
    decreases |rules|
  {
    if rules == [] then Otros
    else if Search(rules[0].pattern, s) then rules[0].category
    else FirstMatch(rules[1..], s)
  }

  /** The loop returns the category of the least matching rule, and "otros" when none matches. */
  lemma {:induction false} FirstMatchSpec(rules: seq<Rule>, s: string)
    ensures forall k :: IsFirstMatch(rules, s, k) ==> FirstMatch(rules, s) == rules[k].category
    ensures (forall k :: 0 <= k < |rules| ==> !Search(rules[k].pattern, s)) ==> FirstMatch(rules, s) == Otros
    ensures FirstMatch(rules, s) == Otros || exists k :: IsFirstMatch(rules, s, k)
    decreases |rules|
  {
    if rules != [] && !Search(rules[0].pattern, s) {
      var tail := rules[1..];
      FirstMatchSpec(tail, s);
      forall k | IsFirstMatch(rules, s, k) ensures FirstMatch(rules, s) == rules[k].category {
        assert IsFirstMatch(tail, s, k - 1);
      }
      if FirstMatch(tail, s) != Otros {
        var k :| IsFirstMatch(tail, s, k);
        assert IsFirstMatch(rules, s, k + 1);
      }
    } else if rules != [] {
      assert IsFirstMatch(rules, s, 0);
    }
  }

  /** `clasificar_con_palabras_clave`: lower-case the text and search the table in order. */
  function ClasificarConPalabrasClave(text: string): Category
  {
    FirstMatch(Categorias, Lower(text))
  }

  /** For a table of distinct categories other than "otros", the loop answers rule `k`'s category
      exactly when rule `k` is the first matching rule, and "otros" exactly when no rule matches. */
  lemma FirstMatchIff(rules: seq<Rule>, s: string)
    requires forall k :: 0 <= k < |rules| ==> rules[k].category != Otros
    requires forall j, k :: 0 <= j < k < |rules| ==> rules[j].category != rules[k].category
    ensures forall k :: 0 <= k < |rules| ==>
              (FirstMatch(rules, s) == rules[k].category <==> IsFirstMatch(rules, s, k))
    ensures FirstMatch(rules, s) == Otros <==> forall k :: 0 <= k < |rules| ==> !Search(rules[k].pattern, s)
  {
    FirstMatchSpec(rules, s);
    forall k | 0 <= k < |rules| && FirstMatch(rules, s) == rules[k].category
      ensures IsFirstMatch(rules, s, k)
    {
      var m :| IsFirstMatch(rules, s, m);
      assert rules[m].category == rules[k].category;
    }
    if exists k :: 0 <= k < |rules| && Search(rules[k].pattern, s) {
      var k :| 0 <= k < |rules| && Search(rules[k].pattern, s);
      FirstMatchExists(rules, s, k);
      var m :| IsFirstMatch(rules, s, m);
      assert FirstMatch(rules, s) == rules[m].category != Otros;
    }
  }

  /** The keyword classifier answers rule `k`'s category exactly when rule `k` is the first rule
      matching the lower-cased text, and "otros" exactly when no rule matches. */
  lemma KeywordFirstMatch(text: string)
    ensures forall k :: 0 <= k < |Categorias| ==>
              (ClasificarConPalabrasClave(text) == Categorias[k].category <==> IsFirstMatch(Categorias, Lower(text), k))
    ensures ClasificarConPalabrasClave(text) == Otros <==>
              forall k :: 0 <= k < |Categorias| ==> !Search(Categorias[k].pattern, Lower(text))
  {
    FirstMatchIff(Categorias, Lower(text));
  }

  /** When some rule matches, a first matching rule exists. */
  lemma FirstMatchExists(rules: seq<Rule>, s: string, k: int)
    requires 0 <= k < |rules| && Search(rules[k].pattern, s)
    ensures exists m :: IsFirstMatch(rules, s, m)
    decreases k
  {
    if !IsFirstMatch(rules, s, k) {
      var j :| 0 <= j < k && Search(rules[j].pattern, s);
      FirstMatchExists(rules, s, j);
    }
  }

  /** The keyword classifier ignores letter case: it sees only the lower-cased text. */
  lemma KeywordIgnoresCase(text: string)
    ensures ClasificarConPalabrasClave(Lower(text)) == ClasificarConPalabrasClave(text)
  {
    LowerIdempotent(text);
  }

  /** The empty text matches no rule. */
  lemma EmptyIsOtros()
    ensures ClasificarConPalabrasClave("") == Otros
  {
    assert Lower("") == "";
    NothingMatchesEmpty(Categorias[0].pattern);
    NothingMatchesEmpty(Categorias[1].pattern);
    NothingMatchesEmpty(Categorias[2].pattern);
    NothingMatchesEmpty(Categorias[3].pattern);
    NothingMatchesEmpty(Categorias[4].pattern);
    FirstMatchSpec(Categorias, "");
  }

  /** "Mi pedido no llegó" is a logistics complaint: "pedido" matches the first rule. */
  lemma PedidoIsLogistica()
    ensures ClasificarConPalabrasClave("Mi pedido no llegó") == Logistica
  {
    var s := Lower("Mi pedido no llegó");
    assert s[3..9] == "pedido";
    assert OccursAt(s, 3, Categorias[0].pattern.alternatives[0]);
  }
}
