/** RDF terms and quads, and their rendering as N-Quads terms (`term_to_nq`). */
module Terms {
  import opened Wrappers
  import opened Text
  import opened Vocabulary

  /**
   * An rdflib term: an IRI (`URIRef`), a literal with its lexical form and an
   * optional datatype IRI and language tag, or a blank node.
   */
  datatype Term =
    | Iri(iri: string)
    | Literal(lexical: string, datatypeIri: Option<string>, language: Option<string>)
    | Blank(id: string)

  /** A quad (subject, predicate, object, graph name). */
  type Quad = (Term, Term, Term, Term)

  /** Why rendering failed: a term kind the writer does not support, or an integer literal `int()` rejects. */
  datatype TermError = UnsupportedTerm(term: Term) | NotAnInteger(lexical: string)

  predicate IsIntegerLiteral(t: Term) {
    t.Literal? && t.datatypeIri == Some(XSD_INTEGER)
  }

  /** rdflib treats an empty language tag as no tag. */
  predicate HasLanguage(t: Term) {
    t.Literal? && t.language.Some? && t.language.value != ""
  }

  const IntegerSuffix: string := "\"^^<" + XSD_INTEGER + ">"

  /**
   * `term_to_nq`: the datatype test comes before the language test, an
   * integer literal is written with the decimal form of its value, and any
   * term that is neither an IRI nor a literal is refused.
   */
  function RenderTerm(t: Term): (r: Result<string, TermError>)
    ensures r.Err? <==> t.Blank? || (IsIntegerLiteral(t) && ParseInteger(t.lexical).None?)
    ensures r.Err? && t.Blank? ==> r.error == UnsupportedTerm(t)
    ensures r.Ok? ==> |r.value| >= 2 && (r.value[0] == '<' <==> t.Iri?) && (r.value[0] == '"' <==> t.Literal?)
    ensures r.Ok? && t.Iri? ==> r.value[|r.value| - 1] == '>'
    ensures r.Ok? && IsIntegerLiteral(t) ==> EndsWith(r.value, IntegerSuffix)
  {
    match t
    case Iri(v) => Ok("<" + v + ">")
    case Literal(lex, dt, lang) =>
      if dt == Some(XSD_INTEGER) then
        match ParseInteger(lex)
        case Some(n) => Ok("\"" + DecimalString(n) + IntegerSuffix)
        case None => Err(NotAnInteger(lex))
      else if HasLanguage(t) then Ok("\"" + lex + "\"@" + lang.value)
      else Ok("\"" + lex + "\"")
    case Blank(_) => Err(UnsupportedTerm(t))
  }

  /**
   * An integer literal renders with the canonical decimal of its value
   * whatever language tag it carries: the datatype test wins.
   */
  lemma RenderIntegerLiteral(n: int, language: Option<string>)
    ensures RenderTerm(Literal(DecimalString(n), Some(XSD_INTEGER), language))
            == Ok("\"" + DecimalString(n) + IntegerSuffix)
  {
    ParseDecimal(n);
  }

  /** An IRI renders in angle brackets; a literal of any other datatype renders quoted, with its tag when it has a non-empty one. */
  lemma RenderOtherTerms(t: Term)
    requires t.Iri? || (t.Literal? && !IsIntegerLiteral(t))
    ensures t.Iri? ==> RenderTerm(t) == Ok("<" + t.iri + ">")
    ensures t.Literal? && HasLanguage(t) ==> RenderTerm(t) == Ok("\"" + t.lexical + "\"@" + t.language.value)
    ensures t.Literal? && !HasLanguage(t) ==> RenderTerm(t) == Ok("\"" + t.lexical + "\"")
  {
  }

  /** Two integer literals denoting the same value render to the same text. */
  lemma RenderIntegerByValue(lexical: string, n: int, language: Option<string>)
    requires ParseInteger(lexical) == Some(n)
    ensures RenderTerm(Literal(lexical, Some(XSD_INTEGER), language))
            == RenderTerm(Literal(DecimalString(n), Some(XSD_INTEGER), None))
  {
    ParseDecimal(n);
  }

  predicate Renderable(t: Term) {
    RenderTerm(t).Ok?
  }

  predicate QuadRenderable(q: Quad) {
    Renderable(q.0) && Renderable(q.1) && Renderable(q.2) && Renderable(q.3)
  }

  /**
   * One quad line: the four rendered terms separated by spaces and closed by
   * ` .`. The terms are rendered subject first, and the first failure is the
   * one reported.
   */
  function RenderQuad(q: Quad): (r: Result<string, TermError>)
    ensures r.Ok? <==> QuadRenderable(q)
    ensures r.Err? ==> r.error == (if !Renderable(q.0) then RenderTerm(q.0).error
                                   else if !Renderable(q.1) then RenderTerm(q.1).error
                                   else if !Renderable(q.2) then RenderTerm(q.2).error
                                   else RenderTerm(q.3).error)
    ensures r.Ok? ==> EndsWith(r.value, " .") && StartsWith(r.value, RenderTerm(q.0).value + " ")
  {
    match RenderTerm(q.0)
    case Err(e) => Err(e)
    case Ok(s) =>
      match RenderTerm(q.1)
      case Err(e) => Err(e)
      case Ok(p) =>
        match RenderTerm(q.2)
        case Err(e) => Err(e)
        case Ok(o) =>
          match RenderTerm(q.3)
          case Err(e) => Err(e)
          case Ok(g) => Ok(s + " " + p + " " + o + " " + g + " .")
  }

  /**
   * The strings a term contributes to its rendering hold no line break: an
   * IRI's text, or a literal's lexical form and language tag (an integer
   * literal is rendered from its value instead).
   */
  ghost predicate TermNoBreak(t: Term) {
    && (t.Iri? ==> NoBreak(t.iri))
    && (t.Literal? && !IsIntegerLiteral(t) ==> NoBreak(t.lexical) && (t.language.Some? ==> NoBreak(t.language.value)))
  }

  ghost predicate QuadNoBreak(q: Quad) {
    TermNoBreak(q.0) && TermNoBreak(q.1) && TermNoBreak(q.2) && TermNoBreak(q.3)
  }

  lemma IntegerSuffixNoBreak()
    ensures NoBreak(IntegerSuffix)
  {
  }

  /** A rendered term holds no line break unless its own strings do. */
  lemma RenderTermNoBreak(t: Term)
    requires RenderTerm(t).Ok? && TermNoBreak(t)
    ensures NoBreak(RenderTerm(t).value)
  {
    if IsIntegerLiteral(t) {
      var n := ParseInteger(t.lexical).value;
      assert RenderTerm(t) == Ok("\"" + DecimalString(n) + IntegerSuffix);
      DecimalNoBreak(n);
      IntegerSuffixNoBreak();
    } else {
      RenderOtherTerms(t);
    }
  }

  lemma NoBreakJoin(s: string, p: string, o: string, g: string)
    requires NoBreak(s) && NoBreak(p) && NoBreak(o) && NoBreak(g)
    ensures NoBreak(s + " " + p + " " + o + " " + g + " .")
  {
  }

  /** A rendered quad holds no line break unless one of its terms' strings does. */
  lemma RenderQuadNoBreak(q: Quad)
    requires RenderQuad(q).Ok? && QuadNoBreak(q)
    ensures NoBreak(RenderQuad(q).value)
  {
    var s, p, o, g := RenderTerm(q.0).value, RenderTerm(q.1).value, RenderTerm(q.2).value, RenderTerm(q.3).value;
    assert RenderQuad(q).value == s + " " + p + " " + o + " " + g + " .";
    assert NoBreak(s) && NoBreak(p) && NoBreak(o) && NoBreak(g) by {
      RenderTermNoBreak(q.0);
      RenderTermNoBreak(q.1);
      RenderTermNoBreak(q.2);
      RenderTermNoBreak(q.3);
    }
    NoBreakJoin(s, p, o, g);
  }
}
