/** RDF terms, statements, query variables and binding sets. */
module Rdf {
  import opened Wrappers

  /** An RDF term. IRIs and blank nodes are resources; literals are not. */
  datatype Value = IRI(iri: string) | Literal(lexical: string) | BNode(id: string)
  {
    /** Whether a cast of this term to `Resource` succeeds. */
    predicate IsResource() { IRI? || BNode? }
  }

  /** A statement; the context (named graph) is optional. */
  datatype Statement = Statement(subj: Value, pred: Value, obj: Value, context: Option<Value>)

  /** A query variable: its name, the value it already carries (if any) and its constant flag. */
  datatype Var = Var(name: string, value: Option<Value>, constant: bool)

  /** A binding set: variable names to the values bound to them. */
  type BindingSet = map<string, Value>

  /** Whether a possibly-null value can be cast to `Resource` (null casts to null). */
  predicate CastsToResource(v: Option<Value>) { v.None? || v.value.IsResource() }

  /** Whether a possibly-null value can be cast to `IRI` (null casts to null). */
  predicate CastsToIRI(v: Option<Value>) { v.None? || v.value.IRI? }
}
