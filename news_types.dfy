/** Values shared by every phase of the news digest pipeline: optional
    JSON fields and NewsAPI article objects. */
module NewsTypes {

  /** A JSON field read with Python's `dict.get`: None when the key is
      absent or its value is null. */
  datatype Option<+T> = None | Some(value: T)

  /** One article object of a NewsAPI response, reduced to the four keys
      the pipeline reads. */
  datatype Article = Article(
    title: Option<string>,
    url: Option<string>,
    description: Option<string>,
    content: Option<string>)

  /** Python truthiness of an optional string: None and "" are both false. */
  predicate Truthy(s: Option<string>)
  {
    s.Some? && s.value != ""
  }

  /** How an f-string renders an optional string: None prints as `None`. */
  function Render(s: Option<string>): string
  {
    match s
    case Some(v) => v
    case None => "None"
  }

  /** Python's `or` sees a missing string and the empty string alike as
      false, and every other string as true. */
  lemma FalsyStrings()
    ensures !Truthy(None) && !Truthy(Some(""))
    ensures forall v: string :: v != "" ==> Truthy(Some(v))
  {
  }

  /** An f-string prints a present string as itself and a missing one as
      `None`; a field holding the text "None" prints like a missing one. */
  lemma RenderPrintsNone()
    ensures Render(None) == "None"
    ensures forall v: string :: Render(Some(v)) == v
    ensures Render(Some("None")) == Render(None)
  {
  }
}
