/** The provider union shared by the client and the chat route. */
module ChatTypes {

  /** The closed set of providers the application offers. */
  datatype Provider = OpenAI | Anthropic | Google

  /** The string literal that names each provider in the union type. */
  function Name(p: Provider): string {
    match p
    case OpenAI => "openai"
    case Anthropic => "anthropic"
    case Google => "google"
  }

  /** The set of provider names, as the route lists them in its error text. */
  const Names: set<string> := {"openai", "anthropic", "google"}

  /** Every provider's name is in the set, and no two providers share a name. */
  lemma NameIsFaithful(p: Provider, q: Provider)
    ensures Name(p) in Names
    ensures Name(p) == Name(q) <==> p == q
  {
  }
}
