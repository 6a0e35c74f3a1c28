/** The token stores of agents/repo-sentinel/src/stores/ and the tools that hand
    their token to the model (agents/repo-sentinel/src/tools/get-github-token.ts
    and get-ado-token.ts).

    `GitHubTokenStore` and `AdoTokenStore` are two classes with the same static
    field and accessors; each is one instance of `TokenStore` here.
 */
module TokenStores {

  import opened Wrappers

  class TokenStore {
    var token: Option<string>

    /** The token is `null` until it is first set. */
    constructor ()
      ensures token == None
    {
      token := None;
    }

    /** `set(token)`: overwrites whatever was stored. */
    method Set(t: string)
      modifies this
      ensures token == Some(t)
    {
      token := Some(t);
    }

    /** `get()`: reads the token and changes nothing. */
    method Get() returns (t: Option<string>)
      ensures t == token
    {
      t := token;
    }
  }

  const GitHubTokenMissing := "GitHub token not available"
  const AdoTokenMissing := "Azure DevOps token not available"

  /** The handler of `get_github_token` / `get_ado_token` on the stored value:
      `null` and the empty string both throw `missing`; any other token is
      returned exactly. */
  function TokenTool(stored: Option<string>, missing: string): (r: Outcome<string>)
    ensures r.Returned? <==> stored.Some? && stored.value != ""
    ensures r.Returned? ==> r.value == stored.value
    ensures r.Threw? ==> r.error == ErrorObject(missing)
  {
    if stored.None? || stored.value == "" then Threw(ErrorObject(missing)) else Returned(stored.value)
  }

  /** Running the handler against a store: one read, no write. */
  method RunTokenTool(store: TokenStore, missing: string) returns (r: Outcome<string>)
    ensures r == TokenTool(store.token, missing)
  {
    var t := store.Get();
    if t.None? || t.value == "" {
      return Threw(ErrorObject(missing));
    }
    return Returned(t.value);
  }

  /** A token that was set and not empty is what the tool hands out,
      whatever was stored before. */
  method SetThenRun(store: TokenStore, t: string, missing: string) returns (r: Outcome<string>)
    requires t != ""
    modifies store
    ensures store.token == Some(t)
    ensures r == Returned(t)
  {
    store.Set(t);
    r := RunTokenTool(store, missing);
  }
}
