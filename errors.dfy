/** The Python exceptions the engines raise, as values. */
module Errors {
  import GitHub
  import Runtime

  datatype Exc =
    | ValueError(message: string)
    | IndexError(message: string)
    | KeyError(key: string)
    | AttributeError(message: string)
    | AssertionError(message: string)
    | Github(api: GitHub.ApiError)       // a GithubException from the API client
    | Raised(message: string)            // a plain `Exception(message)`

  /** `str(e)`: what the source interpolates into its "something went wrong" messages. */
  function Describe(e: Exc): string {
    match e
    case ValueError(m) => m
    case IndexError(m) => m
    case KeyError(k) => "'" + k + "'"
    case AttributeError(m) => m
    case AssertionError(m) => m
    case Github(api) => Runtime.IntText(api.status) + " " + api.data
    case Raised(m) => m
  }
}
