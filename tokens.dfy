/**
 * What the controllers and the filter observe of JwtService: which tokens
 * `validateToken` accepts, and for each of them the subject `getUsername`
 * reads (None for a token without a subject). Signing and parsing are not
 * modelled.
 */
module Tokens {

  import opened Wrappers

  datatype TokenService = TokenService(subjects: map<string, Option<string>>) {

    predicate Validate(token: string) {
      token in subjects
    }

    /** `getUsername`; only defined on a token that validated, as the callers use it. */
    function Username(token: string): Option<string>
      requires Validate(token)
    {
      subjects[token]
    }
  }
}
