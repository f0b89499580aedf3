/** The secure key-value store shared by the HTTP client layer and the
    session context: four keys, each holding a value or nothing. */
module Storage {
  import opened Js

  /** The four session fields, as one value. */
  datatype Tokens = Tokens(
    access: Option<string>,     // TOKEN_STATUS
    refresh: Option<string>,    // TOKEN_REFRESH
    issuedAt: Option<int>,      // SESS_ISSUED, seconds since the epoch
    expiresIn: Option<int>)     // SESS_EXPIRES, seconds

  /** Every key empty. */
  const Cleared: Tokens := Tokens(None, None, None, None)

  /** An access token is only usable when its issue time and lifetime are
      known, since without them its freshness cannot be judged. */
  predicate Provenance(t: Tokens) {
    Truthy(t.access) ==> t.issuedAt.Some? && t.expiresIn.Some?
  }

  /** The secure store. Writing an absent value deletes the key; the two
      numeric keys hold the decimal text of a number, which is never empty,
      so a present value is also a truthy one. */
  class SecureStore {
    var access: Option<string>
    var refresh: Option<string>
    var issuedAt: Option<int>
    var expiresIn: Option<int>

    function Contents(): Tokens
      reads this
    {
      Tokens(access, refresh, issuedAt, expiresIn)
    }

    constructor (initial: Tokens)
      ensures Contents() == initial
    {
      access := initial.access;
      refresh := initial.refresh;
      issuedAt := initial.issuedAt;
      expiresIn := initial.expiresIn;
    }
  }
}
