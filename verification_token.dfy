/** The verification token: the mutable bean the service fills in, and the
    row the store keeps for it. */
module VerificationTokens {
  import opened Outcomes

  /** A stored token row. Its three columns are declared not null, so each
      is a plain value here; `owner` is the position of the owning user in
      the user store. The generated row id is not kept: nothing reads it. */
  datatype Token = Token(token: string, createdTimestamp: int, owner: nat)

  /** The bean. A field that no setter has written yet is null. */
  class VerificationToken {
    var id: Option<int>
    var token: Option<string>
    var createdTimestamp: Option<int>
    var user: Option<nat>

    constructor ()
      ensures id == None && token == None && createdTimestamp == None && user == None
    {
      id, token, createdTimestamp, user := None, None, None, None;
    }

    method SetToken(v: Option<string>)
      modifies this`token
      ensures token == v
    {
      token := v;
    }

    method SetCreatedTimestamp(v: Option<int>)
      modifies this`createdTimestamp
      ensures createdTimestamp == v
    {
      createdTimestamp := v;
    }

    method SetUser(v: Option<nat>)
      modifies this`user
      ensures user == v
    {
      user := v;
    }

    method SetId(v: Option<int>)
      modifies this`id
      ensures id == v
    {
      id := v;
    }

    /** The row an insert writes, or `None` when a not-null column would
        receive null and the insert is refused. */
    function Row(): (r: Option<Token>)
      reads this
      ensures r.None? <==> token.None? || createdTimestamp.None? || user.None?
      ensures r.Some? ==> r.value.token == token.value &&
                          r.value.createdTimestamp == createdTimestamp.value &&
                          r.value.owner == user.value
    {
      if token.Some? && createdTimestamp.Some? && user.Some? then
        Some(Token(token.value, createdTimestamp.value, user.value))
      else
        None
    }
  }
}
