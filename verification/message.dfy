/** The chat message schema: a role drawn from a two-value enumeration, a
    required text, and a creation time the store assigns (Mongoose's
    `timestamps` option). */
module MessageSchema {
  import opened Wrappers
  import opened Strings

  datatype Role = User | Ai

  /** The stored spelling of a role. */
  function RoleName(r: Role): string {
    match r
    case User => "user"
    case Ai => "ai"
  }

  /** The role enumeration check: exactly `"user"` and `"ai"` are accepted. */
  function ParseRole(s: string): (r: Option<Role>)
    ensures r.Some? <==> (s == "user" || s == "ai")
    ensures r.Some? ==> RoleName(r.value) == s
  {
    if s == "user" then Some(User) else if s == "ai" then Some(Ai) else None
  }

  /** Every role survives being written out and read back. */
  lemma RoleRoundTrip(r: Role)
    ensures ParseRole(RoleName(r)) == Some(r)
  {
  }

  /** A persisted record. */
  datatype Message = Message(role: Role, text: string, createdAt: nat)

  /** The fields a handler hands to the store before validation. */
  datatype Draft = Draft(role: Option<string>, text: Option<string>)

  datatype SchemaError = RoleRequired | RoleNotInEnum(value: string) | TextRequired

  /** A record the schema admits: its text is present. */
  predicate WellFormed(m: Message) {
    m.text != ""
  }

  /** Schema validation of a draft, stamping the accepted record with the
      store's clock reading `at`. A required string path rejects a missing
      value and the empty string. */
  function Validate(d: Draft, at: nat): (r: Result<Message, SchemaError>)
    ensures r.Success? <==> Truthy(d.role) && ParseRole(d.role.value).Some? && Truthy(d.text)
    ensures r.Success? ==> RoleName(r.value.role) == d.role.value
    ensures r.Success? ==> r.value.text == d.text.value && r.value.createdAt == at
    ensures r.Success? ==> WellFormed(r.value)
  {
    if !Truthy(d.role) then Failure(RoleRequired)
    else if ParseRole(d.role.value).None? then Failure(RoleNotInEnum(d.role.value))
    else if !Truthy(d.text) then Failure(TextRequired)
    else Success(Message(ParseRole(d.role.value).value, d.text.value, at))
  }

  /** A draft without a role is never stored. */
  lemma RoleIsRequired(text: Option<string>, at: nat)
    ensures Validate(Draft(None, text), at) == Failure(RoleRequired)
  {
  }

  /** A draft without text is never stored, whatever its role. */
  lemma TextIsRequired(r: Role, at: nat)
    ensures Validate(Draft(Some(RoleName(r)), None), at) == Failure(TextRequired)
    ensures Validate(Draft(Some(RoleName(r)), Some("")), at) == Failure(TextRequired)
  {
  }
}
