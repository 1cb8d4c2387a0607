/** The admin extension's response checks and field lookup
    (`utils/helpers.ts`). A thrown `Error` is a `Fail` carrying its message. */
module Helpers {
  import opened Common
  import opened WarehouseTypes
  import Text

  /** What the extension reads of a GraphQL reply: the top-level `errors`
      messages (an absent list is empty) and the mutation payload's
      `userErrors` messages (absent when `data` or the payload is missing). */
  datatype GqlReply = GqlReply(errors: seq<string>, userErrors: Option<seq<string>>)

  const Separator := " | "

  /** `getFieldValue(list, key)`: the value of the first field with the key,
      or `undefined` when there is none or its value is `null`. */
  function GetFieldValue(list: seq<Field>, key: string): (r: Option<string>)
    ensures (forall i :: 0 <= i < |list| ==> list[i].key != key) ==> r == None
    ensures forall i ::
              (0 <= i < |list| && list[i].key == key && forall j :: 0 <= j < i ==> list[j].key != key)
              ==> r == list[i].value
  {
    if list == [] then None
    else if list[0].key == key then list[0].value
    else GetFieldValue(list[1..], key)
  }

  /** `list.find(field => field.key === key)?.reference`: the reference of the
      first field with the key, if that field has one. */
  function FirstReference(list: seq<Field>, key: string): (r: Option<Reference>)
    ensures (forall i :: 0 <= i < |list| ==> list[i].key != key) ==> r == None
    ensures forall i ::
              (0 <= i < |list| && list[i].key == key && forall j :: 0 <= j < i ==> list[j].key != key)
              ==> r == list[i].reference
  {
    if list == [] then None
    else if list[0].key == key then list[0].reference
    else FirstReference(list[1..], key)
  }

  /** `assertNoGqlErrors(result)` */
  function AssertNoGqlErrors(errors: seq<string>): (o: Outcome)
    ensures o.Fail? <==> errors != []
  {
    if |errors| > 0 then Fail(Text.Join(errors, Separator)) else Pass
  }

  /** `assertNoUserErrors(userErrors)` */
  function AssertNoUserErrors(userErrors: Option<seq<string>>): (o: Outcome)
    ensures o.Fail? <==> userErrors.Some? && userErrors.value != []
  {
    if userErrors.Some? && |userErrors.value| > 0 then Fail(Text.Join(userErrors.value, Separator))
    else Pass
  }

  /** `validateResponse(result, getUserErrors)`: GraphQL errors are checked
      first, then the payload's user errors. */
  function ValidateResponse(reply: GqlReply): (o: Outcome)
    ensures o.Pass? <==> reply.errors == [] && (reply.userErrors.None? || reply.userErrors.value == [])
  {
    match AssertNoGqlErrors(reply.errors)
    case Fail(m) => Fail(m)
    case Pass => AssertNoUserErrors(reply.userErrors)
  }

  /** `getUserErrorsMessage(userErrors)` */
  function GetUserErrorsMessage(userErrors: Option<seq<string>>): string {
    if userErrors.Some? && |userErrors.value| > 0 then Text.Join(userErrors.value, Separator) else ""
  }

  /** When a reply carries both kinds of error, the thrown message is made of
      the GraphQL errors alone. */
  lemma GqlErrorsTakePrecedence(reply: GqlReply)
    requires reply.errors != []
    ensures ValidateResponse(reply) == Fail(Text.Join(reply.errors, Separator))
  {
  }

  /** The message helper returns exactly what the user-error assertion would
      throw, and `""` when it would not throw. */
  lemma UserErrorsMessageAgrees(userErrors: Option<seq<string>>)
    ensures AssertNoUserErrors(userErrors).Fail? ==>
              GetUserErrorsMessage(userErrors) == AssertNoUserErrors(userErrors).message
    ensures AssertNoUserErrors(userErrors).Pass? ==> GetUserErrorsMessage(userErrors) == ""
  {
  }

  /** A reply without errors of either kind validates. */
  lemma CleanReplyPasses(reply: GqlReply)
    requires reply.errors == [] && reply.userErrors.None?
    ensures ValidateResponse(reply) == Pass
  {
  }
}
