/** The subset of zod's string schemas that the team forms declare:
    `z.string()` with `.min(n, message)` and `.max(n, message)`, and
    `.optional()`. A missing required field is reported as "Required". */
module Schema {
  import opened Wrappers

  /** One validation failure: the field it concerns and the message shown. */
  datatype Issue = Issue(path: string, message: string)

  const RequiredMessage: string := "Required"

  /** The issues of one string field: missing, then each failing length check. */
  function StringIssues(path: string, value: Option<string>, min: nat, minMessage: string,
                        max: Option<nat>, maxMessage: string): (r: seq<Issue>)
    ensures r == [] <==> value.Some? && |value.value| >= min && (max.Some? ==> |value.value| <= max.value)
    ensures value.None? ==> r == [Issue(path, RequiredMessage)]
    ensures forall i :: 0 <= i < |r| ==> r[i].path == path
  {
    match value
    case None => [Issue(path, RequiredMessage)]
    case Some(s) =>
      (if |s| < min then [Issue(path, minMessage)] else []) +
      (if max.Some? && |s| > max.value then [Issue(path, maxMessage)] else [])
  }
}
