/** The input schemas: the post id and the comment length bounds, with the
    issues a failed `safeParse` reports. */
module Validation {
  /** One schema issue: a string below its minimum or above its maximum
      length, or an email the email rule refused. */
  datatype Issue = TooSmall(path: string, minimum: nat) | TooBig(path: string, maximum: nat) | InvalidEmail(path: string)

  /** The result of `safeParse`: the parsed value, or the issues. */
  datatype SafeParse<T> = Parsed(data: T) | Rejected(issues: seq<Issue>)

  const PostIdMin: nat := 1
  const PostIdMax: nat := 100
  const ContentMin: nat := 1
  const ContentMax: nat := 1000
  const AuthorMin: nat := 1
  const AuthorMax: nat := 50

  /** The issues of `z.string().min(lo).max(hi)` for `s` at `path`. */
  function LengthIssues(path: string, s: string, lo: nat, hi: nat): (r: seq<Issue>)
    ensures r == [] <==> lo <= |s| <= hi
    ensures |s| < lo ==> TooSmall(path, lo) in r
    ensures |s| > hi ==> TooBig(path, hi) in r
  {
    (if |s| < lo then [TooSmall(path, lo)] else []) + (if |s| > hi then [TooBig(path, hi)] else [])
  }

  /** `validatePostId`: it reports a bad id as a value and never throws. */
  function ValidatePostId(id: string): (r: SafeParse<string>)
    ensures r.Parsed? <==> PostIdMin <= |id| <= PostIdMax
    ensures r.Parsed? ==> r.data == id
    ensures id == [] ==> r == Rejected([TooSmall("", PostIdMin)])
    ensures |id| > PostIdMax ==> r == Rejected([TooBig("", PostIdMax)])
  {
    var issues := LengthIssues("", id, PostIdMin, PostIdMax);
    if issues == [] then Parsed(id) else Rejected(issues)
  }

  datatype Comment = Comment(content: string, author: string, email: string)

  /** `CommentSchema.safeParse`, with `emailOk` the verdict of the email
      rule on `email`. */
  function ValidateComment(content: string, author: string, email: string, emailOk: bool): (r: SafeParse<Comment>)
    ensures r.Parsed? <==>
      ContentMin <= |content| <= ContentMax && AuthorMin <= |author| <= AuthorMax && emailOk
    ensures r.Parsed? ==> r.data == Comment(content, author, email)
    ensures content == [] ==> r.Rejected? && TooSmall("content", ContentMin) in r.issues
    ensures |content| > ContentMax ==> r.Rejected? && TooBig("content", ContentMax) in r.issues
    ensures author == [] ==> r.Rejected? && TooSmall("author", AuthorMin) in r.issues
    ensures |author| > AuthorMax ==> r.Rejected? && TooBig("author", AuthorMax) in r.issues
    ensures !emailOk ==> r.Rejected? && InvalidEmail("email") in r.issues
  {
    var issues := LengthIssues("content", content, ContentMin, ContentMax)
      + LengthIssues("author", author, AuthorMin, AuthorMax)
      + (if emailOk then [] else [InvalidEmail("email")]);
    if issues == [] then Parsed(Comment(content, author, email)) else Rejected(issues)
  }
}
