/**
 * The records the tool decodes from the JSON that `gh` prints, and the
 * small wrappers used for error paths. Decoding itself is not modelled:
 * these values are what a successful decode produces.
 */
module CiTypes {

  datatype Option<+T> = None | Some(value: T)

  datatype Result<+T, +E> = Ok(value: T) | Err(error: E)

  /** One element of `gh run list --json databaseId,status,conclusion,name`. */
  datatype RunInfo = RunInfo(databaseId: int, status: string, conclusion: string, name: string)

  /** One element of the `jobs` array of `gh run view --json ...`. */
  datatype Job = Job(databaseId: int, name: string, status: string, conclusion: string)

  /** The decoded answer of `gh run view <id> --json status,conclusion,name,jobs,url`. */
  datatype RunDetail = RunDetail(status: string, conclusion: string, name: string, url: string, jobs: seq<Job>)

  /** The decoded answer of `gh pr view --json number,url`. */
  datatype PRInfo = PRInfo(number: int, url: string)

  /** What the tool knows about the commit being watched; PR fields are "" when there is no PR. */
  datatype Context = Context(
    commit: string,
    shortCommit: string,
    branch: string,
    repo: string,
    commitURL: string,
    prURL: string,
    prNum: string)
}
