/** The backend's wire records, as decoded from (or encoded to) JSON.
    Field names follow remote/trypod/types.go; the JSON tags themselves
    are not modelled. */
module Wire {

  /** A backend account (`User` in types.go). `id` is an int64 there;
      the adapter never reads it. */
  datatype User = User(
    id: int,
    userName: string,
    realName: string,
    address: string,
    token: string,
    avatar: string)

  /** A backend repository record (`Repo` in types.go). */
  datatype Repo = Repo(name: string, url: string, owner: string)

  /** The webhook payload describing one pushed commit (`Commit` in types.go). */
  datatype Commit = Commit(
    author: string,
    avatar: string,
    repository: string,
    owner: string,
    name: string,
    rev: string,
    branch: string,
    description: string)

  /** The commit-status report the adapter posts (`Status` in types.go). */
  datatype Status = Status(
    url: string,
    repository: string,
    status: string,
    branch: string,
    rev: string,
    author: string,
    email: string,
    message: string,
    event: string)
}
