/** The fields of the CI host's own records that the adapter reads or
    writes. The host's model package is not part of this model; every
    other field of its records is left out. */
module Host {

  /** The event name the host gives to a push (`model.EventPush`). */
  const EVENT_PUSH := "push"

  datatype User = User(login: string, token: string, email: string)

  datatype Repo = Repo(
    owner: string,
    name: string,
    fullName: string,
    link: string,
    clone: string,
    branch: string)

  datatype Build = Build(
    event: string,
    status: string,
    commit: string,
    branch: string,
    ref: string,
    message: string,
    author: string,
    email: string)

  datatype Perm = Perm(admin: bool, pull: bool, push: bool)

  /** Go's zero value of a freshly allocated `model.Repo{}`. */
  const EMPTY_REPO := Repo("", "", "", "", "", "")

  /** Go's zero value of a freshly allocated `model.Build{}`. */
  const EMPTY_BUILD := Build("", "", "", "", "", "", "", "")
}
