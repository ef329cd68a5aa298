# Trypod adapter model

This project models the Trypod remote of a CI server: the adapter that the
server uses to talk to a Trypod source-hosting backend. Each adapter
operation makes at most one HTTP exchange with the backend. The model keeps
the parts that do not depend on the network:

- the request each operation would send: the path built from the configured
  base URL, the token and the arguments, plus the content type and the payload;
- the status rule: a read succeeds only on exactly 200, and a write
  (status report, activation, deactivation) only on exactly 204;
- the order in which errors win: transport failure first, then the status
  code, then the body read, then JSON decoding;
- the field-by-field mappings from the backend's records (`User`, `Repo`,
  `Commit`, `Status` in `remote/trypod/types.go`) to the host's user,
  repository, build and permission records;
- the webhook mapping from a pushed commit to a repository and a build.

The network is not modelled. An exchange (`Http.Response`) is either an
unreachable backend or a reply with a status code, a status line and a body.
A body was either read in full or broke off (`Http.Body`), and a JSON body
either decodes to a record or is rejected. The seven operations that send a
request (`Repo`, `Repos`, `File`, `FileRef`, `Status`, `Activate`,
`Deactivate`) take the exchange as an input and return the request together
with its outcome (`Trypod.Call`). `Login` takes the exchange too and returns
a `Trypod.LoginCall`, which can hold a redirect instead of a request. `Hook`
takes the webhook body, and `Auth`, `Perm` and `New` involve no exchange. Every method that receives the host user `u`
ignores it, so the model leaves that argument out.

Modules:

- `Wire`: the backend's records.
- `Host`: the fields of the CI server's records that the adapter reads or writes.
- `Http`: the abstract exchange, the error values and the acceptance rules.
- `Text`: splitting a string at its first separator.
- `Fmt`: the subset of Go's `fmt.Sprintf` that the adapter's paths use.
- `Trypod`: the operations, the request paths and the record mappings.

`Repos` is a method with a loop over the decoded records. `Repo` and `Hook`
are methods that fill zero-valued records one field at a time, as the Go
code does. Each of them is proved against a specification function:
`ToRepo`, `PushRepo` and `PushBuild`.

## Model

| member | source | states |
|---|---|---|
| Trypod.New | remote/trypod/trypod.go:21-26 | The adapter keeps the URL and token it is given and never fails. |
| Trypod.Login | remote/trypod/trypod.go:33-70 | No request is sent exactly when the user name or the password is empty. In that case the caller is redirected to `/login/form` with 303, and the result has no user and no error. Otherwise the credentials are posted as a form to `URL/login`. A user is returned exactly when the reply is 200, read in full and decoded; it has login = user name, token = token and e-mail = address. A non-200 reply fails with its status line, and every other error is the one the exchange produced. |
| Trypod.Auth | remote/trypod/trypod.go:72-74 | Always fails, with the message "Not Implemented". |
| Trypod.Repo | remote/trypod/trypod.go:84-111 | Requests `URL/repo/<name>`: the owner plays no part in the request or the result. It succeeds exactly when the reply is 200, read and decoded. The repository is `ToRepo` of the record: full name = owner/name, link = clone = backend URL, branch "default". A non-200 reply fails with its status line. |
| Trypod.Repos | remote/trypod/trypod.go:113-144 | Requests `URL/repos` and succeeds under the same rule as `Repo`. It returns exactly one repository per decoded record, in the same order; element i is `ToRepo` of record i. |
| Trypod.Perm | remote/trypod/trypod.go:146-153 | Grants admin, pull and push whatever the arguments. |
| Trypod.FileRef | remote/trypod/trypod.go:168-179 | Requests the raw-file path for the repository, the ref and the path. It returns the body exactly when the reply is 200 and the body was read in full. A non-200 reply fails with its status line, a 200 reply whose body breaks off fails with the read error, and an unreachable backend fails with the transport error. |
| Trypod.File | remote/trypod/trypod.go:155-166 | Behaves exactly as `FileRef` at the build's commit: same request, same outcome. |
| Trypod.Status | remote/trypod/trypod.go:181-207 | Posts JSON to `URL/status/<token>`. The report copies the link, the repository name, the build's commit as rev, and the build's status, branch, author, e-mail, message and event. It succeeds exactly on 204, so a 200 reply is an error carrying its status line. |
| Trypod.Activate | remote/trypod/trypod.go:213-224 | Posts the link as plain text to `URL/repo/<name>/activate/<token>`. It succeeds exactly on 204. |
| Trypod.Deactivate | remote/trypod/trypod.go:226-236 | Posts an empty plain-text body to `URL/repo/<name>/deactivate/<token>`, so the link is never sent. It succeeds exactly on 204. |
| Trypod.Hook | remote/trypod/trypod.go:238-268 | Succeeds exactly when the webhook body is read in full and decodes as a commit. A failed read and a failed decode each return their own error. On success the repository is `PushRepo` and the build is `PushBuild` of the commit. |
| Trypod.PushRepo | remote/trypod/trypod.go:251-257 | The webhook's repository is the same mapping as a repository read from the backend, except that the branch is the pushed branch. |
| Trypod.PushBuild | remote/trypod/trypod.go:259-266 | The build is a push. Commit = ref = rev, branch = pushed branch, message = description, and author = e-mail = the commit's author. |
| Trypod.PushStatusEchoesCommit | remote/trypod/trypod.go:183-193 | The status report for a webhook build echoes the commit: repository name, rev, branch, author (twice), description and the push event. |
| Trypod.ToRepoFullNameSplits | remote/trypod/trypod.go:104-106 | When the owner holds no `/`, splitting a mapped repository's full name at its first `/` gives back the owner and the name. |
| Trypod.RawFileUrlRoundTrip | remote/trypod/trypod.go:169 | When the repository name and the ref hold no `/`, parsing a raw-file path gives back the name, the ref and the file path. So two different files never share a request path. |
| Trypod.ActivateDeactivateDistinct | remote/trypod/trypod.go:214-227 | For repository names without `/`, an activation path never equals a deactivation path. |
| Trypod.RawFileUrlAsWrittenAgrees | remote/trypod/trypod.go:156 | For every base URL without `%`, the path built through `fmt.Sprintf` equals the plain concatenation. |
| Trypod.StatusUrlAsWrittenAgrees | remote/trypod/trypod.go:182 | The same agreement for the status path. |
| Trypod.ActivateUrlAsWrittenAgrees | remote/trypod/trypod.go:214 | The same agreement for the activation path. |
| Trypod.DeactivateUrlAsWrittenAgrees | remote/trypod/trypod.go:227 | The same agreement for the deactivation path. |
| Trypod.RawFileUrlPercentMisroutes | remote/trypod/trypod.go:169 | For a base URL ending in `%s`, the path built through `fmt.Sprintf` is the raw-file path of another request. The name lands in the base, the ref takes the name's place, and the file becomes `%!s(MISSING)`. It differs from the intended path. |
| Trypod.StatusUrlPercentMisroutes | remote/trypod/trypod.go:182 | For a base URL ending in `%s`, the token lands in the base and the status path ends in `%!s(MISSING)`. It differs from the intended path. |
| Trypod.ActivateUrlPercentMisroutes | remote/trypod/trypod.go:214 | For a base URL ending in `%s`, the name lands in the base and the token takes the name's place. It differs from the intended path. |
| Trypod.DeactivateUrlPercentMisroutes | remote/trypod/trypod.go:227 | The same misrouting for the deactivation path. |
| Http.Receive | remote/trypod/trypod.go:157-165 | A read succeeds exactly on a 200 reply whose body was read in full, and returns that body. An unreachable backend fails with the transport error. A non-200 reply fails with its status line, even when the body is unreadable. A 200 reply with a broken body fails with the read error. |
| Http.Fetch | remote/trypod/trypod.go:85-103 | A JSON read succeeds exactly when the response is delivered: 200, read in full and decoded. It returns the decoded record. After a successful read, the outcome is the decoder's. |
| Http.Decode | remote/trypod/trypod.go:59-63 | Decoding succeeds exactly on a well-formed body. A malformed body fails with the decoder's error. |
| Http.Acknowledge | remote/trypod/trypod.go:199-206 | A write succeeds exactly on a 204 reply. Any other code fails with its status line, and an unreachable backend fails with the transport error. |

## Left out

- Network I/O (`http.PostForm`, `http.Get`, `http.Post`, `http.Redirect`) is not modelled. Each exchange's outcome is an input, and the redirect is part of the output.
- Body reads are not modelled: a read either completes or fails with a message. Partial data returned together with a read error is not modelled.
- Closing response bodies is not modelled. The Go code closes the body only after a 200 check on reads. It never closes the reply body in `Status`, `Activate` or `Deactivate`, or after a non-200 reply anywhere.
- JSON encoding and decoding are not modelled: decoding is an input that either yields the record or fails. `json.Marshal` of the all-string `Status` record cannot fail, so its error branch is left out and the payload is the record itself.
- The text of `resp.Status` is an opaque string carried by the reply.
- `Teams`, `TeamPerm` and `Netrc` return constant nil or empty values and are not modelled.
- Concurrency and timeouts are not modelled; the code has none of its own.
- Pointers and fresh allocation are not modelled: records are values.
- Only the host record fields that the adapter reads or writes are modelled. The `int64` user id is an unbounded integer, since the adapter never reads it.
- Fmt.Sprintf: only the `%s` directive, the `%%` escape and Go's missing and extra argument markers are modelled. The as-written path functions therefore require a base URL whose every `%` starts `%s` or `%%`. Percent-encoded URLs such as `%2F`, which Go would read as a width and a verb, are outside the model.

## Findings

| source | as written | input that shows it | evidently intended | confidence | as-written member | corrected member |
|---|---|---|---|---|---|---|
| remote/trypod/trypod.go:156 | `File` passes the configured URL as part of the `fmt.Sprintf` format | configured URL `http://h/%s` | the configured URL is copied verbatim and the raw-file path is appended | medium, not executed | Trypod.RawFileUrlPercentMisroutes | Trypod.RawFileUrlAsWrittenAgrees |
| remote/trypod/trypod.go:169 | `FileRef` passes the configured URL as part of the `fmt.Sprintf` format | configured URL `http://h/%s` | the configured URL is copied verbatim and the raw-file path is appended | medium, not executed | Trypod.RawFileUrlPercentMisroutes | Trypod.RawFileUrlRoundTrip |
| remote/trypod/trypod.go:182 | `Status` passes the configured URL as part of the `fmt.Sprintf` format | configured URL `http://h/%s` | the configured URL is copied verbatim and `/status/<token>` is appended | medium, not executed | Trypod.StatusUrlPercentMisroutes | Trypod.StatusUrlAsWrittenAgrees |
| remote/trypod/trypod.go:214 | `Activate` passes the configured URL as part of the `fmt.Sprintf` format | configured URL `http://h/%s` | the configured URL is copied verbatim and `/repo/<name>/activate/<token>` is appended | medium, not executed | Trypod.ActivateUrlPercentMisroutes | Trypod.ActivateDeactivateDistinct |
| remote/trypod/trypod.go:227 | `Deactivate` passes the configured URL as part of the `fmt.Sprintf` format | configured URL `http://h/%s` | the configured URL is copied verbatim and `/repo/<name>/deactivate/<token>` is appended | medium, not executed | Trypod.DeactivateUrlPercentMisroutes | Trypod.DeactivateUrlAsWrittenAgrees |

The operations in `Trypod` build their paths by plain concatenation
(`RawFileUrl`, `StatusUrl`, `ActivateUrl`, `DeactivateUrl`). The
`…AsWritten` functions (`RawFileUrlAsWritten` for lines 156 and 169,
`StatusUrlAsWritten` for line 182, `ActivateUrlAsWritten` for line 214 and
`DeactivateUrlAsWritten` for line 227) keep the `fmt.Sprintf` form. The agreement lemmas
show that the two coincide on every configured URL without `%`.
