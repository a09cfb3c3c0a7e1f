# Duplicate-line counter and bearer-token authentication, modelled in Dafny

This project models two small pieces of a Go coursework repository.

**`wordcount`** (module `WordCount`, `wordcount.dfy`). A command-line tool counts how often each line occurs across all the files named on its command line. It then prints every line that occurs at least twice, with its count. In the model:
- each argument is modelled as either the lines its scanner yields (`Opened(lines)`) or a file that failed to open (`OpenFailed`);
- the counting loop is the method `CountLines`, with its two loops and one `map<string, nat>` value that each `lineCounts[line]++` replaces with an updated copy, proved equal to the specification function `Count(files, line)`;
- the reporting loop is the method `ReportDuplicates`, which visits the keys in no fixed order and returns the printed lines as a set of `Report(count, line)` values.

**`auth`** (module `Auth`, `auth.dfy`). A middleware puts bearer-token authentication in front of HTTP handlers. Its package is not part of this model, so its behaviour is taken from the assertions of `auth_test.go` and modelled as:
- `CheckToken`: the test's map-backed `fakeChecker`, including Go's zero value for an unknown token;
- `Error`: a Go error chain, written as a non-empty list of error kinds (a non-nil error always contains at least itself). `IsInvalidToken` is the chain walk done by `errors.Is`;
- `Context`: the request context, seen only through its optional user slot. `ContextUser` reads that slot;
- `CheckAuth`: the middleware's decision for one request. It returns the final status and the context the downstream handler was invoked with. That context is `None` when the handler was not invoked.

`wrappers.dfy` holds the `Option` type, which stands for Go's nil pointers and nil errors.

Three choices were made where the middleware's own code is not shown and the test does not decide:
- A checker answer with a nil user and a nil error (for example, an unknown token) is treated as a missing identity and gives 401. This is the model's own choice: the handler is reached only with a non-nil user.
- When the checker returns both a user and an error, the error decides the outcome. This follows the usual Go convention of checking `err` first.
- A header that does not start with `Bearer ` counts as no credential.

## Model

| member | source | states |
|---|---|---|
| `WordCount.CountLines` | wordcount/main.go:13-33 | the map has a key exactly for the lines that occur in some opened file; each key holds that line's total count over all opened files (at least 1); the sum of all counts is the number of lines read |
| `WordCount.ReportDuplicates` | wordcount/main.go:36-40 | a `(count, line)` pair is reported iff the line is a key whose count is at least 2 and the pair carries that count; no line is reported twice |
| `WordCount.FindDuplicates` | wordcount/main.go:11-41 | the program reports a line iff it occurs at least twice across the opened files, paired with its total; a line that occurs exactly once is never reported |
| `WordCount.CountAppend` | wordcount/main.go:13-16 | counts over two runs of files add up, because the map is created once and never reset per file |
| `WordCount.FailedFileContributesNothing` | wordcount/main.go:17-21 | inserting a file that fails to open, at any position, changes no line's count |
| `WordCount.OccurrencesIsMultiplicity` | wordcount/main.go:25-28 | the per-file occurrence count of a line is its multiplicity in the multiset of that file's lines |
| `WordCount.CountIsMultiplicity` | wordcount/main.go:16-28 | a line's total count is its multiplicity in the multiset of all lines read from opened files |
| `WordCount.CountPositiveIffOccurs` | wordcount/main.go:26-27 | a line has a positive count iff some opened file contains it |
| `WordCount.TotalIncrement` | wordcount/main.go:27 | one `lineCounts[line]++` raises the sum of all counts by exactly one, whether the key was present or not |
| `Auth.CheckToken` | tasks/http/middleware/auth/auth_test.go:15-23 | a known token yields exactly its stored user and error; an unknown token yields a nil user and a nil error |
| `Auth.NewError` | tasks/http/middleware/auth/auth_test.go:34 | an error made with `fmt.Errorf` and no `%w` is a chain of one link that is not the sentinel |
| `Auth.Wrap` | tasks/http/middleware/auth/auth_test.go:38 | wrapping with `%w` puts one new link in front and keeps the whole wrapped chain after it |
| `Auth.IsInvalidToken` | tasks/http/middleware/auth/auth_test.go:37-38 | `errors.Is(err, ErrInvalidToken)` as a walk down the chain; what it decides is stated by `Auth.IsInvalidTokenIffInChain` |
| `Auth.IsInvalidTokenIffInChain` | tasks/http/middleware/auth/auth_test.go:37-38 | the chain walk matches the sentinel iff the sentinel is a member of the chain at any depth |
| `Auth.WrapPreservesSentinel` | tasks/http/middleware/auth/auth_test.go:38 | wrapping an error neither adds nor removes a match with the sentinel |
| `Auth.TextNeverMatches` | tasks/http/middleware/auth/auth_test.go:33-34 | an error made from text alone never matches the sentinel, whatever its text is |
| `Auth.WithUser` | tasks/http/middleware/auth/auth_test.go:50-52 | the context derived for the handler carries the resolved user |
| `Auth.ContextUser` | tasks/http/middleware/auth/auth_test.go:52 | the lookup returns the stored user, and `ok` is true exactly when a user is stored |
| `Auth.ContextUserAfterWithUser` | tasks/http/middleware/auth/auth_test.go:52-53 | after the user is stored, the lookup yields that user and `true` |
| `Auth.ContextUserOfBackground` | tasks/http/middleware/auth/auth_test.go:52 | an assumption about `auth.ContextUser`, which the test never calls this way: a context in which no user was stored yields a nil user and `false` |
| `Auth.BearerToken` | tasks/http/middleware/auth/auth_test.go:75 | a token is extracted iff the header is present and starts with `Bearer `, and then the header is the prefix followed by the token |
| `Auth.BearerTokenRoundTrip` | tasks/http/middleware/auth/auth_test.go:75 | the token given to the checker is exactly the text after `Bearer ` |
| `Auth.Classify` | tasks/http/middleware/auth/auth_test.go:70-104 | a request is admitted iff there is no error and there is a user, and it is admitted with that user; the result is 500 iff there is an error whose chain lacks the sentinel; the result is 401 iff there is an error whose chain contains the sentinel, or there is neither an error nor a user |
| `Auth.CheckAuth` | tasks/http/middleware/auth/auth_test.go:42 | the middleware installed by `m.Use(auth.CheckAuth(c))`: a request that does not reach the handler ends in 401 or 500; one that does ends in the status the handler writes, and the handler's lookup reports a user; the branch-by-branch contract is stated by `Auth.NoCredentialIsUnauthorized`, `Auth.InvalidTokenIsUnauthorized`, `Auth.CheckerFailureIsInternalError`, `Auth.NoIdentityIsUnauthorized`, `Auth.ResolvedTokenReachesHandler` and `Auth.HandlerOnlyOnSuccess` |
| `Auth.NoCredentialIsUnauthorized` | tasks/http/middleware/auth/auth_test.go:61-68 | without a bearer credential: 401, handler not invoked |
| `Auth.InvalidTokenIsUnauthorized` | tasks/http/middleware/auth/auth_test.go:70-80 | a checker error whose chain contains the sentinel: 401, handler not invoked |
| `Auth.CheckerFailureIsInternalError` | tasks/http/middleware/auth/auth_test.go:82-92 | a checker error whose chain does not contain the sentinel: 500, handler not invoked |
| `Auth.NoIdentityIsUnauthorized` | tasks/http/middleware/auth/auth_test.go:20-23 | a credential the checker answers with neither a user nor an error: 401, handler not invoked (the model's choice for a case the test does not exercise) |
| `Auth.UnknownTokenIsUnauthorized` | tasks/http/middleware/auth/auth_test.go:20-23 | a token missing from the checker's map gets Go's zero-valued answer, so 401 with the handler not invoked |
| `Auth.ResolvedTokenReachesHandler` | tasks/http/middleware/auth/auth_test.go:94-104 | a resolved token: the handler is invoked; its context's lookup yields the checker's user with `true`; the final status is the one the handler writes |
| `Auth.HandlerOnlyOnSuccess` | tasks/http/middleware/auth/auth_test.go:61-104 | the handler is invoked iff a credential was present and the checker returned a user and no error; otherwise the status is 401 or 500 |
| `Auth.SameTokenTwice` | tasks/http/middleware/auth/auth_test.go:94-113 | two requests with the same resolvable token both reach their handlers, and both see the same user |
| `Auth.TestChecker` | tasks/http/middleware/auth/auth_test.go:28-40 | the test's checker knows exactly the tokens `token0`, `token1` and `token2` |
| `Auth.TestAuthScenarios` | tasks/http/middleware/auth/auth_test.go:25-115 | the outcomes `TestAuth` asserts: no token 401; `token2` 401; `token1` 500; `token0` on `/path/ok` gives 200 with Fedor's user and `true`; `token0` on `/path/error` gives 409 with the handler invoked |

## Left out

- Opening files, `defer file.Close()`, splitting a file into lines with `bufio.Scanner` (and its token-size limit), and the read errors from `scanner.Err()`. This is I/O. A file is given as the lines its scanner yields.
- Writing to stderr and stdout, the `%d\t%s` format, and the order in which lines are printed. The order follows Go's map iteration and is unspecified. The output is modelled as a set of `(count, line)` pairs.
- `CountLines`: Go's `int` is 32 or 64 bits depending on the target. Counts are modelled as unbounded naturals, so the model does not capture the wrap-around after 2^31 - 1 (32-bit) or 2^63 - 1 (64-bit) occurrences of one line. That wrap-around would hide the line from the report.
- The chi router and route dispatch, `httptest` recorders, and header-name canonicalisation (`authorization` versus `Authorization`). This is library code the model cannot see. A request carries its header value directly, and a handler is given as the status it writes.
- The `context.Context` passed to `CheckToken`, with its deadlines and cancellation, and every context value other than the user. This is concurrency and library behaviour.
- How `errors.Is` and `%w` work internally. Errors are lists of kinds, and the sentinel is matched by membership.
- The package `gitlab.com/slon/shad-go/middleware/auth` (`CheckAuth`, `ContextUser`, `User`, `ErrInvalidToken`) is not part of this model. Its behaviour is stated as the test asserts it, plus the three choices listed above.
- The test framework (`testing`, `require`) and the captured variables `called`, `lastUser` and `lastUserOK`. The response record carries what they observe.
