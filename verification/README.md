# prugo in Dafny

A model of the `prugo` HTTP client wrapper (Go). A client stores a base URL,
default headers and a timeout. `Get` issues a GET against
`baseURL + path` and merges the client's default headers into the per-call
headers of a `Config`. The model covers the three pieces of pure logic in
that client:

- construction with defaults (`New`);
- the request URL (plain concatenation);
- the header merge that `Get` performs before handing the request to
  net/http.

Modules:

- `Wrappers` (`wrappers.dfy`): `Option`. `None` stands for a Go nil map.
- `Headers` (`headers.dfy`): `Header = map<string, seq<string>>`, the merge
  as a map comprehension (`Merge`), and the source's loop over the defaults
  (`MergeLoop`). The loop visits the default names in any order, chosen by
  `:|`, because Go's map iteration order is unspecified. It is proved equal
  to `Merge` for every order.
- `Prugo` (`prugo.dfy`): `Client`, `Config`, `Request`, `New`, `RequestURL`,
  `GetRequest`.

The merge is modelled as the code is written:

- A nil override stays nil. The defaults are not injected, so a call with a
  zero `Config{}` sends no default header at all.
- For a name the override already carries, the override's values are kept
  unchanged. The source computes `slices.Concat` of the two value lists but
  never stores the result, so the default values for that name are dropped.

`Config`'s only field is unexported, so code outside the Go package can
build only `Config{}`, and every `Get` from there sends a nil header set.
A `Config(Some(_))` in the model stands for a call from inside the package,
as the tests make.

Header names are compared exactly, as the direct map indexing in the source
does. A duration is Go's `time.Duration`: a signed 64-bit nanosecond count
(`Prugo.Duration`), with `Prugo.Second` equal to 1e9.

## Model

| member | source | states |
|---|---|---|
| `Headers.Merge` | prugo.go:61-72 | A nil override gives a nil header set, and a present one gives a present one. With an override present, the outgoing names are exactly the override's names plus the default names. Every override name keeps the override's values; every default-only name gets the default's values. |
| `Headers.MergeLoop` | prugo.go:61-70 | The source's loop adds each default name missing from the override and leaves colliding names alone. Visiting the default names in any order yields exactly `Merge`, so the result does not depend on map iteration order. |
| `Headers.MergeIsRightBiasedUnion` | prugo.go:62-67 | With an override present, the merge equals the map union `defaults + override`, in which the override wins every collision. |
| `Headers.MergeIdempotent` | prugo.go:61-69 | Merging the merged result again with the same defaults changes nothing. |
| `Headers.CollisionKeepsOverride` | prugo.go:63-67 | When the override already names every default header, it comes out unchanged. No default value is appended to a colliding name. |
| `Headers.EmptyOverrideGetsDefaults` | prugo.go:61-66 | A present but empty override receives exactly the default headers. |
| `Prugo.New` | prugo.go:27-50 | The stored base URL always equals the argument, including the empty one. A nil header map is replaced by exactly `{"Content-Type": ["application/json"]}`. A present map, even an empty one, is stored verbatim without merging the Content-Type default into it. A zero timeout becomes one second; every other timeout, negative ones included, is stored unchanged. The stored timeout is never zero. |
| `Prugo.NewFromFields` | prugo.go:37-47 | Calling `New` on the fields of any client with a non-zero timeout rebuilds that same client, so `New` drops nothing it is given. |
| `Prugo.RequestURL` | prugo.go:54 | The request URL's length is the sum of the two lengths. The base URL is its prefix and the path is the rest. |
| `Prugo.RequestURLDeterminesPath` | prugo.go:54 | For a fixed base URL, two paths give the same request URL exactly when they are equal. With an empty base URL the request URL is the path. |
| `Prugo.GetRequest` | prugo.go:52-72 | `Get` builds a GET of `baseURL + path`. Its header set is nil exactly when the per-call map is nil. Otherwise the set holds the per-call names plus the default names, with per-call values winning. |
| `Prugo.GetRepeatable` | prugo.go:61-72 | A caller can reuse a `Config` with the same client after an earlier `Get` merged into its map in place. The next request is identical to the first. |
| `Prugo.GetReuseAcrossClients` | prugo.go:61-72 | Reusing such a `Config` with a second client sends the defaults of both clients. Where they share a name, the first client's values win. |
| `Headers.MergeTwice` | prugo.go:61-69 | Merging with one default set and then another equals a single merge with the union of both sets, in which the first set wins every collision. |
| `Prugo.NoOverrideSendsNoHeaders` | prugo_test.go:56-63 | A call with a zero `Config{}` sends a nil header set, whatever headers the client was built with. |
| `Prugo.OverrideReceivesContentType` | prugo_test.go:88-94 | Take a client built with a nil header map and call it with an `Authorization: Bearer token` override. The request carries exactly Authorization and `Content-Type: application/json`, at `baseURL + path`. |

## Left out

- `http.NewRequest` and its error return (prugo.go:56-59): a foreign library call. The model stops at the method, URL and header set that `Get` passes on.
- `http.DefaultClient.Do` and the response (prugo.go:74-79): network I/O. The response is passed through unmodified.
- Timeout enforcement: the source stores the timeout but never applies it to a request, so only the stored value is modelled.
- `Post`, `Put`, `Patch`, `Delete` (prugo.go:83-97): empty bodies with no behaviour.
- In-place mutation of the caller's map: the source writes the merged names into `config.headers` itself (prugo.go:65), and the caller sees that. The model returns the merged map as a new value. `Prugo.GetRepeatable` covers reusing the `Config` with the same client, and `Prugo.GetReuseAcrossClients` covers reusing it with another client.
- Map aliasing through `New`: the source stores the caller's header map by reference (prugo.go:42). If that same map later serves as a `Config`'s headers in a `Get` on another client, the merge writes that client's defaults into the first client's stored headers. A Dafny `Client` is an immutable value, so the model does not represent this sharing.
- Byte strings: Go strings are byte sequences and may hold invalid UTF-8. The model uses Dafny's `string`, a sequence of characters. Concatenation, lengths and exact-name equality behave the same over either alphabet.
- The claim that merging never changes the client's defaults is not a separate lemma. `Client` is an immutable value, and `GetRequest` returns only a `Request`.
- Header-name canonicalisation (`Header.Get`): only the tests use it. The merge indexes names exactly.
- The test-server plumbing of the tests (httptest, handlers, status codes).
