# Stale-on-error identity client (minotar imgd `mcclient`)

This project models the request layer of the minotar avatar service's
identity client, `McClient`. The client resolves a username to a UUID entry,
a UUID to a player profile, and a texture key to texture bytes. It sits in
front of a slow, rate-limited upstream identity API and writes what it
resolves into cache tiers.

Each request calls the upstream API once and builds a fresh entry from the
reply. Then it applies the **stale-on-error** rule. If the fresh entry is
invalid but the caller's prior entry is valid, the prior entry is handed back
and nothing is written. Otherwise the fresh entry is written under its key and
handed back, even when it is itself invalid. A valid fresh profile also
records a username → UUID entry in the UUID tier. Texture fetches have no
prior entry: a failed fetch is returned as an error with nothing cached. A
successful fetch caches the bytes read and hands back a reader over the same
bytes.

Layout:

- `wrappers.dfy`: `Option` and `Result`.
- `upstream.dfy`: bytes, timestamps, upstream errors and the status stamped on entries.
- `uuid.dfy`: `UUIDEntry`, its validity, and the fresh entry built from a lookup.
- `profile.dfy`: `McUser`, `SessionProfile`, `TextureIO` and the fresh profile built from a lookup.
- `storage.dfy`: the key/value contract of a cache tier (insert overwrites, retrieve after insert, miss is `ErrNotFound`).
- `stale.dfy`: the stale-on-error rule as a pure function generic in the entry type and its validity predicate. It also has lemmas about runs of refreshes where each result is the next prior entry.
- `api.dfy`: the `McClient` class. Its three tiers are `map` fields and its three request methods update them in place. Each method is specified against `Refresh` or against the new tier contents.

Upstream replies and the clock are method parameters. A reply is a
`Result` (a value or an `ApiError`), and `now` is the time the fresh entry
is stamped with. An entry is valid when its status is `StatusOk`, that is,
when the lookup that built it succeeded. The client's `status`, `uuid` and
`mcuser` packages are not part of this model, so their `IsValid` and
constructors are modelled by exactly that rule.

Two details of the code shape the model:

- The model's `UUIDEntry` keeps the three fields the secondary-index write
  fills in: the profile's UUID, timestamp and status (api.go:56-60). Any
  other field of the real entry, which that write leaves at its zero value,
  is not modelled.
- When reading the fetched texture body fails part-way, the bytes read so far
  are still cached, a reader over them is still handed back, and the read
  error is returned (api.go:87-92).

## Model

| member | source | states |
|---|---|---|
| `Uuid.NewUUIDEntry` | pkg/mcclient/api.go:20-22 | the fresh entry is valid exactly when the username lookup succeeded; it then holds the returned UUID, otherwise the failure; either way it is stamped with the call time |
| `Profile.NewMcUser` | pkg/mcclient/api.go:38-41 | the fresh profile is valid exactly when the session-profile lookup succeeded; it is keyed by the requested UUID and holds the reply's username and skin |
| `StaleOnError.Refresh` | pkg/mcclient/api.go:24-33 | the entry handed back is valid iff the fresh or the prior entry is; a failed fresh entry with a good prior one returns the prior one and leaves the tier unchanged; otherwise the fresh one, valid or not, is written under the key and returned |
| `StaleOnError.RefreshAllValid` | pkg/mcclient/api.go:24-28 | over any run of refreshes that each pass the previous result as the prior entry, the final entry is valid iff the starting entry was valid or some refresh succeeded |
| `StaleOnError.OutageKeepsEverything` | pkg/mcclient/api.go:24-28 | starting from a valid entry, a run in which every upstream call fails returns the same entry and leaves the tier exactly as it was |
| `StaleOnError.LastValidWins` | pkg/mcclient/api.go:24-33 | after a run, the entry held and the entry the tier retrieves under the key are both the last fresh entry that was valid |
| `StaleOnError.TierTracksResult` | pkg/mcclient/api.go:24-33 | if the tier holds the caller's entry under the key before a run, it holds the returned entry after it, and no other key changes |
| `Api.UsernameEntry` | pkg/mcclient/api.go:56-60 | the secondary username → UUID entry copies the profile's UUID, timestamp and status, so it is valid exactly when the profile is |
| `Api.McClient.RequestUUIDEntry` | pkg/mcclient/api.go:17-34 | result and new UUID tier are `Refresh` of the fresh entry against the prior one: on a failed lookup with a valid prior entry, the prior entry comes back and the tier is unchanged; otherwise the fresh entry comes back and the tier maps the username to it, overwriting even when both are invalid |
| `Api.McClient.RequestMcUser` | pkg/mcclient/api.go:36-64 | result and new profile tier are `Refresh` of the fresh profile against the prior one; when the prior one is kept, neither tier is written; the UUID tier gains `Username → UsernameEntry(profile)` exactly when the fresh profile is valid, and is unchanged otherwise |
| `Api.McClient.RequestTexture` | pkg/mcclient/api.go:67-93 | the returned texture ID is always the key; a failed fetch returns its error, no reader, an unchanged texture tier and one more fetch-error count; a successful fetch caches the bytes read under the key, hands back a reader over exactly those bytes, and returns the read error if any |
| `Storage.Retrieve` | pkg/cache_converter/legacy_storage/radix/radix_test.go:42-49 | a retrieve succeeds exactly for a present key and yields its value; a miss fails with `ErrNotFound` and carries no value |
| `Storage.Insert` | pkg/cache_converter/legacy_storage/radix/radix_test.go:21-29 | after an insert the key retrieves the inserted value, every other key retrieves what it did before, and the count grows by one only for a new key |
| `Storage.InsertAllRetrievable` | pkg/cache_converter/legacy_storage/radix/radix_test.go:19-29 | inserting distinct new keys one after another leaves each retrievable with its own value, and the count grows by the number of keys |

## Left out

- Metrics: the latency timers around each upstream call (api.go:19-21, 37-39, 73-75) are left out. The texture-fetch-error counter (api.go:78) is kept only as the ghost field `textureFetchErrors`.
- Logging: the `logger.With` calls (api.go:30, 50, 53) have no effect on behaviour and are left out, and so is the `logger` parameter.
- Concurrency: the secondary UUID-tier write in `RequestMcUser` runs in a goroutine (api.go:56). Here it is a synchronous write made before the profile-tier write. The two writes touch different tiers, so the final state is the same in either order. Interleavings with other callers are not modelled.
- The upstream API (`GetUUID`, `GetSessionProfile`, `ApiRequestCtx`) is not part of this model. Its replies are parameters. The texture URL goes only to that call, so `RequestTexture` takes the fetch reply instead of the URL.
- Uuid.NewUUIDEntry: the uuid package is not part of this model. The `username` argument the lookup passes to it (api.go:22) is dropped, and so is any field of the real entry beyond UUID, timestamp and status. The entry keeps the looked-up UUID on success and an empty UUID on failure, and any further behaviour of the real constructor is not captured.
- Profile.NewMcUser: the mcuser package is not part of this model. Only the username, the skin reference, the requested UUID, the call time and the status are kept.
- Streams: `io.ReadAll`, `bytes.NewReader`, `io.NopCloser` and closing the response body (api.go:82, 87, 91) are modelled as byte sequences. The reader handed back and the cached copy are two values, so consuming one cannot affect the other; buffer aliasing is not modelled.
- Cache tiers: a tier is a map updated by `Storage.Insert`. The `CacheInsert*` helpers' encoding into bytes and their write errors are not modelled, and neither are TTL expiry, eviction, `Size()` or the Redis and in-memory backends behind the tiers (none of their source is part of this model).
