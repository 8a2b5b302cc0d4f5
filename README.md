# Hit counter: a Dafny model

The hit counter is an Azure Functions app with two HTTP functions over two
Cosmos DB containers. `Post /sites/{siteId}` records one visit of a client
fingerprint to a site. `Get /sites/{siteId}` reports how many distinct
fingerprints have hit the site.

The containers are modelled as the fields of the class `HitCounter.Api`:
- `sites: set<string>` is the site container. It holds the ids of the registered sites.
- `hits: map<Key, int>` is the hit container. It maps each row's address to its `hitCount`. The address `Key(siteId, id)` is the row's partition key and its id, which is the fingerprint.

The record shape `Hit(id, siteId, hitCount)` (api/Hit.cs:3-8) lives in module `Hits`.

`Post` is a method that changes the store step by step, as api/Api.cs:35-79 does:
1. It validates the inputs.
2. It tries the patch that increments `hitCount` in place.
3. On NotFound it reads the site.
4. If the site exists, it creates a row with count 1.
5. If the create reports Conflict, it swallows it and answers Ok.

Each store call is a method of its own (`PatchIncrement`, `ReadSite`,
`CreateItem`). Each returns the status the C# code branches on: Success,
NotFound, Conflict, or any other failure. The method is proved equal to
the pure function `PostSpec`, and the properties are proved about `PostSpec`.

Two things the store's callers cannot control are explicit inputs `Env`:
- `racerHits > 0`: another `Post` for the same row created it after this call's patch missed, and the row holds `racerHits` when this call's create arrives. This makes the Conflict branch reachable. The racer acts only when the site exists, because it runs the same protocol and passed the same site read.
- `failing == Some(p)`: the store call `p` fails with a status `Post` does not catch. The exception escapes and the function host answers 500, modelled as `InternalServerError`.

`Get` is a function. It counts the rows whose `siteId` is the requested one, the same thing the LINQ `Where(...).CountAsync()` query counts. Its contract states that this is the number of distinct fingerprints that have hit the site.

`string.IsNullOrWhiteSpace` is modelled in module `Strings`. `IsWhiteSpace` is .NET's `Char.IsWhiteSpace` character list written out. The fingerprint is an `Option<string>`, standing for the nullable `hitRequest?.Fingerprint`.

An unknown site is rejected with 400 Bad Request (api/Api.cs:57-60), not 404 Not Found.

## Model

| member | source | states |
|---|---|---|
| HitCounter.PostSpec | api/Api.cs:35-79 | Blank site id, or missing or blank fingerprint: BadRequest, nothing written. Existing row: Ok, its count rises by exactly 1, the key set and every other row are unchanged. New row and unregistered site: BadRequest, no row. New row at a registered site: Ok and exactly one new row with count 1. A racer's row: Ok, kept as the racer left it. A failing store call: InternalServerError, no write by this call. Never a count response. |
| HitCounter.PostKeepsInvariant | api/Api.cs:45-78 | Post keeps "every row has count >= 1 and a registered site". Whenever it answers Ok, the addressed row exists with count >= 1. |
| HitCounter.PostAddsAtMostItsRow | api/Api.cs:49-75 | Post never deletes a row. The only row it may add is the one addressed by (siteId, fingerprint), and only when that row was absent. |
| HitCounter.CountIsDistinctVisitors | api/Api.cs:89-90 | The partition's row count equals the number of distinct fingerprints that hit the site, not the sum of their counts. |
| HitCounter.UnregisteredSiteCountsZero | api/Api.cs:89-90 | When the invariant holds, a site that was never registered counts 0. |
| HitCounter.PostEffectOnCount | api/Api.cs:45-90 | After one Post, every other site's count is unchanged (partition isolation). A repeat visit leaves every count unchanged. A Post that created the row raises its site's count by exactly 1. A Post that changed no key changes no count. |
| HitCounter.RepeatedVisits | api/Api.cs:45-49 | After n undisturbed repeat visits, the row holds its old count plus n, and nothing else changes (no lost updates). |
| HitCounter.FirstAndRepeatedVisits | api/Api.cs:45-70 | n >= 1 undisturbed visits from a new fingerprint to a registered site leave exactly one new row with count n. |
| HitCounter.ConcurrentFirstVisits | api/Api.cs:62-78 | Two racing first visits both answer Ok. They leave one new row with count 1, the same as the winner alone, and raise the site's count by 1. |
| HitCounter.Api.constructor | api/Api.cs:19-20 | The two containers start with the given contents; contents that meet the store invariant give a valid object. |
| HitCounter.Api.PatchIncrement | api/Api.cs:45-49 | Success and +1 on an existing row, NotFound on an absent one, any other failure when the store fails. Only the addressed row changes. |
| HitCounter.Api.ReadSite | api/Api.cs:55-60 | Success exactly when the site is registered, NotFound when it is not, another failure when the store fails. Nothing is written. |
| HitCounter.Api.CreateItem | api/Api.cs:62-75 | Inserts the record at its address (siteId, id) with its count when the address is free. Otherwise Conflict and nothing written. |
| HitCounter.Api.ConcurrentWriter | api/Api.cs:68-75 | The racing writer's row, with its count, appears before this call's create; like a create, it only fills an absent address. |
| HitCounter.Api.Post | api/Api.cs:35-79 | Performs the steps validate, patch, read site, (race), create, swallow conflict. The response and the new hit container equal PostSpec. The site container is never written. The store invariant is preserved. |
| HitCounter.Api.Get | api/Api.cs:81-93 | BadRequest exactly when the site id is blank. Otherwise the number of distinct fingerprints in the site's partition. |
| HitCounter.DistinctVisitorsExample | api/Api.cs:45-92 | Three visits from "a" and one from "b" to "s1" make Get("s1") answer 2. A registered site nobody hit answers 0. |
| Strings.BlankIffTrimsToEmpty | api/Api.cs:38 | A non-null string is "null or white space" exactly when trimming leaves it empty. This is the check at api/Api.cs:38 and 84. |

## Left out

- Construction of the Cosmos client and configuration lookup (api/Api.cs:21-33) are I/O setup. The constructor takes the containers' contents instead.
- HTTP trigger attributes, routing, `IActionResult` types and the DTOs `HitRequest`/`HitResponse` are reduced to the `Response` datatype and an optional fingerprint.
- The log line written on a conflict (api/Api.cs:74) has no effect on state.
- Cancellation tokens and async/await are left out. Abandoning a call is outside a sequential model.
- Real concurrency and the store's linearizability are left out. The race is the explicit `Env.racerHits` input, placed just before the create. Placing the racer's create before the site read instead gives the same outcome, since the read does not look at hits.
- A failing count query in `Get` is not modelled; it would be an uncaught exception with no state change. Post's store failures are modelled as one opaque `InternalServerError`.
- The serializer's camel-case naming options (api/Api.cs:25, 89) are left out.
- HitCounter.Api.PatchIncrement: `hitCount` is a C# `long` (api/Hit.cs:7). The model's count is an unbounded `int`, so increments past 2^63 - 1 are not modelled.
- HitCounter.Api.Get: the response's `HitCount` is a 32-bit `int` (api/Hit.cs:17). The model's count is an unbounded `nat`, so partitions of more than 2^31 - 1 rows are not modelled.
- A null `siteId` is not modelled. The route always supplies one, so `siteId` is a plain string; null is still covered for the fingerprint.
