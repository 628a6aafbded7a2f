# LightBnB data-access layer, modelled in Dafny

`LightBnB_WebApp-master/db/database.js` is the data-access layer of a
property-rental listing web application. It holds two variants of the same
API:

- the **fixture variant** (lines 11-80) answers lookups and inserts from two
  in-memory tables, `users` and `properties`, loaded from JSON fixtures;
- the **database variant** (lines 86-184) hands SQL text and a parameter list
  to a PostgreSQL pool. Its one piece of real logic is the dynamic
  property-search query of `getAllProperties` (lines 129-175).

This project models both.

- `sql_database.dfy` (module `SqlDatabase`) models the search-query builder.
  - `BuildPropertyQuery` starts from the fixed SELECT/JOIN text. It then
    examines the five options in the source's order: `owner_id`, `city`,
    `minimum_price_per_night`, `maximum_price_per_night`, `minimum_rating`.
  - For every option that is truthy in JavaScript's sense, it pushes one
    parameter and appends one `WHERE`/`AND` clause with placeholder `$n`.
    Missing, `null`, `0` and `""` are all falsy.
  - It finishes with the limit and the `GROUP BY / ORDER BY / LIMIT` tail.
  - The method is proved to produce `SearchParams`, `SearchClauses` and
    `Render` of them. The lemmas then state what the source relies on:
    - one parameter per truthy option, plus the limit, last;
    - placeholders `$1`, `$2`, … in order;
    - `WHERE` on the first clause only;
    - the clause order and the binding of each clause to its parameter;
    - cents for prices, and `%city%` for the city.
- `query_scan.dfy` (module `QueryScan`) reads a query text back. It lists the
  numbers after every `$`, and it counts how often a word occurs.
- `sql_query_text.dfy` (module `SqlQueryText`) applies that reading to the
  rendered query. It proves two facts about the text itself:
  - the placeholders are exactly `$1 … $N` left to right, where `N` is the
    number of parameters;
  - `WHERE` occurs once when some filter applies and never otherwise.
- `decimal.dfy` (module `Decimal`) writes a number in decimal, as the
  `$${queryParams.length}` template does, and reads it back.
- `fixture_database.dfy` (module `FixtureDatabase`) models the fixture
  variant.
  - `FixtureStore` is a class holding the two tables as maps from numeric id
    to record.
  - `User` and `Property` are classes, because `addUser` and `addProperty`
    write the new id into the caller's record.
  - `GetUserWithEmail` is the key-by-key scan with a case-insensitive
    comparison, where the last match wins.
  - `UserWithId` is the lookup.
  - `AddUser` and `AddProperty` number the new record one past the table
    size.
  - `AllProperties` copies keys `1..limit`.
  - `AllReservations` is the first two properties, whatever the guest.
- `search.dfy` (module `Search`) holds what both variants of
  `getAllProperties` take: the search options and the default limit.
- `wrappers.dfy` holds the `Option` type. `None` stands for the source's
  `null` or `undefined`.

How the source's JavaScript is read:

- A caller that omits `limit` gets 10 (`DefaultLimit`).
- `for (const userId in users)` visits integer-like keys in ascending order.
  "The last match wins" therefore means "the match under the largest key"
  (`LastMatch`).
- The owner block of the query builder writes `WHERE` outright. The other
  four blocks choose `WHERE` when the parameter list has length 1.
  `ApplyFilter` models every block with the second rule. The two agree,
  because the owner option is examined first, so its parameter is always the
  first one.
- The query builder chooses `WHERE` or `AND` by the parameter count and never
  strips a trailing `AND`. No step of the code removes anything from the
  query text, and the model follows the code. `SearchWheres` and
  `ClauseNumbering` show that the text needs no such step.

## Model

| member | source | states |
|---|---|---|
| `SqlDatabase.BuildPropertyQuery` | LightBnB_WebApp-master/db/database.js:129-175 | The parameters are the truthy options' values in the fixed order, then the limit (10 when omitted). The clauses are one per truthy option. The query is the SELECT text, then the clauses' text, then the tail whose `LIMIT` placeholder is the number of parameters. |
| `SqlDatabase.ApplyFilter` | LightBnB_WebApp-master/db/database.js:139-167 | One filter block. A truthy option pushes exactly its bound value and appends exactly its clause, numbered by the new parameter count, and the query text grows by that clause's text. A falsy option changes nothing. |
| `SqlDatabase.ParamCount` | LightBnB_WebApp-master/db/database.js:140-170 | There is one clause per truthy option and one parameter per truthy option plus one. The last parameter is the limit. |
| `SqlDatabase.ClauseNumbering` | LightBnB_WebApp-master/db/database.js:140-166 | Clause `k` (from 0) uses placeholder `$k+1`. Its keyword is `WHERE` exactly when it is the first clause, and `AND` otherwise. |
| `SqlDatabase.ClauseBinding` | LightBnB_WebApp-master/db/database.js:140-166 | Clause `k` belongs to a truthy option, and parameter `k` is that option's value. Prices are times 100 (cents), the city is wrapped as `%city%`, owner and rating are as given. |
| `SqlDatabase.ClauseAt` | LightBnB_WebApp-master/db/database.js:140-166 | A truthy option's clause sits at the position equal to the number of truthy options examined before it. |
| `SqlDatabase.ClauseIffSet` | LightBnB_WebApp-master/db/database.js:140-164 | A filter has a clause if and only if its option is truthy. So an absent, null, zero or empty option adds no clause. |
| `SqlDatabase.ClausesOrdered` | LightBnB_WebApp-master/db/database.js:139-167 | The clauses follow the fixed order owner, city, minimum price, maximum price, minimum rating. |
| `SqlDatabase.ClausesTextSnoc` | LightBnB_WebApp-master/db/database.js:142-166 | Appending a clause to the list appends its text to the query text (`queryString +=`). |
| `SqlQueryText.SearchPlaceholders` | LightBnB_WebApp-master/db/database.js:131-175 | Reading the rendered query left to right gives placeholders `$1, $2, …, $N`, with no gap or repeat, where `N` is the number of parameters. Every parameter is referred to, in push order. |
| `SqlQueryText.SearchWheres` | LightBnB_WebApp-master/db/database.js:133-175 | The rendered query contains `WHERE` exactly once when some option is truthy, and not at all when none is. |
| `SqlQueryText.RenderPlaceholders` | LightBnB_WebApp-master/db/database.js:133-175 | The query text holds the clauses' placeholders in clause order, then the limit's, and no other placeholder. |
| `SqlQueryText.RenderWheres` | LightBnB_WebApp-master/db/database.js:133-175 | The number of `WHERE`s in the query text equals the number of `WHERE` clauses. The fixed SELECT and tail text contribute none. |
| `SqlQueryText.ClausesPlaceholders` | LightBnB_WebApp-master/db/database.js:142-166 | The appended clause text holds exactly the clauses' own placeholders, in order, whatever text follows. |
| `SqlQueryText.ClausesWheres` | LightBnB_WebApp-master/db/database.js:142-166 | The appended clause text says `WHERE` once per `WHERE` clause, whatever text follows. |
| `SqlQueryText.TailPlaceholders` | LightBnB_WebApp-master/db/database.js:170-175 | The GROUP BY / ORDER BY / LIMIT tail holds exactly one placeholder, the limit's. |
| `QueryScan.PlaceholdersMarker` | LightBnB_WebApp-master/db/database.js:142 | `$` followed by the decimal text of `n`, and then by a non-digit, reads back as placeholder `n`. |
| `Decimal.ParseNatText` | LightBnB_WebApp-master/db/database.js:142 | The decimal text the template writes for the parameter count reads back as that count. |
| `Decimal.NatText` | LightBnB_WebApp-master/db/database.js:142 | The decimal text of a count is non-empty, all digits, and never starts with `0` unless it is the single digit `0`. It is one digit long exactly for counts below 10, so a count such as 1 is written `1`, never `01`. |
| `FixtureDatabase.FixtureStore.GetUserWithEmail` | LightBnB_WebApp-master/db/database.js:11-20 | The scan resolves to `LastMatch`: `None` when no user's address is the same ignoring case. Otherwise it is the matching user under the largest key, the last one visited. |
| `FixtureDatabase.LastMatch` | LightBnB_WebApp-master/db/database.js:12-18 | The result is `None` iff no address matches. Otherwise it is a matching user whose key is at least every matching key. |
| `FixtureDatabase.LastMatchStep` | LightBnB_WebApp-master/db/database.js:13-17 | Visiting one more key, larger than those visited, replaces the resolved user when that record matches and keeps it otherwise. |
| `FixtureDatabase.Lower` | LightBnB_WebApp-master/db/database.js:15 | Lower-casing keeps the length, lower-cases every character in place (`LowerChar` of the input's character at each position) and leaves no upper-case letter. |
| `FixtureDatabase.LowerChar` | LightBnB_WebApp-master/db/database.js:15 | An upper-case letter maps to its lower-case letter, and every other character is unchanged. |
| `FixtureDatabase.LowerIdempotent` | LightBnB_WebApp-master/db/database.js:15 | Lower-casing twice is lower-casing once. |
| `FixtureDatabase.SameEmailLetterwise` | LightBnB_WebApp-master/db/database.js:15 | Two addresses compare equal after `toLowerCase` if and only if they have the same length and agree at every position once each letter is lower-cased. |
| `FixtureDatabase.FixtureStore.UserWithId` | LightBnB_WebApp-master/db/database.js:27-29 | The result is present iff the table has an entry under `id`, and then it is that entry. A missing id gives `None` (`undefined`). |
| `FixtureDatabase.FixtureStore.AddUser` | LightBnB_WebApp-master/db/database.js:36-41 | The record's id becomes the table size plus one, and the record is stored under it and returned. The properties table is unchanged. Over tables numbered 1 to size, the key is fresh, the table grows by one and stays numbered without gaps. |
| `FixtureDatabase.FixtureStore.AddProperty` | LightBnB_WebApp-master/db/database.js:75-80 | The same for properties: the id is the size plus one, the record is stored there and returned, the users table is unchanged, and the key is fresh over a gap-free table. |
| `FixtureDatabase.InsertNext` | LightBnB_WebApp-master/db/database.js:37-39 | In a table keyed 1 to its size, the key size + 1 is fresh. Inserting there grows the table by one, leaves every other entry unchanged and keeps the keys 1 to the new size. |
| `FixtureDatabase.FixtureStore.AllProperties` | LightBnB_WebApp-master/db/database.js:62-68 | The result is `FirstProperties(properties, limit)`, with limit 10 when omitted. `options` plays no part. |
| `FixtureDatabase.FirstPropertiesKeys` | LightBnB_WebApp-master/db/database.js:63-66 | The copy's keys are exactly 1 to `limit`. |
| `FixtureDatabase.FirstPropertiesSize` | LightBnB_WebApp-master/db/database.js:63-66 | The copy has `limit` entries, and none when `limit` is below 1. |
| `FixtureDatabase.FixtureStore.AllReservations` | LightBnB_WebApp-master/db/database.js:50-52 | Whatever the guest id and limit, the result is the first two properties, as `getAllProperties(null, 2)` returns them. |

## Left out

- The database-backed `getUserWithEmail`, `getUserWithId`, `addUser` and `getAllReservations` (database.js:86-127) are left out. They are fixed SQL strings and parameter lists handed to the pool, with nothing to compute.
- The stray top-level query at database.js:83 is left out for the same reason.
- Sending the built query to the pool, and everything after it, is not modelled: the `.then`/`.catch` handlers and the returned rows (database.js:180-183). What the SQL means (the LEFT JOIN, AVG, GROUP BY) belongs to the database engine.
- Promises are not modelled. Each operation returns its value directly, and the rejection and logging paths are absent.
- The `console.log` of the query (database.js:178) is left out, since it is output only.
- Loading the fixtures with `require` (database.js:1-2) is left out. `FixtureStore` starts from the two tables as given.
- Prices and other numbers are integers. The floating-point product `price * 100`, and fractional or non-numeric option values, are not modelled.
- `FixtureDatabase.Lower` lower-cases ASCII letters only. Full Unicode `toLowerCase`, which also folds other alphabets and can change a string's length, is not modelled.
- `FixtureDatabase.FixtureStore.GetUserWithEmail` does not model the `user &&` guard (database.js:15). A stored record is never `null` in the model.
- `FixtureDatabase.FixtureStore.GetUserWithEmail` also assumes that every key is a non-negative integer. For-in order over string keys that are not array indices, which follow in insertion order, is not modelled.
- `FixtureDatabase.FixtureStore.UserWithId` takes an integer id. A string id such as `"3"`, which JavaScript would convert to the same key, is not modelled.
- `SqlDatabase.BuildPropertyQuery` treats a missing `options` object as out of scope. In the source that is a `TypeError` at `options.owner_id`.
- A `limit` that is `null` rather than omitted is not modelled. For `SqlDatabase.BuildPropertyQuery` it would be pushed as `null`. For `FixtureDatabase.FixtureStore.AllProperties` it would compare as 0 and give an empty copy.
- The duplicate `const` declarations of the two variants in one file are not modelled. In JavaScript they make the file fail to load. The model keeps the variants as separate modules.
