# LightBnB listing queries — a Dafny model

This project models the two parts of the LightBnB data-access module
(`db/database.js`) that carry logic of their own:

* **`getAllProperties(options, limit)`** builds a parameterised SQL statement
  from a loosely-typed options bag. Each truthy option pushes its parameters
  onto `queryParams` and then a WHERE condition whose `$n` placeholders point
  at them. The options are taken in the fixed order city, owner, price range,
  minimum rating. A price range counts only when both bounds are truthy, and
  dollars become cents. The conditions are joined with `AND` behind `WHERE`
  (only if there is one). The limit, 10 by default, is always pushed last
  and referenced by `LIMIT $n`. The model stops where the statement and its
  parameters are handed to `pool.query`.
* **`addProperty(property)`** works on the process-local property table. It
  sets the record's `id` to the number of keys plus one, stores the record
  under that id and returns the same record.

Files:

* `wrappers.dfy`: `Option`, for option fields that may be absent.
* `sql_text.dfy`: decimal rendering of placeholder numbers, a reader that
  recovers the `$n` placeholders of a statement in order, and
  `Array.prototype.join`.
* `property_query.dfy`: the options bag, parameters, clauses, the SQL
  renderer, the builder methods and their lemmas.
* `property_store.dfy`: the property table as a class over a map of property
  objects, with `AddProperty` and lemmas about repeated insertion.

The builder is imperative, like the source. `PropertyQuery.CollectFilters`
pushes onto two local sequences step by step. `PropertyQuery.GetAllProperties`
appends to the statement text. Each method is proved equal to the pure
step-by-step function `AfterSteps`, and the source's guarantees are proved
about that function. The main one: read left to right, the statement's
placeholders are exactly `$1 … $n`, where n is the number of parameters.

## Behaviour of the code worth knowing

* The city condition is `city LIKE $n`. In PostgreSQL `LIKE` is
  case-sensitive, so a city filter matches case as sent.
* The rating condition `property_reviews.rating >= $n` sits in the WHERE
  clause. It filters single review rows before grouping, so it bounds the
  reviews that enter the average, not the average itself.
* The new id is the number of keys plus one. When the keys are not exactly
  1 … n that id can already be taken, and the old entry is overwritten.
  `PropertyStore.SparseTableCollision` exhibits this.

## Model

| member | source | states |
|---|---|---|
| SqlText.Decimal | LightBnB_WebApp-master/db/database.js:111 | the number written into a placeholder is a non-empty run of decimal digits with no leading zero |
| SqlText.ParseDecimalInvertsDecimal | LightBnB_WebApp-master/db/database.js:111 | reading the digits written for a placeholder gives back the parameter position |
| SqlText.DecimalInjective | LightBnB_WebApp-master/db/database.js:111 | two placeholders have the same text exactly when they name the same position |
| SqlText.Placeholder | LightBnB_WebApp-master/db/database.js:111 | the placeholder for parameter i is `$` followed by the decimal digits of i |
| SqlText.DigitRun | LightBnB_WebApp-master/db/database.js:143 | the digits that follow a `$` are the longest all-digit prefix: the next character, if any, is not a digit |
| SqlText.PlaceholderNumbersAppend | LightBnB_WebApp-master/db/database.js:135 | the placeholders of two texts joined are those of the first followed by those of the second, when the seam splits no number |
| SqlText.PlaceholderNumbersNoDollar | LightBnB_WebApp-master/db/database.js:99-103 | a fixed text without `$` contributes no placeholder |
| SqlText.PlaceholderReadsBack | LightBnB_WebApp-master/db/database.js:111 | the text `$i` reads back as exactly the one placeholder i |
| SqlText.LiteralThenPlaceholder | LightBnB_WebApp-master/db/database.js:117 | a condition text such as `owner_id = $i` holds only the placeholder i |
| SqlText.Join | LightBnB_WebApp-master/db/database.js:135 | `Array.prototype.join`: the parts in order with the separator between neighbours; a non-empty list's text starts with its first part |
| PropertyQuery.LimitOrDefault | LightBnB_WebApp-master/db/database.js:97 | the limit used is the caller's, or 10 when the caller passes none (the default parameter) |
| PropertyQuery.TextGiven | LightBnB_WebApp-master/db/database.js:109 | JavaScript truthiness of the city option: present and not the empty string |
| PropertyQuery.NumberGiven | LightBnB_WebApp-master/db/database.js:115 | JavaScript truthiness of a numeric option (owner, each price bound at line 121, rating at line 128): present and not zero |
| PropertyQuery.PriceRangeGiven | LightBnB_WebApp-master/db/database.js:121 | the price filter applies only when both the minimum and the maximum are truthy |
| PropertyQuery.Requested | LightBnB_WebApp-master/db/database.js:108-130 | which of the four filters the options ask for, each by its own truthiness test |
| PropertyQuery.ParamsFor | LightBnB_WebApp-master/db/database.js:109-129 | the values a requested filter pushes: `%city%`, the owner id, minimum×100 then maximum×100, the rating; two values for a price range, one otherwise |
| PropertyQuery.ClauseText | LightBnB_WebApp-master/db/database.js:111-130 | the condition templates `city LIKE $i`, `owner_id = $i`, `cost_per_night BETWEEN $lo AND $hi`, `property_reviews.rating >= $i`; each is non-empty and opens with a lower-case letter |
| PropertyQuery.ClauseTexts | LightBnB_WebApp-master/db/database.js:134-135 | the condition texts, one per clause, the k-th being the k-th clause's text |
| PropertyQuery.WhereText | LightBnB_WebApp-master/db/database.js:135 | the conditions joined with ` AND ` |
| PropertyQuery.WhereSection | LightBnB_WebApp-master/db/database.js:134-136 | ` WHERE ` and the conjunction; empty exactly when there is no condition, and otherwise starting with ` WHERE ` |
| PropertyQuery.LimitSection | LightBnB_WebApp-master/db/database.js:140-144 | the GROUP BY / ORDER BY / LIMIT tail ending in the limit's placeholder `$n;` |
| PropertyQuery.QueryText | LightBnB_WebApp-master/db/database.js:99-144 | the whole statement: the SELECT … LEFT JOIN head (lines 99-103), the WHERE part, then the limit tail |
| PropertyQuery.ClauseTextPlaceholders | LightBnB_WebApp-master/db/database.js:109-131 | each WHERE condition's text holds exactly its own placeholders; BETWEEN holds the low bound's, then the high bound's |
| PropertyQuery.BetweenPlaceholders | LightBnB_WebApp-master/db/database.js:124 | a `… $lo AND $hi` condition holds the placeholder lo, then hi |
| PropertyQuery.WhereTextPlaceholders | LightBnB_WebApp-master/db/database.js:134-136 | the conditions joined with AND hold the placeholders of all clauses, in clause order |
| PropertyQuery.FixedTextsHoldNoPlaceholder | LightBnB_WebApp-master/db/database.js:99-144 | the fixed SELECT head (lines 99-103), the ` WHERE ` keyword (line 135) and the GROUP/ORDER/LIMIT text (lines 140-143) contain no `$` and so hold no placeholder |
| PropertyQuery.LimitSectionPlaceholders | LightBnB_WebApp-master/db/database.js:140-144 | the GROUP BY / ORDER BY / LIMIT tail holds exactly one placeholder, the limit's, and starts with a non-digit |
| PropertyQuery.WhereSectionPlaceholders | LightBnB_WebApp-master/db/database.js:134-136 | the WHERE part (empty without conditions) holds the clauses' placeholders in order |
| PropertyQuery.QueryTextPlaceholders | LightBnB_WebApp-master/db/database.js:97-144 | read left to right, the whole statement's placeholders are the clauses' placeholders followed by the LIMIT placeholder |
| PropertyQuery.QueryTextWhere | LightBnB_WebApp-master/db/database.js:134-136 | right after the SELECT head the statement continues with ` WHERE ` if and only if there is at least one condition |
| PropertyQuery.ClauseFor | LightBnB_WebApp-master/db/database.js:111-130 | the clause each step appends is of that step's filter kind |
| PropertyQuery.AfterSteps | LightBnB_WebApp-master/db/database.js:108-131 | the two arrays after the first k of the four steps; each requested step pushes its values, then a clause pointing at them. There are at most k clauses and never more clauses than parameters |
| PropertyQuery.CollectFilters | LightBnB_WebApp-master/db/database.js:98-131 | pushing parameters and conditions in place, city, owner, price, rating in turn, yields the step-by-step arrays `AfterSteps(options, 4)` |
| PropertyQuery.GetAllProperties | LightBnB_WebApp-master/db/database.js:97-144 | returns the parameters of the four steps with the limit (default 10) appended last, and the statement rendered from the conditions. The statement's placeholders read `$1 … $n` in order, with n the parameter count. WHERE appears exactly when some filter is requested |
| PropertyQuery.QueryOfSteps | LightBnB_WebApp-master/db/database.js:133-144 | for every options bag, the statement rendered from the built clauses with the limit as parameter n numbers its placeholders 1 … n, and has WHERE if and only if a filter is requested |
| PropertyQuery.NumberedQuery | LightBnB_WebApp-master/db/database.js:139-143 | clauses numbered from 1 followed by the limit as parameter n give a statement whose placeholders read 1 … n |
| PropertyQuery.WhereWhenRequested | LightBnB_WebApp-master/db/database.js:134-136 | when the clauses present are exactly the requested filters, the statement has WHERE exactly when some filter is requested |

| PropertyQuery.AfterAllSteps | LightBnB_WebApp-master/db/database.js:108-131 | after the steps, the placeholders are numbered from 1 with one parameter per placeholder. The parameter count is 1 each for city, owner and rating, 2 for a price range. Each clause points at parameters holding its option (`%city%`, owner id, min×100 then max×100 at consecutive positions, rating). A clause exists exactly when its filter is truthy, in the order city, owner, price, rating |
| PropertyQuery.NoOptionsOnlyLimit | LightBnB_WebApp-master/db/database.js:108-139 | with no truthy option there is no condition and no filter parameter, so the limit is the only parameter |
| PropertyQuery.LonePriceBoundIgnored | LightBnB_WebApp-master/db/database.js:121-125 | a price range with one bound missing or zero builds the same arrays as sending neither bound |
| PropertyQuery.AfterStepsInvariant | LightBnB_WebApp-master/db/database.js:108-131 | after every prefix of the steps, the builder's invariant (numbering, binding, presence, order, count) holds |
| PropertyQuery.StageSkip | LightBnB_WebApp-master/db/database.js:109-131 | a step whose option is falsy leaves both arrays unchanged and keeps the invariant |
| PropertyQuery.StageAdd | LightBnB_WebApp-master/db/database.js:109-131 | a step that pushes its parameters and then a clause pointing at the new positions keeps the invariant |
| PropertyStore.Property.constructor | LightBnB_WebApp-master/db/database.js:154-159 | a property record arrives with its details and no id |
| PropertyStore.Listings.constructor | LightBnB_WebApp-master/db/database.js:1 | the table starts with the given entries |
| PropertyStore.NextId | LightBnB_WebApp-master/db/database.js:160 | the new id is the number of keys plus one; it is at least 1, and on a table keyed 1 … n it is not yet used |
| PropertyStore.Insert | LightBnB_WebApp-master/db/database.js:161-162 | the table with the record stored under the new id, replacing any entry there |
| PropertyStore.Listings.AddProperty | LightBnB_WebApp-master/db/database.js:159-164 | sets the record's id to the old key count + 1 and stores the record under that key; every other key keeps its value; returns the stored record. A dense table stays dense and grows by one. If every record's id equals its key, that stays true unless the record was already stored |
| PropertyStore.InsertIntoDense | LightBnB_WebApp-master/db/database.js:160-162 | on a table with keys 1 … n the new id n + 1 is unused, and the table becomes 1 … n + 1 |
| PropertyStore.InsertAllIntoDense | LightBnB_WebApp-master/db/database.js:159-164 | successive insertions into a dense table keep every entry and give the i-th record the id n + 1 + i |
| PropertyStore.InsertTwiceIntoEmpty | LightBnB_WebApp-master/db/database.js:160-162 | two insertions into an empty table give the ids 1 and 2 |
| PropertyStore.SparseTableCollision | LightBnB_WebApp-master/db/database.js:160-162 | when keys are not 1 … n the new id can be taken; the old entry is overwritten and the table does not grow |

## Left out

- The `pg` connection pool and every `pool.query` call (lines 5-10, 21, 36, 51, 68-79, 147). These are database I/O. LIKE matching, AVG, GROUP BY, ORDER BY and LIMIT are carried out by PostgreSQL, so the rows a statement returns are not modelled.
- `getUserWithEmail`, `getUserWithId`, `addUser` and `getAllReservations`. Each passes a fixed statement to the pool and returns its rows, with no logic of its own.
- Promises, `.then` chaining and the catch-and-log error handling (`console.log`). These are asynchronous plumbing and side effects.
- Loading the JSON fixtures (lines 1-2). This is file I/O; `Listings` takes its initial table as a constructor argument.
- `Number(...)` coercion and floating-point `* 100` (lines 122-123, 129). Option values are integers, so NaN, fractions and rounding are not modelled.
- Truthiness is modelled on typed values: a city is truthy when present and non-empty, a number when present and non-zero. Form values arrive as strings in JavaScript, and the string "0" is truthy there; the model does not cover that.
- The default limit applies when the limit is absent (`None`). The JavaScript default parameter also does not apply to an explicit `null`; that case is not modelled.
- Table keys are natural numbers. JavaScript object keys are the strings of those numbers.
- Concurrent `addProperty` calls cannot interleave in the model, because each call is one atomic method.
- The local `whereClauses` array holds condition texts in the source. The model keeps the conditions as `Clause` values, returns them as the third result of `GetAllProperties`, and renders their text with `ClauseText`.
