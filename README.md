# VLO search client: request parameters and result flattening

This project models the client of the CLARIN Virtual Language Observatory (VLO) search API. It has two parts:

- `vlo.dfy` (module `Vlo`) models `vlo.py`:
  - the query-parameter map that `query_vlo` sends: `q` is the query text, `size` the row count (default 10), `fq` the fixed field-selection list;
  - `parse_results`, which flattens a decoded search response into an ordered list of rows. Each row has exactly five string columns: Name, Description, Language, Availability and URL.
- `vlo_mcp.dfy` (module `VloMcp`) models what `vlo_search` in `vlo_mcp.py` does around those two parts. It builds the request for a query (default 5 rows), flattens the decoded response that comes back, and packages the rows as `{results, count}`.

The decoded JSON body is given typed values:
- a `RawResponse` holds an optional list of records (`None` when there is no `"records"` key);
- a `RawRecord` holds an optional `map<string, seq<string>>` (`None` when there is no `"fields"` key);
- a `FlatRecord` is the five-column row.

The source tests fields with Python truthiness (`if fields.get(key)`). A key counts as present only when its list is non-empty. This is the predicate `Present`: a present-but-empty list gives the same result as a missing key (`EmptyListActsAsMissing`).

Each column is written out the way the source writes it, using `get`, `get` with a default and truthiness (`Column`, `AvailabilityColumn`). It is then proved equal to a separate reference rule, `FirstPresent`. That rule takes an ordered list of candidate field names and returns the first value of the first candidate that is present, or `""` if none is. Name uses `["name"]`, Description `["description"]`, Language `["languageCode"]`, Availability `["availability", "licenseType"]` and URL `["_selfLink"]`.

The loop in `parse_results` is the method `ParseResults`. Its loop invariant says that the rows built so far are `FlattenAll` of the records visited so far. Separate lemmas prove three things about `FlattenAll`:
- row i depends on record i alone;
- flattening preserves order across concatenation;
- replacing one record changes only its own row.

None of these functions has a precondition, so flattening is total over well-typed input.

The parser reads the keys `name`, `languageCode` and `_selfLink`. The fixed `fq` list asks the service for `title`, `languageName` and `landingPage` instead. The model reads the keys the parser reads and sends the `fq` string exactly as written.

## Model

| member | source | states |
|---|---|---|
| `Vlo.QueryParams` | vlo.py:24-30 | the parameter map has exactly the keys q, size and fq; q is the query unchanged, size is the row count (default 10), fq is the fixed field list |
| `Vlo.QueryParamsRoundTrip` | vlo.py:26-28 | the query and the row count can be read back unchanged from the parameter map |
| `Vlo.FieldListIsFixed` | vlo.py:26-30 | fq is the same for every input; two parameter maps are equal exactly when their queries and row counts are equal |
| `Vlo.TruthyIsPresent` | vlo.py:42-46 | the truthiness test on a looked-up field holds exactly when the key is present and its list is non-empty |
| `Vlo.Column` | vlo.py:42-46 | a single-source column is the first value under its key when that list is present and non-empty, and "" otherwise (an empty list acts as a missing key) |
| `Vlo.AvailabilityColumn` | vlo.py:45 | Availability is the first availability value if that list is non-empty; otherwise the first licenseType value if that list is non-empty; otherwise "" |
| `Vlo.FirstPresent` | vlo.py:42-46 | reference rule: the result is "" when no candidate is present, and otherwise the first value of the earliest present candidate |
| `Vlo.Flatten` | vlo.py:40-47 | each of the five columns of a record's row follows the reference rule over its candidate keys (name; description; languageCode; availability then licenseType; _selfLink), with a missing fields key read as an empty mapping (`FieldsOf`) |
| `Vlo.NoSourceFieldGivesEmptyRow` | vlo.py:40-46 | a record with no fields key, or with none of the six source keys present, gives a row of five empty strings |
| `Vlo.EmptyListActsAsMissing` | vlo.py:42-46 | a key whose list is empty gives the same row as the same mapping without that key |
| `Vlo.AvailabilityPrimaryWins` | vlo.py:45 | when both availability and licenseType are non-empty, Availability is the first availability value |
| `Vlo.RowMap` | vlo.py:41-47 | a row dictionary has exactly the keys Name, Description, Language, Availability and URL, and each key holds its own column of the row |
| `Vlo.RowMapInjective` | vlo.py:41-47 | two rows have equal dictionaries exactly when they are equal, so the five-field datatype loses nothing compared with the dictionary |
| `Vlo.FlattenAll` | vlo.py:38-47 | appending one row per record yields exactly as many rows as records |
| `Vlo.FlattenAllAt` | vlo.py:39-47 | row i is the flattening of record i |
| `Vlo.FlattenAllAppend` | vlo.py:39-47 | the rows for records a followed by b are the rows for a followed by the rows for b (order is kept, nothing is filtered or reordered) |
| `Vlo.FlattenAllUpdate` | vlo.py:39-47 | replacing record j changes only row j |
| `Vlo.ParseResults` | vlo.py:36-47 | the loop returns FlattenAll of the response's records, where a missing records key reads as no records (`RecordsOf`) and so gives no rows; row i is the flattening of record i, and there is one row per record |
| `Vlo.SpokenDutchCorpusExample` | vlo.py:36-47 | a Spoken Dutch Corpus record with name, description, languageCode and availability, but no _selfLink, flattens to one row whose URL is "" |
| `VloMcp.Package` | vlo_mcp.py:16-19 | the result has one dictionary per row, in order, each with the five column names, and count equals the number of results |
| `VloMcp.VloSearch` | vlo_mcp.py:4-19 | the request is the parameter map for the query and rows (default 5); the result has one row dictionary per record of the response, in order; count equals the number of results, and is 0 when the response has no records key |

## Left out

- The HTTP GET to the VLO endpoint, `raise_for_status` and the JSON decoding in `query_vlo` (vlo.py:31-33) are network I/O and a foreign library. `VloSearch` takes the decoded response as a parameter, so the error path on a failed HTTP status is not modelled.
- The pandas `DataFrame` built at the end of `parse_results` (vlo.py:48) and `df.to_dict(orient="records")` (vlo_mcp.py:17) are a foreign library. Rows are a sequence of `FlatRecord`, and the dictionaries are `RowMap` of each row.
- The demo queries and prints in vlo.py (lines 50-73) perform live network calls and are script glue.
- The `MCP_TOOL` descriptor (vlo_mcp.py:22-53) is a static value that holds a function reference and has no behaviour.
- The key order of a row dictionary is not modelled: rows are maps, which have no order.
- Inputs outside the intended types are not modelled: `fields` being `None`, a field value that is not a list (which Python would index character by character), or a `records` value that is not a list. Field values are always lists of strings here.
