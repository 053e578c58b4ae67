/**
 * The VLO (CLARIN Virtual Language Observatory) client: building the search
 * request's parameter map, and flattening a decoded search response into an
 * ordered list of five-column rows.
 *
 * The decoded JSON body is modelled by typed values: the response holds an
 * optional list of records (absent when the body has no "records" key), each
 * record an optional mapping from field name to a list of strings (absent when
 * the record has no "fields" key).
 */
module Vlo {

  datatype Option<+T> = None | Some(value: T)

  /** A record's "fields" mapping: field name to the list of its values. */
  type Fields = map<string, seq<string>>

  /** One entry of the response's "records" list. */
  datatype RawRecord = RawRecord(fields: Option<Fields>)

  /** The decoded response body, as far as it is read. */
  datatype RawResponse = RawResponse(records: Option<seq<RawRecord>>)

  /** One output row, with the columns Name, Description, Language, Availability and URL. */
  datatype FlatRecord = FlatRecord(
    name: string,
    description: string,
    language: string,
    availability: string,
    url: string)

  const EmptyRow := FlatRecord("", "", "", "", "")

  /** The column names of a row dictionary. */
  const ColumnNames: set<string> := {"Name", "Description", "Language", "Availability", "URL"}

  /** Every field name the flattener reads from a record. */
  const SourceKeys: set<string> := {"name", "description", "languageCode", "availability", "licenseType", "_selfLink"}

  // ---------------------------------------------------------------------------
  // Request parameters

  /** A value in the request's query-parameter map: text or an integer. */
  datatype ParamValue = Text(text: string) | Number(number: int)

  /** The fixed field-selection list sent with every request. */
  const FieldList := "title,collection,description,organisation,availability,languageName,landingPage"

  /** The row count used when the caller gives none. */
  const DefaultRows := 10

  /**
   * The query parameters of a search: the query text as "q", the row count
   * as "size", and the fixed field list as "fq", whatever the inputs.
   */
  function QueryParams(query: string, rows: int := DefaultRows): (p: map<string, ParamValue>)
    ensures p.Keys == {"q", "size", "fq"}
    ensures p["q"] == Text(query) && p["size"] == Number(rows)
    ensures p["fq"] == Text(FieldList)
  {
    map["q" := Text(query), "size" := Number(rows), "fq" := Text(FieldList)]
  }

  /** Reads the query text and the row count back from a parameter map. */
  function SearchOf(p: map<string, ParamValue>): Option<(string, int)>
  {
    if "q" in p && "size" in p && p["q"].Text? && p["size"].Number?
    then Some((p["q"].text, p["size"].number))
    else None
  }

  /** The parameter map carries the query and the row count unchanged: both can be read back. */
  lemma QueryParamsRoundTrip(query: string, rows: int)
    ensures SearchOf(QueryParams(query, rows)) == Some((query, rows))
  {
  }

  /** The field list does not depend on the query or the row count. */
  lemma FieldListIsFixed(q1: string, n1: int, q2: string, n2: int)
    ensures QueryParams(q1, n1)["fq"] == QueryParams(q2, n2)["fq"]
    ensures QueryParams(q1, n1) == QueryParams(q2, n2) <==> q1 == q2 && n1 == n2
  {
  }

  // ---------------------------------------------------------------------------
  // Per-column extraction

  /** Looks up a field: the list under key, or nothing when the key is absent. */
  function Get(fields: Fields, key: string): Option<seq<string>>
  {
    if key in fields then Some(fields[key]) else None
  }

  /** Looks up a field, giving the default list when the key is absent. */
  function GetOr(fields: Fields, key: string, default: seq<string>): seq<string>
  {
    if key in fields then fields[key] else default
  }

  /** Python truthiness of a looked-up field: a missing value and an empty list are false. */
  predicate Truthy(v: Option<seq<string>>)
  {
    v.Some? && |v.value| > 0
  }

  /** The key is present in the mapping and its list is non-empty. */
  predicate Present(fields: Fields, key: string)
  {
    key in fields && fields[key] != []
  }

  /** A missing key and an empty list are both false under the truthiness test. */
  lemma TruthyIsPresent(fields: Fields, key: string)
    ensures Truthy(Get(fields, key)) <==> Present(fields, key)
  {
  }

  /**
   * A single-source column, written as the source writes it: guarded by the
   * truthiness of the looked-up list, then the first element of the list
   * looked up with a one-element default. It is the first value under key
   * when that list is present and non-empty, and "" otherwise, so an empty
   * list counts as a missing key.
   */
  function Column(fields: Fields, key: string): (r: string)
    ensures Present(fields, key) ==> r == fields[key][0]
    ensures !Present(fields, key) ==> r == ""
  {
    if Truthy(Get(fields, key)) then GetOr(fields, key, [""])[0] else ""
  }

  /**
   * The Availability column: the first value of "availability" if that list
   * is non-empty, else the first value of "licenseType" if that list is
   * non-empty, else "".
   */
  function AvailabilityColumn(fields: Fields): (r: string)
    ensures Present(fields, "availability") ==> r == fields["availability"][0]
    ensures !Present(fields, "availability") && Present(fields, "licenseType") ==> r == fields["licenseType"][0]
    ensures !Present(fields, "availability") && !Present(fields, "licenseType") ==> r == ""
  {
    if Truthy(Get(fields, "availability")) then GetOr(fields, "availability", [""])[0]
    else if Truthy(Get(fields, "licenseType")) then GetOr(fields, "licenseType", [""])[0]
    else ""
  }

  /**
   * Reference rule for one column: walk an ordered list of candidate field
   * names and take the first value of the first candidate whose list is
   * present and non-empty; "" when there is none.
   */
  function FirstPresent(fields: Fields, candidates: seq<string>): (r: string)
    ensures (forall j :: 0 <= j < |candidates| ==> !Present(fields, candidates[j])) ==> r == ""
    ensures forall j :: 0 <= j < |candidates| && Present(fields, candidates[j]) &&
                        (forall k :: 0 <= k < j ==> !Present(fields, candidates[k])) ==>
                          r == fields[candidates[j]][0]
    decreases |candidates|
  {
    if candidates == [] then ""
    else if Present(fields, candidates[0]) then fields[candidates[0]][0]
    else FirstPresent(fields, candidates[1..])
  }

  // ---------------------------------------------------------------------------
  // Flattening one record

  /** A record's fields mapping, read as the empty mapping when the record has no "fields" key. */
  function FieldsOf(rec: RawRecord): Fields
  {
    match rec.fields
    case Some(f) => f
    case None => map[]
  }

  /**
   * The row built from one record. Each column follows the candidate rule:
   * Name from "name", Description from "description", Language from
   * "languageCode", Availability from "availability" then "licenseType", URL
   * from "_selfLink".
   */
  function Flatten(rec: RawRecord): (row: FlatRecord)
    ensures row.name == FirstPresent(FieldsOf(rec), ["name"])
    ensures row.description == FirstPresent(FieldsOf(rec), ["description"])
    ensures row.language == FirstPresent(FieldsOf(rec), ["languageCode"])
    ensures row.availability == FirstPresent(FieldsOf(rec), ["availability", "licenseType"])
    ensures row.url == FirstPresent(FieldsOf(rec), ["_selfLink"])
  {
    var fields := FieldsOf(rec);
    FlatRecord(
      Column(fields, "name"),
      Column(fields, "description"),
      Column(fields, "languageCode"),
      AvailabilityColumn(fields),
      Column(fields, "_selfLink"))
  }

  /** A record without a "fields" key, or with none of the source keys present, gives a row of five empty strings. */
  lemma NoSourceFieldGivesEmptyRow(rec: RawRecord)
    requires rec.fields.None? || forall k :: k in SourceKeys ==> !Present(FieldsOf(rec), k)
    ensures Flatten(rec) == EmptyRow
  {
  }

  /** A key whose list is present but empty gives the same row as a missing key. */
  lemma EmptyListActsAsMissing(fields: Fields, key: string)
    ensures Flatten(RawRecord(Some(fields[key := []]))) == Flatten(RawRecord(Some(fields - {key})))
  {
  }

  /** The "availability" value takes precedence over "licenseType" whenever both are non-empty. */
  lemma AvailabilityPrimaryWins(fields: Fields, a: seq<string>, l: seq<string>)
    requires a != [] && l != []
    ensures Flatten(RawRecord(Some(fields["availability" := a]["licenseType" := l]))).availability == a[0]
  {
  }

  /** The row dictionary: exactly the five column names, each mapped to a string. */
  function RowMap(row: FlatRecord): (m: map<string, string>)
    ensures m.Keys == ColumnNames
    ensures m["Name"] == row.name && m["Description"] == row.description
    ensures m["Language"] == row.language && m["Availability"] == row.availability
    ensures m["URL"] == row.url
  {
    map["Name" := row.name, "Description" := row.description, "Language" := row.language,
        "Availability" := row.availability, "URL" := row.url]
  }

  /** The dictionary view loses nothing: each column can be read back under its name. */
  lemma RowMapInjective(a: FlatRecord, b: FlatRecord)
    ensures RowMap(a) == RowMap(b) <==> a == b
  {
  }

  // ---------------------------------------------------------------------------
  // Flattening the whole response

  /** A response's records, read as no records when the response has no "records" key. */
  function RecordsOf(response: RawResponse): seq<RawRecord>
  {
    match response.records
    case Some(rs) => rs
    case None => []
  }

  /** The rows of a list of records, built by appending one row per record. */
  function FlattenAll(records: seq<RawRecord>): (rows: seq<FlatRecord>)
    ensures |rows| == |records|
  {
    if records == [] then []
    else FlattenAll(records[..|records| - 1]) + [Flatten(records[|records| - 1])]
  }

  /** Row i is the flattening of record i and of nothing else. */
  lemma {:induction false} FlattenAllAt(records: seq<RawRecord>, i: int)
    requires 0 <= i < |records|
    ensures FlattenAll(records)[i] == Flatten(records[i])
  {
    if i < |records| - 1 {
      FlattenAllAt(records[..|records| - 1], i);
    }
  }

  /** Flattening preserves order: the rows of a concatenation are the concatenated rows. */
  lemma {:induction false} FlattenAllAppend(a: seq<RawRecord>, b: seq<RawRecord>)
    ensures FlattenAll(a + b) == FlattenAll(a) + FlattenAll(b)
    decreases |b|
  {
    if b == [] {
      assert a + b == a;
    } else {
      var last := |b| - 1;
      assert (a + b)[..|a + b| - 1] == a + b[..last];
      FlattenAllAppend(a, b[..last]);
    }
  }

  /** Replacing one record changes only the row at that position. */
  lemma FlattenAllUpdate(records: seq<RawRecord>, j: int, rec: RawRecord)
    requires 0 <= j < |records|
    ensures FlattenAll(records[j := rec]) == FlattenAll(records)[j := Flatten(rec)]
  {
    var updated := records[j := rec];
    forall i | 0 <= i < |records|
      ensures FlattenAll(updated)[i] == FlattenAll(records)[j := Flatten(rec)][i]
    {
      FlattenAllAt(updated, i);
      FlattenAllAt(records, i);
    }
  }

  /**
   * `parse_results` without the final table conversion: one row per record
   * of the response, in the response's order; no "records" key gives no rows.
   */
  method ParseResults(response: RawResponse) returns (data: seq<FlatRecord>)
    ensures data == FlattenAll(RecordsOf(response))
    ensures response.records.None? ==> data == []
    ensures |data| == |RecordsOf(response)|
    ensures forall i :: 0 <= i < |data| ==> data[i] == Flatten(RecordsOf(response)[i])
  {
    var records := RecordsOf(response);
    data := [];
    for n := 0 to |records|
      invariant data == FlattenAll(records[..n])
    {
      var rec := records[n];
      assert records[..n + 1][..n] == records[..n];
      data := data + [Flatten(rec)];
    }
    assert records[..|records|] == records;
    forall i | 0 <= i < |data| ensures data[i] == Flatten(records[i]) {
      FlattenAllAt(records, i);
    }
  }

  /** The worked example: a Spoken Dutch Corpus record with no "_selfLink" gives an empty URL. */
  lemma SpokenDutchCorpusExample()
    ensures FlattenAll(RecordsOf(RawResponse(Some([RawRecord(Some(map[
              "name" := ["Spoken Dutch Corpus"],
              "description" := ["A corpus."],
              "languageCode" := ["nld"],
              "availability" := ["PUB"]]))]))))
            == [FlatRecord("Spoken Dutch Corpus", "A corpus.", "nld", "PUB", "")]
  {
  }
}
