/** What the two registration forms share: a field map standing for the
    page's state object, the truthiness of one of its fields, the reduction
    of a server timestamp to the date an `<input type="date">` accepts, the
    way a submit ends, and the choice between creating and updating a
    record on the backend. */
module Forms {
  import opened Text

  /** The state object of a form. A key that is missing stands for a
      property that is null or undefined. */
  type Fields = map<string, string>

  /** `state[key]` in a JavaScript condition. */
  predicate Has(f: Fields, key: string)
  {
    key in f && f[key] != ""
  }

  /** `state[key].trim()` is defined only when the property exists; calling
      it on null or undefined throws. */
  predicate Blank(f: Fields, key: string)
    requires key in f
  {
    Trim(f[key]) == ""
  }

  // ---------------------------------------------------------------------
  // Loading a record for editing
  // ---------------------------------------------------------------------

  /** `{...data, [key]: data[key] ? data[key].split('T')[0] : ''}`. */
  function WithDateOnly(data: Fields, key: string): (r: Fields)
    ensures r.Keys == data.Keys + {key}
    ensures forall k :: k in data && k != key ==> r[k] == data[k]
    ensures 'T' !in r[key]
    ensures r[key] != "" ==> Has(data, key) && r[key] <= data[key]
    ensures Has(data, key) && data[key][0] != 'T' ==> r[key] != ""
    ensures Has(data, key) && 'T' !in data[key] ==> r[key] == data[key]
    ensures Has(data, key) ==>
              r[key] <= data[key] && (|r[key]| < |data[key]| ==> data[key][|r[key]|] == 'T')
    ensures !Has(data, key) ==> r[key] == ""
  {
    data[key := if Has(data, key) then BeforeFirst(data[key], 'T') else ""]
  }

  /** Normalising a field that is already normalised changes nothing. */
  lemma WithDateOnlyIdempotent(data: Fields, key: string)
    ensures WithDateOnly(WithDateOnly(data, key), key) == WithDateOnly(data, key)
  {
  }

  /** Normalising one field does not disturb the normalisation of another. */
  lemma WithDateOnlyCommutes(data: Fields, a: string, b: string)
    requires a != b
    ensures WithDateOnly(WithDateOnly(data, a), b) == WithDateOnly(WithDateOnly(data, b), a)
  {
  }

  // ---------------------------------------------------------------------
  // Sending a form
  // ---------------------------------------------------------------------

  const BaseUrl: string := "http://localhost:5000"

  datatype HttpMethod = Post | Put

  /** A value of the JSON body. `JParseFloat` stands for the number
      `parseFloat(text)` produces; floating point is not modelled. */
  datatype Json = JString(s: string) | JZero | JParseFloat(text: string)

  datatype Request = Request(verb: HttpMethod, url: string, body: map<string, Json>)

  /** Why a submit ended without a request: an `alert` with a message, or a
      TypeError thrown by `.trim()` on a missing property. */
  datatype Rejection = Alert(message: string) | TypeError

  datatype Outcome = Rejected(why: Rejection) | Sent(request: Request)

  /** The route parameter `id` in a condition. */
  predicate Editing(id: Option<string>)
  {
    Truthy(id)
  }

  /** `id ? PUT to collection/id : POST to collection`. */
  function Target(collection: string, id: Option<string>): (t: (HttpMethod, string))
    ensures t.0 == Put <==> Editing(id)
    ensures Editing(id) ==> t.1 == BaseUrl + collection + "/" + id.value
    ensures !Editing(id) ==> t.1 == BaseUrl + collection
  {
    if Editing(id) then (Put, BaseUrl + collection + "/" + id.value) else (Post, BaseUrl + collection)
  }

  /** The collection URL is a proper prefix of every record URL. */
  lemma TargetRecordUnderCollection(collection: string, id: Option<string>)
    requires Editing(id)
    ensures Target(collection, None).1 < Target(collection, id).1
  {
  }

  /** Different records are updated at different URLs: the id can be read
      back from the URL. */
  lemma TargetInjective(collection: string, a: Option<string>, b: Option<string>)
    requires Editing(a) && Editing(b)
    requires Target(collection, a) == Target(collection, b)
    ensures a == b
  {
    var prefix := BaseUrl + collection + "/";
    var ua, ub := prefix + a.value, prefix + b.value;
    assert ua[|prefix|..] == a.value;
    assert ub[|prefix|..] == b.value;
  }
}
