/**
  The parts of Go's `net/url` that the context assembly touches: the `url.URL` record
  (a pointer whose fields are assigned in place), `url.Values` (a map that `Set`
  mutates), and the package's parsing and serialising functions, which are foreign
  code and enter the model as the function-valued fields of `Package`.
*/
module NetUrl {
  import opened Wrappers

  datatype Userinfo = Userinfo(username: string, password: Option<string>)

  /** The value of a `url.URL`, field by field. */
  datatype UrlParts = UrlParts(
    scheme: string,
    opaqueText: string,
    user: Option<Userinfo>,
    host: string,
    path: string,
    rawPath: string,
    omitHost: bool,
    forceQuery: bool,
    rawQuery: string,
    fragment: string,
    rawFragment: string)

  /** `url.Values`: each key maps to its list of values. */
  type Query = map<string, seq<string>>

  /** The foreign functions of `net/url`. */
  datatype Package = Package(
    parse: string -> Result<UrlParts>,   // url.Parse
    format: UrlParts -> string,          // (*URL).String
    parseQuery: string -> Query,         // url.ParseQuery with its error dropped, as (*URL).Query does
    encode: Query -> string)             // Values.Encode

  /** True when decoding an encoded query gives the query back, for queries whose every key has a value. */
  ghost predicate QueryRoundTrips(pkg: Package) {
    && (forall s, k | k in pkg.parseQuery(s) :: pkg.parseQuery(s)[k] != [])
    && (forall q: Query | (forall k | k in q :: q[k] != []) :: pkg.parseQuery(pkg.encode(q)) == q)
  }

  /** A `*url.URL`. */
  class Url {
    var scheme: string
    var opaqueText: string
    var user: Option<Userinfo>
    var host: string
    var path: string
    var rawPath: string
    var omitHost: bool
    var forceQuery: bool
    var rawQuery: string
    var fragment: string
    var rawFragment: string

    function Value(): UrlParts
      reads this
    {
      UrlParts(scheme, opaqueText, user, host, path, rawPath, omitHost, forceQuery, rawQuery, fragment, rawFragment)
    }

    constructor (v: UrlParts)
      ensures Value() == v
    {
      scheme, opaqueText, user, host := v.scheme, v.opaqueText, v.user, v.host;
      path, rawPath, omitHost, forceQuery := v.path, v.rawPath, v.omitHost, v.forceQuery;
      rawQuery, fragment, rawFragment := v.rawQuery, v.fragment, v.rawFragment;
    }

    /** `(*URL).String`. */
    function String(pkg: Package): string
      reads this
    {
      pkg.format(Value())
    }

    /** `(*URL).Query`: a fresh map decoded from the raw query. */
    method Query(pkg: Package) returns (q: Values)
      ensures fresh(q) && q.entries == pkg.parseQuery(rawQuery)
    {
      q := new Values(pkg.parseQuery(rawQuery));
    }
  }

  /** A `url.Values` map, which Go shares by reference. */
  class Values {
    var entries: Query

    constructor (m: Query)
      ensures entries == m
    {
      entries := m;
    }

    /** `Values.Set`: the key's values become exactly the one given; every other key is untouched. */
    method Set(key: string, value: string)
      modifies this
      ensures key in entries && entries[key] == [value]
      ensures entries.Keys == old(entries).Keys + {key}
      ensures forall k | k in old(entries) && k != key :: entries[k] == old(entries)[k]
    {
      entries := entries[key := [value]];
    }

    /** `Values.Encode`. */
    function Encode(pkg: Package): string
      reads this
    {
      pkg.encode(entries)
    }
  }

  /** `url.Parse`: a fresh URL, or nil and the parse error. */
  method Parse(pkg: Package, s: string) returns (u: Url?, err: Option<Error>)
    ensures pkg.parse(s).Ok? ==> err == None && u != null && fresh(u) && u.Value() == pkg.parse(s).value
    ensures pkg.parse(s).Err? ==> err == Some(pkg.parse(s).error) && u == null
  {
    match pkg.parse(s)
    case Ok(v) =>
      u := new Url(v);
      err := None;
    case Err(e) =>
      u := null;
      err := Some(e);
  }
}
