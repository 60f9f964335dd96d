/**
  The organization lookup endpoint: an authenticated GET for an organization
  key answers 404 when no organization is found, and otherwise a map with the
  organization's name, short name and description, plus its logo's absolute
  URI when it has a logo. The store lookup and the URI builder are
  parameters.
 */
module OrganizationsApi {
  import opened Wrappers

  /** A field of a stored organization record. */
  datatype Value =
    | Null
    | Str(s: string)
      // an uploaded file; Django treats it as false when it has no name
    | File(name: string, url: string)

  /** An organization record as the lookup returns it. */
  type Record = map<string, Value>

  /** `record.get(key)`: a missing field reads as null. */
  function Field(r: Record, key: string): Value {
    if key in r then r[key] else Null
  }

  predicate Truthy(v: Value) {
    match v
    case Null => false
    case Str(s) => s != ""
    case File(name, _) => name != ""
  }

  /** The lookup's answer is truthy: something was found and it is not an empty record. */
  predicate Found(o: Option<Record>) {
    o.Some? && |o.value| > 0
  }

  /**
    `Raised` is the view failing with an exception: a truthy logo that is not a
    file has no `url`.
   */
  datatype Response = Unauthorized | NotFound | Ok(data: map<string, Value>) | Raised

  function StatusCode(r: Response): (code: int)
    ensures r.Unauthorized? <==> code == 401
    ensures r.NotFound? <==> code == 404
    ensures r.Ok? <==> code == 200
    ensures r.Raised? <==> code == 500
  {
    match r
    case Unauthorized => 401
    case NotFound => 404
    case Ok(_) => 200
    case Raised => 500
  }

  const NAME_KEY := "organization_name"
  const SHORT_NAME_KEY := "organization_short_name"
  const DESCRIPTION_KEY := "organization_description"
  const LOGO_KEY := "organization_logo"

  /**
    The view's GET: `lookup` finds an organization by its key and
    `absoluteUri` turns a relative URL into an absolute one.
   */
  function GetOrganization(key: string, lookup: string -> Option<Record>, absoluteUri: string -> string): (r: Response)
    ensures r.Unauthorized? == false
    ensures r.NotFound? <==> !Found(lookup(key))
    ensures r.Raised? <==> Found(lookup(key)) && Truthy(Field(lookup(key).value, "logo")) && !Field(lookup(key).value, "logo").File?
    ensures r.Ok? ==>
      var org := lookup(key).value;
      r.data.Keys == {NAME_KEY, SHORT_NAME_KEY, DESCRIPTION_KEY} + (if Truthy(Field(org, "logo")) then {LOGO_KEY} else {}) &&
      r.data[NAME_KEY] == Field(org, "name") &&
      r.data[SHORT_NAME_KEY] == Field(org, "short_name") &&
      r.data[DESCRIPTION_KEY] == Field(org, "description") &&
      (LOGO_KEY in r.data ==> Field(org, "logo").File? && r.data[LOGO_KEY] == Str(absoluteUri(Field(org, "logo").url)))
  {
    var found := lookup(key);
    if Found(found) then
      var org := found.value;
      var data := map[
        NAME_KEY := Field(org, "name"),
        SHORT_NAME_KEY := Field(org, "short_name"),
        DESCRIPTION_KEY := Field(org, "description")];
      var logo := Field(org, "logo");
      if !Truthy(logo) then Ok(data)
      else if logo.File? then Ok(data[LOGO_KEY := Str(absoluteUri(logo.url))])
      else Raised
    else
      NotFound
  }

  /** Authentication runs before the view: an unauthenticated request is refused before any lookup. */
  function HandleGet(authenticated: bool, key: string, lookup: string -> Option<Record>,
                     absoluteUri: string -> string): (r: Response)
    ensures !authenticated <==> r == Unauthorized
    ensures authenticated ==> r == GetOrganization(key, lookup, absoluteUri)
    ensures StatusCode(r) == 401 <==> !authenticated
    ensures StatusCode(r) == 404 <==> authenticated && !Found(lookup(key))
    ensures StatusCode(r) == 500 <==>
      authenticated && Found(lookup(key)) &&
      Truthy(Field(lookup(key).value, "logo")) && !Field(lookup(key).value, "logo").File?
  {
    if !authenticated then Unauthorized else GetOrganization(key, lookup, absoluteUri)
  }

  // ---------------------------------------------------------------- the endpoint over a store

  /** Looking up organizations stored by short name. */
  function StoreLookup(store: map<string, Record>): string -> Option<Record> {
    k => if k in store then Some(store[k]) else None
  }

  /** Store an organization under its short name. */
  function AddOrganization(store: map<string, Record>, shortName: string, org: Record): (s: map<string, Record>)
    requires Field(org, "short_name") == Str(shortName)
    ensures s.Keys == store.Keys + {shortName} && s[shortName] == org
    ensures forall k :: k in store && k != shortName ==> s[k] == store[k]
  {
    store[shortName := org]
  }

  /**
    The endpoint answers 404 for a key nobody stored; once the organization is
    added under that key (with no logo, or a file as its logo), it answers 200
    with the stored name.
   */
  lemma NotFoundThenFound(store: map<string, Record>, key: string, org: Record, name: string,
                          absoluteUri: string -> string)
    requires key !in store
    requires Field(org, "short_name") == Str(key)
    requires Field(org, "name") == Str(name)
    requires Truthy(Field(org, "logo")) ==> Field(org, "logo").File?
    ensures StatusCode(HandleGet(true, key, StoreLookup(store), absoluteUri)) == 404
    ensures var after := HandleGet(true, key, StoreLookup(AddOrganization(store, key, org)), absoluteUri);
      StatusCode(after) == 200 && after.data[NAME_KEY] == Str(name)
  {
    var added := AddOrganization(store, key, org);
    assert "short_name" in org;
    assert |org| > 0 by {
      assert "short_name" in org.Keys;
    }
    assert StoreLookup(added)(key) == Some(org);
  }
}
