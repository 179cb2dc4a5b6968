/**
 * A live test case: `server_url` is a guarded property over the private field
 * `_server_url`. The field starts out unset; the setter stores a string; the
 * getter hands it back only when it is truthy (set and non-empty) and raises
 * `AttributeError` otherwise.
 */
module Case {
  import opened Wrappers
  import opened Flask

  datatype CaseError = AttributeError

  /** Python truthiness of the stored `_server_url`: `None` and `''` are falsy. */
  predicate Truthy(stored: Option<string>) {
    stored.Some? && stored.value != ""
  }

  class TestCase {
    /** `_server_url`; `None` until the setter runs. */
    var storedUrl: Option<string>
    /** `app`, a plain attribute that a live suite writes before the case runs. */
    var app: Option<App>

    constructor ()
      ensures storedUrl == None && app == None
    {
      storedUrl := None;
      app := None;
    }

    /** The `server_url` getter; it reads the field and changes nothing. */
    method ServerUrl() returns (r: Result<string, CaseError>)
      ensures r.Ok? <==> Truthy(storedUrl)
      ensures r.Ok? ==> r.value == storedUrl.value
      ensures r.Err? ==> r.error == AttributeError
    {
      if storedUrl.Some? && storedUrl.value != "" {
        r := Ok(storedUrl.value);
      } else {
        r := Err(AttributeError);
      }
    }

    /** The `server_url` setter: stores `url` and touches no other field. */
    method SetServerUrl(url: string)
      modifies this`storedUrl
      ensures storedUrl == Some(url)
    {
      storedUrl := Some(url);
    }
  }

  /**
   * The life of one case's `server_url`: unreadable when fresh, readable after a
   * non-empty write, still unreadable after an empty one, and the last write wins.
   */
  method ServerUrlLifecycle(first: string, second: string)
    returns (unset: Result<string, CaseError>, afterFirst: Result<string, CaseError>,
             afterSecond: Result<string, CaseError>)
    ensures unset == Err(AttributeError)
    ensures afterFirst == if first == "" then Err(AttributeError) else Ok(first)
    ensures afterSecond == if second == "" then Err(AttributeError) else Ok(second)
  {
    var c := new TestCase();
    unset := c.ServerUrl();
    c.SetServerUrl(first);
    afterFirst := c.ServerUrl();
    c.SetServerUrl(second);
    afterSecond := c.ServerUrl();
  }
}
