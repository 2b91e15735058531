/** The two tokens the client keeps in browser storage under
    "aratiri_accessToken" and "aratiri_refreshToken". */
module Session {
  import opened Wrappers

  const AccessKey := "aratiri_accessToken"
  const RefreshKey := "aratiri_refreshToken"

  /** Truthiness of a `localStorage.getItem` result: absent and empty both
      count as no token. */
  predicate HasText(v: Option<string>) {
    v.Some? && v.value != ""
  }

  /** The stored token pair; `None` is a key that `removeItem` removed or that
      was never set. */
  class TokenStore {
    var access: Option<string>
    var refresh: Option<string>

    constructor (access: Option<string>, refresh: Option<string>)
      ensures this.access == access && this.refresh == refresh
    {
      this.access := access;
      this.refresh := refresh;
    }

    /** Two `setItem` calls. */
    method Save(access: string, refresh: string)
      modifies this
      ensures this.access == Some(access) && this.refresh == Some(refresh)
    {
      this.access := Some(access);
      this.refresh := Some(refresh);
    }

    /** Two `removeItem` calls. */
    method Clear()
      modifies this
      ensures access == None && refresh == None
    {
      access := None;
      refresh := None;
    }
  }
}
