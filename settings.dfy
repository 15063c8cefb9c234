/**
 * The settings store: the rendering service's address and whether to render
 * automatically, each persisted under its own key. A setter changes memory
 * only after its write succeeded; loading takes a stored address only when it
 * is non-empty and a stored flag whenever it is present.
 */
module Settings {
  import opened Wrappers
  import Storage

  const ApiUrlKey := "@puml_viewer_api_url"
  const AutoRenderKey := "@puml_viewer_auto_render"
  const DefaultApiUrl := "https://spuml.mewis.me"

  /** `Boolean.prototype.toString`. */
  function BoolToString(b: bool): (s: string)
    ensures s == "true" <==> b
  {
    if b then "true" else "false"
  }

  /** The address after a successful load: a stored string is kept only if it is truthy. */
  function LoadedApiUrl(current: string, saved: Option<string>): (r: string)
    ensures saved.Some? && saved.value != "" ==> r == saved.value
    ensures saved.None? || saved.value == "" ==> r == current
  {
    if saved.Some? && saved.value != "" then saved.value else current
  }

  /** The flag after a successful load: any stored string other than "true" reads as false. */
  function LoadedAutoRender(current: bool, saved: Option<string>): (r: bool)
    ensures saved.Some? ==> (r <==> saved.value == "true")
    ensures saved.None? ==> r == current
  {
    if saved.Some? then saved.value == "true" else current
  }

  /** The flag written by `SetAutoRender(b)` is read back as exactly `b`. */
  lemma AutoRenderRoundTrip(current: bool, b: bool)
    ensures LoadedAutoRender(current, Some(BoolToString(b))) == b
  {
  }

  /**
   * An address written by `SetApiUrl(u)` is read back when `u` is non-empty;
   * the empty address is written but a later load keeps whatever is current.
   */
  lemma ApiUrlRoundTrip(current: string, u: string)
    ensures u != "" ==> LoadedApiUrl(current, Some(u)) == u
    ensures LoadedApiUrl(current, Some("")) == current
  {
  }

  class SettingsStore {
    var apiUrl: string
    var autoRender: bool
    const apiUrlEntry: Storage.Entry<string>
    const autoRenderEntry: Storage.Entry<string>

    /** The two entries are the two settings keys (and so two different entries). */
    ghost predicate Valid() {
      apiUrlEntry.key == ApiUrlKey && autoRenderEntry.key == AutoRenderKey
    }

    /** Before loading: the default address, automatic rendering on. */
    constructor (apiUrlEntry: Storage.Entry<string>, autoRenderEntry: Storage.Entry<string>)
      requires apiUrlEntry.key == ApiUrlKey && autoRenderEntry.key == AutoRenderKey
      ensures Valid() && apiUrl == DefaultApiUrl && autoRender
      ensures this.apiUrlEntry == apiUrlEntry && this.autoRenderEntry == autoRenderEntry
    {
      apiUrl := DefaultApiUrl;
      autoRender := true;
      this.apiUrlEntry := apiUrlEntry;
      this.autoRenderEntry := autoRenderEntry;
    }

    /** Reads both keys; if either read fails neither setting changes. */
    method LoadSettings() returns (ok: bool)
      modifies this
      ensures ok ==> apiUrl == LoadedApiUrl(old(apiUrl), apiUrlEntry.value)
      ensures ok ==> autoRender == LoadedAutoRender(old(autoRender), autoRenderEntry.value)
      ensures !ok ==> apiUrl == old(apiUrl) && autoRender == old(autoRender)
    {
      var okUrl, savedUrl := apiUrlEntry.Read();
      var okAuto, savedAutoRender := autoRenderEntry.Read();
      ok := okUrl && okAuto;
      if ok {
        apiUrl := LoadedApiUrl(apiUrl, savedUrl);
        autoRender := LoadedAutoRender(autoRender, savedAutoRender);
      }
    }

    /** Stores the address, then adopts it; a failed write changes nothing. */
    method SetApiUrl(url: string) returns (ok: bool)
      requires Valid()
      modifies this, apiUrlEntry
      ensures apiUrlEntry.value == (if ok then Some(url) else old(apiUrlEntry.value))
      ensures apiUrl == (if ok then url else old(apiUrl))
      ensures autoRender == old(autoRender) && autoRenderEntry.value == old(autoRenderEntry.value)
    {
      ok := apiUrlEntry.Write(url);
      if ok {
        apiUrl := url;
      }
    }

    /** Stores the flag as text, then adopts it; a failed write changes nothing. */
    method SetAutoRender(enabled: bool) returns (ok: bool)
      requires Valid()
      modifies this, autoRenderEntry
      ensures autoRenderEntry.value == (if ok then Some(BoolToString(enabled)) else old(autoRenderEntry.value))
      ensures autoRender == (if ok then enabled else old(autoRender))
      ensures apiUrl == old(apiUrl) && apiUrlEntry.value == old(apiUrlEntry.value)
    {
      ok := autoRenderEntry.Write(BoolToString(enabled));
      if ok {
        autoRender := enabled;
      }
    }
  }
}
