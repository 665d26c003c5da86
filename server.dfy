/**
 * Which device the bridge talks to: the server selection and custom address
 * kept in the configuration file, and the base URL and `Referer` header
 * resolved from them.
 */
module Server {

  import opened Text
  import opened Payload

  const LocalhostUrl := "http://localhost"
  const PifireUrl := "http://pifire.local"

  /** The server selection and custom address before any configuration is read. */
  const InitialSelection := "pifire"
  const InitialCustomIp := "192.168.1.100"

  /** The base URL for a server selection and a custom address: the two named
      servers have fixed URLs; anything else is a custom address, stripped of
      surrounding whitespace, falling back to the default host when empty and
      given an `http://` scheme unless it already starts with "http". */
  function ResolveBaseUrl(selection: string, customIp: string): (url: string)
    ensures StartsWith(url, "http")
  {
    if selection == "localhost" then LocalhostUrl
    else if selection == "pifire" then PifireUrl
    else CustomUrl(Strip(customIp))
  }

  /** The URL for a stripped custom address: the default host when empty,
      otherwise the address, with `http://` in front unless it starts with
      "http". */
  function CustomUrl(address: string): (url: string)
    ensures StartsWith(url, "http")
    ensures address != [] ==> |address| <= |url| && url[|url| - |address|..] == address
  {
    var url := if address == [] then PifireUrl else address;
    if !StartsWith(url, "http") then "http://" + url else url
  }

  /** The `Referer` header the poller sends. */
  function EventsReferer(baseUrl: string): string
  {
    baseUrl + "/events/"
  }

  /** A custom URL built from an address without edge whitespace has none
      either. */
  lemma CustomUrlTrimmed(address: string)
    requires address == [] || (!IsSpace(address[0]) && !IsSpace(address[|address| - 1]))
    ensures var url := CustomUrl(address);
      url != [] && !IsSpace(url[0]) && !IsSpace(url[|url| - 1])
  {
    var url := CustomUrl(address);
    if address != [] && !StartsWith(address, "http") {
      assert url[|url| - 1] == address[|address| - 1];
    }
  }

  /** A resolved base URL has no whitespace at either end. */
  lemma ResolvedTrimmed(selection: string, customIp: string)
    ensures var url := ResolveBaseUrl(selection, customIp);
      url != [] && !IsSpace(url[0]) && !IsSpace(url[|url| - 1])
  {
    if selection != "localhost" && selection != "pifire" {
      StripKeepsCore(customIp);
      CustomUrlTrimmed(Strip(customIp));
    }
  }

  /** Storing a resolved base URL as a custom address resolves to the same
      URL: resolution is idempotent. */
  lemma ResolveIdempotent(selection: string, customIp: string, custom: string)
    requires custom != "localhost" && custom != "pifire"
    ensures var url := ResolveBaseUrl(selection, customIp);
      ResolveBaseUrl(custom, url) == url
  {
    var url := ResolveBaseUrl(selection, customIp);
    ResolvedTrimmed(selection, customIp);
    StripFixed(url);
  }

  /** A custom address without a scheme gets `http://` in front. */
  lemma BareAddressExample()
    ensures ResolveBaseUrl("custom", "10.0.0.7") == "http://10.0.0.7"
  {
    StripFixed("10.0.0.7");
    var a := "10.0.0.7";
    assert !StartsWith(a, "http") by {
      assert a[0] != 'h';
    }
  }

  /** A custom address with a scheme is kept as it is. */
  lemma SchemeAddressExample()
    ensures ResolveBaseUrl("custom", "https://grill.lan") == "https://grill.lan"
  {
    var a := "https://grill.lan";
    StripFixed(a);
    assert a[..4] == "http";
  }

  /** A blank custom address falls back to the default host. */
  lemma BlankAddressExample()
    ensures ResolveBaseUrl("custom", " ") == PifireUrl
  {
    assert TrimLeft(" ") == TrimLeft("") == "";
  }

  // ---------------------------------------------------------------------
  // The configuration file
  // ---------------------------------------------------------------------

  /** The selection and custom address after reading the configuration file:
      a missing file keeps the current values; a present one supplies each
      entry, defaulting to "pifire" and to the empty address. */
  function LoadedConfig(file: Option<map<string, string>>, selection: string, customIp: string): (r: (string, string))
    ensures file.None? ==> r == (selection, customIp)
    ensures file.Some? && "server_selection" in file.value ==> r.0 == file.value["server_selection"]
    ensures file.Some? && "server_selection" !in file.value ==> r.0 == "pifire"
    ensures file.Some? && "custom_ip" in file.value ==> r.1 == file.value["custom_ip"]
    ensures file.Some? && "custom_ip" !in file.value ==> r.1 == ""
  {
    match file
    case None => (selection, customIp)
    case Some(entries) =>
      (if "server_selection" in entries then entries["server_selection"] else "pifire",
       if "custom_ip" in entries then entries["custom_ip"] else "")
  }

  /** The configuration file written when the server configuration changes. */
  function SavedConfig(selection: string, customIp: string): map<string, string>
  {
    map["server_selection" := selection, "custom_ip" := customIp]
  }

  /** Reading back a saved configuration restores what was saved, whatever
      was current before. */
  lemma ConfigRoundTrip(selection: string, customIp: string, before: (string, string))
    ensures LoadedConfig(Some(SavedConfig(selection, customIp)), before.0, before.1) == (selection, customIp)
  {
  }

  /** A configuration file with neither entry selects the default host with an
      empty custom address, whatever was current before. */
  lemma EmptyConfigDefaults(before: (string, string))
    ensures var r := LoadedConfig(Some(map[]), before.0, before.1);
      r == ("pifire", "") && ResolveBaseUrl(r.0, r.1) == PifireUrl
  {
  }
}
