/**
 * The capability catalog: the fixed, ordered list of remote browser/OS
 * profiles that scenarios rotate through. A profile is a string-to-string
 * dictionary as the remote provider expects it.
 */
module Capabilities {

  type Profile = map<string, string>

  /** The credentials are the NAMES of configuration variables, not secrets. */
  const BrowserStackUsername: string := "BROWSERSTACK_USERNAME"
  const BrowserStackAccessKey: string := "BROWSERSTACK_ACCESS_KEY"

  const Build: string := "playwright-dotnet-3"
  const Os: string := "osx"
  const OsVersion: string := "catalina"

  /** The keys every profile of the catalog carries. */
  const CommonKeys: set<string> :=
    {"browser", "os", "os_version", "name", "build", "browserstack.username", "browserstack.accessKey"}

  function CatalinaChrome(): Profile
  {
    map[
      "browser" := "chrome",
      "browser_version" := "latest",
      "os" := Os,
      "os_version" := OsVersion,
      "name" := "Branded Google Chrome on Catalina",
      "build" := Build,
      "browserstack.username" := BrowserStackUsername,
      "browserstack.accessKey" := BrowserStackAccessKey
    ]
  }

  function CatalinaEdge(): Profile
  {
    map[
      "browser" := "edge",
      "browser_version" := "latest",
      "os" := Os,
      "os_version" := OsVersion,
      "name" := "Branded Microsoft Edge on Catalina",
      "build" := Build,
      "browserstack.username" := BrowserStackUsername,
      "browserstack.accessKey" := BrowserStackAccessKey
    ]
  }

  function CatalinaChromium(): Profile
  {
    map[
      "browser" := "playwright-chromium",
      "os" := Os,
      "os_version" := OsVersion,
      "name" := "Playwright chromium on Catalina",
      "build" := Build,
      "browserstack.username" := BrowserStackUsername,
      "browserstack.accessKey" := BrowserStackAccessKey
    ]
  }

  /**
   * The catalog, rebuilt identically on every call: Chrome, Edge and
   * Playwright Chromium, all on macOS Catalina under one build label.
   */
  function CapabilitiesList(): (catalog: seq<Profile>)
    ensures |catalog| == 3
    ensures forall i :: 0 <= i < |catalog| ==> CommonKeys <= catalog[i].Keys
    ensures forall i :: 0 <= i < |catalog| ==>
      && catalog[i]["build"] == Build
      && catalog[i]["os"] == Os
      && catalog[i]["os_version"] == OsVersion
    ensures forall i :: 0 <= i < |catalog| ==>
      && catalog[i]["browserstack.username"] == "BROWSERSTACK_USERNAME"
      && catalog[i]["browserstack.accessKey"] == "BROWSERSTACK_ACCESS_KEY"
    ensures forall i, j :: 0 <= i < j < |catalog| ==> catalog[i]["name"] != catalog[j]["name"]
    ensures catalog[0]["browser"] == "chrome" && catalog[1]["browser"] == "edge"
    ensures catalog[2]["browser"] == "playwright-chromium"
    ensures catalog[0].Keys == catalog[1].Keys == CommonKeys + {"browser_version"}
    ensures catalog[0]["browser_version"] == catalog[1]["browser_version"] == "latest"
    ensures catalog[2].Keys == CommonKeys && "browser_version" !in catalog[2]
  {
    assert CatalinaChrome().Keys == CommonKeys + {"browser_version"};
    assert CatalinaEdge().Keys == CommonKeys + {"browser_version"};
    assert CatalinaChromium().Keys == CommonKeys;
    [CatalinaChrome(), CatalinaEdge(), CatalinaChromium()]
  }

  /**
   * The first two profiles carry eight keys, the third only seven: the key
   * sets of the catalog are not uniform.
   */
  lemma CatalogKeyCounts()
    ensures |CapabilitiesList()[0]| == 8 && |CapabilitiesList()[1]| == 8
    ensures |CapabilitiesList()[2]| == 7
  {
    var catalog := CapabilitiesList();
    assert |CommonKeys| == 7;
    assert "browser_version" !in CommonKeys;
    assert |CommonKeys + {"browser_version"}| == 8;
  }

  /** The display names of the three profiles, in catalog order. */
  lemma CatalogNames()
    ensures "name" in CapabilitiesList()[0] && "name" in CapabilitiesList()[1]
    ensures "name" in CapabilitiesList()[2]
    ensures CapabilitiesList()[0]["name"] == "Branded Google Chrome on Catalina"
    ensures CapabilitiesList()[1]["name"] == "Branded Microsoft Edge on Catalina"
    ensures CapabilitiesList()[2]["name"] == "Playwright chromium on Catalina"
  {
  }
}
