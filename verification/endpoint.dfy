/**
 * The remote-provider endpoint: a fixed WebSocket prefix followed by the
 * URI-escaped JSON form of the selected profile. JSON serialisation and
 * URI escaping are library calls; here they are parameters.
 */
module Endpoint {
  import opened Wrappers
  import opened Capabilities

  const EndpointPrefix: string := "wss://cdp.browserstack.com/playwright?caps="

  /** The endpoint for `caps`, given the serialiser and the URI escaper. */
  function EndpointUrl(caps: Profile, serialize: Profile -> string, escape: string -> string): (url: string)
    ensures |EndpointPrefix| <= |url| && url[..|EndpointPrefix|] == EndpointPrefix
    ensures url[|EndpointPrefix|..] == escape(serialize(caps))
  {
    EndpointPrefix + escape(serialize(caps))
  }

  /** The `caps` query value of an endpoint, if the string is one. */
  function CapsParameter(url: string): (encoded: Option<string>)
    ensures encoded.Some? <==> |EndpointPrefix| <= |url| && url[..|EndpointPrefix|] == EndpointPrefix
    ensures encoded.Some? ==> url == EndpointPrefix + encoded.value
  {
    StripPrefix(EndpointPrefix, url)
  }

  ghost predicate Injective<X(!new), Y>(f: X -> Y)
  {
    forall a, b :: f(a) == f(b) ==> a == b
  }

  /** The endpoint carries exactly the escaped serialised profile, recoverable from the URL. */
  lemma EndpointCarriesCaps(caps: Profile, serialize: Profile -> string, escape: string -> string)
    ensures CapsParameter(EndpointUrl(caps, serialize, escape)) == Some(escape(serialize(caps)))
  {
  }

  /**
   * With an injective serialiser and escaper (as JSON serialisation and
   * percent-encoding are), different profiles get different endpoints.
   */
  lemma DistinctProfilesDistinctEndpoints(a: Profile, b: Profile,
                                          serialize: Profile -> string, escape: string -> string)
    requires Injective(serialize) && Injective(escape)
    requires a != b
    ensures EndpointUrl(a, serialize, escape) != EndpointUrl(b, serialize, escape)
  {
  }

  /** The three catalog profiles lead to three different endpoints. */
  lemma CatalogEndpointsDistinct(serialize: Profile -> string, escape: string -> string)
    requires Injective(serialize) && Injective(escape)
    ensures forall i, j :: 0 <= i < j < |CapabilitiesList()| ==>
      EndpointUrl(CapabilitiesList()[i], serialize, escape)
        != EndpointUrl(CapabilitiesList()[j], serialize, escape)
  {
  }
}
