/**
 * `ServerInstallation`: one entry of the public directory of Dataverse
 * installations, and the two ways the client rewrites a hostname.
 */
module Installations {
  import opened Wrappers
  import opened Text

  /** A JSON number carried as its IEEE 754 bits; the client never reads it. */
  datatype Float = Float(bits: bv64)

  /** A mutable record: the server constructor rewrites `hostname` in place. */
  class ServerInstallation {
    var name: Option<string>
    var description: Option<string>
    var lat: Option<Float>
    var lng: Option<Float>
    var hostname: Option<string>
    var metrics: Option<bool>
    var launchYear: Option<string>
    var country: Option<string>
    var continent: Option<string>
    var harvestingSets: Option<seq<string>>
    var coreTrustSeals: Option<seq<string>>
    var gdccMember: Option<bool>
    var doiAuthority: Option<string>
    var board: Option<string>
    var contactEmail: Option<string>

    /** Every field defaults to absent, except `metrics`, which defaults to false. */
    constructor (
      name: Option<string> := None,
      description: Option<string> := None,
      lat: Option<Float> := None,
      lng: Option<Float> := None,
      hostname: Option<string> := None,
      metrics: Option<bool> := Some(false),
      launchYear: Option<string> := None,
      country: Option<string> := None,
      continent: Option<string> := None,
      harvestingSets: Option<seq<string>> := None,
      coreTrustSeals: Option<seq<string>> := None,
      gdccMember: Option<bool> := None,
      doiAuthority: Option<string> := None,
      board: Option<string> := None,
      contactEmail: Option<string> := None)
      ensures this.name == name && this.description == description
      ensures this.lat == lat && this.lng == lng && this.hostname == hostname
      ensures this.metrics == metrics && this.launchYear == launchYear
      ensures this.country == country && this.continent == continent
      ensures this.harvestingSets == harvestingSets && this.coreTrustSeals == coreTrustSeals
      ensures this.gdccMember == gdccMember && this.doiAuthority == doiAuthority
      ensures this.board == board && this.contactEmail == contactEmail
    {
      this.name := name;
      this.description := description;
      this.lat := lat;
      this.lng := lng;
      this.hostname := hostname;
      this.metrics := metrics;
      this.launchYear := launchYear;
      this.country := country;
      this.continent := continent;
      this.harvestingSets := harvestingSets;
      this.coreTrustSeals := coreTrustSeals;
      this.gdccMember := gdccMember;
      this.doiAuthority := doiAuthority;
      this.board := board;
      this.contactEmail := contactEmail;
    }

    /** Every field other than `hostname` holds its default. */
    predicate HasOnlyHostname()
      reads this
    {
      && name.None? && description.None? && lat.None? && lng.None?
      && metrics == Some(false) && launchYear.None? && country.None? && continent.None?
      && harvestingSets.None? && coreTrustSeals.None? && gdccMember.None?
      && doiAuthority.None? && board.None? && contactEmail.None?
    }

    /** Between two states, no field other than `hostname` changed. */
    twostate predicate OnlyHostnameChanged()
      reads this
    {
      && name == old(name) && description == old(description)
      && lat == old(lat) && lng == old(lng) && metrics == old(metrics)
      && launchYear == old(launchYear) && country == old(country)
      && continent == old(continent) && harvestingSets == old(harvestingSets)
      && coreTrustSeals == old(coreTrustSeals) && gdccMember == old(gdccMember)
      && doiAuthority == old(doiAuthority) && board == old(board)
      && contactEmail == old(contactEmail)
    }
  }

  /** The hostnames of the directory's entries, in order. */
  function HostnamesOf(directory: seq<ServerInstallation>): (hs: seq<Option<string>>)
    reads directory
    ensures |hs| == |directory|
    ensures forall i :: 0 <= i < |directory| ==> hs[i] == directory[i].hostname
  {
    if directory == [] then [] else [directory[0].hostname] + HostnamesOf(directory[1..])
  }

  /** The index of the last entry equal to `h`, if any. */
  function LastIndexOf(hs: seq<Option<string>>, h: Option<string>): (k: Option<nat>)
    ensures k.Some? ==> k.value < |hs| && hs[k.value] == h
    ensures k.Some? ==> forall j :: k.value < j < |hs| ==> hs[j] != h
    ensures k.None? ==> forall j :: 0 <= j < |hs| ==> hs[j] != h
  {
    if hs == [] then None
    else if hs[|hs| - 1] == h then Some(|hs| - 1)
    else LastIndexOf(hs[..|hs| - 1], h)
  }

  /** `s.replace("https://", "").replace("http://", "")`. */
  function Normalize(s: string): (r: string)
    ensures |r| <= |s|
    ensures !Occurs(s, "https://") && !Occurs(s, "http://") ==> r == s
    ensures Occurs(s, "https://") ==> |r| <= |s| - 8
    ensures Occurs(s, "http://") ==> |r| <= |s| - 7
  {
    var once := RemoveAll(s, "https://");
    RemoveAll(once, "http://")
  }

  /** A hostname beginning with "https://" loses exactly those 8 characters; any other is kept. */
  function StripHttpsPrefix(h: Option<string>): (r: Option<string>)
    ensures h.Some? && StartsWith(h.value, "https://") ==> r.Some? && "https://" + r.value == h.value
    ensures !(h.Some? && StartsWith(h.value, "https://")) ==> r == h
  {
    if h.Some? && h.value != "" && StartsWith(h.value, "https://") then Some(h.value[8..]) else h
  }

  /**
   * A host (with or without a port) that holds no scheme itself, typed with
   * or without a scheme in front, normalises to itself.
   */
  lemma NormalizeDropsScheme(host: string)
    requires !Occurs(host, "https://") && !Occurs(host, "http://")
    ensures Normalize(host) == host
    ensures Normalize("https://" + host) == host
    ensures Normalize("http://" + host) == host
  {
    RemoveAllLeading("https://", host);
    RemoveAllLeading("http://", host);
    var h := "http://" + host;
    assert !StartsWith(h, "https://") by { assert h[4] != "https://"[4]; }
    assert h[1..] == "ttp://" + host;
    OccursSkip("ttp://", host, "https://");
  }

  /** A hostname written with "https://" loses just that prefix; one without it is kept. */
  lemma StripHttpsPrefixOnce(host: string)
    ensures StripHttpsPrefix(Some("https://" + host)) == Some(host)
    ensures !StartsWith(host, "https://") ==> StripHttpsPrefix(Some(host)) == Some(host)
  {
    assert ("https://" + host)[..8] == "https://";
  }
}
