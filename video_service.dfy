/** VideoService: the streaming providers, the quality ladder, the
    recommended quality for a connection speed and the stream URLs. */
module VideoService {
  import opened Common

  // ---- providers --------------------------------------------------------------

  /** The provider keys in the order the provider table declares them. */
  const ProviderKeys: seq<string> := ["aws", "gcp", "azure"]

  /** videoProviders: provider key to display name. */
  const VideoProviders: map<string, string> :=
    map["aws" := "Amazon AWS", "gcp" := "Google Cloud Platform", "azure" := "Microsoft Azure"]

  /** The host part that every stream URL starts with. */
  const StreamHost: string := "https://streaming.apocalypseacademy.com/"

  /** getVideoStreamUrl's table of base URLs. */
  const BaseUrls: map<string, string> :=
    map["aws" := "https://streaming.apocalypseacademy.com/aws/",
        "gcp" := "https://streaming.apocalypseacademy.com/gcp/",
        "azure" := "https://streaming.apocalypseacademy.com/azure/"]

  /** The key order lists every provider exactly once, and the base URL table
      has one entry per provider: the host followed by the key. */
  lemma ProviderTablesAgree()
    ensures NoDuplicates(ProviderKeys)
    ensures forall k :: k in VideoProviders <==> k in ProviderKeys
    ensures BaseUrls.Keys == VideoProviders.Keys
    ensures forall k :: k in BaseUrls ==> BaseUrls[k] == StreamHost + k + "/"
  {
    assert "aws"[0] != "gcp"[0] && "gcp"[0] != "azure"[0] && "aws"[1] != "azure"[1];
    assert BaseUrls["aws"] == StreamHost + "aws" + "/";
    assert BaseUrls["gcp"] == StreamHost + "gcp" + "/";
    assert BaseUrls["azure"] == StreamHost + "azure" + "/";
  }

  /** One entry of getAvailableProviders. */
  datatype ProviderInfo = ProviderInfo(id: string, name: string)

  /** getAvailableProviders: one entry per provider key, in key order, named
      from the provider table. */
  function AvailableProviders(): (r: seq<ProviderInfo>)
    ensures |r| == |ProviderKeys|
    ensures forall i :: 0 <= i < |r| ==> r[i].id in VideoProviders && r[i].name == VideoProviders[r[i].id]
  {
    seq(|ProviderKeys|, i requires 0 <= i < |ProviderKeys| =>
      ProviderInfo(ProviderKeys[i], VideoProviders[ProviderKeys[i]]))
  }

  /** Every provider appears in the list exactly once. */
  lemma ProvidersListedOnce(k: string)
    requires k in VideoProviders
    ensures exists i :: 0 <= i < |AvailableProviders()| && AvailableProviders()[i] == ProviderInfo(k, VideoProviders[k])
    ensures forall i, j :: 0 <= i < j < |AvailableProviders()| ==> AvailableProviders()[i].id != AvailableProviders()[j].id
  {
    ProviderTablesAgree();
    var r := AvailableProviders();
    var i :| 0 <= i < |ProviderKeys| && ProviderKeys[i] == k;
    assert r[i] == ProviderInfo(k, VideoProviders[k]);
    forall i, j | 0 <= i < j < |r| ensures r[i].id != r[j].id {
      assert r[i].id == ProviderKeys[i] && r[j].id == ProviderKeys[j];
    }
  }

  // ---- quality ladder -----------------------------------------------------------

  /** One entry of qualityOptions; `auto` has the adaptive bitrate, written `None`. */
  datatype QualityOption = QualityOption(title: string, value: string, bitrate: Option<nat>)

  const DefaultQuality: string := "auto"

  /** qualityOptions, highest first, `auto` last. */
  function QualityOptions(): (r: seq<QualityOption>)
    ensures |r| == 6
  {
    [QualityOption("4K", "4k", Some(15000)),
     QualityOption("1080p", "1080p", Some(5000)),
     QualityOption("720p", "720p", Some(2500)),
     QualityOption("480p", "480p", Some(1000)),
     QualityOption("360p", "360p", Some(600)),
     QualityOption("Auto", "auto", None)]
  }

  /** The fixed bitrates strictly decrease down the ladder, and only the
      last entry, the default quality, is adaptive. */
  lemma QualityLadderOrdered()
    ensures forall i, j :: 0 <= i < j < 5 ==> QualityOptions()[i].bitrate.value > QualityOptions()[j].bitrate.value
    ensures forall i :: 0 <= i < 5 ==> QualityOptions()[i].bitrate.Some?
    ensures QualityOptions()[5].value == DefaultQuality && QualityOptions()[5].bitrate.None?
  {
  }

  /** The ladder position (0 is the highest) the speed thresholds pick. */
  function QualityStep(speed: int): (k: nat)
    ensures k < 5
  {
    if speed > 20000 then 0
    else if speed > 8000 then 1
    else if speed > 4000 then 2
    else if speed > 1500 then 3
    else 4
  }

  /** getRecommendedQuality for an estimated connection speed in kbps: always
      the value of a fixed-bitrate entry of the quality ladder. */
  function RecommendedQuality(speed: int): (q: string)
    ensures q == QualityOptions()[QualityStep(speed)].value
  {
    if speed > 20000 then "4k"
    else if speed > 8000 then "1080p"
    else if speed > 4000 then "720p"
    else if speed > 1500 then "480p"
    else "360p"
  }

  /** The bitrate of the recommended quality. */
  function RecommendedBitrate(speed: int): nat {
    QualityLadderOrdered();
    QualityOptions()[QualityStep(speed)].bitrate.value
  }

  /** A faster connection is never recommended a lower quality. */
  lemma RecommendedQualityMonotone(s1: int, s2: int)
    requires s1 <= s2
    ensures QualityStep(s2) <= QualityStep(s1)
    ensures RecommendedBitrate(s1) <= RecommendedBitrate(s2)
  {
    QualityLadderOrdered();
  }

  /** From the estimator's lowest speed of 1000 kbps up, the recommended
      bitrate never exceeds the speed it was chosen for. */
  lemma RecommendedBitrateFits(speed: int)
    requires speed >= 1000
    ensures RecommendedBitrate(speed) <= speed
  {
  }

  // ---- stream URLs --------------------------------------------------------------

  /** `${baseUrls[provider]}${videoId}/${quality}/stream.m3u8`; a provider
      without a base URL is interpolated as `undefined`. */
  function StreamUrl(videoId: string, quality: string, provider: string): (r: string)
    ensures provider in BaseUrls ==> StreamHost <= r
    ensures provider !in BaseUrls ==> "undefined" <= r
  {
    (if provider in BaseUrls then BaseUrls[provider] else "undefined") + videoId + "/" + quality + "/stream.m3u8"
  }

  /** The `/`-separated segments of a string, as `split("/")` gives them. */
  function SplitSlash(s: string): (r: seq<string>)
    ensures |r| >= 1
    decreases |s|
  {
    if s == [] then [""]
    else if s[0] == '/' then [""] + SplitSlash(s[1..])
    else
      var rest := SplitSlash(s[1..]);
      [[s[0]] + rest[0]] + rest[1..]
  }

  lemma {:induction false} SplitSlashSingle(a: string)
    requires '/' !in a
    ensures SplitSlash(a) == [a]
    decreases |a|
  {
    if a != [] {
      SplitSlashSingle(a[1..]);
      assert [a[0]] + a[1..] == a;
    }
  }

  lemma {:induction false} SplitSlashJoin(a: string, b: string)
    requires '/' !in a
    ensures SplitSlash(a + "/" + b) == [a] + SplitSlash(b)
    decreases |a|
  {
    if a == [] {
      assert a + "/" + b == ['/'] + b;
      assert (a + "/" + b)[1..] == b;
    } else {
      SplitSlashJoin(a[1..], b);
      assert (a + "/" + b)[1..] == a[1..] + "/" + b;
      assert [a[0]] + a[1..] == a;
    }
  }

  /** Reads a stream URL back into its provider, video id and quality. */
  function ParseStreamUrl(url: string): (r: Option<(string, string, string)>)
    ensures r.Some? ==> r.value.0 in VideoProviders
  {
    if |url| < |StreamHost| || url[..|StreamHost|] != StreamHost then None
    else
      var parts := SplitSlash(url[|StreamHost|..]);
      if |parts| == 4 && parts[0] in VideoProviders && parts[3] == "stream.m3u8" then Some((parts[0], parts[1], parts[2]))
      else None
  }

  /** The segments of four `/`-free parts joined by `/`. */
  lemma SplitSlashFour(a: string, b: string, c: string, d: string)
    requires '/' !in a && '/' !in b && '/' !in c && '/' !in d
    ensures SplitSlash(a + "/" + (b + "/" + (c + "/" + d))) == [a, b, c, d]
  {
    SplitSlashSingle(d);
    SplitSlashJoin(c, d);
    SplitSlashJoin(b, c + "/" + d);
    SplitSlashJoin(a, b + "/" + (c + "/" + d));
  }

  /** A known provider's stream URL is the host followed by four parts. */
  lemma StreamUrlShape(videoId: string, quality: string, provider: string)
    requires provider in VideoProviders
    ensures '/' !in provider
    ensures StreamUrl(videoId, quality, provider) ==
              StreamHost + (provider + "/" + (videoId + "/" + (quality + "/" + "stream.m3u8")))
  {
    ProviderTablesAgree();
    assert "/stream.m3u8" == "/" + "stream.m3u8";
  }

  /** A URL built for a known provider from a video id and a quality without
      `/` reads back as exactly those three. */
  lemma StreamUrlRoundTrip(videoId: string, quality: string, provider: string)
    requires provider in VideoProviders
    requires '/' !in videoId && '/' !in quality
    ensures ParseStreamUrl(StreamUrl(videoId, quality, provider)) == Some((provider, videoId, quality))
  {
    StreamUrlShape(videoId, quality, provider);
    var tail := "stream.m3u8";
    assert '/' !in tail;
    var rest := provider + "/" + (videoId + "/" + (quality + "/" + tail));
    var url := StreamHost + rest;
    assert url[..|StreamHost|] == StreamHost && url[|StreamHost|..] == rest;
    SplitSlashFour(provider, videoId, quality, tail);
  }

  /** The playlist file and the quality close every stream URL. */
  lemma StreamUrlEnds(videoId: string, quality: string, provider: string)
    ensures EndsWith(StreamUrl(videoId, quality, provider), quality + "/stream.m3u8")
  {
    var url := StreamUrl(videoId, quality, provider);
    var head := (if provider in BaseUrls then BaseUrls[provider] else "undefined") + videoId + "/";
    assert url == head + (quality + "/stream.m3u8");
  }

  predicate EndsWith(s: string, suffix: string) {
    |suffix| <= |s| && s[|s| - |suffix|..] == suffix
  }

  // ---- setProvider as written ---------------------------------------------------

  /** setProvider as written tests `videoProviders[providerId]` for
      truthiness, which also holds for the names every object inherits; the
      result and the new current provider. */
  function SetProviderAsWritten(current: string, providerId: string): (r: (bool, string))
    ensures r.0 <==> providerId in VideoProviders || providerId in InheritedNames
    ensures r.1 == if r.0 then providerId else current
  {
    if providerId in VideoProviders || providerId in InheritedNames then (true, providerId) else (false, current)
  }

  /** As written, "constructor" is accepted and becomes the current provider
      although no provider has that name. */
  lemma SetProviderAcceptsInheritedName()
    ensures "constructor" !in VideoProviders
    ensures SetProviderAsWritten("aws", "constructor") == (true, "constructor")
  {
    assert "constructor"[0] !in {'a', 'g'};
    assert "constructor" in InheritedNames;
  }

  // ---- the service --------------------------------------------------------------

  class VideoService {
    var currentProvider: string

    /** The current provider is always one of the providers. */
    ghost predicate Valid()
      reads this
    {
      currentProvider in VideoProviders
    }

    constructor()
      ensures Valid()
      ensures currentProvider == "aws"
    {
      currentProvider := "aws";
    }

    /** setProvider, for own provider keys only: a provider key becomes
        current and true is returned; anything else changes nothing. */
    method SetProvider(providerId: string) returns (ok: bool)
      requires Valid()
      modifies this`currentProvider
      ensures Valid()
      ensures ok <==> providerId in VideoProviders
      ensures ok ==> currentProvider == providerId
      ensures !ok ==> currentProvider == old(currentProvider)
    {
      if providerId in VideoProviders {
        currentProvider := providerId;
        ok := true;
      } else {
        ok := false;
      }
    }

    /** getVideoStreamUrl: an omitted quality is the default quality and an
        omitted provider the current one. With no provider given, the URL is
        always one of a known provider; with a known provider given, it is
        that provider's; either way ParseStreamUrl reads the parts back. A
        provider without a base URL yields a URL starting `undefined`. */
    function GetVideoStreamUrl(videoId: string, quality: Option<string>, provider: Option<string>): (url: string)
      requires Valid()
      reads this
      ensures provider.None? && '/' !in videoId && (quality.None? || '/' !in quality.value) ==>
                ParseStreamUrl(url) == Some((currentProvider, videoId, if quality.Some? then quality.value else DefaultQuality))
      ensures provider.Some? && provider.value in VideoProviders && '/' !in videoId && (quality.None? || '/' !in quality.value) ==>
                ParseStreamUrl(url) == Some((provider.value, videoId, if quality.Some? then quality.value else DefaultQuality))
      ensures provider.Some? && provider.value !in BaseUrls ==> "undefined" <= url
      ensures quality.None? ==> EndsWith(url, DefaultQuality + "/stream.m3u8")
    {
      var q := if quality.Some? then quality.value else DefaultQuality;
      var p := if provider.Some? then provider.value else currentProvider;
      StreamUrlEnds(videoId, q, p);
      if p in VideoProviders && '/' !in videoId && '/' !in q then
        StreamUrlRoundTrip(videoId, q, p);
        StreamUrl(videoId, q, p)
      else
        StreamUrl(videoId, q, p)
    }

    /** getQualityOptions: the quality ladder. */
    function GetQualityOptions(): (r: seq<QualityOption>)
      ensures |r| == 6 && r[5].value == DefaultQuality && r[5].bitrate.None?
      ensures forall i :: 0 <= i < 5 ==> r[i].bitrate.Some?
    {
      QualityLadderOrdered();
      QualityOptions()
    }
  }
}
