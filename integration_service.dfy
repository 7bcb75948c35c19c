/** IntegrationService: the connection state of the three platform
    integrations (Spotify, Telegram, WhatsApp), the operations that connect
    and disconnect them, and the operations they guard. */
module IntegrationService {
  import opened Common

  /** One platform's entry. `credential` is Spotify's and WhatsApp's
      `apiKey` and Telegram's `botToken`. */
  datatype Integration = Integration(enabled: bool, credential: string, connected: bool)

  /** The `integrations` object, keyed by platform name. */
  type Integrations = map<string, Integration>

  const PlatformKeys: set<string> := {"spotify", "telegram", "whatsapp"}

  /** The state the service is constructed with. */
  function InitialIntegrations(): (m: Integrations)
    ensures m.Keys == PlatformKeys
    ensures forall k :: k in m ==> m[k].enabled && !m[k].connected
    ensures m["spotify"].credential == "mock_spotify_api_key"
    ensures m["telegram"].credential == "mock_telegram_bot_token"
    ensures m["whatsapp"].credential == "mock_whatsapp_api_key"
  {
    map["spotify" := Integration(true, "mock_spotify_api_key", false),
        "telegram" := Integration(true, "mock_telegram_bot_token", false),
        "whatsapp" := Integration(true, "mock_whatsapp_api_key", false)]
  }

  // ---- the state transitions ------------------------------------------------

  /** Connecting a platform: it becomes connected, and a truthy new
      credential replaces the stored one (`token || old`). */
  function Connect(m: Integrations, key: string, token: Option<string>): (r: Integrations)
    requires key in m
    ensures r.Keys == m.Keys
    ensures r[key].connected && r[key].enabled == m[key].enabled
    ensures r[key].credential == if token.Some? && token.value != "" then token.value else m[key].credential
    ensures forall k :: k in m && k != key ==> r[k] == m[k]
  {
    m[key := m[key].(connected := true,
                     credential := if token.Some? && token.value != "" then token.value else m[key].credential)]
  }

  /** Disconnecting a platform: only its `connected` flag is cleared. */
  function Disconnect(m: Integrations, key: string): (r: Integrations)
    requires key in m
    ensures r.Keys == m.Keys
    ensures !r[key].connected && r[key].enabled == m[key].enabled && r[key].credential == m[key].credential
    ensures forall k :: k in m && k != key ==> r[k] == m[k]
  {
    m[key := m[key].(connected := false)]
  }

  /** Connecting twice with the same argument is connecting once. */
  lemma ConnectIdempotent(m: Integrations, key: string, token: Option<string>)
    requires key in m
    ensures Connect(Connect(m, key, token), key, token) == Connect(m, key, token)
  {
    var once := Connect(m, key, token);
    assert Connect(once, key, token)[key] == once[key];
  }

  /** Connecting without a new credential twice in a row, or with a falsy
      one, keeps the first call's credential. */
  lemma ConnectWithoutTokenKeepsCredential(m: Integrations, key: string, token: Option<string>)
    requires key in m
    ensures Connect(Connect(m, key, token), key, None) == Connect(m, key, token)
    ensures Connect(Connect(m, key, token), key, Some("")) == Connect(m, key, token)
  {
    var once := Connect(m, key, token);
    assert Connect(once, key, None)[key] == once[key];
    assert Connect(once, key, Some(""))[key] == once[key];
  }

  /** Disconnecting twice is disconnecting once, and disconnecting undoes a
      connection apart from any credential it stored. */
  lemma DisconnectAfterConnect(m: Integrations, key: string, token: Option<string>)
    requires key in m
    ensures Disconnect(Disconnect(m, key), key) == Disconnect(m, key)
    ensures Disconnect(Connect(m, key, token), key) ==
              Disconnect(m, key)[key := Disconnect(m, key)[key].(credential := Connect(m, key, token)[key].credential)]
  {
    var d := Disconnect(m, key);
    assert Disconnect(d, key)[key] == d[key];
  }

  /** Operations on two different platforms commute. */
  lemma DifferentPlatformsCommute(m: Integrations, a: string, b: string, ta: Option<string>, tb: Option<string>)
    requires a in m && b in m && a != b
    ensures Connect(Connect(m, a, ta), b, tb) == Connect(Connect(m, b, tb), a, ta)
    ensures Disconnect(Connect(m, a, ta), b) == Connect(Disconnect(m, b), a, ta)
  {
    var x, y := Connect(Connect(m, a, ta), b, tb), Connect(Connect(m, b, tb), a, ta);
    assert x[a] == y[a] && x[b] == y[b];
    var u, v := Disconnect(Connect(m, a, ta), b), Connect(Disconnect(m, b), a, ta);
    assert u[a] == v[a] && u[b] == v[b];
  }

  // ---- the records the operations return ---------------------------------

  datatype Receipt = Receipt(success: bool, message: string)

  /** A playlist summary (cover image and embed code are not modelled). */
  datatype Playlist = Playlist(id: string, name: string, tracks: nat, duration: string, spotifyUrl: string)

  datatype Track = Track(id: string, title: string, duration: string)

  datatype PlaylistDetails = PlaylistDetails(
    id: string, name: string, creator: string, tracks: seq<Track>, totalDuration: string, releaseDate: string)

  datatype ChannelInfo = ChannelInfo(channelName: string, username: string, memberCount: nat, inviteLink: string,
                                     isPublic: bool)

  datatype GroupInfo = GroupInfo(groupName: string, memberCount: nat, inviteLink: string, isPrivate: bool)

  /** A sent message; its id is generated from the clock and is a parameter. */
  datatype SentMessage = SentMessage(success: bool, message: string, messageId: string)

  datatype Status = Status(enabled: bool, connected: bool)

  function MockPlaylist(i: nat): Playlist
    requires i < 3
  {
    if i == 0 then
      Playlist("playlist-001", "Devocionais Proféticos - Volume 1", 12, "45 minutos",
               "https://open.spotify.com/playlist/mock1")
    else if i == 1 then
      Playlist("playlist-002", "Apocalipse em Áudio - Capítulos 1-7", 7, "90 minutos",
               "https://open.spotify.com/playlist/mock2")
    else
      Playlist("playlist-003", "Meditações sobre o Arrebatamento", 5, "30 minutos",
               "https://open.spotify.com/playlist/mock3")
  }

  function MockPlaylists(): (r: seq<Playlist>)
    ensures |r| == 3
  {
    seq(3, i requires 0 <= i < 3 => MockPlaylist(i))
  }

  function MockTrack(i: nat): Track
    requires i < 5
  {
    if i == 0 then Track("track-001", "Introdução aos Devocionais Proféticos", "3:45")
    else if i == 1 then Track("track-002", "Daniel 2 - O Sonho de Nabucodonosor", "5:20")
    else if i == 2 then Track("track-003", "Apocalipse 1 - A Revelação de Jesus Cristo", "4:15")
    else if i == 3 then Track("track-004", "Mateus 24 - Os Sinais dos Tempos", "6:10")
    else Track("track-005", "Ezequiel 38 - A Guerra de Gogue e Magogue", "5:30")
  }

  /** The playlist details, under whatever id was asked for. */
  function MockPlaylistDetails(playlistId: string): (d: PlaylistDetails)
    ensures d.id == playlistId && |d.tracks| == 5
  {
    PlaylistDetails(playlistId, "Devocionais Proféticos - Volume 1", "Eric Alberto da Cruz",
                    seq(5, i requires 0 <= i < 5 => MockTrack(i)), "25:00", "2025-02-15")
  }

  function MockChannel(): ChannelInfo {
    ChannelInfo("Apocalypse Academy Community", "@apocalypseacademy", 5280, "https://t.me/apocalypseacademy", true)
  }

  function MockGroup(): GroupInfo {
    GroupInfo("Apocalypse Academy - Membros", 1250, "https://chat.whatsapp.com/mocklink", true)
  }

  /** What disconnectIntegration does on the object as written: `if
      (!this.integrations[platform])` also passes for a name inherited from
      `Object.prototype`, whose `connected` is then set on that inherited
      value, so the integrations themselves do not change. */
  function DisconnectAsWritten(m: Integrations, platform: string): (r: (Result<Receipt>, Integrations))
    ensures platform in m ==> r == (Ok(Receipt(true, platform + " disconnected successfully")), Disconnect(m, platform))
    ensures platform !in m && platform in InheritedNames ==>
              r == (Ok(Receipt(true, platform + " disconnected successfully")), m)
    ensures platform !in m && platform !in InheritedNames ==> r == (Err("Invalid platform: " + platform), m)
  {
    if platform in m then (Ok(Receipt(true, platform + " disconnected successfully")), Disconnect(m, platform))
    else if platform in InheritedNames then (Ok(Receipt(true, platform + " disconnected successfully")), m)
    else (Err("Invalid platform: " + platform), m)
  }

  /** As written, "constructor" is disconnected successfully although no
      platform has that name, and nothing changes. */
  lemma DisconnectAcceptsInheritedName()
    ensures "constructor" !in InitialIntegrations()
    ensures DisconnectAsWritten(InitialIntegrations(), "constructor") ==
              (Ok(Receipt(true, "constructor disconnected successfully")), InitialIntegrations())
  {
    var m := InitialIntegrations();
    assert "constructor"[0] !in {'s', 't', 'w'};
    assert "constructor" !in PlatformKeys;
    assert "constructor" in InheritedNames;
    assert "constructor" + " disconnected successfully" == "constructor disconnected successfully";
  }

  // ---- the service ----------------------------------------------------------

  class IntegrationHub {
    var integrations: Integrations

    /** Exactly the three platforms are present. */
    ghost predicate Valid()
      reads this
    {
      integrations.Keys == PlatformKeys
    }

    constructor()
      ensures Valid()
      ensures integrations == InitialIntegrations()
    {
      integrations := InitialIntegrations();
    }

    /** connectSpotify: Spotify is connected; the authorisation code is not used. */
    method ConnectSpotify(authCode: string) returns (r: Receipt)
      requires Valid()
      modifies this
      ensures Valid()
      ensures integrations == Connect(old(integrations), "spotify", None)
      ensures r == Receipt(true, "Spotify connected successfully")
    {
      integrations := integrations["spotify" := integrations["spotify"].(connected := true)];
      r := Receipt(true, "Spotify connected successfully");
    }

    /** connectTelegram: Telegram is connected, a truthy token replacing the stored one. */
    method ConnectTelegram(botToken: Option<string>) returns (r: Receipt)
      requires Valid()
      modifies this
      ensures Valid()
      ensures integrations == Connect(old(integrations), "telegram", botToken)
      ensures r == Receipt(true, "Telegram bot connected successfully")
    {
      var t := integrations["telegram"].(connected := true);
      t := t.(credential := if botToken.Some? && botToken.value != "" then botToken.value else t.credential);
      integrations := integrations["telegram" := t];
      r := Receipt(true, "Telegram bot connected successfully");
    }

    /** connectWhatsApp: WhatsApp is connected, a truthy key replacing the stored one. */
    method ConnectWhatsApp(apiKey: Option<string>) returns (r: Receipt)
      requires Valid()
      modifies this
      ensures Valid()
      ensures integrations == Connect(old(integrations), "whatsapp", apiKey)
      ensures r == Receipt(true, "WhatsApp Business API connected successfully")
    {
      var w := integrations["whatsapp"].(connected := true);
      w := w.(credential := if apiKey.Some? && apiKey.value != "" then apiKey.value else w.credential);
      integrations := integrations["whatsapp" := w];
      r := Receipt(true, "WhatsApp Business API connected successfully");
    }

    /** getSpotifyPlaylists: fails unless Spotify is connected. */
    method GetSpotifyPlaylists() returns (r: Result<seq<Playlist>>)
      requires Valid()
      ensures r.Err? <==> !integrations["spotify"].connected
      ensures r.Err? ==> r.message == "Spotify not connected"
      ensures r.Ok? ==> r.value == MockPlaylists()
    {
      if !integrations["spotify"].connected {
        return Err("Spotify not connected");
      }
      r := Ok(MockPlaylists());
    }

    /** getSpotifyPlaylistDetails: fails unless Spotify is connected. */
    method GetSpotifyPlaylistDetails(playlistId: string) returns (r: Result<PlaylistDetails>)
      requires Valid()
      ensures r.Err? <==> !integrations["spotify"].connected
      ensures r.Err? ==> r.message == "Spotify not connected"
      ensures r.Ok? ==> r.value == MockPlaylistDetails(playlistId) && r.value.id == playlistId
    {
      if !integrations["spotify"].connected {
        return Err("Spotify not connected");
      }
      r := Ok(MockPlaylistDetails(playlistId));
    }

    /** getTelegramChannelInfo: fails unless Telegram is connected. */
    method GetTelegramChannelInfo() returns (r: Result<ChannelInfo>)
      requires Valid()
      ensures r.Err? <==> !integrations["telegram"].connected
      ensures r.Err? ==> r.message == "Telegram not connected"
      ensures r.Ok? ==> r.value == MockChannel()
    {
      if !integrations["telegram"].connected {
        return Err("Telegram not connected");
      }
      r := Ok(MockChannel());
    }

    /** sendTelegramMessage: fails unless Telegram is connected. */
    method SendTelegramMessage(message: string, messageId: string) returns (r: Result<SentMessage>)
      requires Valid()
      ensures r.Err? <==> !integrations["telegram"].connected
      ensures r.Err? ==> r.message == "Telegram not connected"
      ensures r.Ok? ==> r.value == SentMessage(true, "Message sent successfully", messageId)
    {
      if !integrations["telegram"].connected {
        return Err("Telegram not connected");
      }
      r := Ok(SentMessage(true, "Message sent successfully", messageId));
    }

    /** getWhatsAppGroupInfo: fails unless WhatsApp is connected. */
    method GetWhatsAppGroupInfo() returns (r: Result<GroupInfo>)
      requires Valid()
      ensures r.Err? <==> !integrations["whatsapp"].connected
      ensures r.Err? ==> r.message == "WhatsApp not connected"
      ensures r.Ok? ==> r.value == MockGroup()
    {
      if !integrations["whatsapp"].connected {
        return Err("WhatsApp not connected");
      }
      r := Ok(MockGroup());
    }

    /** sendWhatsAppMessage: fails unless WhatsApp is connected. */
    method SendWhatsAppMessage(message: string, messageId: string) returns (r: Result<SentMessage>)
      requires Valid()
      ensures r.Err? <==> !integrations["whatsapp"].connected
      ensures r.Err? ==> r.message == "WhatsApp not connected"
      ensures r.Ok? ==> r.value == SentMessage(true, "Message sent successfully", messageId)
    {
      if !integrations["whatsapp"].connected {
        return Err("WhatsApp not connected");
      }
      r := Ok(SentMessage(true, "Message sent successfully", messageId));
    }

    /** getIntegrationStatus: each platform's `enabled` and `connected`, as they are now. */
    function GetIntegrationStatus(): (r: map<string, Status>)
      requires Valid()
      reads this
      ensures r.Keys == PlatformKeys
      ensures forall k :: k in r ==> r[k].enabled == integrations[k].enabled && r[k].connected == integrations[k].connected
    {
      map["spotify" := Status(integrations["spotify"].enabled, integrations["spotify"].connected),
          "telegram" := Status(integrations["telegram"].enabled, integrations["telegram"].connected),
          "whatsapp" := Status(integrations["whatsapp"].enabled, integrations["whatsapp"].connected)]
    }

    /** disconnectIntegration: an unknown platform fails and nothing changes;
        a known one has only its `connected` flag cleared. Unlike the code as
        written, a name inherited from `Object.prototype` is unknown. */
    method DisconnectIntegration(platform: string) returns (r: Result<Receipt>)
      requires Valid()
      modifies this
      ensures Valid()
      ensures platform !in PlatformKeys ==> r == Err("Invalid platform: " + platform) && integrations == old(integrations)
      ensures platform in PlatformKeys ==>
                r == Ok(Receipt(true, platform + " disconnected successfully")) &&
                integrations == Disconnect(old(integrations), platform)
    {
      if platform !in integrations {
        return Err("Invalid platform: " + platform);
      }
      integrations := integrations[platform := integrations[platform].(connected := false)];
      r := Ok(Receipt(true, platform + " disconnected successfully"));
    }
  }
}
