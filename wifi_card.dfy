/** What is known about one wifi card: its chipset type, the hotspot and usage
    classifications, the per-card settings with their defaults, the card record,
    and how both records are written to and read from JSON. */
module WifiCard {
  import opened Json

  // ---------------------------------------------------------------------------
  // Chipset types
  // ---------------------------------------------------------------------------

  /** The chipset families a card can be detected as. */
  datatype WiFiCardType =
    | Unknown
    | Realtek8812au
    | Realtek8814au
    | Realtek88x2bu
    | Realtek8188eu
    | Atheros9khtc
    | Atheros9k
    | Ralink
    | Intel
    | Broadcom

  /** The JSON tag table of the card type, as written: Realtek8188eu is listed twice
      and Realtek8812au not at all. */
  const CardTypeTags: seq<(WiFiCardType, Json)> := [
    (WiFiCardType.Unknown, Null),
    (Realtek8188eu, Str("Realtek8188eu")),
    (Realtek8814au, Str("Realtek8814au")),
    (Realtek88x2bu, Str("Realtek88x2bu")),
    (Realtek8188eu, Str("Realtek8188eu")),
    (Atheros9khtc, Str("Atheros9khtc")),
    (Atheros9k, Str("Atheros9k")),
    (Ralink, Str("Ralink")),
    (Intel, Str("Intel")),
    (Broadcom, Str("Broadcom"))
  ]

  /** The kernel driver module that runs a card of the given type. There is no
      entry for Realtek8814au, so it shares "unknown" with Unknown. */
  function CardTypeToString(t: WiFiCardType): (s: string)
    ensures |s| > 0
    ensures s == "unknown" <==> t == WiFiCardType.Unknown || t == Realtek8814au
  {
    match t
    case Atheros9k => "ath9k"
    case Atheros9khtc => "ath9k_htc"
    case Realtek8812au => "88xxau"
    case Realtek88x2bu => "88x2bu"
    case Realtek8188eu => "8188eu"
    case Ralink => "rt2800usb"
    case Intel => "iwlwifi"
    case Broadcom => "brcmfmac"
    case _ => "unknown"
  }

  /** Distinct types give distinct driver names, except that Unknown and
      Realtek8814au cannot be told apart. */
  lemma CardTypeStringsDistinct(a: WiFiCardType, b: WiFiCardType)
    ensures CardTypeToString(a) == CardTypeToString(b) <==>
            a == b || {a, b} <= {WiFiCardType.Unknown, Realtek8814au}
  {
  }

  /** The card type as a JSON value; `untabled` is what the library writes for a
      type missing from the table. */
  function CardTypeToJson(t: WiFiCardType, untabled: Json): (j: Json)
    ensures t != Realtek8812au ==> exists i :: 0 <= i < |CardTypeTags| && CardTypeTags[i] == (t, j)
    ensures t == WiFiCardType.Unknown ==> j == Null
    ensures t == Realtek8812au ==> j == untabled
  {
    CardTypeTagsListing(t);
    EnumToJson(CardTypeTags, t, untabled)
  }

  /** A JSON value read as a card type; `untabled` is what the library yields for a
      value missing from the table. */
  function CardTypeFromJson(j: Json, untabled: WiFiCardType): (t: WiFiCardType)
    ensures j == Null ==> t == WiFiCardType.Unknown
    ensures j == Str("Realtek8188eu") ==> t == Realtek8188eu
    ensures j !in CardTypeTagValues() ==> t == untabled
  {
    EnumFromJson(CardTypeTags, j, untabled)
  }

  /** The JSON values the card-type table uses. */
  function CardTypeTagValues(): (vs: set<Json>)
    ensures forall i :: 0 <= i < |CardTypeTags| ==> CardTypeTags[i].1 in vs
  {
    set i | 0 <= i < |CardTypeTags| :: CardTypeTags[i].1
  }

  /** Every card type except Realtek8812au has a tag, the table never gives one
      tag two types, and the duplicate Realtek8188eu entries carry the same tag. */
  lemma CardTypeTagsListing(t: WiFiCardType)
    ensures Tabled(CardTypeTags, t) <==> t != Realtek8812au
    ensures TagsAgree(CardTypeTags)
    ensures CardTypeTags[1] == CardTypeTags[4]
  {
    match t
    case Unknown => assert CardTypeTags[0].0 == t;
    case Realtek8812au =>
    case Realtek8814au => assert CardTypeTags[2].0 == t;
    case Realtek88x2bu => assert CardTypeTags[3].0 == t;
    case Realtek8188eu => assert CardTypeTags[1].0 == t;
    case Atheros9khtc => assert CardTypeTags[5].0 == t;
    case Atheros9k => assert CardTypeTags[6].0 == t;
    case Ralink => assert CardTypeTags[7].0 == t;
    case Intel => assert CardTypeTags[8].0 == t;
    case Broadcom => assert CardTypeTags[9].0 == t;
  }

  /** A listed card type is written as its own name (Unknown as null) and read back
      as itself. */
  lemma CardTypeJsonRoundTrip(t: WiFiCardType, untabledJson: Json, untabledType: WiFiCardType)
    requires t != Realtek8812au
    ensures CardTypeFromJson(CardTypeToJson(t, untabledJson), untabledType) == t
  {
    CardTypeTagsListing(t);
    EnumRoundTrip(CardTypeTags, t, untabledJson, untabledType);
  }

  // ---------------------------------------------------------------------------
  // Hotspot types
  // ---------------------------------------------------------------------------

  /** How a hotspot is provided. */
  datatype WiFiHotspotType =
    | None
    | Internal2GBand
    | Internal5GBand
    | InternalDualBand
    | External

  function HotspotTypeToString(t: WiFiHotspotType): (s: string)
    ensures |s| > 0
    ensures s == "none" <==> t == WiFiHotspotType.None
  {
    match t
    case Internal2GBand => "internal2g"
    case Internal5GBand => "internal5g"
    case InternalDualBand => "internaldualband"
    case External => "external"
    case None => "none"
  }

  /** Distinct hotspot types give distinct names. */
  lemma HotspotTypeStringsDistinct(a: WiFiHotspotType, b: WiFiHotspotType)
    ensures HotspotTypeToString(a) == HotspotTypeToString(b) <==> a == b
  {
  }

  // ---------------------------------------------------------------------------
  // What a card is used for
  // ---------------------------------------------------------------------------

  /** What a card is used for; Unknown means it is not used at all. */
  datatype WifiUseFor =
    | Unknown
    | MonitorMode
    | Hotspot

  /** The JSON tag table of the usage, as written. */
  const UseForTags: seq<(WifiUseFor, Json)> := [
    (WifiUseFor.Unknown, Null),
    (MonitorMode, Str("MonitorMode")),
    (Hotspot, Str("Hotspot"))
  ]

  function UseForToString(u: WifiUseFor): (s: string)
    ensures |s| > 0
    ensures s == "unknown" <==> u == WifiUseFor.Unknown
  {
    match u
    case Hotspot => "hotspot"
    case MonitorMode => "monitor_mode"
    case Unknown => "unknown"
  }

  /** Distinct usages give distinct names. */
  lemma UseForStringsDistinct(a: WifiUseFor, b: WifiUseFor)
    ensures UseForToString(a) == UseForToString(b) <==> a == b
  {
  }

  /** Every usage is listed, so the library's fallback is never needed to write one. */
  function UseForToJson(u: WifiUseFor): (j: Json)
    ensures u == WifiUseFor.Unknown <==> j == Null
    ensures u == MonitorMode <==> j == Str("MonitorMode")
    ensures u == Hotspot <==> j == Str("Hotspot")
  {
    UseForTagsListing(u);
    EnumToJson(UseForTags, u, Null)
  }

  /** A JSON value read as a usage; `untabled` is what the library yields for a value
      missing from the table. */
  function UseForFromJson(j: Json, untabled: WifiUseFor): (u: WifiUseFor)
    ensures j == Null ==> u == WifiUseFor.Unknown
    ensures j == Str("MonitorMode") ==> u == MonitorMode
    ensures j == Str("Hotspot") ==> u == Hotspot
    ensures j != Null && j != Str("MonitorMode") && j != Str("Hotspot") ==> u == untabled
  {
    EnumFromJson(UseForTags, j, untabled)
  }

  /** Every usage has a tag, and no two usages share one. */
  lemma UseForTagsListing(u: WifiUseFor)
    ensures Tabled(UseForTags, u) && TagsAgree(UseForTags)
  {
    match u
    case Unknown => assert UseForTags[0].0 == u;
    case MonitorMode => assert UseForTags[1].0 == u;
    case Hotspot => assert UseForTags[2].0 == u;
  }

  /** Reading back a written usage gives that usage. */
  lemma UseForJsonRoundTrip(u: WifiUseFor, untabled: WifiUseFor)
    ensures UseForFromJson(UseForToJson(u), untabled) == u
  {
    UseForTagsListing(u);
    EnumRoundTrip(UseForTags, u, Null, untabled);
  }

  // ---------------------------------------------------------------------------
  // Settings
  // ---------------------------------------------------------------------------

  /** The transmit power a card gets until someone sets another. */
  const DefaultWifiTxPower: string := "3100"

  /** The per-card settings that may change at run time. */
  datatype WifiCardSettings = WifiCardSettings(
    useFor: WifiUseFor,
    frequency: string,
    txPower: string)

  /** The settings of a card nobody has configured yet. */
  const DefaultSettings: WifiCardSettings :=
    WifiCardSettings(WifiUseFor.Unknown, "", DefaultWifiTxPower)

  /** Settings as a JSON object with the members use_for, frequency and txpower. */
  function EncodeSettings(s: WifiCardSettings): (j: Json)
    ensures j.Object? && j.fields.Keys == {"use_for", "frequency", "txpower"}
    ensures j.fields["frequency"].Str? && j.fields["txpower"].Str?
  {
    Object(map[
      "use_for" := UseForToJson(s.useFor),
      "frequency" := Str(s.frequency),
      "txpower" := Str(s.txPower)])
  }

  /** A JSON document read as settings: it must be an object with the three members,
      frequency and txpower strings; any value of use_for is accepted. */
  function DecodeSettings(j: Json, untabledUse: WifiUseFor): (r: Result<WifiCardSettings, JsonError>)
    ensures r.Success? <==>
      && j.Object? && "use_for" in j.fields
      && "frequency" in j.fields && j.fields["frequency"].Str?
      && "txpower" in j.fields && j.fields["txpower"].Str?
    ensures r.Success? ==>
      && r.value.useFor == UseForFromJson(j.fields["use_for"], untabledUse)
      && Str(r.value.frequency) == j.fields["frequency"]
      && Str(r.value.txPower) == j.fields["txpower"]
    ensures !j.Object? ==> r == Failure(TypeError)
  {
    var u :- At(j, "use_for");
    var f :- At(j, "frequency");
    var frequency :- GetString(f);
    var p :- At(j, "txpower");
    var txPower :- GetString(p);
    Success(WifiCardSettings(UseForFromJson(u, untabledUse), frequency, txPower))
  }

  /** Settings written as JSON read back as the same settings. */
  lemma SettingsRoundTrip(s: WifiCardSettings, untabledUse: WifiUseFor)
    ensures DecodeSettings(EncodeSettings(s), untabledUse) == Success(s)
  {
    UseForJsonRoundTrip(s.useFor, untabledUse);
  }

  /** The document first written for an unconfigured card. */
  lemma DefaultSettingsDocument()
    ensures DefaultSettings.useFor == WifiUseFor.Unknown
    ensures DefaultSettings.frequency == "" && DefaultSettings.txPower == "3100"
    ensures EncodeSettings(DefaultSettings)
         == Object(map["use_for" := Null, "frequency" := Str(""), "txpower" := Str("3100")])
  {
  }

  // ---------------------------------------------------------------------------
  // Cards
  // ---------------------------------------------------------------------------

  /** One detected card: what discovery found out about it and its settings. */
  datatype WiFiCard = WiFiCard(
    driverName: string,
    cardType: WiFiCardType,
    interfaceName: string,
    mac: string,
    supports5Ghz: bool,
    supports2Ghz: bool,
    supportsInjection: bool,
    supportsHotspot: bool,
    supportsRts: bool,
    settings: WifiCardSettings)

  /** The names of the members a card is written with. */
  const CardKeys: set<string> := {
    "driver_name", "type", "interface_name", "mac", "supports_5ghz", "supports_2ghz",
    "supports_injection", "supports_hotspot", "supports_rts", "settings"}

  /** A card as a JSON object, one member per field; `untabledType` is what the
      library writes for a card type missing from the table. */
  function EncodeCard(c: WiFiCard, untabledType: Json): (j: Json)
    ensures j.Object? && j.fields.Keys == CardKeys
    ensures j.fields["settings"] == EncodeSettings(c.settings)
  {
    Object(map[
      "driver_name" := Str(c.driverName),
      "type" := CardTypeToJson(c.cardType, untabledType),
      "interface_name" := Str(c.interfaceName),
      "mac" := Str(c.mac),
      "supports_5ghz" := Bool(c.supports5Ghz),
      "supports_2ghz" := Bool(c.supports2Ghz),
      "supports_injection" := Bool(c.supportsInjection),
      "supports_hotspot" := Bool(c.supportsHotspot),
      "supports_rts" := Bool(c.supportsRts),
      "settings" := EncodeSettings(c.settings)])
  }

  /** A JSON document read as a card, member by member in declaration order; the
      first member that is missing or of the wrong type is the error. */
  function DecodeCard(j: Json, untabledType: WiFiCardType, untabledUse: WifiUseFor)
    : (r: Result<WiFiCard, JsonError>)
    ensures r.Success? <==>
      && j.Object? && CardKeys <= j.fields.Keys
      && j.fields["driver_name"].Str? && j.fields["interface_name"].Str? && j.fields["mac"].Str?
      && j.fields["supports_5ghz"].Bool? && j.fields["supports_2ghz"].Bool?
      && j.fields["supports_injection"].Bool? && j.fields["supports_hotspot"].Bool?
      && j.fields["supports_rts"].Bool?
      && DecodeSettings(j.fields["settings"], untabledUse).Success?
    ensures r.Success? ==>
      && Str(r.value.driverName) == j.fields["driver_name"]
      && r.value.cardType == CardTypeFromJson(j.fields["type"], untabledType)
      && Str(r.value.interfaceName) == j.fields["interface_name"]
      && Str(r.value.mac) == j.fields["mac"]
      && Bool(r.value.supports5Ghz) == j.fields["supports_5ghz"]
      && Bool(r.value.supports2Ghz) == j.fields["supports_2ghz"]
      && Bool(r.value.supportsInjection) == j.fields["supports_injection"]
      && Bool(r.value.supportsHotspot) == j.fields["supports_hotspot"]
      && Bool(r.value.supportsRts) == j.fields["supports_rts"]
      && DecodeSettings(j.fields["settings"], untabledUse) == Success(r.value.settings)
    ensures !j.Object? ==> r == Failure(TypeError)
  {
    var d :- At(j, "driver_name");
    var driverName :- GetString(d);
    var t :- At(j, "type");
    var i :- At(j, "interface_name");
    var interfaceName :- GetString(i);
    var m :- At(j, "mac");
    var mac :- GetString(m);
    var f5 :- At(j, "supports_5ghz");
    var supports5Ghz :- GetBool(f5);
    var f2 :- At(j, "supports_2ghz");
    var supports2Ghz :- GetBool(f2);
    var fi :- At(j, "supports_injection");
    var supportsInjection :- GetBool(fi);
    var fh :- At(j, "supports_hotspot");
    var supportsHotspot :- GetBool(fh);
    var fr :- At(j, "supports_rts");
    var supportsRts :- GetBool(fr);
    var s :- At(j, "settings");
    var settings :- DecodeSettings(s, untabledUse);
    Success(WiFiCard(driverName, CardTypeFromJson(t, untabledType), interfaceName, mac,
                     supports5Ghz, supports2Ghz, supportsInjection, supportsHotspot,
                     supportsRts, settings))
  }

  /** Every member of a written card reads back unchanged except the type, which
      reads back as whatever its tag reads back as. */
  lemma DecodeEncodedCard(c: WiFiCard, untabledJson: Json, untabledType: WiFiCardType,
                          untabledUse: WifiUseFor)
    ensures DecodeCard(EncodeCard(c, untabledJson), untabledType, untabledUse)
         == Success(c.(cardType := CardTypeFromJson(CardTypeToJson(c.cardType, untabledJson), untabledType)))
  {
    var j := EncodeCard(c, untabledJson);
    assert At(j, "driver_name") == Success(Str(c.driverName));
    assert At(j, "type") == Success(CardTypeToJson(c.cardType, untabledJson));
    assert At(j, "interface_name") == Success(Str(c.interfaceName));
    assert At(j, "mac") == Success(Str(c.mac));
    assert At(j, "supports_5ghz") == Success(Bool(c.supports5Ghz));
    assert At(j, "supports_2ghz") == Success(Bool(c.supports2Ghz));
    assert At(j, "supports_injection") == Success(Bool(c.supportsInjection));
    assert At(j, "supports_hotspot") == Success(Bool(c.supportsHotspot));
    assert At(j, "supports_rts") == Success(Bool(c.supportsRts));
    assert At(j, "settings") == Success(EncodeSettings(c.settings));
    SettingsRoundTrip(c.settings, untabledUse);
  }

  /** A card of a listed type written as JSON reads back as the same card. */
  lemma CardRoundTrip(c: WiFiCard, untabledJson: Json, untabledType: WiFiCardType,
                      untabledUse: WifiUseFor)
    requires c.cardType != Realtek8812au
    ensures DecodeCard(EncodeCard(c, untabledJson), untabledType, untabledUse) == Success(c)
  {
    CardTypeJsonRoundTrip(c.cardType, untabledJson, untabledType);
    DecodeEncodedCard(c, untabledJson, untabledType, untabledUse);
  }

  /** A Realtek8812au card is written with whatever the library picks for an unlisted
      type, so its type cannot be recovered from the JSON; everything else can. */
  lemma Realtek8812auCardRoundTrip(c: WiFiCard, untabledJson: Json, untabledType: WiFiCardType,
                                   untabledUse: WifiUseFor)
    requires c.cardType == Realtek8812au
    ensures EncodeCard(c, untabledJson).fields["type"] == untabledJson
    ensures DecodeCard(EncodeCard(c, untabledJson), untabledType, untabledUse)
         == Success(c.(cardType := CardTypeFromJson(untabledJson, untabledType)))
  {
    var t := CardTypeToJson(c.cardType, untabledJson);
    assert t == untabledJson;
    assert EncodeCard(c, untabledJson).fields["type"] == t;
    DecodeEncodedCard(c, untabledJson, untabledType, untabledUse);
  }
}
