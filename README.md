# OpenHD wifi cards: identity, settings store and manifest

A Dafny model of the wifi-card core of OpenHD's interface service
(`OpenHD/ohd_interface/inc/openhd-wifi.hpp`). It covers four things:

- how a detected card is classified: chipset type, hotspot type and intended use, with
  their driver-name strings and their JSON tag tables;
- the card and settings records: `WiFiCard`, and `WifiCardSettings` with its defaults
  (use Unknown, empty frequency, transmit power `"3100"`);
- `WifiCardHolder`, which keeps each card's settings in a file of their own. The file is
  named `<settings dir><driver string>_<mac>`, so a card finds its settings again after a
  reboot even if its interface name changes. A holder loads that file, or writes the
  defaults there when no file exists yet;
- `wificards_to_json`, which builds the manifest of all cards, one array element per card,
  in input order.

Modules, one per file:

- `Json` (`json.dfy`): an abstract JSON tree and the operations of the JSON library that
  the source relies on. Member access (`at`) and the conversions to string and bool fail
  on the wrong input, as the library throws there. The enumeration tag tables never fail:
  for a value missing from a table they fall back to a value the library picks.
  `push_back` is only ever applied to null or an array.
- `WifiCard` (`wifi_card.dfy`): the enumerations and their tables, the records, and their
  JSON encoding and decoding.
- `WifiCardHolders` (`wifi_card_holder.dfy`): the filesystem as a `Filesystem` class, the
  identity key and file name, and the `WifiCardHolder` class.
- `WifiManifest` (`wifi_manifest.dfy`): the manifest builder.

Modelling choices:

- The filesystem is a `Filesystem` object. It holds a map from path to file content and a
  set of directory paths. A file holds either a JSON document or text that the parser
  rejects (`Unparseable`).
- The C++ constructor of `WifiCardHolder` can throw, so it becomes the static method
  `WifiCardHolder.Create`. `Create` returns `Failure(e)` where the source throws `e`. A
  settings file that exists but is malformed is an error, as in the source. It is never
  replaced by the defaults.
- The held settings are a `const` field. The source sets them once, in the constructor,
  and `get_settings` only returns them.
- The JSON tag tables are kept exactly as written. The card-type table lists
  `Realtek8188eu` twice and never lists `Realtek8812au`. `wifi_card_type_to_string` has no
  case for `Realtek8814au`, so that type falls to `"unknown"`, like `Unknown`. One
  consequence, stated in `CardTypeStringsDistinct` and `UniqueFilenameIdentifiesAdapter`:
  an `Unknown` card and a `Realtek8814au` card with the same MAC share one settings file.
- The JSON library picks some value when an enumerator is missing from its table, and
  some enumerator when a JSON value is. That choice belongs to the library. Every encoder
  and decoder therefore takes it as an `untabled…` parameter, and every property holds
  whatever that parameter is.
- `BASE_PATH` is defined outside this file, so it is the `basePath` parameter. The
  settings directory is `basePath + "interface/"`.

Three facts about the source that the model keeps:

- the intended-use enumerator for an unused card is `Unknown` (openhd-wifi.hpp:74);
- the settings member is named `use_for` (openhd-wifi.hpp:97, :103);
- a settings file that cannot be parsed or converted makes the constructor throw
  (openhd-wifi.hpp:180-181). `Create` returns this as `Failure`, and there is no reset to
  the defaults.

## Model

| member | source | states |
|---|---|---|
| `WifiCard.CardTypeToString` | OpenHD/ohd_interface/inc/openhd-wifi.hpp:38-50 | every card type has a non-empty driver string; it is "unknown" exactly for Unknown and Realtek8814au |
| `WifiCard.CardTypeStringsDistinct` | OpenHD/ohd_interface/inc/openhd-wifi.hpp:38-50 | two types have the same driver string iff they are equal or both in {Unknown, Realtek8814au} |
| `WifiCard.CardTypeToJson` | OpenHD/ohd_interface/inc/openhd-wifi.hpp:25-36 | a listed type is written as the tag of one of its table entries (Unknown as null); Realtek8812au, which is not listed, is written as the library's fallback |
| `WifiCard.CardTypeFromJson` | OpenHD/ohd_interface/inc/openhd-wifi.hpp:25-36 | null reads as Unknown, "Realtek8188eu" as Realtek8188eu, and a value outside the table as the library's fallback |
| `WifiCard.CardTypeTagsListing` | OpenHD/ohd_interface/inc/openhd-wifi.hpp:25-36 | the table lists every type except Realtek8812au, never gives one tag to two types, and its two Realtek8188eu entries are identical |
| `WifiCard.CardTypeJsonRoundTrip` | OpenHD/ohd_interface/inc/openhd-wifi.hpp:25-36 | every type except Realtek8812au reads back as itself after it is written |
| `WifiCard.HotspotTypeToString` | OpenHD/ohd_interface/inc/openhd-wifi.hpp:59-69 | every hotspot type has a non-empty name; it is "none" exactly for None |
| `WifiCard.HotspotTypeStringsDistinct` | OpenHD/ohd_interface/inc/openhd-wifi.hpp:59-69 | distinct hotspot types have distinct names, and equal types have equal names |
| `WifiCard.UseForToString` | OpenHD/ohd_interface/inc/openhd-wifi.hpp:83-91 | every use has a non-empty name; it is "unknown" exactly for Unknown |
| `WifiCard.UseForStringsDistinct` | OpenHD/ohd_interface/inc/openhd-wifi.hpp:83-91 | distinct uses have distinct names, and equal uses have equal names |
| `WifiCard.UseForToJson` | OpenHD/ohd_interface/inc/openhd-wifi.hpp:78-82 | Unknown is written as null, MonitorMode as "MonitorMode", Hotspot as "Hotspot", each in both directions |
| `WifiCard.UseForFromJson` | OpenHD/ohd_interface/inc/openhd-wifi.hpp:78-82 | null, "MonitorMode" and "Hotspot" read as Unknown, MonitorMode and Hotspot; any other value reads as the library's fallback |
| `WifiCard.UseForTagsListing` | OpenHD/ohd_interface/inc/openhd-wifi.hpp:78-82 | the use table lists every use and never gives one tag to two uses |
| `WifiCard.UseForJsonRoundTrip` | OpenHD/ohd_interface/inc/openhd-wifi.hpp:78-82 | every use reads back as itself after it is written |
| `WifiCard.EncodeSettings` | OpenHD/ohd_interface/inc/openhd-wifi.hpp:103 | settings are written as an object with exactly the members use_for, frequency and txpower; frequency and txpower are strings |
| `WifiCard.DecodeSettings` | OpenHD/ohd_interface/inc/openhd-wifi.hpp:103 | a document reads as settings iff it is an object with use_for, a string frequency and a string txpower; the fields then come from those members; a non-object is a type error |
| `WifiCard.SettingsRoundTrip` | OpenHD/ohd_interface/inc/openhd-wifi.hpp:95-103 | any settings value read back after it is written is the same value |
| `WifiCard.DefaultSettingsDocument` | OpenHD/ohd_interface/inc/openhd-wifi.hpp:93-102 | the defaults are use Unknown, frequency "" and txpower "3100", written as {use_for: null, frequency: "", txpower: "3100"} |
| `WifiCard.EncodeCard` | OpenHD/ohd_interface/inc/openhd-wifi.hpp:105-119 | a card is written as an object with exactly its ten member names; the settings member is the encoded settings |
| `WifiCard.DecodeCard` | OpenHD/ohd_interface/inc/openhd-wifi.hpp:118-119 | a document reads as a card iff it is an object holding all ten members, with string driver_name, interface_name and mac, boolean flags, and a settings member that reads as settings; every field then comes from its member (the type through the tag table); a non-object is a type error |
| `WifiCard.DecodeEncodedCard` | OpenHD/ohd_interface/inc/openhd-wifi.hpp:105-119 | a written card reads back with every field unchanged except the type, which reads back as its tag reads back |
| `WifiCard.CardRoundTrip` | OpenHD/ohd_interface/inc/openhd-wifi.hpp:105-119 | a card whose type is not Realtek8812au reads back unchanged after it is written |
| `WifiCard.Realtek8812auCardRoundTrip` | OpenHD/ohd_interface/inc/openhd-wifi.hpp:25-36 | a Realtek8812au card is written with the library's fallback as its type, so it reads back with whatever type that fallback reads as |
| `Json.At` | OpenHD/ohd_interface/inc/openhd-wifi.hpp:181 | member access succeeds iff the value is an object with that member; otherwise it is a missing-key error (object) or a type error (non-object) |
| `Json.GetString` | OpenHD/ohd_interface/inc/openhd-wifi.hpp:181 | only a JSON string converts to a string, and it converts to its own text |
| `Json.GetBool` | OpenHD/ohd_interface/inc/openhd-wifi.hpp:118-119 | only a JSON boolean converts to a bool, and it converts to its own value |
| `Json.PushBack` | OpenHD/ohd_interface/inc/openhd-wifi.hpp:190 | appending to null gives a one-element array; appending to an array keeps its elements and adds the new one last |
| `Json.EnumToJson` | OpenHD/ohd_interface/inc/openhd-wifi.hpp:25-36 | an enumerator is written as the tag of the first table entry naming it, or as the fallback if no entry names it |
| `Json.EnumFromJson` | OpenHD/ohd_interface/inc/openhd-wifi.hpp:78-82 | a JSON value reads as the enumerator of the first table entry carrying it, or as the fallback if no entry carries it |
| `Json.EnumRoundTrip` | OpenHD/ohd_interface/inc/openhd-wifi.hpp:25-36 | in a table that never gives one tag to two enumerators, every listed enumerator reads back as itself |
| `Json.EnumNotTabled` | OpenHD/ohd_interface/inc/openhd-wifi.hpp:25-36 | an enumerator missing from the table is written as the fallback |
| `WifiCardHolders.Filesystem.CreateDirectory` | OpenHD/ohd_interface/inc/openhd-wifi.hpp:129-131 | adds the directory and changes no file |
| `WifiCardHolders.Filesystem.WriteFile` | OpenHD/ohd_interface/inc/openhd-wifi.hpp:168-170 | replaces the whole content of one file, leaving every other file and every directory unchanged |
| `WifiCardHolders.Filesystem.Exists` | OpenHD/ohd_interface/inc/openhd-wifi.hpp:175 | a path exists iff a file or a directory is at it, so a directory at a settings path counts as existing |
| `WifiCardHolders.SettingsDirectory` | OpenHD/ohd_interface/inc/openhd-wifi.hpp:121 | the settings directory lies below the base path and ends in "/", so file names are appended to it directly |
| `WifiCardHolders.UniqueHash` | OpenHD/ohd_interface/inc/openhd-wifi.hpp:154-158 | the key is the name of the card type (as `CardTypeToString` gives it), then "_", then the MAC; `SameAdapterSameFile` and `UniqueFilenameIdentifiesAdapter` state which cards share it |
| `WifiCardHolders.UniqueFilename` | OpenHD/ohd_interface/inc/openhd-wifi.hpp:159-161 | the settings file lies inside the settings directory and is not the directory itself |
| `WifiCardHolders.SameAdapterSameFile` | OpenHD/ohd_interface/inc/openhd-wifi.hpp:154-161 | the file name is dir + driver string + "_" + MAC, so records with the same type and MAC share it whatever their interface name, driver name, flags or settings |
| `WifiCardHolders.UniqueFilenameIdentifiesAdapter` | OpenHD/ohd_interface/inc/openhd-wifi.hpp:154-161 | for MACs without "_", two cards share a settings file iff their driver strings and MACs are equal |
| `WifiCardHolders.LastSettings` | OpenHD/ohd_interface/inc/openhd-wifi.hpp:173-182 | reading yields nothing iff no such path exists, and settings iff the file holds a document that converts to settings (those settings); otherwise it is the library's exception |
| `WifiCardHolders.PersistThenRead` | OpenHD/ohd_interface/inc/openhd-wifi.hpp:163-182 | settings persisted to a file are exactly what a later read of that file yields |
| `WifiCardHolders.ReadIgnoresOtherPaths` | OpenHD/ohd_interface/inc/openhd-wifi.hpp:173-182 | writing another file, or creating another directory, does not change what reading this file yields |
| `WifiCardHolders.WifiCardHolder.Hold` | OpenHD/ohd_interface/inc/openhd-wifi.hpp:147-153 | a holder keeps the card, the base path and the settings it was given; only `Create` calls it, as the source has no other constructor and deletes copy and move |
| `WifiCardHolders.WifiCardHolder.PersistSettings` | OpenHD/ohd_interface/inc/openhd-wifi.hpp:163-171 | overwrites the card's settings file with the encoded held settings; nothing else changes |
| `WifiCardHolders.WifiCardHolder.Create` | OpenHD/ohd_interface/inc/openhd-wifi.hpp:128-142 | creates the settings directory only if nothing exists at that path; with a readable stored entry, holds exactly it and writes nothing; with none, holds the defaults and adds exactly that file with the defaults; with a malformed entry, fails with the library's error and writes nothing |
| `WifiCardHolders.HoldAcrossReboots` | OpenHD/ohd_interface/inc/openhd-wifi.hpp:128-142 | holding the same adapter twice (same type and MAC, any interface name) gives the same outcome and the same settings, the defaults if there was no file before; afterwards the files differ from before only by the defaults file when there was none, and the directories only by the settings directory when it was missing, so the second hold writes nothing |
| `WifiManifest.WifiCardsToJson` | OpenHD/ohd_interface/inc/openhd-wifi.hpp:186-193 | the result is null iff there are no cards; otherwise an array with one element per card, and element i is the encoding of card i |
| `WifiManifest.ManifestReadsBack` | OpenHD/ohd_interface/inc/openhd-wifi.hpp:186-193 | every manifest element whose card type is not Realtek8812au reads back as the card it was written from |

## Left out

- `openhd-system/src/main.cpp` is not part of this model. It starts processes, calls
  discovery code that is not part of this model, and writes manifest files.
- `OpenHD/ohd_telemetry/tests/test_joystick_reader.cpp` is not part of this model. It is a
  signal-driven polling loop around a joystick reader.
- `write_wificards_manifest` (openhd-wifi.hpp:197-202) is left out. It only writes the
  manifest document to `/tmp/wifi_manifest` as text.
- Text is left out. The model has no JSON text, no pretty-printing (`dump(4)`) and no
  parsing (`f >> j`). A file holds a JSON tree or text the parser rejects.
- Console logging (`std::cout`) is left out.
- Filesystem failures are not modelled: permissions, a full disk, a missing parent
  directory, a path that is a directory, or a torn write on overwrite. A write always
  replaces the whole file.
- `OHDFilesystemUtil::create_directory` is modelled as adding exactly the requested path.
  Parent directories are not modelled.
- The value the JSON library picks for an enumerator or tag missing from a table is not
  modelled. It is a parameter of every encoder and decoder.
- `BASE_PATH` comes from a header outside this model. It is a parameter.
- Mapping a raw driver name to a card type happens in discovery code that is not part of
  this model.
- The `assert(_settings)` checks in `get_settings` and `persist_settings` are not
  modelled, because the held settings are a field that is always set.
- `Json.PushBack` requires a null or array value. The library throws on any other value,
  and only null or an array ever reaches it here.
