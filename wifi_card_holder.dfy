/** The settings store of a wifi card: the settings of each card live in a file of
    their own, named after the card's type and MAC address so that they find the
    same card again after a reboot, whatever interface name it gets. Holding a
    card loads its settings, or writes the defaults when there are none yet. */
module WifiCardHolders {
  import opened Json
  import opened WifiCard

  /** What a file holds: a JSON document, or text that the JSON parser rejects. */
  datatype FileContent = Document(json: Json) | Unparseable

  /** The part of the host filesystem the settings live in: regular files by path
      and the set of directory paths. */
  class Filesystem {
    var files: map<string, FileContent>
    var directories: set<string>

    /** A file or a directory exists at `path`: a directory counts as existing too. */
    predicate Exists(path: string)
      reads this
      ensures Exists(path) <==> path in files || path in directories
    {
      path in files || path in directories
    }

    method CreateDirectory(path: string)
      modifies this
      ensures directories == old(directories) + {path}
      ensures files == old(files)
    {
      directories := directories + {path};
    }

    /** Replaces the whole content of the file at `path`, creating it if need be. */
    method WriteFile(path: string, content: FileContent)
      modifies this
      ensures files == old(files)[path := content]
      ensures directories == old(directories)
    {
      files := files[path := content];
    }
  }

  /** The directory holding one settings file per card, below the installation's base path. */
  function SettingsDirectory(basePath: string): (directory: string)
    ensures |directory| > |basePath| && directory[..|basePath|] == basePath
    ensures directory[|directory| - 1] == '/'
  {
    basePath + "interface/"
  }

  /** The key identifying a card across reboots: its driver name, an underscore and its
      MAC address, in that order (see `SameAdapterSameFile` and
      `UniqueFilenameIdentifiesAdapter` for what it tells apart). */
  function UniqueHash(card: WiFiCard): (key: string)
    ensures var typeName := CardTypeToString(card.cardType);
      && |key| == |typeName| + 1 + |card.mac|
      && key[..|typeName|] == typeName && key[|typeName|] == '_' && key[|typeName| + 1..] == card.mac
  {
    CardTypeToString(card.cardType) + "_" + card.mac
  }

  /** The file holding the settings of `card`. */
  function UniqueFilename(basePath: string, card: WiFiCard): (path: string)
    ensures |path| > |SettingsDirectory(basePath)|
    ensures path[..|SettingsDirectory(basePath)|] == SettingsDirectory(basePath)
  {
    SettingsDirectory(basePath) + UniqueHash(card)
  }

  /** Two records of the same adapter, differing in interface name, driver name,
      capabilities or settings, share one settings file. */
  lemma SameAdapterSameFile(basePath: string, c1: WiFiCard, c2: WiFiCard)
    requires c1.cardType == c2.cardType && c1.mac == c2.mac
    ensures UniqueFilename(basePath, c1) == UniqueFilename(basePath, c2)
    ensures UniqueFilename(basePath, c1)
         == basePath + "interface/" + CardTypeToString(c1.cardType) + "_" + c1.mac
  {
  }

  /** For MAC addresses without an underscore, two cards share a settings file exactly
      when they have the same MAC and types with the same driver name (Unknown and
      Realtek8814au both have "unknown"). */
  lemma {:induction false} UniqueFilenameIdentifiesAdapter(basePath: string, c1: WiFiCard, c2: WiFiCard)
    requires '_' !in c1.mac && '_' !in c2.mac
    ensures UniqueFilename(basePath, c1) == UniqueFilename(basePath, c2) <==>
            CardTypeToString(c1.cardType) == CardTypeToString(c2.cardType) && c1.mac == c2.mac
  {
    var t1, t2 := CardTypeToString(c1.cardType), CardTypeToString(c2.cardType);
    var k1, k2 := UniqueHash(c1), UniqueHash(c2);
    if UniqueFilename(basePath, c1) == UniqueFilename(basePath, c2) {
      var d := SettingsDirectory(basePath);
      assert k1 == UniqueFilename(basePath, c1)[|d|..] == k2;
      UnderscoreSplit(t1, c1.mac, t2, c2.mac);
    }
  }

  /** A string ending in "_" followed by a suffix free of underscores is split
      uniquely at that last underscore. */
  lemma {:induction false} UnderscoreSplit(p1: string, s1: string, p2: string, s2: string)
    requires '_' !in s1 && '_' !in s2
    requires p1 + "_" + s1 == p2 + "_" + s2
    ensures p1 == p2 && s1 == s2
  {
    var k1, k2 := p1 + "_" + s1, p2 + "_" + s2;
    assert k1[|p1|] == '_' && k2[|p2|] == '_';
    NoUnderscoreInSuffix(p1, s1);
    NoUnderscoreInSuffix(p2, s2);
    assert p1 == k1[..|p1|] == k2[..|p2|] == p2;
    assert s1 == k1[|p1| + 1..] == k2[|p2| + 1..] == s2;
  }

  /** In `p + "_" + s` with no underscore in `s`, no underscore follows position `|p|`. */
  lemma NoUnderscoreInSuffix(p: string, s: string)
    requires '_' !in s
    ensures forall j :: |p| < j < |p + "_" + s| ==> (p + "_" + s)[j] != '_'
  {
    forall j | |p| < j < |p + "_" + s|
      ensures (p + "_" + s)[j] != '_'
    {
      assert (p + "_" + s)[j] == s[j - |p| - 1];
    }
  }

  /** What reading the settings file `filename` yields: nothing when no such path
      exists, the decoded settings when it holds a settings document, and otherwise
      the exception the JSON library throws (a directory or unparseable text cannot
      be parsed; a document of the wrong shape cannot be converted). */
  function LastSettings(files: map<string, FileContent>, directories: set<string>,
                        filename: string, untabledUse: WifiUseFor)
    : (r: Result<Option<WifiCardSettings>, JsonError>)
    ensures r == Success(Option.None) <==> filename !in files && filename !in directories
    ensures r.Success? && r.value.Some? <==>
            filename in files && files[filename].Document? &&
            DecodeSettings(files[filename].json, untabledUse).Success?
    ensures r.Success? && r.value.Some? ==>
            DecodeSettings(files[filename].json, untabledUse) == Success(r.value.value)
  {
    if filename !in files && filename !in directories then Success(Option.None)
    else if filename !in files then Failure(ParseError)
    else match files[filename]
      case Unparseable => Failure(ParseError)
      case Document(j) =>
        var s :- DecodeSettings(j, untabledUse);
        Success(Some(s))
  }

  /** Settings persisted to a file are what a later read of that file yields. */
  lemma PersistThenRead(files: map<string, FileContent>, directories: set<string>,
                        filename: string, s: WifiCardSettings, untabledUse: WifiUseFor)
    ensures LastSettings(files[filename := Document(EncodeSettings(s))], directories,
                         filename, untabledUse) == Success(Some(s))
  {
    SettingsRoundTrip(s, untabledUse);
  }

  /** Writing one file, or creating another directory, does not change what reading
      a different settings file yields. */
  lemma ReadIgnoresOtherPaths(files: map<string, FileContent>, directories: set<string>,
                              filename: string, other: string, content: FileContent,
                              untabledUse: WifiUseFor)
    requires other != filename
    ensures LastSettings(files[other := content], directories, filename, untabledUse)
         == LastSettings(files, directories, filename, untabledUse)
    ensures LastSettings(files, directories + {other}, filename, untabledUse)
         == LastSettings(files, directories, filename, untabledUse)
  {
  }

  /** A detected card together with the settings that belong to it. The settings are
      fixed when the holder is made and read through the `settings` field. */
  class WifiCardHolder {
    const card: WiFiCard
    const basePath: string
    const settings: WifiCardSettings

    /** Stores the given parts. Holders are made only by `Create`, which takes the
        settings from the card's file or from the defaults; the source has no other
        constructor and forbids copying and moving a holder. */
    constructor Hold(card: WiFiCard, basePath: string, settings: WifiCardSettings)
      ensures this.card == card && this.basePath == basePath && this.settings == settings
    {
      this.card := card;
      this.basePath := basePath;
      this.settings := settings;
    }

    /** Overwrites this card's settings file with the held settings. */
    method PersistSettings(fs: Filesystem)
      modifies fs
      ensures fs.files == old(fs.files)[UniqueFilename(basePath, card) := Document(EncodeSettings(settings))]
      ensures fs.directories == old(fs.directories)
    {
      fs.WriteFile(UniqueFilename(basePath, card), Document(EncodeSettings(settings)));
    }

    /** Makes a holder for `card`: creates the settings directory if it does not exist,
        then takes the settings stored for the card, or, if there are none, the
        defaults, which it persists for the next boot. A stored file that cannot be
        read as settings is an error, and nothing is written then. */
    static method Create(card: WiFiCard, basePath: string, fs: Filesystem, untabledUse: WifiUseFor)
      returns (r: Result<WifiCardHolder, JsonError>)
      modifies fs
      ensures fs.directories == if old(fs.Exists(SettingsDirectory(basePath))) then old(fs.directories)
                                else old(fs.directories) + {SettingsDirectory(basePath)}
      ensures r.Success? ==>
        fresh(r.value) && r.value.card == card && r.value.basePath == basePath
      ensures var last := old(LastSettings(fs.files, fs.directories, UniqueFilename(basePath, card), untabledUse));
        last.Failure? ==> r == Failure(last.error) && fs.files == old(fs.files)
      ensures var last := old(LastSettings(fs.files, fs.directories, UniqueFilename(basePath, card), untabledUse));
        last.Success? && last.value.Some? ==>
          r.Success? && r.value.settings == last.value.value && fs.files == old(fs.files)
      ensures var filename := UniqueFilename(basePath, card);
        old(LastSettings(fs.files, fs.directories, filename, untabledUse)) == Success(Option.None) ==>
          r.Success? && r.value.settings == DefaultSettings &&
          fs.files == old(fs.files)[filename := Document(EncodeSettings(DefaultSettings))]
    {
      var directory := SettingsDirectory(basePath);
      if !fs.Exists(directory) {
        fs.CreateDirectory(directory);
      }
      var filename := UniqueFilename(basePath, card);
      ReadIgnoresOtherPaths(fs.files, old(fs.directories), filename, directory, Unparseable, untabledUse);
      var last := LastSettings(fs.files, fs.directories, filename, untabledUse);
      if last.Failure? {
        r := Failure(last.error);
      } else if last.value.Some? {
        var holder := new WifiCardHolder.Hold(card, basePath, last.value.value);
        r := Success(holder);
      } else {
        // no settings yet: create the defaults and persist them for the next boot
        var holder := new WifiCardHolder.Hold(card, basePath, DefaultSettings);
        holder.PersistSettings(fs);
        r := Success(holder);
      }
    }
  }

  /** Holding the same adapter twice, as two boots do, yields the same settings:
      the first boot of a new card writes the defaults, which the second boot reads
      back, even if the interface name changed in between. Only the first hold can
      write anything: the second finds the directory and the file in place. */
  method HoldAcrossReboots(c1: WiFiCard, c2: WiFiCard, basePath: string, fs: Filesystem,
                           untabledUse: WifiUseFor)
    returns (r1: Result<WifiCardHolder, JsonError>, r2: Result<WifiCardHolder, JsonError>)
    requires c1.cardType == c2.cardType && c1.mac == c2.mac
    modifies fs
    ensures r1.Success? <==> r2.Success?
    ensures r1.Failure? ==> r1.error == r2.error
    ensures r1.Success? ==> r2.value.settings == r1.value.settings
    ensures var filename := UniqueFilename(basePath, c1);
      old(filename !in fs.files && filename !in fs.directories) ==>
        r2.Success? && r2.value.settings == DefaultSettings
    ensures var filename := UniqueFilename(basePath, c1);
      fs.files == if old(LastSettings(fs.files, fs.directories, filename, untabledUse)) == Success(Option.None)
                  then old(fs.files)[filename := Document(EncodeSettings(DefaultSettings))]
                  else old(fs.files)
    ensures fs.directories == if old(fs.Exists(SettingsDirectory(basePath))) then old(fs.directories)
                              else old(fs.directories) + {SettingsDirectory(basePath)}
  {
    SameAdapterSameFile(basePath, c1, c2);
    var filename := UniqueFilename(basePath, c1);
    r1 := WifiCardHolder.Create(c1, basePath, fs, untabledUse);
    ghost var filesBetween := fs.files;
    ghost var directoriesBetween := fs.directories;
    if r1.Success? {
      PersistThenRead(old(fs.files), directoriesBetween, filename, r1.value.settings, untabledUse);
    }
    r2 := WifiCardHolder.Create(c2, basePath, fs, untabledUse);
  }
}
