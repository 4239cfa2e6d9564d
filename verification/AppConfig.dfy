/** The parts of the application configuration that saving treats differently: three credentials
    and everything else. */
module AppConfig {
  import opened Common

  /** `backup` is the backup endpoint's credential, if there is a backup endpoint; `rest` stands
      for every field that is written to the configuration file as it is. */
  datatype Config = Config(cloudKey: string, backup: Option<string>, transcriptionKey: string, rest: nat)

  /** The credential slots of the secret store. */
  datatype Keys = Keys(cloud: Option<string>, backup: Option<string>, transcription: Option<string>)

  predicate Blank(s: string) { forall i :: 0 <= i < |s| ==> IsSpace(s[i]) }

  /** The slots a saved configuration leaves behind. */
  function KeysOf(c: Config): Keys {
    Keys(if Blank(c.cloudKey) then None else Some(c.cloudKey),
         if c.backup.Some? && !Blank(c.backup.value) then c.backup else None,
         if c.transcriptionKey == "" then None else Some(c.transcriptionKey))
  }

  /** The file never contains a credential. */
  function FileOf(c: Config): Config {
    Config("", if c.backup.Some? then Some("") else None, "", c.rest)
  }

  function OrEmpty(k: Option<string>): string { if k.Some? then k.value else "" }

  /** What loading reads back: a credential missing from the file comes from its slot. */
  function Loaded(file: Config, keys: Keys): Config {
    Config(if Blank(file.cloudKey) then OrEmpty(keys.cloud) else file.cloudKey,
           if file.backup.Some? && Blank(file.backup.value) then Some(OrEmpty(keys.backup)) else file.backup,
           if file.transcriptionKey == "" then OrEmpty(keys.transcription) else file.transcriptionKey,
           file.rest)
  }

  /** A saved configuration is loaded back unchanged exactly when neither the cloud nor the
      backup credential consists of nothing but white space. */
  lemma LoadedIsSaved(c: Config)
    ensures Loaded(FileOf(c), KeysOf(c)) == c
            <==> (c.cloudKey == "" || !Blank(c.cloudKey))
                 && (c.backup.Some? ==> c.backup.value == "" || !Blank(c.backup.value))
  {
    assert Blank("");
  }

  /** The file holds no credential: two configurations that differ in nothing but credentials are
      written as the same file, and its credential fields are empty. */
  lemma FileHidesCredentials(c: Config, d: Config)
    requires c.rest == d.rest && (c.backup.Some? <==> d.backup.Some?)
    ensures FileOf(c) == FileOf(d)
    ensures FileOf(c).cloudKey == "" && FileOf(c).transcriptionKey == ""
    ensures FileOf(c).backup == if c.backup.Some? then Some("") else None
  {}

  /** Apart from the credentials the file holds the whole configuration. */
  lemma FileKeepsTheRest(c: Config, d: Config)
    ensures FileOf(c) == FileOf(d) <==> c.rest == d.rest && (c.backup.Some? <==> d.backup.Some?)
  {}

  /** Each slot holds exactly its own credential, or nothing if there is none worth keeping. */
  lemma SlotsHoldCredentials(c: Config)
    ensures KeysOf(c).cloud.Some? <==> exists i :: 0 <= i < |c.cloudKey| && !IsSpace(c.cloudKey[i])
    ensures KeysOf(c).cloud.Some? ==> KeysOf(c).cloud.value == c.cloudKey
    ensures KeysOf(c).backup.Some? <==> c.backup.Some? && exists i :: 0 <= i < |c.backup.value| && !IsSpace(c.backup.value[i])
    ensures KeysOf(c).backup.Some? ==> KeysOf(c).backup == c.backup
    ensures KeysOf(c).transcription.Some? <==> c.transcriptionKey != ""
    ensures KeysOf(c).transcription.Some? ==> KeysOf(c).transcription.value == c.transcriptionKey
  {}
}
