/** Saving a configuration: three credential slots, a file, the manager's memory and the
    supervised daemon change together or not at all, unless a rollback itself fails. Which accesses
    fail, and what a failed one leaves behind, is a parameter. */
module ConfigTransaction {
  import opened Common
  import opened AppConfig
  import opened Supervisor

  datatype Slot = Cloud | Backup | Transcription

  function SlotOf(k: Keys, slot: Slot): Option<string> {
    match slot case Cloud => k.cloud case Backup => k.backup case Transcription => k.transcription
  }

  function WithSlot(k: Keys, slot: Slot, v: Option<string>): Keys {
    match slot
    case Cloud => k.(cloud := v)
    case Backup => k.(backup := v)
    case Transcription => k.(transcription := v)
  }

  /** How one write to the credential store goes; a failed one may leave anything in its slot. */
  datatype Access = Works | Fails(leaves: Option<string>)

  /** How replacing the file goes; every step before the rename may fail, also half-way. */
  datatype Fate = Replaced | NotCreated | NotWritten(removed: bool) | NotRenamed(removed: bool)

  /** The outcomes of all accesses of one update: three reads, three writes, the file, and three
      writes to undo the first ones. */
  datatype Faults = Faults(
    readable: bool, cloud: Access, backup: Access, transcription: Access, file: Fate,
    undoCloud: Access, undoBackup: Access, undoTranscription: Access)

  /** Everything that an update writes works. */
  predicate Written(f: Faults) { f.cloud.Works? && f.backup.Works? && f.transcription.Works? && f.file.Replaced? }

  predicate Undone(f: Faults) { f.undoCloud.Works? && f.undoBackup.Works? && f.undoTranscription.Works? }

  /** The operating system's credential store. */
  class SecretStore {
    var keys: Keys

    constructor (keys: Keys)
      ensures this.keys == keys
    {
      this.keys := keys;
    }

    method Get(slot: Slot, works: bool) returns (r: Result<Option<string>, ()>)
      ensures r == if works then Ok(SlotOf(keys, slot)) else Err(())
    {
      r := if works then Ok(SlotOf(keys, slot)) else Err(());
    }

    method Put(slot: Slot, value: Option<string>, access: Access) returns (ok: bool)
      modifies this
      ensures ok == access.Works?
      ensures keys == WithSlot(old(keys), slot, if access.Works? then value else access.leaves)
    {
      keys := WithSlot(keys, slot, if access.Works? then value else access.leaves);
      ok := access.Works?;
    }
  }

  /** The configuration file with its atomic replacement through a temporary file of a new name.
      `leftovers` are temporary files that stayed behind, complete or not. */
  class ConfigFile {
    var content: Option<Config>
    var leftovers: seq<Option<Config>>

    constructor (content: Option<Config>)
      ensures this.content == content && leftovers == []
    {
      this.content, leftovers := content, [];
    }

    /** The target changes only by the rename; removing the temporary file is only attempted. */
    method AtomicWrite(c: Config, fate: Fate) returns (ok: bool)
      modifies this
      ensures ok == fate.Replaced?
      ensures content == if fate.Replaced? then Some(c) else old(content)
      ensures leftovers == old(leftovers)
                           + (if fate.NotWritten? && !fate.removed then [None]
                              else if fate.NotRenamed? && !fate.removed then [Some(c)] else [])
    {
      if fate.NotCreated? { return false; }
      var temporary: Option<Config> := None;
      ok := !fate.NotWritten?;
      if ok { temporary := Some(c); }
      if ok && fate.NotRenamed? { ok := false; }
      if ok {
        content := temporary;
      } else if !fate.removed {
        leftovers := leftovers + [temporary];
      }
    }
  }

  datatype SaveError = Invalid | Unreadable | Failed | CredentialRollbackFailed | SyncFailed | SettingsRollbackFailed

  type Outcome = Result<Config, SaveError>

  class ConfigManager {
    const store: SecretStore
    const file: ConfigFile
    const acceptable: Config -> bool
    var config: Config

    constructor (store: SecretStore, file: ConfigFile, acceptable: Config -> bool, config: Config)
      ensures this.store == store && this.file == file && this.acceptable == acceptable && this.config == config
    {
      this.store, this.file, this.acceptable, this.config := store, file, acceptable, config;
    }

    /** Slots, file and memory all belong to configuration `c`. */
    ghost predicate Agrees(c: Config)
      reads this, store, file
    {
      store.keys == KeysOf(c) && file.content == Some(FileOf(c)) && config == c
    }

    /** Stops at the first access that fails. */
    method WriteAll(c: Config, f: Faults) returns (ok: bool)
      modifies store, file
      ensures ok == Written(f)
      ensures ok ==> store.keys == KeysOf(c) && file.content == Some(FileOf(c))
      ensures !ok ==> file.content == old(file.content)
    {
      ok := store.Put(Cloud, KeysOf(c).cloud, f.cloud);
      if !ok { return; }
      ok := store.Put(Backup, KeysOf(c).backup, f.backup);
      if !ok { return; }
      ok := store.Put(Transcription, KeysOf(c).transcription, f.transcription);
      if !ok { return; }
      ok := file.AtomicWrite(FileOf(c), f.file);
    }

    /** All three slots are put back, also when putting back an earlier one failed. */
    method Restore(k: Keys, f: Faults) returns (ok: bool)
      modifies store
      ensures ok == Undone(f)
      ensures ok ==> store.keys == k
    {
      var a := store.Put(Cloud, k.cloud, f.undoCloud);
      var b := store.Put(Backup, k.backup, f.undoBackup);
      var c := store.Put(Transcription, k.transcription, f.undoTranscription);
      ok := a && b && c;
    }

    /** What an update reports: its first problem, and whether putting things right failed too. */
    ghost function Reported(c: Config, f: Faults): Outcome {
      if !acceptable(c) then Err(Invalid)
      else if !f.readable then Err(Unreadable)
      else if Written(f) then Ok(c)
      else Err(if Undone(f) then Failed else CredentialRollbackFailed)
    }

    method UpdateConfig(c: Config, f: Faults) returns (r: Outcome)
      modifies this, store, file
      ensures r.Ok? <==> acceptable(c) && f.readable && Written(f)
      ensures r == Reported(c, f)
      ensures r.Ok? ==> Agrees(c)
      ensures r.Ok? ==> file.content.Some? && file.content.value.cloudKey == "" && file.content.value.transcriptionKey == ""
                        && (file.content.value.backup.Some? ==> file.content.value.backup.value == "")
      ensures r.Err? ==> config == old(config) && file.content == old(file.content)
      ensures r.Err? && r.error != CredentialRollbackFailed ==> store.keys == old(store.keys)
    {
      if !acceptable(c) { return Err(Invalid); }
      var cloud := store.Get(Cloud, f.readable);
      if cloud.Err? { return Err(Unreadable); }
      var backup := store.Get(Backup, f.readable);
      if backup.Err? { return Err(Unreadable); }
      var transcription := store.Get(Transcription, f.readable);
      if transcription.Err? { return Err(Unreadable); }
      var ok := WriteAll(c, f);
      if !ok {
        var restored := Restore(Keys(cloud.value, backup.value, transcription.value), f);
        return Err(if restored then Failed else CredentialRollbackFailed);
      }
      config := c;
      return Ok(c);
    }
  }

  /** The supervisor committed `c`, and a current daemon acknowledged exactly that. */
  ghost predicate Supervises(client: SupervisedClient?, c: Config)
    reads client
  {
    client != null ==>
      && client.config == c
      && (client.client.Some? ==>
            client.client.value in client.acked && client.acked[client.client.value] == (c, client.revision))
  }

  /** One save, with whatever the daemon answers; `undo` is how going back goes if it refuses.
      Starting from agreement on `before`, success means that every layer has the new configuration,
      and it comes exactly if everything works; every error except the two rollback failures means
      that every layer still has the old one. */
  method SaveTransaction(manager: ConfigManager, client: SupervisedClient?, c: Config, f: Faults,
                         ack: bool, exit: Exit, undo: Faults, ghost before: Config)
    returns (r: Outcome)
    requires manager.Agrees(before) && Supervises(client, before)
    modifies manager, manager.store, manager.file, client
    ensures r.Ok? <==> manager.acceptable(c) && f.readable && Written(f)
                       && (client == null || old(client.client).None? || ack)
    ensures r.Ok? ==> r.value == c && manager.Agrees(c) && Supervises(client, c)
    ensures r.Err? && r.error != CredentialRollbackFailed && r.error != SettingsRollbackFailed
            ==> manager.Agrees(before) && Supervises(client, before)
    ensures var refused := client != null && old(client.client).Some? && !ack;
            r == if manager.Reported(c, f).Err? || !refused then manager.Reported(c, f)
                 else Err(if manager.Reported(before, undo).Ok? then SyncFailed else SettingsRollbackFailed)
    ensures r.Err? ==> Supervises(client, before)
    ensures client != null ==> client.revision == old(client.revision) + if r.Ok? then 1 else 0
  {
    var previous := manager.config;
    r := manager.UpdateConfig(c, f);
    if r.Err? { return r; }
    if client != null {
      var synced := client.UpdateConfigOn(c, ack, exit);
      if !synced {
        var undone := manager.UpdateConfig(previous, undo);
        if undone.Err? { return Err(SettingsRollbackFailed); }
        return Err(SyncFailed);
      }
    }
    return Ok(c);
  }
}
