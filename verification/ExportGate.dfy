/** The export gate: staging copies a guest file into quarantine, releasing copies it out again. */
module ExportGate {
  import opened Basics
  import opened Schema
  import opened Policy
  import opened Paths
  import opened Governance
  import opened Files

  /** What staging finds at the source: the digest and size of its bytes, if it is a regular file. */
  function CopyOf<S>(h: Hash<S>, files: map<Path, Content>, exports: Path, source: string): Option<Copy> {
    match ResolveSource(exports, source)
    case Err(_) => None
    case Ok(host) => if host in files then Some(Copy(Digest(h, files[host]), |files[host]|)) else None
  }

  /** What an export call draws: its fresh ids, and the copy of its source. */
  function DraftFor<S>(
    h: Hash<S>, s: Tables, files: map<Path, Content>, lab: Id, source: string, exportId: Id, approvalId: Id)
    : ExportDraft
  {
    var copy := if lab in s.storage then CopyOf(h, files, s.storage[lab].exports, source) else None;
    ExportDraft(exportId, approvalId, copy)
  }

  /** The host file that an export call copies, if it gets past every check before the copy. */
  function Staging(c: Config, s: Tables, files: map<Path, Content>, lab: Id, source: string, run: Option<Id>)
    : (host: Option<Path>)
    ensures host.Some? ==> lab in s.storage && host.value in files
  {
    if lab !in s.labs || lab !in s.storage || RunError(s, lab, run).Some? then None
    else if s.labs[lab].profile !in c.profiles then None
    else if !ValidateExport(c.profiles[s.labs[lab].profile], source).allowed then None
    else
      match ResolveSource(s.storage[lab].exports, source)
      case Err(_) => None
      case Ok(host) => if host == [] || host !in files then None else Some(host)
  }

  /** The disk after an export call. The copy is made before the rows are written, so it stays if that fails. */
  function StagedFiles(
    c: Config, s: Tables, files: map<Path, Content>, lab: Id, source: string, run: Option<Id>, exportId: Id)
    : map<Path, Content>
  {
    match Staging(c, s, files, lab, source, run)
    case None => files
    case Some(host) => files[QuarantinePath(s.storage[lab], exportId, host) := files[host]]
  }

  /** The disk after a release call. */
  function ReleasedFiles(s: Tables, files: map<Path, Content>, id: Id): map<Path, Content> {
    if id in s.exports && s.exports[id].lab in s.storage && s.exports[id].quarantinePath in files
       && ReleaseError(s.exports[id], true).None?
    then files[ReleasedPath(s.storage[s.exports[id].lab], id, s.exports[id]) := files[s.exports[id].quarantinePath]]
    else files
  }

  function QuarantinePath(st: Storage, exportId: Id, host: Path): Path {
    st.quarantine + [Label(exportId), Name(host)]
  }

  datatype Staged = Staged(quarantinePath: Path, approvalRequired: bool, sha256: string, size: nat)

  class ExportGate<!S> {
    const hash: Hash<S>

    constructor (hash: Hash<S>)
      ensures this.hash == hash
    {
      this.hash := hash;
    }

    /** Copies the source into the export's own quarantine directory, or refuses and leaves the disk alone. */
    method StageExport(disk: Disk, exportId: Id, profile: Profile, storage: Storage, source: string)
      returns (r: Result<Staged, Error>)
      modifies disk
      ensures var error :=
          GateError(profile, storage.exports, source,
                    ExportDraft(exportId, 0, CopyOf(hash, old(disk.files), storage.exports, source)));
        if error.Some? then r == Err(error.value) && disk.files == old(disk.files)
        else
          && ResolveSource(storage.exports, source).Ok?
          && var host := ResolveSource(storage.exports, source).value;
          && host in old(disk.files)
          && var path, data := QuarantinePath(storage, exportId, host), old(disk.files)[host];
          && disk.files == old(disk.files)[path := data]
          && r == Ok(Staged(path, ValidateExport(profile, source).approvalRequired, Digest(hash, data), |data|))
    {
      var decision := ValidateExport(profile, source);
      if !decision.allowed {
        return Err(PolicyDenied);
      }
      var resolved := ResolveSource(storage.exports, source);
      if resolved.Err? {
        return Err(if resolved.error.NotGuestPath? then NotAGuestExportPath else PathEscapes);
      }
      var host := resolved.value;
      if host == [] || host !in disk.files {
        return Err(ExportSourceMissing);
      }
      var path := QuarantinePath(storage, exportId, host);
      disk.Copy(host, path);
      var digest := HashFile(hash, disk.files[path]);
      r := Ok(Staged(path, decision.approvalRequired, digest, |disk.files[path]|));
    }

    /** Copies the quarantined bytes to the lab's released directory, or refuses and leaves the disk alone. */
    method ReleaseExport(disk: Disk, id: Id, row: Export, storage: Storage) returns (r: Result<Path, Error>)
      modifies disk
      ensures var error := ReleaseError(row, row.quarantinePath in old(disk.files));
        if error.Some? then r == Err(error.value) && disk.files == old(disk.files)
        else
          && row.quarantinePath in old(disk.files)
          && r == Ok(ReleasedPath(storage, id, row))
          && disk.files == old(disk.files)[ReleasedPath(storage, id, row) := old(disk.files)[row.quarantinePath]]
    {
      if row.state.Rejected? {
        return Err(ExportAlreadyRejected);
      }
      if row.state.Released? {
        return Err(ExportAlreadyReleased);
      }
      if row.approvalRequired {
        return Err(ExportNeedsApproval);
      }
      if row.quarantinePath !in disk.files {
        return Err(ExportSourceMissing);
      }
      var released := ReleasedPath(storage, id, row);
      disk.Copy(row.quarantinePath, released);
      r := Ok(released);
    }
  }
}
