/** Managed files: contents, a streaming hash over them, and a disk that copies them. */
module Files {
  import opened Basics

  newtype Byte = x: int | 0 <= x < 256

  type Content = seq<Byte>

  // ---------- hashing ----------

  /** Any hash that takes its input byte by byte: a start state, a step, and the digest of a state. */
  datatype Hash<!S> = Hash(init: S, absorb: (S, Byte) -> S, finish: S -> string)

  /** The state after `data`, from `st`. */
  function Absorb<S>(h: Hash<S>, st: S, data: Content): S {
    if data == [] then st else h.absorb(Absorb(h, st, data[..|data| - 1]), data[|data| - 1])
  }

  /** The digest of the whole content at once. */
  function Digest<S>(h: Hash<S>, data: Content): string { h.finish(Absorb(h, h.init, data)) }

  lemma {:induction false} AbsorbConcat<S>(h: Hash<S>, st: S, a: Content, b: Content)
    ensures Absorb(h, st, a + b) == Absorb(h, Absorb(h, st, a), b)
  {
    if b == [] {
      assert a + b == a;
    } else {
      var n := |b| - 1;
      assert (a + b)[..|a + b| - 1] == a + b[..n];
      AbsorbConcat(h, st, a, b[..n]);
    }
  }

  const CHUNK_SIZE: nat := 1024 * 1024

  /** Hashing a file chunk by chunk gives the digest of its whole content. */
  method HashFile<S>(hash: Hash<S>, data: Content) returns (digest: string)
    ensures digest == Digest(hash, data)
  {
    var state := hash.init;
    var read := 0;
    while true
      invariant 0 <= read <= |data|
      invariant state == Absorb(hash, hash.init, data[..read])
      decreases |data| - read
    {
      var upTo := if read + CHUNK_SIZE < |data| then read + CHUNK_SIZE else |data|;
      var chunk := data[read..upTo];
      if chunk == [] {
        break;
      }
      AbsorbConcat(hash, hash.init, data[..read], chunk);
      assert data[..read] + chunk == data[..upTo];
      state := Absorb(hash, state, chunk);
      read := upTo;
    }
    assert data[..read] == data;
    digest := hash.finish(state);
  }

  // ---------- the disk ----------

  /** Regular files by location. */
  class Disk {
    var files: map<Path, Content>

    constructor (files: map<Path, Content>)
      ensures this.files == files
    {
      this.files := files;
    }

    /** `copy2` of a regular file to a location that is not a directory. */
    method Copy(source: Path, target: Path)
      requires source in files
      modifies this
      ensures files == old(files)[target := old(files)[source]]
    {
      files := files[target := files[source]];
    }
  }
}
